/** `GameParticipant` (src/model/game/game.js): the participant's running
    credibility and followers, their histories and the submitted interactions. */
module Participant {
  import opened Results
  import opened JsonValues
  import opened GameEntities

  /** A submitted interaction with a post: the reactions to the post and, per
      comment, the reaction to it if any. The interaction store and its
      completion rule belong to the interactions module, which is not part of
      this model; game.js reads only `postReactions`. */
  datatype Interaction = Interaction(postReactions: seq<string>, commentReactions: seq<Option<string>>)

  function StringJson(s: string): Json {
    JStr(s)
  }

  function OptionalStringJson(s: Option<string>): Json {
    if s.Some? then JStr(s.value) else JNull
  }

  function StringFromJson(j: Json, index: nat): (r: Result<string>)
    ensures r.Success? <==> j.JStr?
  {
    AsString(Some(j), "Reaction")
  }

  function OptionalStringFromJson(j: Json, index: nat): (r: Result<Option<string>>)
    ensures r.Success? <==> j.JNull? || j.JStr?
  {
    AsNullableString(Some(j), "Reaction")
  }

  /** The interaction's JSON form. The real form is defined by the interactions
      module; this one keeps the same two lists. */
  function InteractionToJson(i: Interaction): Json {
    JObj(map[
      "postReactions" := JArr(EncodeAll(i.postReactions, StringJson)),
      "commentReactions" := JArr(EncodeAll(i.commentReactions, OptionalStringJson))])
  }

  function InteractionFromJson(j: Json, index: nat): (r: Result<Interaction>)
    ensures r.Success? ==> Field(j, "postReactions") == Some(JArr(EncodeAll(r.value.postReactions, StringJson)))
  {
    var post := Field(j, "postReactions");
    var comments := Field(j, "commentReactions");
    if post.None? || !post.value.JArr? || comments.None? || !comments.value.JArr? then TypeError("Interaction")
    else
      var postReactions :- DecodeAll(post.value.items, StringFromJson);
      var commentReactions :- DecodeAll(comments.value.items, OptionalStringFromJson);
      assert EncodeAll(postReactions, StringJson) == post.value.items;
      Success(Interaction(postReactions, commentReactions))
  }

  lemma InteractionRoundTrip(i: Interaction, index: nat)
    ensures InteractionFromJson(InteractionToJson(i), index) == Success(i)
  {
    DecodeEncodeAll(i.postReactions, StringJson, StringFromJson);
    DecodeEncodeAll(i.commentReactions, OptionalStringJson, OptionalStringFromJson);
  }

  /** `GamePostInteractionStore.toJSON` on the submitted interactions. */
  function InteractionsJson(interactions: seq<Interaction>): Json {
    JArr(EncodeAll(interactions, InteractionToJson))
  }

  /** `GamePostInteractionStore.fromJSON`. */
  function InteractionsFromJson(v: Option<Json>): (r: Result<seq<Interaction>>)
    ensures r.Success? ==> v.Some? && v.value.JArr? && |r.value| == |v.value.items|
  {
    if v.None? || !v.value.JArr? then TypeError("Participant's Interactions with Posts")
    else DecodeAll(v.value.items, InteractionFromJson)
  }

  /** The participant's ledger as a value: what the class's fields hold. */
  datatype ParticipantRecord = ParticipantRecord(
    participantID: Option<string>,
    credibility: real,
    followers: real,
    postInteractions: seq<Interaction>,
    credibilityHistory: seq<real>,
    followerHistory: seq<real>)
  {
    /** The histories hold the seed value plus one entry per submitted interaction. */
    predicate HistoriesParallel() {
      |credibilityHistory| == |followerHistory| == |postInteractions| + 1
    }

    /** `addReaction` on the value. */
    function AddReaction(interaction: Interaction, credibilityChange: real, followersChange: real): (r: ParticipantRecord)
      ensures r.participantID == participantID
      ensures r.postInteractions == postInteractions + [interaction]
      ensures r.credibility == AdjustCredibility(credibility, credibilityChange)
      ensures r.followers == AdjustFollowers(followers, followersChange)
      ensures r.credibilityHistory == credibilityHistory + [r.credibility]
      ensures r.followerHistory == followerHistory + [r.followers]
    {
      var newCredibility := AdjustCredibility(credibility, credibilityChange);
      var newFollowers := AdjustFollowers(followers, followersChange);
      ParticipantRecord(participantID, newCredibility, newFollowers, postInteractions + [interaction],
                        credibilityHistory + [newCredibility], followerHistory + [newFollowers])
    }

    /** `GameParticipant.toJSON`: the ID, the two numbers, the interactions and both histories. */
    function ToJson(): (r: Json)
      ensures r.JObj? && r.fields.Keys ==
                {"participantID", "credibility", "followers", "interactions", "credibilityHistory", "followerHistory"}
    {
      JObj(map[
        "participantID" := OptionalStringJson(participantID),
        "credibility" := JNum(credibility),
        "followers" := JNum(followers),
        "interactions" := InteractionsJson(postInteractions),
        "credibilityHistory" := NumberArrayJson(credibilityHistory),
        "followerHistory" := NumberArrayJson(followerHistory)])
    }

    /** `GameParticipant.fromJSON`: missing histories are seeded as the constructor does. */
    static function FromJson(j: Json): (r: Result<ParticipantRecord>)
      ensures r.Success? && IsNullish(Field(j, "credibilityHistory")) ==> r.value.credibilityHistory == [r.value.credibility]
      ensures r.Success? && IsNullish(Field(j, "followerHistory")) ==> r.value.followerHistory == [r.value.followers]
      ensures r.Success? ==> Field(j, "credibility") == Some(JNum(r.value.credibility))
    {
      var interactions :- InteractionsFromJson(Field(j, "interactions"));
      var participantID :- AsNullableString(Field(j, "participantID"), "Participant's ID");
      var credibility :- AsNumber(Field(j, "credibility"), "Participant's Credibility");
      var followers :- AsNumber(Field(j, "followers"), "Participant's Followers");
      var credibilityHistory :- AsNullableNumberArray(Field(j, "credibilityHistory"), "Participant's Credibility History");
      var followerHistory :- AsNullableNumberArray(Field(j, "followerHistory"), "Participant's Follower History");
      Success(NewRecord(participantID, credibility, followers, interactions, credibilityHistory, followerHistory))
    }
  }

  /** The constructor's defaults: absent histories start as `[credibility]` and `[followers]`. */
  function NewRecord(participantID: Option<string>, credibility: real, followers: real,
                     postInteractions: seq<Interaction>,
                     credibilityHistory: Option<seq<real>>, followerHistory: Option<seq<real>>): (r: ParticipantRecord)
    ensures credibilityHistory.None? ==> r.credibilityHistory == [credibility]
    ensures followerHistory.None? ==> r.followerHistory == [followers]
    ensures credibilityHistory.Some? ==> r.credibilityHistory == credibilityHistory.value
    ensures followerHistory.Some? ==> r.followerHistory == followerHistory.value
  {
    ParticipantRecord(participantID, credibility, followers, postInteractions,
                      credibilityHistory.GetOr([credibility]), followerHistory.GetOr([followers]))
  }

  /** Writing a participant and reading it back gives the same participant. */
  lemma ParticipantRoundTrip(p: ParticipantRecord)
    ensures ParticipantRecord.FromJson(p.ToJson()) == Success(p)
  {
    var j := p.ToJson();
    ParticipantJsonFields(p);
    InteractionsRoundTrip(p.postInteractions);
    NumberArrayRoundTrip(p.credibilityHistory, "Participant's Credibility History");
    NumberArrayRoundTrip(p.followerHistory, "Participant's Follower History");
    assert AsNullableString(Field(j, "participantID"), "Participant's ID") == Success(p.participantID);
  }

  /** The members `toJSON` writes. */
  lemma ParticipantJsonFields(p: ParticipantRecord)
    ensures Field(p.ToJson(), "participantID") == Some(OptionalStringJson(p.participantID))
    ensures Field(p.ToJson(), "credibility") == Some(JNum(p.credibility))
    ensures Field(p.ToJson(), "followers") == Some(JNum(p.followers))
    ensures Field(p.ToJson(), "interactions") == Some(InteractionsJson(p.postInteractions))
    ensures Field(p.ToJson(), "credibilityHistory") == Some(NumberArrayJson(p.credibilityHistory))
    ensures Field(p.ToJson(), "followerHistory") == Some(NumberArrayJson(p.followerHistory))
  {
  }

  lemma InteractionsRoundTrip(interactions: seq<Interaction>)
    ensures InteractionsFromJson(Some(InteractionsJson(interactions))) == Success(interactions)
  {
    forall i | 0 <= i < |interactions|
      ensures InteractionFromJson(InteractionToJson(interactions[i]), i) == Success(interactions[i])
    {
      InteractionRoundTrip(interactions[i], i);
    }
    DecodeEncodeAll(interactions, InteractionToJson, InteractionFromJson);
  }

  /** `q` is `p` with entries appended: the same ID, both histories growing in
      step with the interactions, every earlier entry kept, and every new
      history entry within the clamps. */
  predicate Extends(p: ParticipantRecord, q: ParticipantRecord) {
    && q.participantID == p.participantID
    && |p.postInteractions| <= |q.postInteractions|
    && |q.credibilityHistory| == |p.credibilityHistory| + |q.postInteractions| - |p.postInteractions|
    && |q.followerHistory| == |p.followerHistory| + |q.postInteractions| - |p.postInteractions|
    && q.postInteractions[..|p.postInteractions|] == p.postInteractions
    && q.credibilityHistory[..|p.credibilityHistory|] == p.credibilityHistory
    && q.followerHistory[..|p.followerHistory|] == p.followerHistory
    && (forall i :: |p.credibilityHistory| <= i < |q.credibilityHistory| ==> 0.0 <= q.credibilityHistory[i] <= 100.0)
    && (forall i :: |p.followerHistory| <= i < |q.followerHistory| ==> q.followerHistory[i] >= 0.0)
  }

  /** One `addReaction` extends the ledger by one entry in each list, and so
      keeps parallel histories parallel. */
  lemma AddReactionExtends(p: ParticipantRecord, interaction: Interaction, credibilityChange: real,
                           followersChange: real)
    ensures var q := p.AddReaction(interaction, credibilityChange, followersChange);
            && Extends(p, q)
            && |q.postInteractions| == |p.postInteractions| + 1
            && (p.HistoriesParallel() ==> q.HistoriesParallel())
  {
    var q := p.AddReaction(interaction, credibilityChange, followersChange);
    assert q.postInteractions[..|p.postInteractions|] == p.postInteractions;
    assert q.credibilityHistory[..|p.credibilityHistory|] == p.credibilityHistory;
    assert q.followerHistory[..|p.followerHistory|] == p.followerHistory;
  }

  /** Extending an extension extends the original. */
  lemma ExtendsTransitive(p: ParticipantRecord, q: ParticipantRecord, r: ParticipantRecord)
    requires Extends(p, q) && Extends(q, r)
    ensures Extends(p, r)
  {
    assert r.postInteractions[..|p.postInteractions|] == r.postInteractions[..|q.postInteractions|][..|p.postInteractions|];
    assert r.credibilityHistory[..|p.credibilityHistory|] ==
           r.credibilityHistory[..|q.credibilityHistory|][..|p.credibilityHistory|];
    assert r.followerHistory[..|p.followerHistory|] == r.followerHistory[..|q.followerHistory|][..|p.followerHistory|];
    forall i | |p.credibilityHistory| <= i < |q.credibilityHistory|
      ensures 0.0 <= r.credibilityHistory[i] <= 100.0
    {
      assert r.credibilityHistory[i] == r.credibilityHistory[..|q.credibilityHistory|][i];
    }
    forall i | |p.followerHistory| <= i < |q.followerHistory|
      ensures r.followerHistory[i] >= 0.0
    {
      assert r.followerHistory[i] == r.followerHistory[..|q.followerHistory|][i];
    }
  }

  /** `GameParticipant`: the ledger the game updates in place. */
  class GameParticipant {
    var participantID: Option<string>
    var credibility: real
    var followers: real
    var postInteractions: seq<Interaction>
    var credibilityHistory: seq<real>
    var followerHistory: seq<real>

    /** The ledger these fields hold. */
    function Record(): ParticipantRecord
      reads this
    {
      ParticipantRecord(participantID, credibility, followers, postInteractions, credibilityHistory, followerHistory)
    }

    constructor (participantID: Option<string>, credibility: real, followers: real,
                 postInteractions: seq<Interaction>,
                 credibilityHistory: Option<seq<real>>, followerHistory: Option<seq<real>>)
      ensures Record() == NewRecord(participantID, credibility, followers, postInteractions,
                                    credibilityHistory, followerHistory)
    {
      this.participantID := participantID;
      this.credibility := credibility;
      this.followers := followers;
      this.postInteractions := postInteractions;
      this.credibilityHistory := credibilityHistory.GetOr([credibility]);
      this.followerHistory := followerHistory.GetOr([followers]);
    }

    /** `getSubmittedPostsCount` of the interaction store. */
    function SubmittedCount(): nat
      reads this
    {
      |postInteractions|
    }

    /** `addReaction`: records the interaction and the clamped new values. */
    method AddReaction(interaction: Interaction, credibilityChange: real, followersChange: real)
      modifies this
      ensures Record() == old(Record()).AddReaction(interaction, credibilityChange, followersChange)
      ensures old(Record()).HistoriesParallel() ==> Record().HistoriesParallel()
    {
      postInteractions := postInteractions + [interaction];
      credibility := AdjustCredibility(credibility, credibilityChange);
      followers := AdjustFollowers(followers, followersChange);
      credibilityHistory := credibilityHistory + [credibility];
      followerHistory := followerHistory + [followers];
    }

    /** `toJSON`: what it writes reads back as this participant's ledger. */
    function ToJson(): (r: Json)
      reads this
      ensures ParticipantRecord.FromJson(r) == Success(Record())
    {
      ParticipantRoundTrip(Record());
      Record().ToJson()
    }

    /** `GameParticipant.fromJSON`: a new participant holding what the blob records. */
    static method ReadJson(j: Json) returns (r: Result<GameParticipant>)
      ensures r.Failure? ==> ParticipantRecord.FromJson(j) == Failure(r.error)
      ensures r.Success? ==> fresh(r.value) && ParticipantRecord.FromJson(j) == Success(r.value.Record())
    {
      var record := ParticipantRecord.FromJson(j);
      if record.Failure? {
        return Failure(record.error);
      }
      var p := record.value;
      var participant := new GameParticipant(p.participantID, p.credibility, p.followers, p.postInteractions,
                                             Some(p.credibilityHistory), Some(p.followerHistory));
      return Success(participant);
    }
  }
}

/** The rules of `Game` that read the participant's progress: whether the game
    is finished, which stage to show, the current state, and what submitting
    an interaction does to the participant's ledger. */
module Submission {
  import opened Results
  import opened StudyCatalog
  import opened GameEntities
  import opened Participant

  /** `isFinished`: at least `study.length` interactions have been submitted. */
  predicate IsFinished(study: Study, p: ParticipantRecord) {
    |p.postInteractions| >= study.length
  }

  /** The screens `getCurrentStage` chooses between; `InGame` is "game". */
  datatype Stage = Identification | Debrief | InGame | Introduction

  /** `participantID` is truthy: set, and not the empty string. */
  predicate HasParticipantID(p: ParticipantRecord) {
    p.participantID.Some? && p.participantID.value != ""
  }

  /** `getCurrentStage`, in its priority order: identification first (even
      when the game is finished), then debrief, then the game itself once the
      prompt is dismissed, and the introduction otherwise. */
  function CurrentStage(study: Study, p: ParticipantRecord, dismissedPrompt: bool): (r: Stage)
    ensures r == Identification <==> !HasParticipantID(p) && study.requireIdentification
    ensures r == Debrief <==> (HasParticipantID(p) || !study.requireIdentification) && IsFinished(study, p)
    ensures r == InGame <==>
              (HasParticipantID(p) || !study.requireIdentification) && !IsFinished(study, p) && dismissedPrompt
    ensures r == Introduction <==>
              (HasParticipantID(p) || !study.requireIdentification) && !IsFinished(study, p) && !dismissedPrompt
  {
    if !HasParticipantID(p) && study.requireIdentification then Identification
    else if IsFinished(study, p) then Debrief
    else if dismissedPrompt then InGame
    else Introduction
  }

  const GameFinished := "The game has been finished!"
  const NotCompleted := "The interaction with the current post must be completed"
  const NoCurrentState := "There is no calculated state for the current post"

  /** `getCurrentState`: fails once the game is finished, and otherwise gives
      the state at the number of submitted interactions, or nothing
      (`undefined`) when fewer states than that were calculated. */
  function CurrentState(study: Study, states: seq<GameState>, p: ParticipantRecord): (r: Result<Option<GameState>>)
    ensures r.Failure? <==> IsFinished(study, p)
    ensures r.Failure? ==> r.error == GameFinished
    ensures r.Success? ==> (r.value.Some? <==> |p.postInteractions| < |states|)
    ensures r.Success? && r.value.Some? ==> r.value.value == states[|p.postInteractions|]
  {
    if IsFinished(study, p) then Failure(GameFinished)
    else if |p.postInteractions| < |states| then Success(Some(states[|p.postInteractions|]))
    else Success(None)
  }

  /** The message for a reaction the post has no change distribution for
      (JavaScript raises a `TypeError` there). */
  function NoDistribution(reaction: string): string {
    "The post has no change distribution for the reaction " + reaction
  }

  /** A reaction the loop of `submitInteraction` samples changes for. */
  predicate Counted(post: PostTemplate, reaction: string) {
    reaction in post.changesToCredibility && reaction in post.changesToFollowers
  }

  /** The credibility and follower changes `submitInteraction` sums: for every
      reaction except "skip", the draws at its position of submission `round`
      are added. It fails iff some reaction other than "skip" has no change
      distribution. */
  function ReactionChanges(post: PostTemplate, reactions: seq<string>, round: nat,
                           credibilityDraws: (nat, nat) -> real, followerDraws: (nat, nat) -> real)
    : (r: Result<(real, real)>)
    ensures r.Success? <==> forall i :: 0 <= i < |reactions| && reactions[i] != "skip" ==> Counted(post, reactions[i])
    decreases |reactions|
  {
    if reactions == [] then Success((0.0, 0.0))
    else
      var n := |reactions| - 1;
      assert forall i :: 0 <= i < n ==> reactions[..n][i] == reactions[i];
      var sums :- ReactionChanges(post, reactions[..n], round, credibilityDraws, followerDraws);
      var reaction := reactions[n];
      if reaction == "skip" then Success(sums)
      else if reaction !in post.changesToCredibility || reaction !in post.changesToFollowers then
        Failure(NoDistribution(reaction))
      else Success((sums.0 + credibilityDraws(round, n), sums.1 + followerDraws(round, n)))
  }

  /** The number of reactions other than "skip". */
  function CountedReactions(reactions: seq<string>): nat
    decreases |reactions|
  {
    if reactions == [] then 0
    else CountedReactions(reactions[..|reactions| - 1]) + if reactions[|reactions| - 1] == "skip" then 0 else 1
  }

  /** `k` copies of `x` added up. */
  function Repeated(k: nat, x: real): real {
    if k == 0 then 0.0 else Repeated(k - 1, x) + x
  }

  /** With every draw of the round fixed at one value, each reaction other
      than "skip" adds exactly that value once. */
  lemma {:induction false} ConstantDrawsAddUp(post: PostTemplate, reactions: seq<string>, round: nat,
                                              credibilityDraws: (nat, nat) -> real, followerDraws: (nat, nat) -> real,
                                              credibility: real, followers: real)
    requires forall i :: 0 <= i < |reactions| ==>
               credibilityDraws(round, i) == credibility && followerDraws(round, i) == followers
    requires ReactionChanges(post, reactions, round, credibilityDraws, followerDraws).Success?
    ensures ReactionChanges(post, reactions, round, credibilityDraws, followerDraws).value ==
              (Repeated(CountedReactions(reactions), credibility), Repeated(CountedReactions(reactions), followers))
    decreases |reactions|
  {
    if reactions != [] {
      var n := |reactions| - 1;
      ConstantDrawsAddUp(post, reactions[..n], round, credibilityDraws, followerDraws, credibility, followers);
    }
  }

  /** Draws at the positions of "skip" reactions, and draws of other rounds,
      make no difference. */
  lemma {:induction false} SkipsDrawNothing(post: PostTemplate, reactions: seq<string>, round: nat,
                                            credibilityDraws: (nat, nat) -> real, followerDraws: (nat, nat) -> real,
                                            otherRound: nat,
                                            otherCredibilityDraws: (nat, nat) -> real, otherFollowerDraws: (nat, nat) -> real)
    requires forall i :: 0 <= i < |reactions| && reactions[i] != "skip" ==>
               credibilityDraws(round, i) == otherCredibilityDraws(otherRound, i)
               && followerDraws(round, i) == otherFollowerDraws(otherRound, i)
    ensures ReactionChanges(post, reactions, round, credibilityDraws, followerDraws) ==
            ReactionChanges(post, reactions, otherRound, otherCredibilityDraws, otherFollowerDraws)
    decreases |reactions|
  {
    if reactions != [] {
      var n := |reactions| - 1;
      SkipsDrawNothing(post, reactions[..n], round, credibilityDraws, followerDraws,
                       otherRound, otherCredibilityDraws, otherFollowerDraws);
    }
  }

  /** Once a prefix of the reactions fails, the whole list fails with the same error. */
  lemma {:induction false} ReactionFailureSticks(post: PostTemplate, reactions: seq<string>, k: nat, round: nat,
                                                 credibilityDraws: (nat, nat) -> real, followerDraws: (nat, nat) -> real)
    requires k <= |reactions|
    requires ReactionChanges(post, reactions[..k], round, credibilityDraws, followerDraws).Failure?
    ensures ReactionChanges(post, reactions, round, credibilityDraws, followerDraws) ==
            ReactionChanges(post, reactions[..k], round, credibilityDraws, followerDraws)
    decreases |reactions|
  {
    if k == |reactions| {
      assert reactions[..k] == reactions;
    } else {
      var n := |reactions| - 1;
      assert reactions[..n][..k] == reactions[..k];
      ReactionFailureSticks(post, reactions[..n], k, round, credibilityDraws, followerDraws);
      assert ReactionChanges(post, reactions[..n], round, credibilityDraws, followerDraws).Failure?;
    }
  }

  /** `submitInteraction` on the ledger. The draws of the submission are those
      of round `|p.postInteractions|`, the position of the interaction in the
      game. In order: an incomplete interaction is rejected, a finished game
      is rejected, a position with no calculated state fails, and a reaction
      without a distribution fails; otherwise the interaction is recorded
      with the summed changes. A rejected submission changes nothing. */
  function SubmitOutcome(study: Study, states: seq<GameState>, p: ParticipantRecord, interaction: Interaction,
                         isCompleted: Interaction -> bool,
                         credibilityDraws: (nat, nat) -> real, followerDraws: (nat, nat) -> real)
    : (r: Result<ParticipantRecord>)
    ensures !isCompleted(interaction) ==> r == Failure(NotCompleted)
    ensures isCompleted(interaction) && IsFinished(study, p) ==> r == Failure(GameFinished)
    ensures isCompleted(interaction) && !IsFinished(study, p) && |p.postInteractions| >= |states| ==>
              r == Failure(NoCurrentState)
    ensures r.Success? ==>
              && isCompleted(interaction) && !IsFinished(study, p) && |p.postInteractions| < |states|
              && var changes := ReactionChanges(states[|p.postInteractions|].currentPost.post,
                                               interaction.postReactions, |p.postInteractions|,
                                               credibilityDraws, followerDraws);
                 && changes.Success?
                 && r.value == p.AddReaction(interaction, changes.value.0, changes.value.1)
    ensures isCompleted(interaction) && !IsFinished(study, p) && |p.postInteractions| < |states| ==>
              var changes := ReactionChanges(states[|p.postInteractions|].currentPost.post,
                                             interaction.postReactions, |p.postInteractions|,
                                             credibilityDraws, followerDraws);
              changes.Failure? ==> r == Failure(changes.error)
  {
    if !isCompleted(interaction) then Failure(NotCompleted)
    else
      var current :- CurrentState(study, states, p);
      if current.None? then Failure(NoCurrentState)
      else
        var changes :- ReactionChanges(current.value.currentPost.post, interaction.postReactions,
                                       |p.postInteractions|, credibilityDraws, followerDraws);
        Success(p.AddReaction(interaction, changes.0, changes.1))
  }

  /** The loop of `advanceStates`: submits each interaction in turn and stops at
      the first that is rejected, keeping the ones submitted before it. */
  function SubmitAll(study: Study, states: seq<GameState>, p: ParticipantRecord, interactions: seq<Interaction>,
                     isCompleted: Interaction -> bool,
                     credibilityDraws: (nat, nat) -> real, followerDraws: (nat, nat) -> real)
    : (r: (ParticipantRecord, Outcome))
    ensures r.0.participantID == p.participantID
    ensures |p.postInteractions| <= |r.0.postInteractions| <= |p.postInteractions| + |interactions|
    ensures r.1.Pass? <==> |r.0.postInteractions| == |p.postInteractions| + |interactions|
    decreases |interactions|
  {
    if interactions == [] then (p, Pass)
    else
      var n := |interactions| - 1;
      var before := SubmitAll(study, states, p, interactions[..n], isCompleted, credibilityDraws, followerDraws);
      if before.1.Fail? then before
      else
        match SubmitOutcome(study, states, before.0, interactions[n], isCompleted, credibilityDraws, followerDraws)
        case Failure(e) => (before.0, Fail(e))
        case Success(q) => (q, Pass)
  }

  /** Submitting one more interaction after an accepted prefix: the ledger
      records it, or the run stops at it with its error. */
  lemma SubmitAllStep(study: Study, states: seq<GameState>, p: ParticipantRecord, interactions: seq<Interaction>,
                      n: nat, isCompleted: Interaction -> bool,
                      credibilityDraws: (nat, nat) -> real, followerDraws: (nat, nat) -> real)
    requires n < |interactions|
    requires SubmitAll(study, states, p, interactions[..n], isCompleted, credibilityDraws, followerDraws).1.Pass?
    ensures var before := SubmitAll(study, states, p, interactions[..n], isCompleted, credibilityDraws, followerDraws).0;
            var o := SubmitOutcome(study, states, before, interactions[n], isCompleted, credibilityDraws, followerDraws);
            SubmitAll(study, states, p, interactions[..n + 1], isCompleted, credibilityDraws, followerDraws) ==
              if o.Success? then (o.value, Pass) else (before, Fail(o.error))
  {
    assert interactions[..n + 1][..n] == interactions[..n];
  }

  /** Once a prefix of the interactions is rejected, submitting the whole list
      ends in the same place. */
  lemma {:induction false} SubmitFailureSticks(study: Study, states: seq<GameState>, p: ParticipantRecord,
                                               interactions: seq<Interaction>, k: nat,
                                               isCompleted: Interaction -> bool,
                                               credibilityDraws: (nat, nat) -> real, followerDraws: (nat, nat) -> real)
    requires k <= |interactions|
    requires SubmitAll(study, states, p, interactions[..k], isCompleted, credibilityDraws, followerDraws).1.Fail?
    ensures SubmitAll(study, states, p, interactions, isCompleted, credibilityDraws, followerDraws) ==
            SubmitAll(study, states, p, interactions[..k], isCompleted, credibilityDraws, followerDraws)
    decreases |interactions|
  {
    if k == |interactions| {
      assert interactions[..k] == interactions;
    } else {
      var n := |interactions| - 1;
      assert interactions[..n][..k] == interactions[..k];
      SubmitFailureSticks(study, states, p, interactions[..n], k, isCompleted, credibilityDraws, followerDraws);
    }
  }

  /** An accepted submission appends the interaction to the ledger. */
  lemma SubmitOutcomeExtends(study: Study, states: seq<GameState>, p: ParticipantRecord, interaction: Interaction,
                             isCompleted: Interaction -> bool,
                             credibilityDraws: (nat, nat) -> real, followerDraws: (nat, nat) -> real)
    requires SubmitOutcome(study, states, p, interaction, isCompleted, credibilityDraws, followerDraws).Success?
    ensures var q := SubmitOutcome(study, states, p, interaction, isCompleted, credibilityDraws, followerDraws).value;
            Extends(p, q) && q.postInteractions == p.postInteractions + [interaction]
  {
    var changes := ReactionChanges(states[|p.postInteractions|].currentPost.post, interaction.postReactions,
                                   |p.postInteractions|, credibilityDraws, followerDraws).value;
    AddReactionExtends(p, interaction, changes.0, changes.1);
  }

  /** An accepted submission keeps the ledger's histories parallel and its
      interactions within the study's length. */
  lemma SubmitOutcomeKeepsLedger(study: Study, states: seq<GameState>, p: ParticipantRecord, interaction: Interaction,
                                 isCompleted: Interaction -> bool,
                                 credibilityDraws: (nat, nat) -> real, followerDraws: (nat, nat) -> real)
    requires p.HistoriesParallel() && |p.postInteractions| <= study.length
    ensures var r := SubmitOutcome(study, states, p, interaction, isCompleted, credibilityDraws, followerDraws);
            r.Success? ==> r.value.HistoriesParallel() && |r.value.postInteractions| <= study.length
  {
    if SubmitOutcome(study, states, p, interaction, isCompleted, credibilityDraws, followerDraws).Success? {
      SubmitOutcomeExtends(study, states, p, interaction, isCompleted, credibilityDraws, followerDraws);
    }
  }

  /** Submitting extends the ledger: the ID stays, earlier entries are kept,
      the histories grow in step with the interactions and every new history
      entry lies within the clamps; so parallel histories stay parallel. */
  lemma {:induction false} SubmitAllExtends(study: Study, states: seq<GameState>, p: ParticipantRecord,
                                            interactions: seq<Interaction>, isCompleted: Interaction -> bool,
                                            credibilityDraws: (nat, nat) -> real, followerDraws: (nat, nat) -> real)
    ensures var q := SubmitAll(study, states, p, interactions, isCompleted, credibilityDraws, followerDraws).0;
            Extends(p, q) && (p.HistoriesParallel() ==> q.HistoriesParallel())
    decreases |interactions|
  {
    if interactions == [] {
      assert p.postInteractions[..|p.postInteractions|] == p.postInteractions;
      assert p.credibilityHistory[..|p.credibilityHistory|] == p.credibilityHistory;
      assert p.followerHistory[..|p.followerHistory|] == p.followerHistory;
    } else {
      var n := |interactions| - 1;
      SubmitAllExtends(study, states, p, interactions[..n], isCompleted, credibilityDraws, followerDraws);
      var before := SubmitAll(study, states, p, interactions[..n], isCompleted, credibilityDraws, followerDraws);
      if before.1.Pass? {
        var step := SubmitOutcome(study, states, before.0, interactions[n], isCompleted, credibilityDraws, followerDraws);
        if step.Success? {
          SubmitOutcomeExtends(study, states, before.0, interactions[n], isCompleted, credibilityDraws, followerDraws);
          ExtendsTransitive(p, before.0, step.value);
        }
      }
    }
  }

  /** When no interaction is rejected, submitting appends all of them, in order. */
  lemma {:induction false} SubmitAllAppends(study: Study, states: seq<GameState>, p: ParticipantRecord,
                                            interactions: seq<Interaction>, isCompleted: Interaction -> bool,
                                            credibilityDraws: (nat, nat) -> real, followerDraws: (nat, nat) -> real)
    requires SubmitAll(study, states, p, interactions, isCompleted, credibilityDraws, followerDraws).1.Pass?
    ensures SubmitAll(study, states, p, interactions, isCompleted, credibilityDraws, followerDraws).0.postInteractions
            == p.postInteractions + interactions
    decreases |interactions|
  {
    if interactions == [] {
      assert p.postInteractions + interactions == p.postInteractions;
    } else {
      var n := |interactions| - 1;
      var before := SubmitAll(study, states, p, interactions[..n], isCompleted, credibilityDraws, followerDraws);
      var step := SubmitOutcome(study, states, before.0, interactions[n], isCompleted, credibilityDraws, followerDraws);
      assert before.1.Pass? && step.Success?;
      assert SubmitAll(study, states, p, interactions, isCompleted, credibilityDraws, followerDraws).0 == step.value;
      SubmitAllAppends(study, states, p, interactions[..n], isCompleted, credibilityDraws, followerDraws);
      SubmitOutcomeExtends(study, states, before.0, interactions[n], isCompleted, credibilityDraws, followerDraws);
      assert interactions[..n] + [interactions[n]] == interactions;
    }
  }

  /** When an interaction is rejected, submitting keeps exactly those before it. */
  lemma {:induction false} SubmitAllKeepsAccepted(study: Study, states: seq<GameState>, p: ParticipantRecord,
                                                  interactions: seq<Interaction>, isCompleted: Interaction -> bool,
                                                  credibilityDraws: (nat, nat) -> real, followerDraws: (nat, nat) -> real)
    requires SubmitAll(study, states, p, interactions, isCompleted, credibilityDraws, followerDraws).1.Fail?
    ensures exists k :: 0 <= k < |interactions| &&
              SubmitAll(study, states, p, interactions, isCompleted, credibilityDraws, followerDraws).0.postInteractions
              == p.postInteractions + interactions[..k]
    decreases |interactions|
  {
    var n := |interactions| - 1;
    var before := SubmitAll(study, states, p, interactions[..n], isCompleted, credibilityDraws, followerDraws);
    if before.1.Pass? {
      SubmitAllAppends(study, states, p, interactions[..n], isCompleted, credibilityDraws, followerDraws);
      assert SubmitAll(study, states, p, interactions, isCompleted, credibilityDraws, followerDraws).0 == before.0;
    } else {
      SubmitAllKeepsAccepted(study, states, p, interactions[..n], isCompleted, credibilityDraws, followerDraws);
      var k :| 0 <= k < n && before.0.postInteractions == p.postInteractions + interactions[..n][..k];
      assert interactions[..n][..k] == interactions[..k];
    }
  }

  /** From the participant `createNew` makes (credibility 50, followers 0, no
      histories given), both histories hold one entry more than there are
      submitted interactions, starting with the seed values. */
  lemma FreshLedgerHistories(study: Study, states: seq<GameState>, interactions: seq<Interaction>,
                             isCompleted: Interaction -> bool,
                             credibilityDraws: (nat, nat) -> real, followerDraws: (nat, nat) -> real)
    ensures var q := SubmitAll(study, states, NewRecord(None, 50.0, 0.0, [], None, None), interactions,
                               isCompleted, credibilityDraws, followerDraws).0;
            && |q.credibilityHistory| == |q.followerHistory| == |q.postInteractions| + 1
            && q.credibilityHistory[0] == 50.0 && q.followerHistory[0] == 0.0
  {
    var p := NewRecord(None, 50.0, 0.0, [], None, None);
    SubmitAllExtends(study, states, p, interactions, isCompleted, credibilityDraws, followerDraws);
    var q := SubmitAll(study, states, p, interactions, isCompleted, credibilityDraws, followerDraws).0;
    assert q.credibilityHistory[0] == q.credibilityHistory[..1][0];
    assert q.followerHistory[0] == q.followerHistory[..1][0];
  }

  /** A study of length one whose first post configures "like": submitting one
      completed "like" that draws +5 credibility from the participant
      `createNew` makes moves credibility from 50 to 55 and finishes the game. */
  lemma OneLikeFinishes(study: Study, states: seq<GameState>, interaction: Interaction,
                        isCompleted: Interaction -> bool,
                        credibilityDraws: (nat, nat) -> real, followerDraws: (nat, nat) -> real)
    requires study.length == 1 && |states| >= 1
    requires Counted(states[0].currentPost.post, "like")
    requires interaction.postReactions == ["like"] && isCompleted(interaction)
    requires credibilityDraws(0, 0) == 5.0
    ensures var q := SubmitAll(study, states, NewRecord(None, 50.0, 0.0, [], None, None), [interaction],
                               isCompleted, credibilityDraws, followerDraws);
            && q.1 == Pass
            && q.0.credibility == 55.0 && q.0.credibilityHistory == [50.0, 55.0]
            && q.0.followers == AdjustFollowers(0.0, followerDraws(0, 0))
            && q.0.postInteractions == [interaction]
            && IsFinished(study, q.0)
  {
    var p := NewRecord(None, 50.0, 0.0, [], None, None);
    assert [interaction][..0] == [];
    assert ["like"][..0] == [];
    var changes := ReactionChanges(states[0].currentPost.post, ["like"], 0, credibilityDraws, followerDraws);
    assert changes == Success((credibilityDraws(0, 0), followerDraws(0, 0)));
    assert SubmitOutcome(study, states, p, interaction, isCompleted, credibilityDraws, followerDraws)
        == Success(p.AddReaction(interaction, credibilityDraws(0, 0), followerDraws(0, 0)));
  }

  /** The submitted count never passes the study's length: a finished game
      rejects every further submission. */
  lemma {:induction false} SubmitAllStopsAtLength(study: Study, states: seq<GameState>, p: ParticipantRecord,
                                                  interactions: seq<Interaction>, isCompleted: Interaction -> bool,
                                                  credibilityDraws: (nat, nat) -> real, followerDraws: (nat, nat) -> real)
    requires |p.postInteractions| <= study.length
    ensures |SubmitAll(study, states, p, interactions, isCompleted, credibilityDraws, followerDraws).0.postInteractions|
              <= study.length
    decreases |interactions|
  {
    if interactions != [] {
      var n := |interactions| - 1;
      SubmitAllStopsAtLength(study, states, p, interactions[..n], isCompleted, credibilityDraws, followerDraws);
    }
  }

  /** Once the game is finished, every further submission is rejected: the
      ledger stays as it is, and a non-empty run of submissions fails. */
  lemma {:induction false} FinishedAcceptsNothing(study: Study, states: seq<GameState>, p: ParticipantRecord,
                                                  interactions: seq<Interaction>, isCompleted: Interaction -> bool,
                                                  credibilityDraws: (nat, nat) -> real, followerDraws: (nat, nat) -> real)
    requires IsFinished(study, p)
    ensures SubmitAll(study, states, p, interactions, isCompleted, credibilityDraws, followerDraws).0 == p
    ensures interactions != [] ==>
              SubmitAll(study, states, p, interactions, isCompleted, credibilityDraws, followerDraws).1.Fail?
    decreases |interactions|
  {
    if interactions != [] {
      var n := |interactions| - 1;
      FinishedAcceptsNothing(study, states, p, interactions[..n], isCompleted, credibilityDraws, followerDraws);
      assert SubmitOutcome(study, states, p, interactions[n], isCompleted, credibilityDraws, followerDraws).Failure?;
    }
  }
}

/** `Game`: the object that runs one participant's session. Its methods change
    its fields in place and are proved against the functions of `Stepper`,
    `Submission` and `Persistence`. */
module GameController {
  import opened Results
  import opened JsonValues
  import opened StudyCatalog
  import opened GameEntities
  import opened Participant
  import opened Stepper
  import opened Submission
  import opened Persistence

  class Game {
    const study: Study
    var studyModTime: real
    var sessionID: string
    var startTime: real
    var endTime: Option<real>
    var states: seq<GameState>
    var latestStateSources: Option<seq<GameSource>>
    var latestStatePosts: Option<seq<GamePost>>
    const participant: GameParticipant
    var dismissedPrompt: bool
    var completionCode: Option<string>

    /** What this game saves. */
    function Record(): GameRecord
      reads this, participant
    {
      GameRecord(studyModTime, sessionID, startTime, endTime, states, participant.Record(), dismissedPrompt,
                 completionCode)
    }

    /** What holds of every game `createNew` makes and every method keeps: each
        state sits at its own index, the participant's histories are parallel,
        and no more interactions were submitted than the study is long. */
    predicate Valid()
      reads this, participant
    {
      && Indexed(states)
      && participant.Record().HistoriesParallel()
      && |participant.postInteractions| <= study.length
    }

    /** The constructor: `endTime || null`, and no pool yet. */
    constructor (study: Study, studyModTime: real, sessionID: string, startTime: real, endTime: Option<real>,
                 states: seq<GameState>, participant: GameParticipant, dismissedPrompt: bool,
                 completionCode: Option<string>)
      ensures this.study == study && this.participant == participant
      ensures Record() == GameRecord(studyModTime, sessionID, startTime, NormaliseEndTime(endTime), states,
                                     participant.Record(), dismissedPrompt, completionCode)
      ensures latestStateSources.None? && latestStatePosts.None?
    {
      this.study := study;
      this.studyModTime := studyModTime;
      this.sessionID := sessionID;
      this.startTime := startTime;
      this.endTime := NormaliseEndTime(endTime);
      this.states := states;
      this.latestStateSources := None;
      this.latestStatePosts := None;
      this.participant := participant;
      this.dismissedPrompt := dismissedPrompt;
      this.completionCode := completionCode;
    }

    /** `isFinished`: exactly when `getCurrentState` throws. */
    predicate IsFinished()
      reads this, participant
      ensures IsFinished() <==> GetCurrentState() == Failure(GameFinished)
    {
      Submission.IsFinished(study, participant.Record())
    }

    /** `getCurrentStage`: the game is shown only while there is a current
        state to show, and a finished game shows the debrief unless the
        participant still has to identify. */
    function GetCurrentStage(): (r: Stage)
      reads this, participant
      ensures r == InGame ==> dismissedPrompt && GetCurrentState().Success?
      ensures r == Debrief ==> IsFinished()
      ensures IsFinished() && r != Identification ==> r == Debrief
    {
      CurrentStage(study, participant.Record(), dismissedPrompt)
    }

    /** `getCurrentState`: throws once the game is finished; otherwise, in a
        valid game, the state for the next post sits at the number of
        submitted interactions, and a game with all its states has one. */
    function GetCurrentState(): (r: Result<Option<GameState>>)
      reads this, participant
      ensures r.Failure? <==> Submission.IsFinished(study, participant.Record())
      ensures Valid() && r.Success? && r.value.Some? ==> r.value.value.indexInGame == |participant.postInteractions|
      ensures Valid() && |states| == study.length && r.Success? ==> r.value.Some?
    {
      CurrentState(study, states, participant.Record())
    }

    /** `submitInteraction`: the participant records the interaction exactly
        when `SubmitOutcome` accepts it, and nothing changes otherwise. */
    method SubmitInteraction(interaction: Interaction, isCompleted: Interaction -> bool,
                             credibilityDraws: (nat, nat) -> real, followerDraws: (nat, nat) -> real)
      returns (outcome: Outcome)
      modifies participant
      ensures var r := SubmitOutcome(study, states, old(participant.Record()), interaction, isCompleted,
                                     credibilityDraws, followerDraws);
              && (r.Success? ==> outcome == Pass && participant.Record() == r.value)
              && (r.Failure? ==> outcome == Fail(r.error) && participant.Record() == old(participant.Record()))
      ensures old(Valid()) ==> Valid()
    {
      if !isCompleted(interaction) {
        return Fail(NotCompleted);
      }
      var current := GetCurrentState();
      if current.Failure? {
        return Fail(current.error);
      }
      if current.value.None? {
        return Fail(NoCurrentState);
      }
      var post := current.value.value.currentPost.post;
      var round := participant.SubmittedCount();
      var changes := SumReactionChanges(post, interaction.postReactions, round, credibilityDraws, followerDraws);
      if changes.Failure? {
        return Fail(changes.error);
      }
      ghost var before := participant.Record();
      if before.HistoriesParallel() && |before.postInteractions| <= study.length {
        SubmitOutcomeKeepsLedger(study, states, before, interaction, isCompleted, credibilityDraws, followerDraws);
      }
      participant.AddReaction(interaction, changes.value.0, changes.value.1);
      return Pass;
    }

    /** The loop of `submitInteraction`: adds up a draw from each distribution
        the post has for each reaction other than "skip". */
    static method SumReactionChanges(post: PostTemplate, postReactions: seq<string>, round: nat,
                                     credibilityDraws: (nat, nat) -> real, followerDraws: (nat, nat) -> real)
      returns (r: Result<(real, real)>)
      ensures r == ReactionChanges(post, postReactions, round, credibilityDraws, followerDraws)
    {
      var credibilityChange, followerChange := 0.0, 0.0;
      var index := 0;
      while index < |postReactions|
        invariant 0 <= index <= |postReactions|
        invariant ReactionChanges(post, postReactions[..index], round, credibilityDraws, followerDraws) ==
                  Success((credibilityChange, followerChange))
      {
        var reaction := postReactions[index];
        assert postReactions[..index + 1][..index] == postReactions[..index];
        if reaction != "skip" {
          if reaction !in post.changesToCredibility || reaction !in post.changesToFollowers {
            ReactionFailureSticks(post, postReactions, index + 1, round, credibilityDraws, followerDraws);
            return Failure(NoDistribution(reaction));
          }
          credibilityChange := credibilityChange + credibilityDraws(round, index);
          followerChange := followerChange + followerDraws(round, index);
        }
        index := index + 1;
      }
      assert postReactions[..index] == postReactions;
      return Success((credibilityChange, followerChange));
    }

    /** `advanceStates`: submits the interactions in turn, stopping at the first
        that is rejected. When all are accepted and the game is then finished,
        `endTime` becomes `now` and, if the study asks for one, the completion
        code becomes `generatedCode`; otherwise both stay as they were. */
    method AdvanceStates(interactions: seq<Interaction>, isCompleted: Interaction -> bool,
                         credibilityDraws: (nat, nat) -> real, followerDraws: (nat, nat) -> real,
                         generatedCode: string, now: real)
      returns (outcome: Outcome)
      modifies participant, this`endTime, this`completionCode
      ensures var r := SubmitAll(study, states, old(participant.Record()), interactions, isCompleted,
                                 credibilityDraws, followerDraws);
              participant.Record() == r.0 && outcome == r.1
      ensures outcome.Pass? && IsFinished() ==>
                && endTime == Some(now)
                && completionCode == if study.genCompletionCode then Some(generatedCode) else old(completionCode)
      ensures !(outcome.Pass? && IsFinished()) ==> endTime == old(endTime) && completionCode == old(completionCode)
      ensures old(Valid()) ==> Valid()
    {
      ghost var start := participant.Record();
      var index := 0;
      while index < |interactions|
        invariant 0 <= index <= |interactions|
        invariant SubmitAll(study, states, start, interactions[..index], isCompleted, credibilityDraws, followerDraws)
                  == (participant.Record(), Pass)
        invariant endTime == old(endTime) && completionCode == old(completionCode)
      {
        SubmitAllStep(study, states, start, interactions, index, isCompleted, credibilityDraws, followerDraws);
        var submitted := SubmitInteraction(interactions[index], isCompleted, credibilityDraws, followerDraws);
        if submitted.Fail? {
          SubmitFailureSticks(study, states, start, interactions, index + 1, isCompleted,
                              credibilityDraws, followerDraws);
          KeepsLedgerValid(start, interactions, isCompleted, credibilityDraws, followerDraws);
          return submitted;
        }
        index := index + 1;
      }
      assert interactions[..index] == interactions;
      KeepsLedgerValid(start, interactions, isCompleted, credibilityDraws, followerDraws);
      if IsFinished() {
        if study.genCompletionCode {
          completionCode := Some(generatedCode);
        }
        endTime := Some(now);
      }
      return Pass;
    }

    /** The ledger part of `Valid` survives any run of submissions. */
    lemma KeepsLedgerValid(p: ParticipantRecord, interactions: seq<Interaction>, isCompleted: Interaction -> bool,
                           credibilityDraws: (nat, nat) -> real, followerDraws: (nat, nat) -> real)
      ensures var q := SubmitAll(study, states, p, interactions, isCompleted, credibilityDraws, followerDraws).0;
              p.HistoriesParallel() && |p.postInteractions| <= study.length ==>
                q.HistoriesParallel() && |q.postInteractions| <= study.length
    {
      SubmitAllExtends(study, states, p, interactions, isCompleted, credibilityDraws, followerDraws);
      if |p.postInteractions| <= study.length {
        SubmitAllStopsAtLength(study, states, p, interactions, isCompleted, credibilityDraws, followerDraws);
      }
    }

    /** `calculateNextState`: appends the state `NextState` computes and keeps
        its pool for the next call; when the step throws, nothing changes. */
    method CalculateNextState(oracle: StepOracle) returns (r: Result<GameState>)
      modifies this`states, this`latestStateSources, this`latestStatePosts
      ensures var step := NextState(study, |old(states)|, old(latestStateSources), old(latestStatePosts), oracle);
              && (step.Failure? ==> && r == Failure(step.error) && states == old(states)
                                    && latestStateSources == old(latestStateSources)
                                    && latestStatePosts == old(latestStatePosts))
              && (step.Success? ==> && r == Success(step.value.state) && states == old(states) + [step.value.state]
                                    && latestStateSources == Some(step.value.nextSources)
                                    && latestStatePosts == Some(step.value.nextPosts))
      ensures old(Valid()) ==> Valid()
    {
      var step := SelectStep(oracle);
      if step.Failure? {
        return Failure(step.error);
      }
      if Indexed(states) {
        IndexedAppend(states, step.value.state);
      }
      states := states + [step.value.state];
      latestStateSources := Some(step.value.nextSources);
      latestStatePosts := Some(step.value.nextPosts);
      return Success(step.value.state);
    }

    /** The selection and the adjustments of `calculateNextState`, on the
        current fields: the pool it starts from, `makeSelection`, the two
        `findById` calls and the loops that build the next pool. */
    method SelectStep(oracle: StepOracle) returns (r: Result<StepResult>)
      ensures r == NextState(study, |states|, latestStateSources, latestStatePosts, oracle)
    {
      if |states| >= study.length {
        return Failure(AllStatesCalculated);
      }
      var currentSources: seq<GameSource>;
      var currentPosts: seq<GamePost>;
      if latestStateSources.None? || latestStatePosts.None? {
        currentSources, currentPosts := SamplePool(oracle.sampler);
      } else {
        currentSources, currentPosts := latestStateSources.value, latestStatePosts.value;
      }
      assert (currentSources, currentPosts) == CurrentPool(study, latestStateSources, latestStatePosts, oracle.sampler);
      var index := |states|;
      var pair := oracle.makeSelection(index, currentSources, currentPosts);
      if pair.Failure? {
        return Failure(pair.error);
      }
      var selectedSource := GameSource.FindById(currentSources, pair.value.0);
      if selectedSource.Failure? {
        return Failure(selectedSource.error);
      }
      var selectedPost := GamePost.FindById(currentPosts, pair.value.1);
      if selectedPost.Failure? {
        return Failure(selectedPost.error);
      }
      var newState := GameState(index, selectedSource.value, selectedPost.value);
      var nextSources := ReplaceSourceLoop(currentSources, AdjustedSource(newState, index, oracle));
      var nextPosts := ReplacePostLoop(currentPosts, newState.currentPost.AdjustAfterShown());
      return Success(StepResult(newState, nextSources, nextPosts));
    }

    /** The two sampling loops of `calculateNextState`. */
    method SamplePool(sampler: Sampler) returns (sources: seq<GameSource>, posts: seq<GamePost>)
      ensures sources == SampledSources(study, sampler) && posts == SampledPosts(study, sampler)
    {
      sources := [];
      var index := 0;
      while index < |study.sources|
        invariant 0 <= index <= |study.sources|
        invariant sources == SampledSources(study, sampler)[..index]
      {
        sources := sources + [GameSource.SampleNewSource(study.sources[index], sampler)];
        index := index + 1;
      }
      posts := [];
      index := 0;
      while index < |study.posts|
        invariant 0 <= index <= |study.posts|
        invariant posts == SampledPosts(study, sampler)[..index]
      {
        var post := GamePost.SampleNewPost(study.posts[index], sampler);
        posts := posts + [post];
        index := index + 1;
      }
    }

    /** The `nextSources` loop of `calculateNextState`. */
    static method ReplaceSourceLoop(sources: seq<GameSource>, newSource: GameSource) returns (next: seq<GameSource>)
      ensures next == ReplaceSource(sources, newSource)
    {
      next := [];
      var index := 0;
      while index < |sources|
        invariant 0 <= index <= |sources|
        invariant next == ReplaceSource(sources, newSource)[..index]
      {
        var source := sources[index];
        next := next + [if source.source.id == newSource.source.id then newSource else source];
        index := index + 1;
      }
    }

    /** The `nextPosts` loop of `calculateNextState`. */
    static method ReplacePostLoop(posts: seq<GamePost>, newPost: GamePost) returns (next: seq<GamePost>)
      ensures next == ReplacePost(posts, newPost)
    {
      next := [];
      var index := 0;
      while index < |posts|
        invariant 0 <= index <= |posts|
        invariant next == ReplacePost(posts, newPost)[..index]
      {
        var post := posts[index];
        next := next + [if post.post.id == newPost.post.id then newPost else post];
        index := index + 1;
      }
    }

    /** `calculateAllStates`: ends where `AllStates` does, with the same outcome. */
    method CalculateAllStates(oracle: StepOracle) returns (outcome: Outcome)
      modifies this`states, this`latestStateSources, this`latestStatePosts
      ensures var r := AllStates(study, Run(old(states), old(latestStateSources), old(latestStatePosts)), oracle);
              Run(states, latestStateSources, latestStatePosts) == r.0 && outcome == r.1
      ensures old(Valid()) ==> Valid()
    {
      ghost var start := Run(states, latestStateSources, latestStatePosts);
      if Indexed(states) {
        AllStatesStayIndexed(study, start, oracle);
      }
      while |states| < study.length
        invariant AllStates(study, Run(states, latestStateSources, latestStatePosts), oracle) ==
                  AllStates(study, start, oracle)
        decreases study.length - |states|
      {
        var next := CalculateNextState(oracle);
        if next.Failure? {
          return Fail(next.error);
        }
      }
      return Pass;
    }

    /** `statesToJSON`. */
    static method WriteStates(states: seq<GameState>) returns (json: seq<Json>)
      ensures json == StatesJson(states)
    {
      json := [];
      var index := 0;
      while index < |states|
        invariant 0 <= index <= |states|
        invariant json == StatesJson(states)[..index]
      {
        json := json + [states[index].ToJson()];
        index := index + 1;
      }
    }

    /** `statesFromJSON` on an array, with its accumulator loop. */
    static method ReadStates(items: seq<Json>, study: Study) returns (r: Result<seq<GameState>>)
      ensures r == StatesFromJson(items, study)
    {
      ghost var read := StateReader(study);
      var states: seq<GameState> := [];
      var index := 0;
      while index < |items|
        invariant 0 <= index <= |items|
        invariant DecodeAll(items[..index], read) == Success(states)
      {
        DecodeAllStep(items, read, index);
        var state := GameState.FromJson(items[index], study, index);
        if state.Failure? {
          DecodeAllFailureSticks(items, read, index + 1);
          return Failure(state.error);
        }
        states := states + [state.value];
        index := index + 1;
      }
      assert items[..index] == items;
      r := Success(states);
    }

    /** `Game.toJSON`. */
    method WriteJson() returns (json: Json)
      ensures json == GameToJson(study, Record())
    {
      var jsonStates := WriteStates(states);
      json := JObj(map[
        "studyID" := JStr(study.id),
        "studyModTime" := JNum(studyModTime),
        "sessionID" := JStr(sessionID),
        "startTime" := JNum(startTime),
        "endTime" := (if endTime.Some? then JNum(endTime.value) else JNull),
        "states" := JArr(jsonStates),
        "participant" := participant.ToJson(),
        "dismissedPrompt" := JBool(dismissedPrompt),
        "completionCode" := CompletionCodeJson(completionCode)]);
    }

    /** `Game.fromJSON`: a new game holding what `GameFromJson` reads, or its error. */
    static method ReadJson(j: Json, study: Study, parseStudy: (Option<Json>, Json) -> Result<Study>)
      returns (r: Result<Game>)
      ensures GameFromJson(j, study, parseStudy).Failure? ==> r == Failure(GameFromJson(j, study, parseStudy).error)
      ensures GameFromJson(j, study, parseStudy).Success? ==>
                && r.Success? && fresh(r.value) && fresh(r.value.participant) && r.value.study == study
                && r.value.Record() == GameFromJson(j, study, parseStudy).value
                && r.value.latestStateSources.None? && r.value.latestStatePosts.None?
    {
      var studyModTime := StudyModTimeMember(j, parseStudy);
      if studyModTime.Failure? {
        return Failure(studyModTime.error);
      }
      var elements := LoopElements(Field(j, "states"));
      if elements.None? {
        return TypeError("Game States");
      }
      var states := ReadStates(elements.value, study);
      if states.Failure? {
        return Failure(states.error);
      }
      var participant := GameParticipant.ReadJson(Field(j, "participant").GetOr(JNull));
      if participant.Failure? {
        return Failure(participant.error);
      }
      assert GameFromJson(j, study, parseStudy) ==
             GameFieldsFromJson(j, studyModTime.value, states.value, participant.value.Record());
      r := NewChecked(j, study, studyModTime.value, states.value, participant.value);
    }

    /** The `Game` constructor's type checks on the members `fromJSON` passes it. */
    static method NewChecked(j: Json, study: Study, studyModTime: Option<Json>, states: seq<GameState>,
                             participant: GameParticipant)
      returns (r: Result<Game>)
      ensures var fields := GameFieldsFromJson(j, studyModTime, states, participant.Record());
              && (fields.Failure? ==> r == Failure(fields.error))
              && (fields.Success? ==>
                    && r.Success? && fresh(r.value) && r.value.participant == participant && r.value.study == study
                    && r.value.Record() == fields.value
                    && r.value.latestStateSources.None? && r.value.latestStatePosts.None?)
    {
      var modTime := AsNumber(studyModTime, "Game Study Modification Time");
      if modTime.Failure? {
        return Failure(modTime.error);
      }
      var sessionID := AsString(Field(j, "sessionID"), "Game Session ID");
      if sessionID.Failure? {
        return Failure(sessionID.error);
      }
      var startTime := AsNumber(Field(j, "startTime"), "Game Start Time");
      if startTime.Failure? {
        return Failure(startTime.error);
      }
      var endTime := AsNullableNumber(Field(j, "endTime"), "Game End Time");
      if endTime.Failure? {
        return Failure(endTime.error);
      }
      var dismissedPrompt := AsBool(Field(j, "dismissedPrompt"), "Whether the prompt has been dismissed");
      if dismissedPrompt.Failure? {
        return Failure(dismissedPrompt.error);
      }
      var completionCode := AsNullableString(Some(OrNull(Field(j, "completionCode"))), "Game Completion Code");
      if completionCode.Failure? {
        return Failure(completionCode.error);
      }
      var game := new Game(study, modTime.value, sessionID.value, startTime.value, endTime.value, states,
                           participant, dismissedPrompt.value, completionCode.value);
      return Success(game);
    }

    /** `createNew`: a broken study is refused; otherwise a new game starts at
        `now` with a fresh participant (credibility 50, followers 0, no ID) and
        all of its states calculated, or fails with the step that threw. */
    static method CreateNew(loaded: LoadedStudy, sessionID: string, now: real, oracle: StepOracle)
      returns (r: Result<Game>)
      ensures loaded.Broken? ==> r == Failure("The study is broken: " + loaded.error)
      ensures loaded.Loaded? ==>
                var run := AllStates(loaded.study, Run([], None, None), oracle);
                && (run.1.Fail? ==> r == Failure(run.1.error))
                && (run.1.Pass? ==>
                      && r.Success? && fresh(r.value) && fresh(r.value.participant)
                      && r.value.study == loaded.study
                      && r.value.Record() == GameRecord(loaded.study.lastModifiedTime, sessionID, now, None,
                                                        run.0.states, NewRecord(None, 50.0, 0.0, [], None, None),
                                                        false, None)
                      && r.value.latestStateSources == run.0.latestSources
                      && r.value.latestStatePosts == run.0.latestPosts)
      ensures r.Success? ==> r.value.Valid() && |r.value.states| == r.value.study.length
    {
      if loaded.Broken? {
        return Failure("The study is broken: " + loaded.error);
      }
      var study := loaded.study;
      var participant := new GameParticipant(None, 50.0, 0.0, [], None, None);
      var game := new Game(study, study.lastModifiedTime, sessionID, now, None, [], participant, false, None);
      AllStatesFromScratch(study, oracle);
      var outcome := game.CalculateAllStates(oracle);
      if outcome.Fail? {
        return Failure(outcome.error);
      }
      return Success(game);
    }
  }

  /** `getGameChangesToAndFromJSON` on a game object. */
  function ChangesOnReload(game: Game, compress: Json -> Json, decompress: Json -> Json,
                           parseStudy: (Option<Json>, Json) -> Result<Study>): (r: Result<seq<Difference>>)
    reads game, game.participant
    ensures Restorable(game.study, game.Record())
            && decompress(compress(GameToJson(game.study, game.Record()))) == GameToJson(game.study, game.Record())
            ==> r == Success([])
  {
    var g := game.Record();
    assert Restorable(game.study, g) && decompress(compress(GameToJson(game.study, g))) == GameToJson(game.study, g)
           ==> GameChangesToAndFromJson(game.study, g, compress, decompress, parseStudy) == Success([]) by {
      if Restorable(game.study, g) && decompress(compress(GameToJson(game.study, g))) == GameToJson(game.study, g) {
        NoChangesToAndFromJson(game.study, g, compress, decompress, parseStudy);
      }
    }
    GameChangesToAndFromJson(game.study, g, compress, decompress, parseStudy)
  }
}

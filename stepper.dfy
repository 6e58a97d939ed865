/** What one call of `calculateNextState` computes, and what repeating it until
    the study's length is reached (`calculateAllStates`) gives. The class that
    holds the pool and the states between calls is `GameController.Game`; the
    functions here are the specification its methods are proved against. */
module Stepper {
  import opened Results
  import opened StudyCatalog
  import opened GameEntities

  /** The draws a step consumes: the sampled values of a fresh pool, the
      study's `sourcePostSelectionMethod.makeSelection`, which may throw, and
      the `share` samples of the selected post at each step index. */
  datatype StepOracle = StepOracle(
    sampler: Sampler,
    makeSelection: (nat, seq<GameSource>, seq<GamePost>) -> Result<(string, string)>,
    shareCredibility: nat -> real,
    shareFollowers: nat -> real)

  /** A fresh round of sources: one sampled instance per template, in the study's order. */
  function SampledSources(study: Study, sampler: Sampler): (r: seq<GameSource>)
    ensures |r| == |study.sources|
    ensures forall i :: 0 <= i < |r| ==>
              r[i].source == study.sources[i] && r[i].remainingUses == study.sources[i].maxPosts
    ensures forall i :: 0 <= i < |r| ==> r[i] == GameSource.SampleNewSource(study.sources[i], sampler)
  {
    seq(|study.sources|, i requires 0 <= i < |study.sources| =>
          GameSource.SampleNewSource(study.sources[i], sampler))
  }

  /** A fresh round of posts: one sampled, unshown instance per template, in the study's order. */
  function SampledPosts(study: Study, sampler: Sampler): (r: seq<GamePost>)
    ensures |r| == |study.posts|
    ensures forall i :: 0 <= i < |r| ==> r[i].post == study.posts[i] && !r[i].shown
    ensures forall i :: 0 <= i < |r| ==> r[i] == GamePost.SampledPost(study.posts[i], sampler)
  {
    seq(|study.posts|, i requires 0 <= i < |study.posts| => GamePost.SampledPost(study.posts[i], sampler))
  }

  /** The pool a step starts from: the previous step's pool, or a fresh one
      when either half of it is missing. */
  function CurrentPool(study: Study, latestSources: Option<seq<GameSource>>, latestPosts: Option<seq<GamePost>>,
                       sampler: Sampler): (r: (seq<GameSource>, seq<GamePost>))
    ensures latestSources.Some? && latestPosts.Some? ==> r == (latestSources.value, latestPosts.value)
    ensures latestSources.None? || latestPosts.None? ==>
              |r.0| == |study.sources| && |r.1| == |study.posts| && forall i :: 0 <= i < |r.1| ==> !r.1[i].shown
    ensures latestSources.None? || latestPosts.None? ==>
              r == (SampledSources(study, sampler), SampledPosts(study, sampler))
  {
    if latestSources.None? || latestPosts.None? then (SampledSources(study, sampler), SampledPosts(study, sampler))
    else (latestSources.value, latestPosts.value)
  }

  /** The `nextSources` loop: every entry with the new source's ID is replaced by it. */
  function ReplaceSource(sources: seq<GameSource>, newSource: GameSource): (r: seq<GameSource>)
    ensures |r| == |sources|
    ensures forall i :: 0 <= i < |r| ==> r[i].source.id == sources[i].source.id
    ensures forall i :: 0 <= i < |r| && sources[i].source.id == newSource.source.id ==> r[i] == newSource
    ensures forall i :: 0 <= i < |r| && sources[i].source.id != newSource.source.id ==> r[i] == sources[i]
  {
    seq(|sources|, i requires 0 <= i < |sources| =>
          if sources[i].source.id == newSource.source.id then newSource else sources[i])
  }

  /** The `nextPosts` loop: every entry with the new post's ID is replaced by it. */
  function ReplacePost(posts: seq<GamePost>, newPost: GamePost): (r: seq<GamePost>)
    ensures |r| == |posts|
    ensures forall i :: 0 <= i < |r| ==> r[i].post.id == posts[i].post.id
    ensures forall i :: 0 <= i < |r| && posts[i].post.id == newPost.post.id ==> r[i] == newPost
    ensures forall i :: 0 <= i < |r| && posts[i].post.id != newPost.post.id ==> r[i] == posts[i]
  {
    seq(|posts|, i requires 0 <= i < |posts| => if posts[i].post.id == newPost.post.id then newPost else posts[i])
  }

  /** A `share` change is sampled only when the post configures a distribution for it. */
  function ShareChange(changes: set<string>, draw: real): (r: real)
    ensures "share" in changes ==> r == draw
    ensures "share" !in changes ==> r == 0.0
  {
    if "share" in changes then draw else 0.0
  }

  /** The source a step's selection is adjusted to, and the post it shows. */
  function AdjustedSource(state: GameState, index: nat, oracle: StepOracle): (r: GameSource)
    ensures r.source == state.currentSource.source
    ensures r.remainingUses == if state.currentSource.remainingUses >= 0.0 then state.currentSource.remainingUses - 1.0
                               else -1.0
    ensures "share" !in state.currentPost.post.changesToCredibility ==>
              r.credibility == AdjustCredibility(state.currentSource.credibility, 0.0)
    ensures "share" !in state.currentPost.post.changesToFollowers ==>
              r.followers == AdjustFollowers(state.currentSource.followers, 0.0)
    ensures r.credibility == AdjustCredibility(state.currentSource.credibility,
                                               ShareChange(state.currentPost.post.changesToCredibility,
                                                           oracle.shareCredibility(index)))
    ensures r.followers == AdjustFollowers(state.currentSource.followers,
                                           ShareChange(state.currentPost.post.changesToFollowers,
                                                       oracle.shareFollowers(index)))
  {
    state.currentSource.AdjustAfterPost(
      ShareChange(state.currentPost.post.changesToCredibility, oracle.shareCredibility(index)),
      ShareChange(state.currentPost.post.changesToFollowers, oracle.shareFollowers(index)))
  }

  /** The new state and the pool the next step starts from. */
  datatype StepResult = StepResult(state: GameState, nextSources: seq<GameSource>, nextPosts: seq<GamePost>)

  const AllStatesCalculated := "Already calculated all states for study"

  /** One step on a given pool. It fails when every state is calculated, when
      the selection throws, or when a selected ID is not in the pool.
      Otherwise the new state sits at `index` and holds the selected source
      and post as they were before the step; the next pool has the same
      length and order, and only the entries with a selected ID change: to
      the adjusted source and to the post marked as shown. */
  function StepOnPool(study: Study, index: nat, sources: seq<GameSource>, posts: seq<GamePost>, oracle: StepOracle)
    : (r: Result<StepResult>)
    ensures index >= study.length ==> r == Failure(AllStatesCalculated)
    ensures index < study.length && oracle.makeSelection(index, sources, posts).Failure? ==>
              r == Failure(oracle.makeSelection(index, sources, posts).error)
    ensures index < study.length && oracle.makeSelection(index, sources, posts).Success? ==>
              var sid := oracle.makeSelection(index, sources, posts).value.0;
              var pid := oracle.makeSelection(index, sources, posts).value.1;
              && (GameSource.IndexOf(sources, sid).None? ==> r == Failure("Could not find source with ID " + sid))
              && (GameSource.IndexOf(sources, sid).Some? && GamePost.IndexOf(posts, pid).None? ==>
                    r == Failure("Could not find post with ID " + pid))
              && (GameSource.IndexOf(sources, sid).Some? && GamePost.IndexOf(posts, pid).Some? ==> r.Success?)
    ensures r.Success? ==>
              && index < study.length
              && oracle.makeSelection(index, sources, posts).Success?
              && var sid := oracle.makeSelection(index, sources, posts).value.0;
                 var pid := oracle.makeSelection(index, sources, posts).value.1;
                 var state := r.value.state;
                 && GameSource.IndexOf(sources, sid).Some? && GamePost.IndexOf(posts, pid).Some?
                 && state.indexInGame == index
                 && state.currentSource == sources[GameSource.IndexOf(sources, sid).value]
                 && state.currentPost == posts[GamePost.IndexOf(posts, pid).value]
                 && state.currentSource.source.id == sid && state.currentPost.post.id == pid
                 && |r.value.nextSources| == |sources| && |r.value.nextPosts| == |posts|
                 && (forall i :: 0 <= i < |sources| ==>
                       r.value.nextSources[i] ==
                         if sources[i].source.id == sid then AdjustedSource(state, index, oracle) else sources[i])
                 && (forall i :: 0 <= i < |posts| ==>
                       r.value.nextPosts[i] ==
                         if posts[i].post.id == pid then state.currentPost.AdjustAfterShown() else posts[i])
  {
    if index >= study.length then Failure(AllStatesCalculated)
    else
      var pair :- oracle.makeSelection(index, sources, posts);
      var sourceIndex := GameSource.IndexOf(sources, pair.0);
      var postIndex := GamePost.IndexOf(posts, pair.1);
      if sourceIndex.None? then Failure("Could not find source with ID " + pair.0)
      else if postIndex.None? then Failure("Could not find post with ID " + pair.1)
      else
        var state := GameState(index, sources[sourceIndex.value], posts[postIndex.value]);
        Success(StepResult(state, ReplaceSource(sources, AdjustedSource(state, index, oracle)),
                           ReplacePost(posts, state.currentPost.AdjustAfterShown())))
  }

  /** `calculateNextState` as a function of the number of states so far and the kept pool. */
  function NextState(study: Study, index: nat, latestSources: Option<seq<GameSource>>,
                     latestPosts: Option<seq<GamePost>>, oracle: StepOracle): (r: Result<StepResult>)
    ensures index >= study.length ==> r == Failure(AllStatesCalculated)
    ensures r.Success? ==> r.value.state.indexInGame == index
  {
    var pool := CurrentPool(study, latestSources, latestPosts, oracle.sampler);
    StepOnPool(study, index, pool.0, pool.1, oracle)
  }

  /** The states, and the pool kept for the next step. */
  datatype Run = Run(states: seq<GameState>, latestSources: Option<seq<GameSource>>, latestPosts: Option<seq<GamePost>>)

  /** `calculateAllStates`: steps until there are `study.length` states, and
      stops at the first step that throws, keeping the states calculated
      before it. It never drops or changes a state already there, gives every
      new state its position as `indexInGame`, and when no step throws it
      ends with exactly `study.length` states (or with the ones there were,
      if that is more). */
  function AllStates(study: Study, run: Run, oracle: StepOracle): (r: (Run, Outcome))
    ensures r.1.Pass? ==> |r.0.states| == if |run.states| >= study.length then |run.states| else study.length
    ensures r.1.Fail? ==> |run.states| <= |r.0.states| < study.length
    ensures |run.states| <= |r.0.states| && r.0.states[..|run.states|] == run.states
    ensures forall i :: |run.states| <= i < |r.0.states| ==> r.0.states[i].indexInGame == i
    ensures |run.states| >= study.length ==> r == (run, Pass)
    decreases study.length - |run.states|
  {
    if |run.states| >= study.length then (run, Pass)
    else
      match NextState(study, |run.states|, run.latestSources, run.latestPosts, oracle)
      case Failure(e) => (run, Fail(e))
      case Success(step) =>
        var next := Run(run.states + [step.state], Some(step.nextSources), Some(step.nextPosts));
        assert next.states[|run.states|].indexInGame == |run.states|;
        var r := AllStates(study, next, oracle);
        assert r.0.states[..|run.states|] == r.0.states[..|next.states|][..|run.states|];
        r
  }

  /** Every state's `indexInGame` is its position in the sequence. */
  predicate Indexed(states: seq<GameState>) {
    forall i :: 0 <= i < |states| ==> states[i].indexInGame == i
  }

  /** Starting from no states, `calculateAllStates` yields exactly `study.length`
      states, each at its own index, unless a step throws. */
  lemma AllStatesFromScratch(study: Study, oracle: StepOracle)
    ensures var r := AllStates(study, Run([], None, None), oracle);
            && Indexed(r.0.states)
            && (r.1.Pass? ==> |r.0.states| == study.length)
  {
  }

  /** A state appended at its own index keeps the states indexed. */
  lemma IndexedAppend(states: seq<GameState>, state: GameState)
    requires Indexed(states) && state.indexInGame == |states|
    ensures Indexed(states + [state])
  {
  }

  /** Calculating states keeps indices right: if they already were, they still are. */
  lemma AllStatesStayIndexed(study: Study, run: Run, oracle: StepOracle)
    requires Indexed(run.states)
    ensures Indexed(AllStates(study, run, oracle).0.states)
  {
    var r := AllStates(study, run, oracle);
    forall i | 0 <= i < |run.states|
      ensures r.0.states[i].indexInGame == i
    {
      assert r.0.states[i] == r.0.states[..|run.states|][i];
    }
  }

  // ---------------------------------------------------------------------
  // What a step does to the pool.

  /** The pool's entries keep their IDs, in order: a step changes the numbers
      of an entry, never which source or post it stands for. */
  predicate SamePoolIds(sources: seq<GameSource>, posts: seq<GamePost>,
                        nextSources: seq<GameSource>, nextPosts: seq<GamePost>) {
    && |nextSources| == |sources| && |nextPosts| == |posts|
    && (forall i :: 0 <= i < |sources| ==> nextSources[i].source.id == sources[i].source.id)
    && (forall i :: 0 <= i < |posts| ==> nextPosts[i].post.id == posts[i].post.id)
  }

  /** A step keeps each pool entry's ID, keeps every shown post shown and marks
      every entry of the selected post as shown. */
  lemma {:induction false} StepKeepsPool(study: Study, index: nat, sources: seq<GameSource>, posts: seq<GamePost>,
                                         oracle: StepOracle)
    requires StepOnPool(study, index, sources, posts, oracle).Success?
    ensures var step := StepOnPool(study, index, sources, posts, oracle).value;
            && SamePoolIds(sources, posts, step.nextSources, step.nextPosts)
            && (forall i :: 0 <= i < |posts| && posts[i].shown ==> step.nextPosts[i].shown)
            && (forall i :: 0 <= i < |posts| && posts[i].post.id == step.state.currentPost.post.id ==>
                  step.nextPosts[i].shown)
  {
    var step := StepOnPool(study, index, sources, posts, oracle).value;
    assert forall i :: 0 <= i < |sources| && sources[i].source.id == step.state.currentSource.source.id ==>
             step.nextSources[i] == AdjustedSource(step.state, index, oracle);
  }

  /** Through any run of steps from a pool that lists the IDs of the study's
      templates in the study's order, the pool keeps listing them so. */
  lemma {:induction false} AllStatesKeepStudyIds(study: Study, run: Run, oracle: StepOracle)
    requires run.latestSources.Some? && run.latestPosts.Some?
    requires SamePoolIds(SampledSources(study, oracle.sampler), SampledPosts(study, oracle.sampler),
                         run.latestSources.value, run.latestPosts.value)
    ensures var r := AllStates(study, run, oracle).0;
            && r.latestSources.Some? && r.latestPosts.Some?
            && SamePoolIds(SampledSources(study, oracle.sampler), SampledPosts(study, oracle.sampler),
                           r.latestSources.value, r.latestPosts.value)
    decreases study.length - |run.states|
  {
    if |run.states| < study.length {
      var step := NextState(study, |run.states|, run.latestSources, run.latestPosts, oracle);
      if step.Success? {
        StepKeepsPool(study, |run.states|, run.latestSources.value, run.latestPosts.value, oracle);
        var next := Run(run.states + [step.value.state], Some(step.value.nextSources), Some(step.value.nextPosts));
        AllStatesKeepStudyIds(study, next, oracle);
      }
    }
  }

  /** The run `createNew` starts, from no states and no pool: once a pool is
      kept, it lists the IDs of the study's templates in the study's order. */
  lemma AllStatesFromScratchKeepStudyIds(study: Study, oracle: StepOracle)
    ensures var r := AllStates(study, Run([], None, None), oracle).0;
            r.latestSources.Some? ==>
              && r.latestPosts.Some?
              && SamePoolIds(SampledSources(study, oracle.sampler), SampledPosts(study, oracle.sampler),
                             r.latestSources.value, r.latestPosts.value)
  {
    var run := Run([], None, None);
    var step := NextState(study, 0, None, None, oracle);
    if 0 < study.length && step.Success? {
      var sources := SampledSources(study, oracle.sampler);
      var posts := SampledPosts(study, oracle.sampler);
      assert step == StepOnPool(study, 0, sources, posts, oracle);
      StepKeepsPool(study, 0, sources, posts, oracle);
      AllStatesStep(study, run, oracle);
      AllStatesKeepStudyIds(study, Run(run.states + [step.value.state], Some(step.value.nextSources),
                                       Some(step.value.nextPosts)), oracle);
    }
  }

  /** One step of `calculateAllStates` that succeeds leaves the rest of the run to the new states and pool. */
  lemma AllStatesStep(study: Study, run: Run, oracle: StepOracle)
    requires |run.states| < study.length
    requires NextState(study, |run.states|, run.latestSources, run.latestPosts, oracle).Success?
    ensures var step := NextState(study, |run.states|, run.latestSources, run.latestPosts, oracle).value;
            AllStates(study, run, oracle) ==
              AllStates(study, Run(run.states + [step.state], Some(step.nextSources), Some(step.nextPosts)), oracle)
  {
  }
}

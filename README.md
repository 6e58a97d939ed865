# MisinformationGame: the game engine of `src/model/game/game.js`, in Dafny

This project models the engine that runs one participant's session of the
misinformation game. The engine has five parts:

- **Value objects.** A source has credibility, followers and a count of
  remaining uses. A post has reaction counts, its comments, and a flag that says
  whether it has been shown. Adjusting either one returns a new object.
- **Selection rules.** These pick a usable source or an unshown post, and find a
  source or a post by its ID.
- **The state stepper.** `calculateNextState` works on a pool of sources and posts:
  - the pool is sampled afresh when there is none;
  - each step appends one state, holding the selected source and post as they
    were *before* the step;
  - the pool is then rebuilt, with only the entries whose IDs were selected
    replaced.

  `calculateAllStates` repeats the step until the study's length is reached.
- **The participant's ledger.** Credibility and followers are clamped.
  `addReaction` appends to the interactions and to the two histories. The `Game`
  controller decides whether the game is finished, which screen to show, and
  what a submission does.
- **Persistence.** `toJSON`/`fromJSON` exist for every class, including the older
  blob format that embeds the whole study. `getGameChangesToAndFromJSON` is
  documented to find no changes.

## Modules

| file | module | what |
|---|---|---|
| `results.dfy` | `Results` | `Option`, `Result` (usable with `:-`), and `Outcome` for methods that may throw. |
| `json.dfy` | `JsonValues` | JSON values as `JSON.parse` produces them. `undefined` is `None`. Also holds the `doTypeCheck` family, JavaScript truthiness, and the shape of a `for (i < json.length)` loop over a member. |
| `study.dfy` | `StudyCatalog` | The parts of a study the engine reads: source and post templates, `length`, `requireIdentification`, `genCompletionCode`, and `getSource`/`getPost`. |
| `entities.dfy` | `GameEntities` | Datatypes for `adjustCredibility`/`adjustFollowers`, `GameSource`, `GamePostComment`, `GamePost` and `GameState`. |
| `entity_lemmas.dfy` | `EntityLemmas` | The JSON round-trips of the value objects, and how a source's uses count down. |
| `participant.dfy` | `Participant` | The ledger as a value, `ParticipantRecord`, and the class `GameParticipant`, which `addReaction` updates in place. |
| `stepper.dfy` | `Stepper` | What one step and the whole run of steps compute. This is the specification the `Game` methods are proved against. |
| `submission.dfy` | `Submission` | `isFinished`, `getCurrentStage`, `getCurrentState`, and what `submitInteraction` and the loop of `advanceStates` do to the ledger. |
| `persistence.dfy` | `Persistence` | `Game.toJSON`/`Game.fromJSON` on the saved part of a game, the round-trip, and `getGameChangesToAndFromJSON`. |
| `game.dfy` | `GameController` | The class `Game`. Its loops and field updates are proved equal to the functions above. It keeps `Valid`: every state sits at its own index, the histories are parallel, and no more interactions were submitted than the study's length. |

Randomness enters as parameters, so every result is a function of them:

- `Sampler` supplies a fresh pool's samples.
- `StepOracle` supplies `makeSelection` and the `share` samples of each step.
- `credibilityDraws(round, i)` and `followerDraws(round, i)` give the samples
  for reaction `i` of the `round`-th submission.
- `choice` and `random` stand for the draws of the selection helpers.
- `now` and `generatedCode` stand for the clock and the completion-code
  generator.

`max(-1, remainingUses - 1)` turns a source with no uses left into one with
unlimited uses. `EntityLemmas.ExhaustedSourceBecomesUnlimited` states this.
Only a selection that picks such a source can reach it, and
`selectRandomSource` never does.

## Model

| member | source | states |
|---|---|---|
| GameEntities.AdjustCredibility | src/model/game/game.js:20-22 | The result lies in [0, 100]. It is `current + change` when that sum is in range, 0 below the range and 100 above it. |
| GameEntities.AdjustFollowers | src/model/game/game.js:28-30 | The result is never negative. It is `current + change` when that sum is not negative, and 0 otherwise. |
| GameEntities.GameSource.CanBeUsed | src/model/game/game.js:93 | A source can be used iff it has no limit (`-1`) or has uses left. An exhausted source cannot. |
| GameEntities.GameSource.ToJson | src/model/game/game.js:68-75 | Exactly the four members `sourceID`, `credibility`, `followers` and `remainingUses`, with the template written as its ID. |
| GameEntities.Filter | src/model/game/game.js:91-94 | `filterArray` keeps exactly the elements the predicate accepts and never grows the list. |
| GameEntities.SelectRandomElement | src/model/game/game.js:237-240 | The chosen element belongs to the list. When some element passes the soft filter, the chosen one does. |
| GameEntities.GameSource.AdjustAfterPost | src/model/game/game.js:61-66 | The template is kept. Credibility and followers are `adjustCredibility`/`adjustFollowers` of the changes: clamped to [0, 100] and to at least 0, and equal to the plain sums when those are in range. `remainingUses` counts down and stops at -1 (an unlimited source stays unlimited). |
| GameEntities.GameSource.SampleNewSource | src/model/game/game.js:117-127 | A fresh source instance keeps its template, starts with `maxPosts` uses, and takes the sampled credibility and followers. |
| GameEntities.GameSource.SelectRandomSource | src/model/game/game.js:90-103 | Fails iff no source has `remainingUses == -1` or `> 0`. Otherwise it returns one of the usable sources. |
| GameEntities.GameSource.IndexOf | src/model/game/game.js:108-115 | The position of the first source with the ID; none iff no source has it. |
| GameEntities.GameSource.FindById | src/model/game/game.js:108-115 | The loop returns the first source with the ID. It fails with "Could not find source with ID " + id iff there is none. |
| GameEntities.GameSource.FromJson | src/model/game/game.js:77-85 | Succeeds iff `sourceID` names a template of the study and the three numbers have number type. The result takes the study's template for that ID. |
| GameEntities.GamePostComment.FromJson | src/model/game/game.js:147-152 | Succeeds iff the post has a comment template at that index and `numberOfReactions` is a map of numbers. The comment takes that template and those counts. |
| GameEntities.GamePostComment.ToJson | src/model/game/game.js:141-145 | Only the member `numberOfReactions`: the template is not written. |
| GameEntities.GamePost.AdjustAfterShown | src/model/game/game.js:183-185 | The copy is shown and is otherwise unchanged. |
| GameEntities.GamePost.SampledPost | src/model/game/game.js:259-270 | A fresh post is not shown, has the sampled counts, and has one sampled comment per comment template, in order. |
| GameEntities.GamePost.SampleNewPost | src/model/game/game.js:259-270 | The loop builds exactly that fresh post. |
| GameEntities.GamePost.SelectRandomPost | src/model/game/game.js:231-241 | Fails iff every post has been shown. Otherwise it returns an unshown post, and one whose `isTrue` matches the draw whenever such a post remains. |
| GameEntities.GamePost.IndexOf | src/model/game/game.js:246-253 | The position of the first post with the ID; none iff no post has it. |
| GameEntities.GamePost.FindById | src/model/game/game.js:246-253 | The loop returns the first post with the ID. It fails with "Could not find post with ID " + id iff there is none. |
| GameEntities.GamePost.CommentsJson | src/model/game/game.js:187-193 | One JSON entry per comment, in order. |
| GameEntities.GamePost.WriteComments | src/model/game/game.js:187-193 | The accumulator loop writes exactly those entries. |
| GameEntities.GamePost.CommentsFromJson | src/model/game/game.js:195-201 | Succeeds iff there are no more entries than comment templates and each entry has a map of numbers. Otherwise it reports the first failing entry's error. Entry `i` takes comment template `i`. |
| GameEntities.GamePost.ReadComments | src/model/game/game.js:195-201 | The accumulator loop yields exactly that result, including the error of the first comment that fails. |
| GameEntities.GamePost.ToJson | src/model/game/game.js:203-210 | Exactly the members `postID`, `numberOfReactions`, `comments` and `shown`. The template is written as its ID and the comments as the comment list's JSON. |
| GameEntities.GamePost.FromJson | src/model/game/game.js:212-222 | The result takes the study's template for `postID` and the stored counts. `shown` is true only when stored as `true`, so missing or null reads as false. |
| GameEntities.GameState.ToJson | src/model/game/game.js:295-300 | Exactly `currentSource` and `currentPost`, each the JSON of its entity. The index is not written. |
| GameEntities.GameState.FromJson | src/model/game/game.js:302-311 | The state takes the index it is given. |
| JsonValues.LoopElements | src/model/game/game.js:630 | What `for (i < json.length)` visits. A nullish value throws. An array gives its items, in order. A string gives one single-character string per character. Any other value gives nothing. |
| JsonValues.DecodeAll | src/model/game/game.js:628-634 | The pushing loop succeeds iff every element decodes, with one value per element, in order. Otherwise it reports the error of the first element that fails. |
| JsonValues.DecodeAllFailureSticks | src/model/game/game.js:628-634 | Once a prefix fails, the whole loop fails with the same error. |
| JsonValues.DecodeEncodeAll | src/model/game/game.js:620-634 | Reading back what the writing loop wrote gives the elements back, when each element reads back. |
| StudyCatalog.GetSource | src/model/game/game.js:80 | `study.getSource`: some template iff one has the ID, and then one with that ID. |
| StudyCatalog.GetPost | src/model/game/game.js:213 | `study.getPost`: some template iff one has the ID, and then one with that ID. |
| StudyCatalog.FirstWithId | src/model/game/game.js:80 | The first element with the ID; none iff no element has it. |
| EntityLemmas.SourceRoundTrip | src/model/game/game.js:68-85 | A source whose template the study has reads back as itself, with the study's template. It writes the same JSON again. |
| EntityLemmas.CommentsRoundTrip | src/model/game/game.js:187-201 | Comments read back against a post with enough templates keep their counts, in order, and write the same JSON. |
| EntityLemmas.PostRoundTrip | src/model/game/game.js:203-222 | A post whose template the study has reads back and writes the same JSON. |
| EntityLemmas.StateRoundTrip | src/model/game/game.js:295-311 | A state whose source and post resolve reads back, writes the same JSON, and takes the given index. |
| EntityLemmas.ExhaustedSourceBecomesUnlimited | src/model/game/game.js:64 | A source with 0 uses left cannot be used, yet after one more post it has -1 uses and can be used again. |
| EntityLemmas.UsesCountDown | src/model/game/game.js:61-66 | After `n` posts a source with `m >= n` uses has `m - n` left. One with exactly `n` uses is exhausted after them. An unlimited source stays unlimited. |
| Participant.InteractionRoundTrip | src/model/game/game.js:360 | An interaction reads back from its JSON form. |
| Participant.InteractionsRoundTrip | src/model/game/game.js:371 | The submitted interactions read back from their JSON form, in order. |
| Participant.ParticipantRecord.AddReaction | src/model/game/game.js:344-353 | The ID is kept. The interaction is appended. The clamped credibility and followers become current and are appended to their histories. |
| Participant.ParticipantRecord.FromJson | src/model/game/game.js:366-375 | A missing or null history is seeded with the current value. The credibility read is the stored number. |
| Participant.ParticipantRecord.ToJson | src/model/game/game.js:355-364 | Exactly the six members: the ID, the two numbers, the interactions and both histories. |
| Participant.NewRecord | src/model/game/game.js:327-342 | When absent, the histories start as `[credibility]` and `[followers]`; otherwise they are the ones given. |
| Participant.ParticipantRoundTrip | src/model/game/game.js:355-375 | A participant reads back from its JSON as the same participant. |
| Participant.ParticipantJsonFields | src/model/game/game.js:355-364 | The six members `toJSON` writes. |
| Participant.AddReactionExtends | src/model/game/game.js:344-353 | One `addReaction` extends the ledger by one entry in each list, keeps every earlier entry, and adds only clamped values. Parallel histories stay parallel. |
| Participant.ExtendsTransitive | src/model/game/game.js:348-352 | Extending an extension of a ledger extends the ledger. |
| Participant.GameParticipant.constructor | src/model/game/game.js:327-342 | The new object holds `NewRecord` of its arguments. |
| Participant.GameParticipant.AddReaction | src/model/game/game.js:344-353 | The fields, updated in place, hold `ParticipantRecord.AddReaction` of the old fields. Parallel histories stay parallel. |
| Participant.GameParticipant.ToJson | src/model/game/game.js:355-375 | What the object writes reads back with `fromJSON` as its own ledger. |
| Participant.GameParticipant.ReadJson | src/model/game/game.js:366-375 | A fresh participant holding exactly what the blob reads as, or the reader's error. |
| Stepper.SampledSources | src/model/game/game.js:572-576 | One fresh source per study template, in the study's order: entry `i` is `sampleNewSource` of template `i`, so it starts at `maxPosts` uses. |
| Stepper.SampledPosts | src/model/game/game.js:577-581 | One fresh post per study template, in the study's order: entry `i` is `sampleNewPost` of template `i`, unshown, with its sampled counts and comments. |
| Stepper.CurrentPool | src/model/game/game.js:566-582 | A kept pool is used as it is. When either half is null, the pool is freshly sampled: `sampleNewSource` and `sampleNewPost` of each template, in the study's order, every post unshown. |
| Stepper.ReplaceSource | src/model/game/game.js:601-606 | Same length and IDs, in order. The entries with the new source's ID become it, and the others are unchanged. |
| Stepper.ReplacePost | src/model/game/game.js:607-610 | Same length and IDs, in order. The entries with the new post's ID become it, and the others are unchanged. |
| Stepper.ShareChange | src/model/game/game.js:591-597 | A change is the sample when the post has a `share` distribution for it, and 0 when it has none. |
| Stepper.AdjustedSource | src/model/game/game.js:591-598 | The selected source after its post: same template, one use fewer (or still unlimited). Its credibility and followers are clamped after adding the `share` sample, or 0 when the post has no `share` distribution. |
| Stepper.StepOnPool | src/model/game/game.js:584-617 | Fails when all states are calculated, with the selection's error, or when a selected ID is absent (with `findById`'s message). Otherwise the new state sits at the old length and holds the selected source and post *before* adjustment. The next pool has the same length and order. Exactly the entries with the selected IDs become the adjusted source and the shown post. |
| Stepper.NextState | src/model/game/game.js:562-618 | `calculateNextState` fails with "Already calculated all states for study" once `length` states exist. A new state takes the old length as its index. |
| Stepper.AllStates | src/model/game/game.js:556-560 | The existing states are kept. Each new state takes its position as its index. Without a failure the run ends with `length` states (or the former count, when larger). A failing step stops the run below `length`. |
| Stepper.AllStatesFromScratch | src/model/game/game.js:685-687 | From no states, the run gives indexed states, exactly `length` of them when no step throws. |
| Stepper.AllStatesStayIndexed | src/model/game/game.js:556-560 | Running the stepper keeps every state at its own index. |
| Stepper.IndexedAppend | src/model/game/game.js:613-614 | A state pushed at index `states.length` keeps the states indexed. |
| Stepper.AllStatesStep | src/model/game/game.js:556-560 | A successful step leaves the rest of the `while` loop to the new states and pool. |
| Stepper.StepKeepsPool | src/model/game/game.js:600-610 | A step keeps the ID of every pool entry in place and keeps shown posts shown. Every entry of the selected post becomes shown. |
| Stepper.AllStatesKeepStudyIds | src/model/game/game.js:566-616 | Through any run of steps from a pool that lists the IDs of the study's templates in the study's order, the pool keeps listing them so. |
| Stepper.AllStatesFromScratchKeepStudyIds | src/model/game/game.js:556-581 | From no states and no pool, as `createNew` runs it, any pool kept at the end lists the study's template IDs in the study's order. |
| Submission.CurrentStage | src/model/game/game.js:460-468 | Each stage holds iff its condition holds, in priority order. Identification comes when the ID is unset and identification is required, even if the game is finished. Then debrief if finished, then game if the prompt was dismissed, then introduction. |
| Submission.CurrentState | src/model/game/game.js:470-475 | Fails with "The game has been finished!" iff the submitted count reaches `length`. Otherwise it gives `states[submittedCount]`, or nothing when that state was not calculated. |
| Submission.ReactionChanges | src/model/game/game.js:545-552 | The summed changes fail iff some reaction other than "skip" lacks a change distribution. |
| Submission.ConstantDrawsAddUp | src/model/game/game.js:545-552 | With constant draws, the changes are that value added once per reaction other than "skip". |
| Submission.SkipsDrawNothing | src/model/game/game.js:545-552 | Draws at "skip" positions, and the round's number, do not affect the changes. |
| Submission.ReactionFailureSticks | src/model/game/game.js:545-552 | Once a prefix of the reactions fails, the whole list fails with the same error. |
| Submission.SubmitOutcome | src/model/game/game.js:535-554 | The checks run in order: an incomplete interaction is rejected, then a finished game, then a missing state, then a reaction without a distribution. Otherwise the ledger records the interaction with the summed changes. |
| Submission.SubmitFailureSticks | src/model/game/game.js:514-516 | Once a prefix of the interactions is rejected, submitting the whole list ends in the same place. |
| Submission.SubmitOutcomeExtends | src/model/game/game.js:553 | An accepted submission appends the interaction and extends the ledger. |
| Submission.SubmitOutcomeKeepsLedger | src/model/game/game.js:535-554 | An accepted submission keeps the histories parallel and the count within `length`. |
| Submission.SubmitAll | src/model/game/game.js:514-516 | The ID is kept. The count grows by at most the number of interactions, and by all of them iff none is rejected. |
| Submission.SubmitAllStep | src/model/game/game.js:514-516 | After an accepted prefix, the next interaction is recorded, or the loop stops at it with its error. |
| Submission.SubmitAllExtends | src/model/game/game.js:514-516 | Any run of submissions keeps the ID and every earlier entry, grows the histories in step with the interactions, and adds only clamped values. |
| Submission.SubmitAllAppends | src/model/game/game.js:514-516 | When nothing is rejected, the interactions are appended, all of them, in order. |
| Submission.SubmitAllKeepsAccepted | src/model/game/game.js:514-516 | When one is rejected, exactly those before it are appended. |
| Submission.FreshLedgerHistories | src/model/game/game.js:327-353 | From the participant `createNew` makes, both histories have one entry more than the submitted count and start at 50 and 0. |
| Submission.OneLikeFinishes | src/model/game/game.js:535-554 | In a study of length one, a completed "like" drawing +5 on a fresh participant is accepted. Credibility goes from 50 to 55, both entries are in its history, and the game is finished. |
| Submission.SubmitAllStopsAtLength | src/model/game/game.js:453-455 | The submitted count never passes the study's length. |
| Submission.FinishedAcceptsNothing | src/model/game/game.js:453-455 | Once `isFinished` holds, every submission is rejected: the ledger stays as it is and a non-empty run fails. |
| Persistence.StatesJson | src/model/game/game.js:620-626 | One JSON entry per state, in order. |
| Persistence.StatesFromJson | src/model/game/game.js:628-634 | Succeeds iff every entry reads. Entry `i` becomes the state at index `i`. Otherwise it reports the first failing entry's error. |
| Persistence.StatesFromMember | src/model/game/game.js:628-634 | A missing or null member fails. An array reads as above. A string reads iff it is empty. Any other value has no `length` and gives no states. |
| Persistence.CompletionCodeJson | src/model/game/game.js:646 | A missing or empty code is written as null. |
| Persistence.StudyModTimeMember | src/model/game/game.js:653-659 | A blob that embeds its study takes that study's modification time, and fails when that study does not read. Otherwise `studyModTime` is used. |
| Persistence.NormaliseEndTime | src/model/game/game.js:412 | `endTime \|\| null` never keeps 0 and keeps every other value. |
| Persistence.GameFromJson | src/model/game/game.js:651-670 | A game read back carries the states and participant as read, and the stored session ID, start time and prompt flag. `studyModTime` is that of the embedded study when there is one, and the stored member otherwise. A stored `endTime` goes through `endTime \|\| null`, and a nullish one reads as null. A non-empty stored completion code is kept, and a falsy one reads as null. |
| Persistence.GameFieldsFromJson | src/model/game/game.js:398-412 | The constructor's checks, on the members `fromJSON` passes. The result holds the given states, participant and modification time. A stored `endTime` goes through `endTime \|\| null`, and a non-empty completion code is kept. |
| Persistence.StatesRoundTrip | src/model/game/game.js:620-634 | States whose templates resolve read back, are indexed by position, and write the same JSON. |
| Persistence.GameToJson | src/model/game/game.js:636-649 | The study is not embedded. `states` is the states' JSON and `participant` the participant's. |
| Persistence.GameJsonFields | src/model/game/game.js:636-649 | The members `toJSON` writes. |
| Persistence.ReadsBack | src/model/game/game.js:636-670 | A restorable game reads back from its JSON as its own fields. The states are rebuilt, and "" as a completion code reads as null. |
| Persistence.FieldsReadBack | src/model/game/game.js:398-412 | The constructor's checks pass on what `toJSON` wrote for a restorable game, and give back its fields. |
| Persistence.WritesBack | src/model/game/game.js:636-649 | What a restorable game reads back as writes the same JSON. |
| Persistence.GameJsonRoundTrip | src/model/game/game.js:636-670 | `toJSON(fromJSON(toJSON(g))) == toJSON(g)` for a restorable game. Every field is kept (a "" completion code becomes null), and the states are indexed by position. |
| Persistence.EndTimeZeroIsLost | src/model/game/game.js:412 | An `endTime` of 0 is written as 0 but read back as null, so it does not round-trip. |
| Persistence.Odiff | src/model/game/game.js:712 | No differences iff the two values are equal. |
| Persistence.GameChangesToAndFromJson | src/model/game/game.js:700-713 | A failing `fromJSON` throws its error. Otherwise the list of changes is empty iff the compressed JSON of the game read back equals that of the game. |
| Persistence.NoChangesToAndFromJson | src/model/game/game.js:700-713 | A restorable game shows no changes when decompression undoes compression. |
| GameController.Game.constructor | src/model/game/game.js:396-420 | The fields hold the arguments, with `endTime \|\| null` applied. The pool starts as null. |
| GameController.Game.IsFinished | src/model/game/game.js:453-455 | The game is finished iff `getCurrentState` throws "The game has been finished!". |
| GameController.Game.GetCurrentStage | src/model/game/game.js:460-468 | The game screen shows only with the prompt dismissed and a current state. The debrief shows only when finished, and a finished game shows it unless identification is due. |
| GameController.Game.GetCurrentState | src/model/game/game.js:470-475 | Throws iff finished. In a valid game the state given sits at the submitted count, and a game with all its states has one. |
| GameController.Game.SubmitInteraction | src/model/game/game.js:535-554 | The participant records the interaction iff `SubmitOutcome` accepts it, and is unchanged otherwise. `Valid` is kept. |
| GameController.Game.SumReactionChanges | src/model/game/game.js:545-552 | The loop's sums, or its failure, are exactly `ReactionChanges`. |
| GameController.Game.AdvanceStates | src/model/game/game.js:511-533 | The ledger is that of submitting the interactions in turn up to the first rejection. When all are accepted and the game is finished, `endTime` is `now`, and the completion code is set iff `genCompletionCode`. Otherwise both are untouched. `Valid` is kept. |
| GameController.Game.KeepsLedgerValid | src/model/game/game.js:511-516 | Any run of submissions keeps the ledger part of `Valid`. |
| GameController.Game.CalculateNextState | src/model/game/game.js:562-618 | It appends exactly the state `NextState` computes and keeps its pool. When the step throws, nothing changes. `Valid` is kept. |
| GameController.Game.SelectStep | src/model/game/game.js:563-610 | The length check, the pool, `makeSelection`, the two `findById` calls and both loops compute exactly `NextState` on the fields. |
| GameController.Game.SamplePool | src/model/game/game.js:570-581 | The two sampling loops build exactly the fresh pool. |
| GameController.Game.ReplaceSourceLoop | src/model/game/game.js:601-606 | The `nextSources` loop replaces exactly the entries with the new source's ID. |
| GameController.Game.ReplacePostLoop | src/model/game/game.js:607-610 | The `nextPosts` loop replaces exactly the entries with the new post's ID. |
| GameController.Game.CalculateAllStates | src/model/game/game.js:556-560 | The `while` loop ends where `AllStates` does, with the same outcome. `Valid` is kept. |
| GameController.Game.WriteStates | src/model/game/game.js:620-626 | The accumulator loop writes exactly `StatesJson`. |
| GameController.Game.ReadStates | src/model/game/game.js:628-634 | The accumulator loop reads exactly `StatesFromJson`, including the first failing state's error. |
| GameController.Game.WriteJson | src/model/game/game.js:636-649 | It writes exactly `GameToJson` of the game's record. |
| GameController.Game.ReadJson | src/model/game/game.js:651-670 | A fresh game holding exactly what `GameFromJson` reads, with no pool, or that reader's error. |
| GameController.Game.NewChecked | src/model/game/game.js:396-420 | The constructor's checks on what `fromJSON` passes: the first failing check's error, or a fresh game holding the checked values. |
| GameController.Game.CreateNew | src/model/game/game.js:675-690 | A broken study fails with "The study is broken: " + its error. Otherwise the game starts at `now` with participant (no ID, 50, 0) and holds the run of `AllStates` from nothing, or that run's error. A game made is `Valid` and has exactly `length` states. |
| GameController.ChangesOnReload | src/model/game/game.js:700-713 | The documented promise: a restorable game shows no changes. |

## Left out

- `saveLocally`, `saveToDatabase`, `getSaveToDatabasePromise`, `preloadNextState` and `preloadState` are not modelled. They are I/O: local storage, the results upload and image preloading.
- `Sampler`: its samples are functions of the template. Two templates with equal contents in one study therefore get equal samples, while `sampleNewSource` and `sampleNewPost` draw afresh on every call.
- Randomness and the clock are parameters:
  - `Math.random()` and the distributions' `sample()`/`sampleAll()`;
  - the study's `makeSelection`;
  - `generateUID`, `getUnixEpochTimeSeconds` and `generateRandomCompletionCode`.
- GameEntities.GameSource.SelectRandomSource: the weighting by `maxPosts` of `selectWeightedRandomElement` is not modelled. `choice` stands for the weighted draw, and the contract says only that the result is usable.
- GameEntities.SelectRandomElement: how the element is drawn is not modelled, only that it passes the soft filter whenever some element does.
- Numbers are exact reals. Floating-point rounding, `NaN` and infinities are not modelled.
- The interaction store and its completion rule come from the interactions module, which is not part of this model. `isCompleted` is a parameter, and the JSON form of an interaction is a stand-in that keeps its two lists.
- `compressJson`/`decompressJson` are parameters. `JSON.stringify` followed by `JSON.parse` is taken to give back its input.
- Persistence.Odiff: the listing of the changed paths is not modelled, only whether there are any.
- `Study.fromJSON` for the legacy blob is the parameter `parseStudy`. The study module is not part of this model.
- The submission loop sums samples over the post reactions only, as the code does. The comment reactions are not summed.
- Some errors that JavaScript raises as a native `TypeError` carry a descriptive message instead: "… has the wrong type", "The post has no change distribution for the reaction …", "There is no calculated state for the current post". These are reading a member of `undefined`, or a reaction with no distribution.
- The runtime type checks on values the engine builds itself are replaced by Dafny's typing. This covers `doTypeCheck` on the study, templates, arrays of interactions and the counts passed to `addReaction`. The checks on what `fromJSON` reads are modelled.
- GameEntities.GamePostComment.FromJson and GameEntities.GamePost.FromJson require `numberOfReactions` to be an object of numbers. The JavaScript check accepts any object.
- A JSON object that has a `length` member is treated like any other object when a loop runs to `json.length`: it gives no elements.
- `participantID` of `undefined` and of `null` are both `None`.
- `createNew` passes no interaction store to `new GameParticipant(null, 50, 0)`, and the constructor type-checks that missing store as a `GamePostInteractionStore`. Whether that check lets `undefined` through depends on `doTypeCheck`, which is not part of this model. If it does not, `createNew` always throws there. The model assumes it does, and gives the participant an empty store.
- The `study` back-reference that sources, posts and states carry is not stored, since it is the same study throughout.
- Stepper.StepKeepsPool and Stepper.AllStatesKeepStudyIds: these speak of the pool's IDs, not its templates. The study can hold two templates with one ID, and the step then replaces both entries with the adjusted first one.
- Persistence.GameJsonRoundTrip requires `endTime != 0`, because `endTime || null` turns 0 into null. Persistence.EndTimeZeroIsLost states the failing case.

/** `Game.toJSON`, `Game.fromJSON` and `getGameChangesToAndFromJSON` on the
    saved part of a game. The pool of the stepper is not saved. */
module Persistence {
  import opened Results
  import opened JsonValues
  import opened StudyCatalog
  import opened GameEntities
  import opened EntityLemmas
  import opened Participant

  /** What a game saves: everything but its study (saved as `studyID`) and its pool. */
  datatype GameRecord = GameRecord(
    studyModTime: real,
    sessionID: string,
    startTime: real,
    endTime: Option<real>,
    states: seq<GameState>,
    participant: ParticipantRecord,
    dismissedPrompt: bool,
    completionCode: Option<string>)

  /** `statesToJSON`. */
  function StatesJson(states: seq<GameState>): (r: seq<Json>)
    ensures |r| == |states|
    ensures forall i :: 0 <= i < |states| ==> r[i] == states[i].ToJson()
  {
    EncodeAll(states, (s: GameState) => s.ToJson())
  }

  /** `statesFromJSON` on an array: the state at position `i` gets `indexInGame == i`. */
  function StatesFromJson(items: seq<Json>, study: Study): (r: Result<seq<GameState>>)
    ensures r.Success? <==> forall i :: 0 <= i < |items| ==> GameState.FromJson(items[i], study, i).Success?
    ensures r.Success? ==> |r.value| == |items|
    ensures r.Success? ==> forall i :: 0 <= i < |items| ==> GameState.FromJson(items[i], study, i) == Success(r.value[i])
    ensures r.Failure? ==> exists k :: 0 <= k < |items| && GameState.FromJson(items[k], study, k) == Failure(r.error)
                                        && forall i :: 0 <= i < k ==> GameState.FromJson(items[i], study, i).Success?
  {
    DecodeAll(items, StateReader(study))
  }

  /** `GameState.fromJSON` against `study`, as a decoder of array elements. */
  function StateReader(study: Study): (Json, nat) -> Result<GameState> {
    (j: Json, i: nat) => GameState.FromJson(j, study, i)
  }

  /** `statesFromJSON(json["states"])` on whatever the member holds. Its loop
      runs to `json.length`: a missing or null member throws, a string reads
      its characters (none for the empty string, and a character has no
      source), and any other value has no length and gives no states. */
  function StatesFromMember(v: Option<Json>, study: Study): (r: Result<seq<GameState>>)
    ensures (v.Some? && v.value.JArr?) ==> r == StatesFromJson(v.value.items, study)
    ensures IsNullish(v) ==> r.Failure?
    ensures r.Success? && !(v.Some? && v.value.JArr?) ==> r.value == []
    ensures v.Some? && v.value.JStr? ==> (r.Success? <==> v.value.s == [])
    ensures v.Some? && !v.value.JArr? && !v.value.JStr? && !v.value.JNull? ==> r == Success([])
  {
    match LoopElements(v)
    case None => TypeError("Game States")
    case Some(items) =>
      assert |items| > 0 && v.value.JStr? ==> GameState.FromJson(items[0], study, 0).Failure?;
      StatesFromJson(items, study)
  }

  /** `completionCode || null`. */
  function CompletionCodeJson(completionCode: Option<string>): (r: Json)
    ensures completionCode.None? || completionCode == Some("") ==> r == JNull
    ensures completionCode.Some? && completionCode.value != "" ==> r == JStr(completionCode.value)
  {
    OrNull(if completionCode.Some? then Some(JStr(completionCode.value)) else None)
  }

  /** `Game.toJSON`. A `completionCode` that is not truthy is written as null. */
  function GameToJson(study: Study, g: GameRecord): (r: Json)
    ensures Field(r, "study").None?
    ensures Field(r, "states") == Some(JArr(StatesJson(g.states)))
    ensures Field(r, "participant") == Some(g.participant.ToJson())
  {
    JObj(map[
      "studyID" := JStr(study.id),
      "studyModTime" := JNum(g.studyModTime),
      "sessionID" := JStr(g.sessionID),
      "startTime" := JNum(g.startTime),
      "endTime" := (if g.endTime.Some? then JNum(g.endTime.value) else JNull),
      "states" := JArr(StatesJson(g.states)),
      "participant" := g.participant.ToJson(),
      "dismissedPrompt" := JBool(g.dismissedPrompt),
      "completionCode" := CompletionCodeJson(g.completionCode)])
  }

  /** The `studyModTime` member `Game.fromJSON` uses: a blob that embeds its
      whole study (the older format) takes the modification time of that
      study, which `parseStudy` (`Study.fromJSON`) reads and which may fail. */
  function StudyModTimeMember(j: Json, parseStudy: (Option<Json>, Json) -> Result<Study>): (r: Result<Option<Json>>)
    ensures Field(j, "study").None? ==> r == Success(Field(j, "studyModTime"))
    ensures Field(j, "study").Some? && parseStudy(Field(j, "studyID"), Field(j, "study").value).Success? ==>
              r == Success(Some(JNum(parseStudy(Field(j, "studyID"), Field(j, "study").value).value.lastModifiedTime)))
    ensures Field(j, "study").Some? && parseStudy(Field(j, "studyID"), Field(j, "study").value).Failure? ==>
              r.Failure?
  {
    var legacy := Field(j, "study");
    if legacy.Some? then
      var legacyStudy :- parseStudy(Field(j, "studyID"), legacy.value);
      Success(Some(JNum(legacyStudy.lastModifiedTime)))
    else Success(Field(j, "studyModTime"))
  }

  /** `endTime || null` after its type check. */
  function NormaliseEndTime(endTime: Option<real>): (r: Option<real>)
    ensures r != Some(0.0)
    ensures endTime != Some(0.0) ==> r == endTime
  {
    if endTime == Some(0.0) then None else endTime
  }

  /** `Game.fromJSON`, in JavaScript's order: the embedded study, the states,
      the participant, then the constructor's type checks. `endTime` and
      `completionCode` that are not truthy become null. */
  function GameFromJson(j: Json, study: Study, parseStudy: (Option<Json>, Json) -> Result<Study>)
    : (r: Result<GameRecord>)
    ensures r.Success? ==> StatesFromMember(Field(j, "states"), study) == Success(r.value.states)
    ensures r.Success? ==> ParticipantRecord.FromJson(Field(j, "participant").GetOr(JNull)) == Success(r.value.participant)
    ensures r.Success? ==> Field(j, "sessionID") == Some(JStr(r.value.sessionID))
                           && Field(j, "startTime") == Some(JNum(r.value.startTime))
                           && Field(j, "dismissedPrompt") == Some(JBool(r.value.dismissedPrompt))
    ensures r.Success? ==> r.value.endTime != Some(0.0) && r.value.completionCode != Some("")
    ensures r.Success? && Field(j, "study").None? ==> Field(j, "studyModTime") == Some(JNum(r.value.studyModTime))
    ensures r.Success? && IsNullish(Field(j, "endTime")) ==> r.value.endTime.None?
    ensures r.Success? && !Truthy(Field(j, "completionCode")) ==> r.value.completionCode.None?
    ensures r.Success? && Field(j, "endTime").Some? && Field(j, "endTime").value.JNum? ==>
              r.value.endTime == NormaliseEndTime(Some(Field(j, "endTime").value.n))
    ensures r.Success? && Field(j, "completionCode").Some? && Field(j, "completionCode").value.JStr?
            && Field(j, "completionCode").value.s != "" ==>
              r.value.completionCode == Some(Field(j, "completionCode").value.s)
    ensures r.Success? ==> StudyModTimeMember(j, parseStudy) == Success(Some(JNum(r.value.studyModTime)))
  {
    var studyModTime :- StudyModTimeMember(j, parseStudy);
    var states :- StatesFromMember(Field(j, "states"), study);
    var participant :- ParticipantRecord.FromJson(Field(j, "participant").GetOr(JNull));
    GameFieldsFromJson(j, studyModTime, states, participant)
  }

  /** The type checks of the `Game` constructor, in its order, on what
      `fromJSON` has read so far. */
  function GameFieldsFromJson(j: Json, studyModTime: Option<Json>, states: seq<GameState>, participant: ParticipantRecord)
    : (r: Result<GameRecord>)
    ensures r.Success? ==> r.value.states == states && r.value.participant == participant
    ensures r.Success? ==> studyModTime == Some(JNum(r.value.studyModTime))
    ensures r.Success? ==> Field(j, "sessionID") == Some(JStr(r.value.sessionID))
                           && Field(j, "startTime") == Some(JNum(r.value.startTime))
                           && Field(j, "dismissedPrompt") == Some(JBool(r.value.dismissedPrompt))
    ensures r.Success? ==> r.value.endTime != Some(0.0) && r.value.completionCode != Some("")
    ensures r.Success? && IsNullish(Field(j, "endTime")) ==> r.value.endTime.None?
    ensures r.Success? && !Truthy(Field(j, "completionCode")) ==> r.value.completionCode.None?
    ensures r.Success? && Field(j, "endTime").Some? && Field(j, "endTime").value.JNum? ==>
              r.value.endTime == NormaliseEndTime(Some(Field(j, "endTime").value.n))
    ensures r.Success? && Field(j, "completionCode").Some? && Field(j, "completionCode").value.JStr?
            && Field(j, "completionCode").value.s != "" ==>
              r.value.completionCode == Some(Field(j, "completionCode").value.s)
  {
    var modTime :- AsNumber(studyModTime, "Game Study Modification Time");
    var sessionID :- AsString(Field(j, "sessionID"), "Game Session ID");
    var startTime :- AsNumber(Field(j, "startTime"), "Game Start Time");
    var endTime :- AsNullableNumber(Field(j, "endTime"), "Game End Time");
    var dismissedPrompt :- AsBool(Field(j, "dismissedPrompt"), "Whether the prompt has been dismissed");
    var completionCode :- AsNullableString(Some(OrNull(Field(j, "completionCode"))), "Game Completion Code");
    Success(GameRecord(modTime, sessionID, startTime, NormaliseEndTime(endTime), states, participant,
                       dismissedPrompt, completionCode))
  }

  /** What a saved game needs to be read back against `study`: the study still
      has every source, post and comment template its states refer to, and
      `endTime` is not 0 (which `|| null` would turn into null). */
  predicate Restorable(study: Study, g: GameRecord) {
    && (forall i :: 0 <= i < |g.states| ==> StateResolves(study, g.states[i]))
    && g.endTime != Some(0.0)
  }

  /** Reading back the states `statesToJSON` wrote writes the same JSON. */
  lemma StatesRoundTrip(states: seq<GameState>, study: Study)
    requires forall i :: 0 <= i < |states| ==> StateResolves(study, states[i])
    ensures StatesFromJson(StatesJson(states), study).Success?
    ensures StatesJson(StatesFromJson(StatesJson(states), study).value) == StatesJson(states)
    ensures forall i :: 0 <= i < |states| ==> StatesFromJson(StatesJson(states), study).value[i].indexInGame == i
  {
    var items := StatesJson(states);
    forall i | 0 <= i < |states|
      ensures GameState.FromJson(items[i], study, i).Success?
      ensures GameState.FromJson(items[i], study, i).value.ToJson() == states[i].ToJson()
    {
      StateRoundTrip(states[i], study, i);
    }
    var back := StatesFromJson(items, study).value;
    assert StatesJson(back) == items;
  }

  /** What a restorable game reads back as: its own fields, the states as
      `statesFromJSON` rebuilds them, and a "" `completionCode` as null. */
  function ReadBack(study: Study, g: GameRecord): GameRecord
    requires forall i :: 0 <= i < |g.states| ==> StateResolves(study, g.states[i])
  {
    StatesRoundTrip(g.states, study);
    GameRecord(g.studyModTime, g.sessionID, g.startTime, g.endTime,
               StatesFromJson(StatesJson(g.states), study).value, g.participant, g.dismissedPrompt,
               if g.completionCode == Some("") then None else g.completionCode)
  }

  /** The members `Game.toJSON` writes. */
  lemma GameJsonFields(study: Study, g: GameRecord)
    ensures var j := GameToJson(study, g);
            && Field(j, "study").None?
            && Field(j, "studyModTime") == Some(JNum(g.studyModTime))
            && Field(j, "sessionID") == Some(JStr(g.sessionID))
            && Field(j, "startTime") == Some(JNum(g.startTime))
            && Field(j, "endTime") == Some(if g.endTime.Some? then JNum(g.endTime.value) else JNull)
            && Field(j, "states") == Some(JArr(StatesJson(g.states)))
            && Field(j, "participant") == Some(g.participant.ToJson())
            && Field(j, "dismissedPrompt") == Some(JBool(g.dismissedPrompt))
            && Field(j, "completionCode") == Some(CompletionCodeJson(g.completionCode))
  {
  }

  lemma ReadsBack(study: Study, g: GameRecord, parseStudy: (Option<Json>, Json) -> Result<Study>)
    requires Restorable(study, g)
    ensures GameFromJson(GameToJson(study, g), study, parseStudy) == Success(ReadBack(study, g))
  {
    var j := GameToJson(study, g);
    GameJsonFields(study, g);
    StatesRoundTrip(g.states, study);
    ParticipantRoundTrip(g.participant);
    var back := ReadBack(study, g);
    assert StudyModTimeMember(j, parseStudy) == Success(Some(JNum(g.studyModTime)));
    assert StatesFromMember(Field(j, "states"), study) == Success(back.states);
    assert ParticipantRecord.FromJson(Field(j, "participant").GetOr(JNull)) == Success(g.participant);
    FieldsReadBack(study, g);
  }

  /** The constructor's checks pass on what `Game.toJSON` wrote, and give back its fields. */
  lemma FieldsReadBack(study: Study, g: GameRecord)
    requires Restorable(study, g)
    ensures GameFieldsFromJson(GameToJson(study, g), Some(JNum(g.studyModTime)), ReadBack(study, g).states,
                               g.participant) == Success(ReadBack(study, g))
  {
    var j := GameToJson(study, g);
    GameJsonFields(study, g);
    var back := ReadBack(study, g);
    assert AsNullableNumber(Field(j, "endTime"), "Game End Time") == Success(g.endTime);
    assert AsNullableString(Some(OrNull(Field(j, "completionCode"))), "Game Completion Code") ==
           Success(back.completionCode);
  }

  lemma WritesBack(study: Study, g: GameRecord)
    requires Restorable(study, g)
    ensures GameToJson(study, ReadBack(study, g)) == GameToJson(study, g)
  {
    StatesRoundTrip(g.states, study);
    var back := ReadBack(study, g);
    assert back == g.(states := back.states, completionCode := back.completionCode);
    assert StatesJson(back.states) == StatesJson(g.states);
    assert CompletionCodeJson(back.completionCode) == CompletionCodeJson(g.completionCode);
  }

  /** A restorable game read back from what it writes is the same game up to
      the templates (taken from the study) and a `completionCode` of "",
      which reads back as null; so it writes the same JSON again. */
  lemma GameJsonRoundTrip(study: Study, g: GameRecord, parseStudy: (Option<Json>, Json) -> Result<Study>)
    requires Restorable(study, g)
    ensures GameFromJson(GameToJson(study, g), study, parseStudy).Success?
    ensures var back := GameFromJson(GameToJson(study, g), study, parseStudy).value;
            && back.studyModTime == g.studyModTime && back.sessionID == g.sessionID
            && back.startTime == g.startTime && back.endTime == g.endTime
            && back.participant == g.participant && back.dismissedPrompt == g.dismissedPrompt
            && back.completionCode == (if g.completionCode == Some("") then None else g.completionCode)
            && |back.states| == |g.states|
            && (forall i :: 0 <= i < |g.states| ==> back.states[i].indexInGame == i)
    ensures GameToJson(study, GameFromJson(GameToJson(study, g), study, parseStudy).value) == GameToJson(study, g)
  {
    ReadsBack(study, g, parseStudy);
    WritesBack(study, g);
    StatesRoundTrip(g.states, study);
  }

  /** A game whose `endTime` is 0 writes 0 but reads back null, so it does not
      write the same JSON again. */
  lemma EndTimeZeroIsLost(study: Study, g: GameRecord, parseStudy: (Option<Json>, Json) -> Result<Study>)
    requires g.endTime == Some(0.0)
    ensures var back := GameFromJson(GameToJson(study, g), study, parseStudy);
            back.Success? ==> GameToJson(study, back.value) != GameToJson(study, g)
  {
    var back := GameFromJson(GameToJson(study, g), study, parseStudy);
    if back.Success? {
      GameJsonFields(study, g);
      GameJsonFields(study, back.value);
      assert Field(GameToJson(study, back.value), "endTime") != Field(GameToJson(study, g), "endTime");
    }
  }

  /** One difference `odiff` reports. */
  datatype Difference = Difference(before: Json, after: Json)

  /** `odiff`: no differences exactly when the two values are equal. The
      listing of the individual changed paths is not modelled. */
  function Odiff(before: Json, after: Json): (r: seq<Difference>)
    ensures r == [] <==> before == after
  {
    if before == after then [] else [Difference(before, after)]
  }

  /** `getGameChangesToAndFromJSON`: the differences between the compressed JSON
      of a game and that of the game read back from it. `compress` and
      `decompress` stand for `compressJson` and `decompressJson`; the
      `JSON.stringify`/`JSON.parse` pair in between gives back what it was
      given. */
  function GameChangesToAndFromJson(study: Study, g: GameRecord, compress: Json -> Json, decompress: Json -> Json,
                                    parseStudy: (Option<Json>, Json) -> Result<Study>): (r: Result<seq<Difference>>)
    ensures var read := GameFromJson(decompress(compress(GameToJson(study, g))), study, parseStudy);
            && (read.Failure? ==> r == Failure(read.error))
            && (read.Success? ==>
                  r.Success? && (r.value == [] <==> compress(GameToJson(study, g)) == compress(GameToJson(study, read.value))))
  {
    var jsonObject := compress(GameToJson(study, g));
    var reconstructed :- GameFromJson(decompress(jsonObject), study, parseStudy);
    Success(Odiff(jsonObject, compress(GameToJson(study, reconstructed))))
  }

  /** The documented promise: a restorable game shows no changes when
      `decompress` undoes `compress` on its JSON. */
  lemma NoChangesToAndFromJson(study: Study, g: GameRecord, compress: Json -> Json, decompress: Json -> Json,
                               parseStudy: (Option<Json>, Json) -> Result<Study>)
    requires Restorable(study, g)
    requires decompress(compress(GameToJson(study, g))) == GameToJson(study, g)
    ensures GameChangesToAndFromJson(study, g, compress, decompress, parseStudy) == Success([])
  {
    GameJsonRoundTrip(study, g, parseStudy);
  }
}

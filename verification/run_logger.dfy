/**
  The run log (`RunLoggerService`): every call to the executor is recorded as
  one run. `logSuccess` and `logError` each build one record from their
  parameters; previews are cut to 500 characters, and optional text that is
  absent or empty is stored as null (None). The repository's `save` is a store
  of records that gives each saved record the next id.
 */
module RunLogger {
  import opened Wrappers
  import opened Json
  import opened ExecutorErrors

  /** The longest preview stored. */
  const PreviewLength: nat := 500

  /** `LogRunSuccessParams`: numbers and the session keep the JSON values the CLI reported. */
  datatype SuccessParams = SuccessParams(
    taskType: string,
    model: string,
    agentName: Option<string>,
    sessionId: Json,
    tokensIn: Json,
    tokensOut: Json,
    costUsd: Json,
    durationMs: int,
    referenceType: Option<string>,
    referenceId: Option<string>,
    inputPreview: Option<string>,
    outputPreview: Option<string>)

  /** `LogRunErrorParams`; `errorCode` is an error code's name or "UNKNOWN_ERROR". */
  datatype ErrorParams = ErrorParams(
    taskType: string,
    model: string,
    agentName: Option<string>,
    durationMs: int,
    errorCode: string,
    errorMessage: string,
    referenceType: Option<string>,
    referenceId: Option<string>,
    inputPreview: Option<string>)

  /**
    The fields of a `ClaudeCliRun` before it is saved; None is a null column.
    `createdAt` is the clock reading when the run is logged.
   */
  datatype RunRecord = RunRecord(
    taskType: string,
    model: string,
    agentName: Option<string>,
    sessionId: Option<Json>,
    tokensIn: Option<Json>,
    tokensOut: Option<Json>,
    costUsd: Option<Json>,
    durationMs: int,
    success: bool,
    errorCode: Option<string>,
    errorMessage: Option<string>,
    referenceType: Option<string>,
    referenceId: Option<string>,
    inputPreview: Option<string>,
    outputPreview: Option<string>,
    createdAt: int)

  /** A saved run: the record and the id the store gave it. */
  datatype SavedRun = SavedRun(id: RunId, record: RunRecord)

  /** `s || null` for optional text: absent and empty text are both stored as null. */
  function OrNull(s: Option<string>): (r: Option<string>)
    ensures r.Some? <==> s.Some? && s.value != ""
    ensures r.Some? ==> r.value == s.value
  {
    if s.Some? && s.value != "" then s else None
  }

  /** `s?.substring(0, 500) || null`. */
  function Preview(s: Option<string>): (r: Option<string>)
    ensures r.Some? <==> s.Some? && s.value != ""
    ensures r.Some? ==> |r.value| <= |s.value| && |r.value| <= PreviewLength && r.value == s.value[..|r.value|]
    ensures r.Some? ==> |r.value| == if |s.value| < PreviewLength then |s.value| else PreviewLength
  {
    if s.Some? && s.value != "" then
      Some(if |s.value| <= PreviewLength then s.value else s.value[..PreviewLength])
    else None
  }

  /** A preview of text no longer than the limit is the whole text. */
  lemma ShortTextPreviewedWhole(s: string)
    requires 0 < |s| <= PreviewLength
    ensures Preview(Some(s)) == Some(s)
  {
  }

  /** The record `logSuccess` saves. */
  function SuccessRecord(p: SuccessParams, now: int): (r: RunRecord)
    ensures r.success && r.errorCode.None? && r.errorMessage.None?
    ensures r.sessionId == Some(p.sessionId) && r.tokensIn == Some(p.tokensIn) && r.tokensOut == Some(p.tokensOut)
    ensures r.costUsd == Some(p.costUsd) && r.durationMs == p.durationMs
    ensures r.taskType == p.taskType && r.model == p.model
    ensures r.agentName == OrNull(p.agentName) && r.referenceType == OrNull(p.referenceType) && r.referenceId == OrNull(p.referenceId)
    ensures r.inputPreview == Preview(p.inputPreview) && r.outputPreview == Preview(p.outputPreview)
  {
    RunRecord(
      taskType := p.taskType,
      model := p.model,
      agentName := OrNull(p.agentName),
      sessionId := Some(p.sessionId),
      tokensIn := Some(p.tokensIn),
      tokensOut := Some(p.tokensOut),
      costUsd := Some(p.costUsd),
      durationMs := p.durationMs,
      success := true,
      errorCode := None,
      errorMessage := None,
      referenceType := OrNull(p.referenceType),
      referenceId := OrNull(p.referenceId),
      inputPreview := Preview(p.inputPreview),
      outputPreview := Preview(p.outputPreview),
      createdAt := now)
  }

  /** The record `logError` saves. */
  function ErrorRecord(p: ErrorParams, now: int): (r: RunRecord)
    ensures !r.success && r.errorCode == Some(p.errorCode) && r.errorMessage == Some(p.errorMessage)
    ensures r.sessionId.None? && r.tokensIn.None? && r.tokensOut.None? && r.costUsd.None? && r.outputPreview.None?
    ensures r.durationMs == p.durationMs && r.taskType == p.taskType && r.model == p.model
    ensures r.agentName == OrNull(p.agentName) && r.referenceType == OrNull(p.referenceType) && r.referenceId == OrNull(p.referenceId)
    ensures r.inputPreview == Preview(p.inputPreview)
  {
    RunRecord(
      taskType := p.taskType,
      model := p.model,
      agentName := OrNull(p.agentName),
      sessionId := None,
      tokensIn := None,
      tokensOut := None,
      costUsd := None,
      durationMs := p.durationMs,
      success := false,
      errorCode := Some(p.errorCode),
      errorMessage := Some(p.errorMessage),
      referenceType := OrNull(p.referenceType),
      referenceId := OrNull(p.referenceId),
      inputPreview := Preview(p.inputPreview),
      outputPreview := None,
      createdAt := now)
  }

  /**
    A success record and an error record logged for the same task agree on
    everything that describes the request, and differ in `success`.
   */
  lemma RecordsShareRequestFields(s: SuccessParams, e: ErrorParams, now: int)
    requires s.taskType == e.taskType && s.model == e.model && s.agentName == e.agentName
    requires s.referenceType == e.referenceType && s.referenceId == e.referenceId && s.inputPreview == e.inputPreview
    ensures var a, b := SuccessRecord(s, now), ErrorRecord(e, now);
      && a.taskType == b.taskType && a.model == b.model && a.agentName == b.agentName
      && a.referenceType == b.referenceType && a.referenceId == b.referenceId && a.inputPreview == b.inputPreview
      && a.success != b.success
  {
  }

  /** The run repository: the saved runs, in the order they were saved. */
  class RunStore {
    var runs: seq<SavedRun>

    /** Each run's id is its position: ids are given in order and never reused. */
    predicate Valid()
      reads this
    {
      forall i :: 0 <= i < |runs| ==> runs[i].id == i
    }

    constructor()
      ensures runs == [] && Valid()
    {
      runs := [];
    }

    /** `save`: stores the record under the next id and returns the saved run. */
    method Save(record: RunRecord) returns (saved: SavedRun)
      requires Valid()
      modifies this
      ensures Valid()
      ensures saved == SavedRun(|old(runs)|, record)
      ensures runs == old(runs) + [saved]
    {
      saved := SavedRun(|runs|, record);
      runs := runs + [saved];
    }
  }

  /** `logSuccess`: saves the success record, timestamped `now`. */
  method LogSuccess(store: RunStore, p: SuccessParams, now: int) returns (saved: SavedRun)
    requires store.Valid()
    modifies store
    ensures store.Valid()
    ensures saved == SavedRun(|old(store.runs)|, SuccessRecord(p, now))
    ensures store.runs == old(store.runs) + [saved]
  {
    saved := store.Save(SuccessRecord(p, now));
  }

  /** `logError`: saves the error record, timestamped `now`. */
  method LogError(store: RunStore, p: ErrorParams, now: int) returns (saved: SavedRun)
    requires store.Valid()
    modifies store
    ensures store.Valid()
    ensures saved == SavedRun(|old(store.runs)|, ErrorRecord(p, now))
    ensures store.runs == old(store.runs) + [saved]
  {
    saved := store.Save(ErrorRecord(p, now));
  }
}

/** The HTTP layer (api/routes.py): each handler reads or updates the one
    application-wide ScanSession and builds the JSON reply or the HTTP error.
    The reply a handler sends is described by a pure function of the session
    state it reads; the handler methods tie the session object to it. */
module Routes {
  import opened Common
  import opened Session

  /** The {"status": ..., "message": ...} acknowledgement several routes send. */
  datatype Ack = Ack(status: string, message: string)

  // ---------------------------------------------------------------------------
  // GET /health
  // ---------------------------------------------------------------------------

  const ServiceName := "rPPG Vital Signs Estimator"

  datatype HealthReply = HealthReply(status: string, service: string, scanStatus: string, scanProgress: Option<real>)

  /** The liveness reply: always "ok", with the scan status, and the progress
      only while a scan is running (null otherwise). */
  function HealthReplyFor(status: Status, progress: real): (r: HealthReply)
    ensures r.status == "ok" && r.service == ServiceName
    ensures r.scanStatus == StatusName(status)
    ensures r.scanProgress.Some? <==> status == Scanning
    ensures r.scanProgress.Some? ==> r.scanProgress.value == progress
  {
    HealthReply("ok", ServiceName, StatusName(status),
                if status == Scanning then Some(progress) else None)
  }

  method Health(session: ScanSession) returns (r: HealthReply)
    ensures r == HealthReplyFor(session.status, session.progress)
  {
    r := HealthReplyFor(session.status, session.progress);
  }

  // ---------------------------------------------------------------------------
  // POST /metadata
  // ---------------------------------------------------------------------------

  const MetadataStored := "Metadata stored. You can now start a scan via POST /scan/start."

  method SetMetadata(session: ScanSession, m: UserMetadata) returns (r: Ack)
    requires session.Valid()
    modifies session`metadata
    ensures session.Valid()
    ensures session.metadata == Some(m)
    ensures r == Ack("ok", MetadataStored)
  {
    session.SetMetadata(m);
    r := Ack("ok", MetadataStored);
  }

  // ---------------------------------------------------------------------------
  // POST /scan/start
  // ---------------------------------------------------------------------------

  const ScanInProgress := "A scan is already in progress."
  const MetadataFirst := "Cannot start scan. Set user metadata first via POST /metadata."

  datatype StartReply =
    | ScanStarted(status: string, message: string)
    | StartRefused(code: int, detail: string)

  function StartedMessage(algorithm: string, durationSeconds: int): string {
    "Scan started (" + algorithm + ", " + IntToString(durationSeconds) + "s). "
    + "Send frames via POST /scan/frame."
  }

  /** The reply to a start, from whether the session accepted it and the
      status the session is in afterwards: a refused start is a conflict (409)
      exactly when a scan is running, and otherwise unprocessable (422). */
  function StartReplyFor(success: bool, statusAfter: Status, algorithm: string, durationSeconds: int): (r: StartReply)
    ensures r.ScanStarted? <==> success
    ensures success ==> r.status == "scanning" && r.message == StartedMessage(algorithm, durationSeconds)
    ensures !success ==> (r.code == 409 <==> statusAfter == Scanning)
    ensures !success ==> (r.code == 422 <==> statusAfter != Scanning)
    ensures !success ==> r.detail == (if statusAfter == Scanning then ScanInProgress else MetadataFirst)
  {
    if success then ScanStarted("scanning", StartedMessage(algorithm, durationSeconds))
    else if statusAfter == Scanning then StartRefused(409, ScanInProgress)
    else StartRefused(422, MetadataFirst)
  }

  /** The route starts a frontend-mode scan. Composed with the session, a
      409 means a scan was already running and a 422 means the metadata
      was missing. */
  method StartScan(session: ScanSession, algorithm: string, durationSeconds: int) returns (r: StartReply)
    requires session.Valid()
    modifies session`status, session`progress, session`result, session`errorMessage, session`frontendMode
    modifies session`collectedFrames, session`processingStarted, session`launchesThisScan
    modifies session`scanAlgorithm, session`scanDuration, session`bpEstimatorLoaded
    ensures session.Valid()
    ensures r.ScanStarted? <==> old(session.status) != Scanning && old(session.metadata).Some?
    ensures r == StartRefused(409, ScanInProgress) <==> old(session.status) == Scanning
    ensures r == StartRefused(422, MetadataFirst) <==> old(session.status) != Scanning && old(session.metadata).None?
    ensures old(session.status) == Scanning ==> unchanged(session)
    ensures r.ScanStarted? ==>
      && r.message == StartedMessage(algorithm, durationSeconds)
      && session.status == Scanning && session.frontendMode && session.collectedFrames == []
      && session.scanAlgorithm == algorithm && session.scanDuration == durationSeconds
  {
    var success := session.StartScanFrontendMode(algorithm, durationSeconds);
    r := StartReplyFor(success, session.status, algorithm, durationSeconds);
  }

  // ---------------------------------------------------------------------------
  // POST /scan/frame
  // ---------------------------------------------------------------------------

  const NoActiveScan := "No active scan"
  const EmptyFrameData := "Empty frame data"

  /** The JSON body of an upload; either key may be absent. */
  datatype FrameBody = FrameBody(frame: Option<string>, progressPercent: Option<real>)

  datatype FrameReply =
    | FrameRefused(error: string)
    | FrameHandled(success: bool, progress: real, status: string)

  /** data.get('frame', ''). */
  function FrameText(body: FrameBody): (t: string)
    ensures body.frame.None? ==> t == ""
    ensures body.frame.Some? ==> t == body.frame.value
  {
    match body.frame
    case None => ""
    case Some(t) => t
  }

  /** data.get('progress_percent', 0). */
  function ProgressValue(body: FrameBody): (p: real)
    ensures body.progressPercent.None? ==> p == 0.0
    ensures body.progressPercent.Some? ==> p == body.progressPercent.value
  {
    match body.progressPercent
    case None => 0.0
    case Some(p) => p
  }

  /** Uploads are accepted while a scan is running or after it completed. */
  predicate AcceptsFrames(status: Status) {
    status == Scanning || status == Complete
  }

  /** The refusal an upload gets before the session sees it, if any: no
      active scan comes first, then an empty payload. */
  function FrameAdmission(status: Status, body: FrameBody): (r: Option<FrameReply>)
    ensures r.None? <==> AcceptsFrames(status) && FrameText(body) != ""
    ensures r == Some(FrameRefused(NoActiveScan)) <==> !AcceptsFrames(status)
    ensures r == Some(FrameRefused(EmptyFrameData)) <==> AcceptsFrames(status) && FrameText(body) == ""
  {
    if !AcceptsFrames(status) then Some(FrameRefused(NoActiveScan))
    else if FrameText(body) == "" then Some(FrameRefused(EmptyFrameData))
    else None
  }

  method ReceiveFrame(session: ScanSession, body: FrameBody, decode: string -> Option<Frame>) returns (r: FrameReply)
    requires session.Valid()
    modifies session`progress, session`collectedFrames, session`processingStarted
    modifies session`launchesThisScan, session`jobs
    ensures session.Valid()
    ensures FrameAdmission(old(session.status), body).Some? ==>
      r == FrameAdmission(old(session.status), body).value && unchanged(session)
    ensures FrameAdmission(old(session.status), body).None? ==>
      && r.FrameHandled?
      && (r.success <==> decode(DecodablePart(FrameText(body))).Some?)
      && r.progress == ProgressValue(body) && session.progress == ProgressValue(body)
      && r.status == StatusName(session.status)
      && (r.success ==> session.collectedFrames == old(session.collectedFrames) + [decode(DecodablePart(FrameText(body))).value])
      && (!r.success ==> session.collectedFrames == old(session.collectedFrames))
    ensures session.status == old(session.status)
  {
    var refusal := FrameAdmission(session.status, body);
    if refusal.Some? {
      return refusal.value;
    }
    var progress := ProgressValue(body);
    var success := session.ProcessFrontendFrame(FrameText(body), progress, decode);
    r := FrameHandled(success, progress, StatusName(session.status));
  }

  // ---------------------------------------------------------------------------
  // GET /scan/status
  // ---------------------------------------------------------------------------

  const UnknownState := "Unknown state."
  const IdleMessage := "No scan in progress. POST /scan/start to begin."
  const CompleteMessage := "Scan complete! Retrieve results via GET /scan/result."
  const ErrorMessage := "Scan encountered an error. Check logs or restart."

  function ScanningMessage(progress: real): string {
    "Scan in progress \U{2014} " + FormatFixed0(progress) + "% complete. Keep your face visible."
  }

  /** The message table the route looks the status text up in. */
  function StatusMessages(progress: real): map<string, string> {
    map["idle" := IdleMessage,
        "scanning" := ScanningMessage(progress),
        "complete" := CompleteMessage,
        "error" := ErrorMessage]
  }

  /** messages.get(status, "Unknown state."). */
  function MessageFor(status: string, progress: real): (m: string)
    ensures status in StatusMessages(progress) ==> m == StatusMessages(progress)[status]
    ensures status !in StatusMessages(progress) ==> m == UnknownState
  {
    var messages := StatusMessages(progress);
    if status in messages then messages[status] else UnknownState
  }

  datatype StatusReply = StatusReply(status: string, message: string, progressPercent: Option<real>)

  function StatusReplyFor(status: Status, progress: real): StatusReply {
    var name := StatusName(status);
    StatusReply(name, MessageFor(name, progress), if name == "scanning" then Some(progress) else None)
  }

  /** Every status the session can be in has its own message: the fallback
      is never sent, and the progress is reported exactly while scanning. */
  lemma StatusReplyMessages(status: Status, progress: real)
    ensures var r := StatusReplyFor(status, progress);
      && r.status == StatusName(status)
      && r.message != UnknownState
      && r.message == (match status
                       case Idle => IdleMessage
                       case Scanning => ScanningMessage(progress)
                       case Complete => CompleteMessage
                       case Error => ErrorMessage)
      && (r.progressPercent.Some? <==> status == Scanning)
      && (r.progressPercent.Some? ==> r.progressPercent.value == progress)
  {
    var m := ScanningMessage(progress);
    assert m[0] == 'S' && UnknownState[0] == 'U';
  }

  /** A status text outside the four the session uses gets the fallback. */
  lemma UnknownStatusFallsBack(status: string, progress: real)
    requires status !in {"idle", "scanning", "complete", "error"}
    ensures MessageFor(status, progress) == UnknownState
  {
  }

  method ScanStatus(session: ScanSession) returns (r: StatusReply)
    ensures r == StatusReplyFor(session.status, session.progress)
    ensures r.message != UnknownState
  {
    r := StatusReplyFor(session.status, session.progress);
    StatusReplyMessages(session.status, session.progress);
  }

  // ---------------------------------------------------------------------------
  // GET /scan/result
  // ---------------------------------------------------------------------------

  const StillInProgress := "Scan still in progress."
  const NoScanYet := "No scan has been run yet."
  const ScanFailed := "Scan failed. Reset and try again."
  const ResultUnavailable := "Result unavailable."

  datatype ResultReply =
    | ResultBody(result: VitalsResult)
    | ResultError(code: int, detail: string)

  /** The result route: the stored result for a completed scan, 202 while
      scanning, 404 before any scan, 500 after a failure or when a completed
      scan has no result. */
  function ResultReplyFor(status: Status, result: Option<VitalsResult>): (r: ResultReply)
    ensures r.ResultBody? <==> status == Complete && result.Some?
    ensures r.ResultBody? ==> r.result == result.value
    ensures status == Scanning ==> r == ResultError(202, StillInProgress)
    ensures status == Idle ==> r == ResultError(404, NoScanYet)
    ensures status == Error ==> r == ResultError(500, ScanFailed)
    ensures status == Complete && result.None? ==> r == ResultError(500, ResultUnavailable)
  {
    match status
    case Scanning => ResultError(202, StillInProgress)
    case Idle => ResultError(404, NoScanYet)
    case Error => ResultError(500, ScanFailed)
    case Complete =>
      match result
      case None => ResultError(500, ResultUnavailable)
      case Some(v) => ResultBody(v)
  }

  /** On a consistent session a completed scan always serves its result:
      "Result unavailable." cannot be sent. */
  method ScanResult(session: ScanSession) returns (r: ResultReply)
    requires session.Valid()
    ensures r == ResultReplyFor(session.status, session.result)
    ensures r.ResultBody? <==> session.status == Complete
    ensures r != ResultError(500, ResultUnavailable)
  {
    r := ResultReplyFor(session.status, session.result);
  }

  // ---------------------------------------------------------------------------
  // POST /scan/reset
  // ---------------------------------------------------------------------------

  const SessionResetMessage := "Session reset. Ready for a new scan."

  method ScanReset(session: ScanSession) returns (r: Ack)
    requires session.Valid()
    modifies session`status, session`progress, session`result, session`errorMessage
    modifies session`currentFrame, session`currentRois, session`frontendMode, session`frameSkipCounter, session`lastFrameTime
    modifies session`collectedFrames, session`processingStarted, session`launchesThisScan
    ensures session.Valid()
    ensures session.status == Idle && session.progress == 0.0 && session.result.None?
    ensures session.collectedFrames == [] && !session.processingStarted && !session.frontendMode
    ensures r == Ack("ok", SessionResetMessage)
  {
    session.Reset();
    r := Ack("ok", SessionResetMessage);
  }
}

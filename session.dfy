/** The server's scan session (api/session.py): one ScanSession object owns
    the scan status, the progress, the result, the user metadata and, in
    frontend mode, the frames the browser uploads. Every method is one atomic
    step (the source takes a lock around each state change); the background
    work the source runs in threads is represented by the jobs it launches
    and by FinishFrontendScan, which applies the terminal effect of the
    processing thread for an outcome chosen by its caller. */
module Session {
  import opened Common

  datatype Status = Idle | Scanning | Complete | Error

  /** The status text the server stores and reports. */
  function StatusName(s: Status): (name: string)
    ensures name in {"idle", "scanning", "complete", "error"}
  {
    match s
    case Idle => "idle"
    case Scanning => "scanning"
    case Complete => "complete"
    case Error => "error"
  }

  /** Different statuses are reported under different names. */
  lemma StatusNameInjective(s: Status, t: Status)
    ensures StatusName(s) == StatusName(t) ==> s == t
  {
  }

  /** Demographics sent by the form step (validated by the request schema,
      which is not part of this model). */
  datatype UserMetadata = UserMetadata(age: int, gender: string, heightCm: real, weightKg: real)

  /** A decoded image. */
  datatype Frame = Frame(pixels: seq<int>)

  /** Face-detector output for one camera frame: landmark pixel coordinates. */
  datatype FaceRois = FaceRois(faceDetected: bool, landmarks: seq<(int, int)>)

  /** The five heart-rate numbers copied into the result. */
  datatype HeartRate = HeartRate(hrBpm: real, hrFft: real, hrPeaks: real, confidenceFft: real, confidencePeaks: real)

  /** What the foreign pipeline (rPPG, HR, HRV, BP model, stress) computes. */
  datatype Estimates = Estimates(hr: HeartRate, hrv: Record, bloodPressure: Record, stress: Record)

  /** The result dictionary a finished scan stores. */
  datatype VitalsResult = VitalsResult(
    disclaimer: string,
    hr: HeartRate,
    hrv: Record,
    bloodPressure: Record,
    stress: Record,
    scanDurationSeconds: int,
    algorithmUsed: string)

  /** How a processing thread ends: with estimates, with the ValueError the
      signal processing raises, or with any other exception. */
  datatype ProcessingOutcome =
    | Estimated(estimates: Estimates)
    | SignalProcessingFailed(reason: string)
    | UnexpectedFailure(reason: string)

  /** Background work a start or a frame launches. */
  datatype Job =
    | CameraScan(algorithm: string, durationSeconds: int)
    | FrontendProcessing(frameCount: nat)

  const MetadataMissing := "User metadata must be set before scanning."
  const SignalErrorPrefix := "Signal processing error: "
  const UnexpectedFrontendErrorPrefix := "Unexpected error during frontend scan: "
  const DefaultAlgorithm := "pos"
  /** Progress, in percent, at which a stored frame launches processing. */
  const TriggerProgress: real := 99.9

  const Disclaimer :=
    "\U{26A0}\U{FE0F} This is a WELLNESS ESTIMATION tool \U{2014} NOT a medical device. "
    + "Heart rate, HRV, blood pressure, and stress values are ESTIMATES "
    + "derived from remote photoplethysmography (rPPG) and lightweight ML. "
    + "They have NOT been validated for clinical use. "
    + "Do NOT make medical decisions based on these readings. "
    + "Consult a qualified healthcare professional for diagnosis or treatment."

  // ---------------------------------------------------------------------------
  // The data-URL marker: only the text after "base64," is decoded.
  // ---------------------------------------------------------------------------

  const Marker := "base64,"

  /** m occurs in s at index k. */
  predicate MatchAt(s: string, m: string, k: int) {
    0 <= k && k + |m| <= |s| && s[k..k + |m|] == m
  }

  predicate Contains(s: string, m: string) {
    exists k :: 0 <= k <= |s| && MatchAt(s, m, k)
  }

  /** The first index at or after k where m occurs in s. */
  function FindFrom(s: string, m: string, k: nat): (r: Option<nat>)
    ensures r.None? ==> forall j :: k <= j ==> !MatchAt(s, m, j)
    ensures r.Some? ==> k <= r.value && MatchAt(s, m, r.value)
    ensures r.Some? ==> forall j :: k <= j < r.value ==> !MatchAt(s, m, j)
    decreases |s| - k
  {
    if k + |m| > |s| then None
    else if s[k..k + |m|] == m then Some(k)
    else FindFrom(s, m, k + 1)
  }

  /** The text process_frontend_frame decodes: with no marker, the whole
      payload; otherwise the second piece of splitting on the marker, that
      is, the text after the first marker up to the next marker or the end. */
  function DecodablePart(frameData: string): (r: string)
    ensures !Contains(frameData, Marker) ==> r == frameData
    ensures Contains(frameData, Marker) ==>
      var i := FindFrom(frameData, Marker, 0).value;
      && i + |Marker| + |r| <= |frameData|
      && r == frameData[i + |Marker|..i + |Marker| + |r|]
      && !Contains(r, Marker)
      && (i + |Marker| + |r| == |frameData| || MatchAt(frameData, Marker, i + |Marker| + |r|))
  {
    match FindFrom(frameData, Marker, 0)
    case None => frameData
    case Some(i) =>
      var rest := frameData[i + |Marker|..];
      match FindFrom(rest, Marker, 0)
      case None => rest
      case Some(j) =>
        NoMatchInPrefix(rest, j);
        rest[..j]
  }

  /** A prefix that ends before the first occurrence holds no occurrence. */
  lemma NoMatchInPrefix(s: string, j: nat)
    requires j <= |s|
    requires forall k :: 0 <= k < j ==> !MatchAt(s, Marker, k)
    ensures !Contains(s[..j], Marker)
  {
    forall k | MatchAt(s[..j], Marker, k)
      ensures false
    {
      assert s[..j][k..k + |Marker|] == s[k..k + |Marker|];
      assert MatchAt(s, Marker, k);
    }
  }

  // ---------------------------------------------------------------------------
  // The session object
  // ---------------------------------------------------------------------------

  class ScanSession {
    var status: Status
    var progress: real
    var errorMessage: string
    var result: Option<VitalsResult>
    var metadata: Option<UserMetadata>
    /** The lazily created blood-pressure estimator exists. */
    var bpEstimatorLoaded: bool
    var currentFrame: Option<Frame>
    var currentRois: Option<FaceRois>
    var frontendMode: bool
    var collectedFrames: seq<Frame>
    var scanAlgorithm: string
    var scanDuration: int
    /** Latch: processing of the collected frames has been launched. */
    var processingStarted: bool
    var frameSkipCounter: int
    var lastFrameTime: int

    /** Every background job launched so far, in order. */
    ghost var jobs: seq<Job>
    /** Processing jobs launched since the last start or reset. */
    ghost var launchesThisScan: nat

    ghost predicate Valid()
      reads this
    {
      && (processingStarted <==> launchesThisScan == 1)
      && launchesThisScan <= 1
      && (status == Complete ==> result.Some?)
      && (status == Scanning ==> result.None? && errorMessage == "")
    }

    /** A fresh session; configuredDuration is the configured default scan
        length, which lives outside this model. */
    constructor (configuredDuration: int)
      ensures Valid()
      ensures status == Idle && progress == 0.0 && errorMessage == "" && result.None?
      ensures metadata.None? && !bpEstimatorLoaded && currentFrame.None? && currentRois.None?
      ensures !frontendMode && collectedFrames == [] && scanAlgorithm == DefaultAlgorithm
      ensures scanDuration == configuredDuration && !processingStarted
      ensures frameSkipCounter == 0 && lastFrameTime == 0
      ensures jobs == [] && launchesThisScan == 0
    {
      status := Idle;
      progress := 0.0;
      errorMessage := "";
      result := None;
      metadata := None;
      bpEstimatorLoaded := false;
      currentFrame := None;
      currentRois := None;
      frontendMode := false;
      collectedFrames := [];
      scanAlgorithm := DefaultAlgorithm;
      scanDuration := configuredDuration;
      processingStarted := false;
      frameSkipCounter := 0;
      lastFrameTime := 0;
      jobs := [];
      launchesThisScan := 0;
    }

    method SetMetadata(m: UserMetadata)
      requires Valid()
      modifies this`metadata
      ensures Valid()
      ensures metadata == Some(m)
    {
      metadata := Some(m);
    }

    /** Camera-mode start: the guards, the state reset and the launch of the
        capture thread (whose body is not part of this model). */
    method StartScan(algorithm: string, durationSeconds: int) returns (ok: bool)
      requires Valid()
      modifies this`status, this`progress, this`result, this`errorMessage, this`bpEstimatorLoaded, this`jobs
      ensures Valid()
      ensures ok <==> old(status) != Scanning && old(metadata).Some?
      ensures old(status) == Scanning ==> unchanged(this)
      ensures old(status) != Scanning && old(metadata).None? ==>
        && status == Error && errorMessage == MetadataMissing
        && progress == old(progress) && result == old(result)
        && bpEstimatorLoaded == old(bpEstimatorLoaded) && jobs == old(jobs)
      ensures ok ==>
        && status == Scanning && progress == 0.0 && result.None? && errorMessage == ""
        && bpEstimatorLoaded && jobs == old(jobs) + [CameraScan(algorithm, durationSeconds)]
    {
      if status == Scanning {
        return false;
      }
      if metadata.None? {
        status, errorMessage := Error, MetadataMissing;
        return false;
      }
      ClearOutcome(Scanning);
      bpEstimatorLoaded := true;
      jobs := jobs + [CameraScan(algorithm, durationSeconds)];
      ok := true;
    }

    /** Back to idle for a new scan. The metadata, the estimator and the scan
        parameters are not among the fields it writes, so they are kept. */
    method Reset()
      requires Valid()
      modifies this`status, this`progress, this`result, this`errorMessage
      modifies this`currentFrame, this`currentRois, this`frontendMode, this`frameSkipCounter, this`lastFrameTime
      modifies this`collectedFrames, this`processingStarted, this`launchesThisScan
      ensures Valid()
      ensures status == Idle && progress == 0.0 && result.None? && errorMessage == ""
      ensures currentFrame.None? && currentRois.None? && !frontendMode
      ensures collectedFrames == [] && !processingStarted
      ensures frameSkipCounter == 0 && lastFrameTime == 0
    {
      ClearOutcome(Idle);
      ClearCapture();
      currentFrame, currentRois, frontendMode := None, None, false;
      frameSkipCounter, lastFrameTime := 0, 0;
    }

    /** Frontend-mode start: the browser will upload the frames. */
    method StartScanFrontendMode(algorithm: string, durationSeconds: int) returns (ok: bool)
      requires Valid()
      modifies this`status, this`progress, this`result, this`errorMessage, this`frontendMode
      modifies this`collectedFrames, this`processingStarted, this`launchesThisScan
      modifies this`scanAlgorithm, this`scanDuration, this`bpEstimatorLoaded
      ensures Valid()
      ensures ok <==> old(status) != Scanning && old(metadata).Some?
      ensures old(status) == Scanning ==> unchanged(this)
      ensures old(status) != Scanning && old(metadata).None? ==>
        && status == Error && errorMessage == MetadataMissing
        && progress == old(progress) && result == old(result)
        && collectedFrames == old(collectedFrames) && processingStarted == old(processingStarted)
        && frontendMode == old(frontendMode) && bpEstimatorLoaded == old(bpEstimatorLoaded)
        && scanAlgorithm == old(scanAlgorithm) && scanDuration == old(scanDuration)
      ensures ok ==>
        && status == Scanning && progress == 0.0 && result.None? && errorMessage == ""
        && frontendMode && collectedFrames == [] && !processingStarted
        && scanAlgorithm == algorithm && scanDuration == durationSeconds
        && bpEstimatorLoaded
    {
      if status == Scanning {
        return false;
      }
      if metadata.None? {
        status, errorMessage := Error, MetadataMissing;
        return false;
      }
      ClearOutcome(Scanning);
      ClearCapture();
      frontendMode := true;
      scanAlgorithm, scanDuration := algorithm, durationSeconds;
      bpEstimatorLoaded := true;
      ok := true;
    }

    /** One uploaded frame. `decode` stands for base64 decoding, image
        parsing and colour conversion, any of which may fail. */
    method ProcessFrontendFrame(frameData: string, newProgress: real, decode: string -> Option<Frame>)
      returns (ok: bool)
      requires Valid()
      modifies this`progress, this`collectedFrames, this`processingStarted, this`launchesThisScan, this`jobs
      ensures Valid()
      ensures progress == newProgress
      ensures ok <==> decode(DecodablePart(frameData)).Some?
      ensures ok ==> collectedFrames == old(collectedFrames) + [decode(DecodablePart(frameData)).value]
      ensures !ok ==> collectedFrames == old(collectedFrames)
      ensures var fires := ok && newProgress >= TriggerProgress && !old(processingStarted);
        && processingStarted == (old(processingStarted) || fires)
        && jobs == old(jobs) + (if fires then [FrontendProcessing(|collectedFrames|)] else [])
    {
      progress := newProgress;
      var decoded := decode(DecodablePart(frameData));
      if decoded.None? {
        return false;
      }
      collectedFrames := collectedFrames + [decoded.value];
      if newProgress >= TriggerProgress && !processingStarted {
        processingStarted, launchesThisScan := true, launchesThisScan + 1;
        jobs := jobs + [FrontendProcessing(|collectedFrames|)];
      }
      ok := true;
    }

    /** The state change that ends a frontend processing thread. */
    method FinishFrontendScan(outcome: ProcessingOutcome)
      requires Valid()
      modifies this`status, this`progress, this`result, this`errorMessage
      ensures Valid()
      ensures outcome.Estimated? ==>
        && status == Complete && progress == 100.0 && errorMessage == old(errorMessage)
        && result == Some(VitalsResult(Disclaimer, outcome.estimates.hr, outcome.estimates.hrv,
                                       outcome.estimates.bloodPressure, outcome.estimates.stress,
                                       scanDuration, scanAlgorithm))
      ensures outcome.SignalProcessingFailed? ==>
        && status == Error && errorMessage == SignalErrorPrefix + outcome.reason
        && progress == old(progress) && result == old(result)
      ensures outcome.UnexpectedFailure? ==>
        && status == Error && errorMessage == UnexpectedFrontendErrorPrefix + outcome.reason
        && progress == old(progress) && result == old(result)
    {
      match outcome
      case Estimated(e) =>
        status, progress := Complete, 100.0;
        result := Some(VitalsResult(Disclaimer, e.hr, e.hrv, e.bloodPressure, e.stress,
                                    scanDuration, scanAlgorithm));
      case SignalProcessingFailed(reason) =>
        SetError(SignalErrorPrefix + reason);
      case UnexpectedFailure(reason) =>
        SetError(UnexpectedFrontendErrorPrefix + reason);
    }

    /** The four assignments every start and the reset begin with. */
    method ClearOutcome(newStatus: Status)
      modifies this`status, this`progress, this`result, this`errorMessage
      ensures status == newStatus && progress == 0.0 && result.None? && errorMessage == ""
    {
      status, progress, result, errorMessage := newStatus, 0.0, None, "";
    }

    /** Empty the frame list and open the processing latch again. */
    method ClearCapture()
      modifies this`collectedFrames, this`processingStarted, this`launchesThisScan
      ensures collectedFrames == [] && !processingStarted && launchesThisScan == 0
    {
      collectedFrames, processingStarted, launchesThisScan := [], false, 0;
    }

    method SetError(message: string)
      requires Valid()
      modifies this`status, this`errorMessage
      ensures Valid()
      ensures status == Error && errorMessage == message
    {
      status := Error;
      errorMessage := message;
    }
  }
}

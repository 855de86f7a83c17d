/** The scanning step of the browser (Step2_Scanning in frontend/app.jsx) as
    an event-driven object. React state, refs and the variables the start
    handler's interval closes over are fields; timers become events the
    caller delivers with the current time in milliseconds:

      - DismissInstructions: the user leaves the instructions; the camera starts
      - FaceResult:          the face mesh reports a frame
      - StartScan:           the start button is clicked
      - Tick:                the 100 ms interval fires
      - PollFire:            a pending status-poll timeout fires
      - Cleanup / Unmount:   the effects' cleanup functions run

    A handler reads `faceDetected` and `scanning` from the render that created
    it: Tick and FaceResult take the value they see as a parameter, and the
    fields meshSeesScanning and tickSeesFace hold the values the registered
    callbacks closed over (FaceCallback and IntervalTick deliver those). The
    outgoing requests and device releases are recorded in ghost counters and
    in the upload log, so a contract can say which calls an event makes. */
module Orchestrator {
  import opened Common
  import opened Client

  /** Minimum gap, in ms, between two frame captures. */
  const FrameInterval := 200
  /** A face missing for longer than this, in ms, counts as lost. */
  const FaceLostAfter := 3000
  /** Delay before the first status query, and between the following ones. */
  const FirstPollDelay := 1000
  const RetryDelay := 500

  /** The scan length in seconds: component state that is never updated. */
  const ScanDuration := 45
  const ScanDurationMs := ScanDuration * 1000

  const CameraDenied := "Camera access denied. Please allow camera permissions."

  /** The status line under the video. */
  datatype Message =
    | InitializingCamera
    | CameraReady
    | PositionFace
    | InitializingScan
    | ScanningAt(progress: real)
    | FaceNotDetected
    | FaceLost
    | Analyzing
    | StartFailed(reason: string)

  /** The text shown for each message. */
  function MessageText(m: Message): string {
    match m
    case InitializingCamera => "Initializing camera..."
    case CameraReady => "Camera ready"
    case PositionFace => "\U{26A0}\U{FE0F} Please position your face in the camera view"
    case InitializingScan => "Initializing scan..."
    case ScanningAt(p) => ScanningMessage(p)
    case FaceNotDetected => "\U{26A0}\U{FE0F} Face not detected - please stay in frame"
    case FaceLost => "\U{26A0}\U{FE0F} Face lost! Please position your face in frame"
    case Analyzing => "\U{2713} Scan complete! Analyzing your vitals..."
    case StartFailed(reason) => StartFailurePrefix + reason
  }

  /** How getUserMedia and video playback end. */
  datatype CameraOutcome = Denied | PlaybackFailed | Playing

  /** A frame posted to the server: when, and with which progress. */
  datatype Upload = Upload(time: int, progress: real)

  /** The status poll: not started, a query due at dueAt, or over. */
  datatype Poll = PollIdle | PollPending(attempt: nat, dueAt: int) | PollFinished

  /** Consecutive uploads are at least FrameInterval apart. */
  ghost predicate Spaced(uploads: seq<Upload>) {
    forall i :: 0 < i < |uploads| ==> uploads[i - 1].time + FrameInterval <= uploads[i].time
  }

  /** So any two uploads are FrameInterval apart per upload between them. */
  lemma {:induction false} SpacedPairwise(uploads: seq<Upload>)
    requires Spaced(uploads)
    ensures forall i, j :: 0 <= i < j < |uploads| ==>
      uploads[i].time + FrameInterval * (j - i) <= uploads[j].time
    decreases |uploads|
  {
    if |uploads| > 1 {
      var front := uploads[..|uploads| - 1];
      assert Spaced(front);
      SpacedPairwise(front);
      var n := |uploads| - 1;
      forall i | 0 <= i < n
        ensures uploads[i].time + FrameInterval * (n - i) <= uploads[n].time
      {
        if i < n - 1 {
          assert front[i].time + FrameInterval * (n - 1 - i) <= front[n - 1].time;
        }
      }
    }
  }

  class ScanOrchestrator {
    var showInstructions: bool
    var cameraReady: bool
    var scanning: bool
    var analyzing: bool
    var progress: real
    var faceDetected: bool
    var message: Message
    var error: Option<string>

    /** The refs: whether each holds a handle. */
    var streamHeld: bool
    var faceMeshHeld: bool
    var cameraHeld: bool
    var intervalHeld: bool
    /** The interval is registered and not yet cleared. */
    var ticking: bool
    var lastFaceSeen: int

    /** Closed over by the running interval. */
    var startTime: int
    var lastFrameTime: int
    var poll: Poll

    /** `scanning` in the render whose onFaceResults was registered with the
        face mesh, and `faceDetected` in the render whose startScan passed
        its guards last (the one the running interval closes over). */
    var meshSeesScanning: bool
    var tickSeesFace: bool

    /** What the component has done so far. */
    ghost var uploads: seq<Upload>
    ghost var resetRequests: nat
    ghost var startRequests: nat
    ghost var statusQueries: nat
    ghost var completions: nat
    ghost var streamStops: nat
    ghost var cameraStops: nat
    ghost var faceMeshCloses: nat

    ghost predicate Valid()
      reads this`showInstructions, this`cameraReady, this`faceDetected, this`scanning, this`analyzing
      reads this`progress, this`ticking, this`intervalHeld, this`streamHeld, this`faceMeshHeld
      reads this`cameraHeld, this`poll, this`statusQueries, this`completions, this`uploads
      reads this`lastFrameTime
    {
      && ScreenOk()
      && HandlesOk()
      && PollOk()
      && UploadsOk()
    }

    /** Which part of the step is on screen. */
    ghost predicate ScreenOk()
      reads this`showInstructions, this`cameraReady, this`faceDetected, this`scanning, this`analyzing, this`progress
    {
      && !(scanning && analyzing)
      && (showInstructions ==> !cameraReady && !faceDetected && !scanning && !analyzing)
      && 0.0 <= progress <= 100.0
    }

    /** The devices are held only once the camera started, and released for good
        once the capture is over; the interval runs only during a scan. */
    ghost predicate HandlesOk()
      reads this`showInstructions, this`analyzing, this`scanning, this`ticking, this`intervalHeld
      reads this`streamHeld, this`faceMeshHeld, this`cameraHeld
    {
      && (ticking ==> scanning && intervalHeld)
      && (showInstructions ==> !faceMeshHeld && !streamHeld && !cameraHeld)
      && (analyzing ==> !streamHeld && !faceMeshHeld && !cameraHeld && !ticking)
    }

    /** The status poll starts with the analysis, makes at most 31 queries
        and completes the step exactly once. */
    ghost predicate PollOk()
      reads this`analyzing, this`poll, this`statusQueries, this`completions
    {
      && (analyzing <==> !poll.PollIdle?)
      && (poll.PollIdle? ==> statusQueries == 0)
      && (poll.PollPending? ==> poll.attempt <= MaxPollAttempts && statusQueries == poll.attempt)
      && (poll.PollFinished? ==> 1 <= statusQueries <= MaxPollAttempts + 1)
      && completions == (if poll.PollFinished? then 1 else 0)
    }

    /** The uploads of the current scan are spaced by the sampling gate. */
    ghost predicate UploadsOk()
      reads this`uploads, this`lastFrameTime
    {
      && Spaced(uploads)
      && (|uploads| > 0 ==> uploads[|uploads| - 1].time <= lastFrameTime)
    }

    /** Each upload of the current scan carries the progress of its own time.
        Kept apart from Valid() because only the scan's ticks touch it. */
    ghost predicate ProgressTagged()
      reads this`uploads, this`startTime
    {
      forall i :: 0 <= i < |uploads| ==>
        uploads[i].progress == Progress(uploads[i].time - startTime, ScanDurationMs)
    }

    /** The registered callbacks see a scan that has not started, and the
        interval sees a face. */
    ghost predicate ClosuresCaptured()
      reads this`faceMeshHeld, this`meshSeesScanning, this`ticking, this`tickSeesFace
    {
      && (faceMeshHeld ==> !meshSeesScanning)
      && (ticking ==> tickSeesFace)
    }

    /** The component mounts at time `now`, showing the instructions. */
    constructor (now: int)
      ensures Valid()
      ensures showInstructions && !cameraReady && !scanning && !analyzing && progress == 0.0
      ensures !faceDetected && message == InitializingCamera && error.None?
      ensures !streamHeld && !faceMeshHeld && !cameraHeld && !intervalHeld && !ticking
      ensures lastFaceSeen == now && poll == PollIdle && uploads == []
      ensures startTime == 0 && lastFrameTime == 0 && !meshSeesScanning && !tickSeesFace
      ensures resetRequests == 0 && startRequests == 0 && statusQueries == 0 && completions == 0
      ensures streamStops == 0 && cameraStops == 0 && faceMeshCloses == 0
      ensures ClosuresCaptured()
    {
      showInstructions, cameraReady, scanning, analyzing := true, false, false, false;
      progress, faceDetected, message, error := 0.0, false, InitializingCamera, None;
      streamHeld, faceMeshHeld, cameraHeld, intervalHeld, ticking := false, false, false, false, false;
      lastFaceSeen, startTime, lastFrameTime, poll := now, 0, 0, PollIdle;
      meshSeesScanning, tickSeesFace := false, false;
      uploads := [];
      resetRequests, startRequests, statusQueries, completions := 0, 0, 0, 0;
      streamStops, cameraStops, faceMeshCloses := 0, 0, 0;
    }

    /** The instructions are dismissed and the camera effect runs (its
        previous cleanup has nothing to release yet). `faceMeshLoaded` and
        `cameraUtilLoaded` say whether the MediaPipe scripts are present. */
    method DismissInstructions(camera: CameraOutcome, faceMeshLoaded: bool, cameraUtilLoaded: bool)
      requires Valid() && showInstructions
      modifies this`showInstructions, this`streamHeld, this`cameraReady, this`message, this`error
      modifies this`faceMeshHeld, this`cameraHeld, this`meshSeesScanning
      ensures Valid()
      ensures ClosuresCaptured()
      ensures !showInstructions
      ensures camera == Denied ==> !streamHeld && error == Some(CameraDenied) && !cameraReady
      ensures camera == PlaybackFailed ==> streamHeld && error == Some(CameraDenied) && !cameraReady
      ensures camera == Playing ==>
        && streamHeld && cameraReady && message == CameraReady && error == old(error)
        && faceMeshHeld == faceMeshLoaded && cameraHeld == (faceMeshLoaded && cameraUtilLoaded)
      ensures camera != Playing ==> !faceMeshHeld && !cameraHeld && message == old(message)
    {
      showInstructions := false;
      match camera
      case Denied =>
        error := Some(CameraDenied);
      case PlaybackFailed =>
        streamHeld := true;
        error := Some(CameraDenied);
      case Playing =>
        CameraStarted(faceMeshLoaded, cameraUtilLoaded);
    }

    /** The video plays: the camera is ready and, when the MediaPipe scripts
        are present, the face mesh and then the camera utility start. */
    method CameraStarted(faceMeshLoaded: bool, cameraUtilLoaded: bool)
      requires Valid() && !showInstructions && !analyzing
      modifies this`streamHeld, this`cameraReady, this`message, this`faceMeshHeld, this`cameraHeld
      modifies this`meshSeesScanning
      ensures Valid()
      ensures meshSeesScanning == (if faceMeshLoaded then old(scanning) else old(meshSeesScanning))
      ensures streamHeld && cameraReady && message == CameraReady
      ensures faceMeshHeld == (faceMeshLoaded || old(faceMeshHeld))
      ensures cameraHeld == ((faceMeshLoaded && cameraUtilLoaded) || old(cameraHeld))
    {
      streamHeld, cameraReady, message := true, true, CameraReady;
      if faceMeshLoaded {
        faceMeshHeld, meshSeesScanning := true, scanning;
        if cameraUtilLoaded {
          cameraHeld := true;
        }
      }
    }

    /** onFaceResults at time `now`; `scanningSeen` is the `scanning` value of
        the render that registered the callback. */
    method FaceResult(present: bool, now: int, scanningSeen: bool)
      requires Valid() && faceMeshHeld
      modifies this`faceDetected, this`lastFaceSeen, this`message
      ensures Valid()
      ensures faceDetected == present
      ensures present ==> lastFaceSeen == now && message == old(message)
      ensures !present ==> lastFaceSeen == old(lastFaceSeen)
      ensures !present ==>
        message == (if scanningSeen && now - old(lastFaceSeen) > FaceLostAfter then FaceLost else old(message))
    {
      if present {
        faceDetected, lastFaceSeen := true, now;
      } else {
        faceDetected := false;
        if scanningSeen && now - lastFaceSeen > FaceLostAfter {
          message := FaceLost;
        }
      }
    }

    /** The onFaceResults callback the face mesh holds. It closed over the
        render that dismissed the instructions, before any scan, so it never
        reports a lost face. */
    method FaceCallback(present: bool, now: int)
      requires Valid() && ClosuresCaptured() && faceMeshHeld
      modifies this`faceDetected, this`lastFaceSeen, this`message
      ensures Valid() && ClosuresCaptured()
      ensures faceDetected == present && message == old(message)
      ensures lastFaceSeen == (if present then now else old(lastFaceSeen))
    {
      FaceResult(present, now, meshSeesScanning);
    }

    /** The callback reading the current `scanning` (through a ref): a face
        missing for more than FaceLostAfter ms during a scan is reported. */
    method FaceCallbackReadingScanning(present: bool, now: int)
      requires Valid() && faceMeshHeld
      modifies this`faceDetected, this`lastFaceSeen, this`message
      ensures Valid()
      ensures faceDetected == present
      ensures lastFaceSeen == (if present then now else old(lastFaceSeen))
      ensures !present && scanning && now - old(lastFaceSeen) > FaceLostAfter ==> message == FaceLost
      ensures (present || !scanning || now - old(lastFaceSeen) <= FaceLostAfter) ==> message == old(message)
    {
      FaceResult(present, now, scanning);
    }

    /** The start button at time `now`. The reset request's outcome is
        ignored; `response` is how the start request ended. */
    method StartScan(now: int, response: StartResponse)
      requires Valid() && !analyzing
      modifies this`message, this`scanning, this`progress, this`resetRequests, this`startRequests
      modifies this`intervalHeld, this`ticking, this`startTime, this`lastFrameTime, this`uploads
      modifies this`tickSeesFace
      ensures Valid()
      ensures old(ClosuresCaptured()) ==> ClosuresCaptured()
      ensures !old(faceDetected) ==>
        && message == PositionFace && scanning == old(scanning) && progress == old(progress)
        && resetRequests == old(resetRequests) && startRequests == old(startRequests)
        && ticking == old(ticking) && intervalHeld == old(intervalHeld) && uploads == old(uploads)
        && startTime == old(startTime) && lastFrameTime == old(lastFrameTime) && tickSeesFace == old(tickSeesFace)
      ensures old(faceDetected) && old(scanning) ==> unchanged(this)
      ensures old(faceDetected) && !old(scanning) ==>
        resetRequests == old(resetRequests) + 1 && startRequests == old(startRequests) + 1
      ensures old(faceDetected) && !old(scanning) && response.StartAccepted? ==>
        && scanning && ticking && intervalHeld && progress == 0.0 && message == InitializingScan
        && startTime == now && lastFrameTime == 0 && uploads == [] && tickSeesFace
      ensures old(faceDetected) && !old(scanning) && !response.StartAccepted? ==>
        && !scanning && !ticking && !intervalHeld && progress == 0.0
        && message == StartFailed(StartError(response).value)
        && uploads == old(uploads) && startTime == old(startTime) && lastFrameTime == old(lastFrameTime)
    {
      if !faceDetected {
        message := PositionFace;
        return;
      }
      if scanning {
        return;
      }
      tickSeesFace := faceDetected;
      Begin(now, StartError(response));
    }

    /** The start sequence once both guards passed: show the scan as
        started, send the reset and the start requests, then either report
        report `failure` or start the interval. */
    method Begin(now: int, failure: Option<string>)
      requires Valid() && !showInstructions && !analyzing && !scanning && tickSeesFace
      modifies this`message, this`scanning, this`progress, this`resetRequests, this`startRequests
      modifies this`intervalHeld, this`ticking, this`startTime, this`lastFrameTime, this`uploads
      ensures Valid()
      ensures old(ClosuresCaptured()) ==> ClosuresCaptured()
      ensures resetRequests == old(resetRequests) + 1 && startRequests == old(startRequests) + 1
      ensures failure.None? ==>
        && scanning && ticking && intervalHeld && progress == 0.0 && message == InitializingScan
        && startTime == now && lastFrameTime == 0 && uploads == []
      ensures failure.Some? ==>
        && !scanning && !ticking && !intervalHeld && progress == 0.0
        && message == StartFailed(failure.value)
        && uploads == old(uploads) && startTime == old(startTime) && lastFrameTime == old(lastFrameTime)
    {
      // The optimistic scanning state set before the requests is
      // overwritten by either outcome, so each helper writes the final one.
      resetRequests, startRequests := resetRequests + 1, startRequests + 1;
      match failure
      case Some(text) => Refuse(text);
      case None => Launch(now);
    }

    /** The start request failed with `text`: back to idle, interval cleared. */
    method Refuse(text: string)
      requires Valid() && !analyzing
      modifies this`message, this`scanning, this`progress, this`intervalHeld, this`ticking
      ensures Valid()
      ensures !scanning && !ticking && !intervalHeld && progress == 0.0 && message == StartFailed(text)
    {
      scanning, progress, message := false, 0.0, StartFailed(text);
      if intervalHeld {
        intervalHeld, ticking := false, false;
      }
    }

    /** The start request succeeded at `now`: the interval starts ticking. */
    method Launch(now: int)
      requires Valid() && !showInstructions && !analyzing && !scanning
      modifies this`message, this`scanning, this`progress, this`intervalHeld, this`ticking
      modifies this`startTime, this`lastFrameTime, this`uploads
      ensures Valid()
      ensures scanning && ticking && intervalHeld && progress == 0.0 && message == InitializingScan
      ensures startTime == now && lastFrameTime == 0 && uploads == [] && ProgressTagged()
    {
      scanning, progress, message := true, 0.0, InitializingScan;
      startTime, lastFrameTime, uploads := now, 0, [];
      intervalHeld, ticking := true, true;
    }

    /** One firing of the interval at time `now`; `faceSeen` is the face flag
        the interval closed over and `captureOk` whether drawing the video
        into a canvas and encoding it succeeded. */
    method Tick(now: int, faceSeen: bool, captureOk: bool)
      requires Valid() && ProgressTagged() && ticking && now >= startTime
      modifies this`progress, this`message, this`lastFrameTime, this`uploads
      modifies this`ticking, this`scanning, this`analyzing, this`poll
      modifies this`faceMeshHeld, this`cameraHeld, this`streamHeld
      modifies this`faceMeshCloses, this`cameraStops, this`streamStops
      ensures Valid() && ProgressTagged()
      ensures progress == Progress(now - startTime, ScanDurationMs)
      ensures var sample := now - old(lastFrameTime) >= FrameInterval;
        && lastFrameTime == (if sample then now else old(lastFrameTime))
        && uploads == old(uploads) + (if sample && captureOk then [Upload(now, progress)] else [])
      ensures progress < 100.0 ==>
        && message == (if faceSeen then ScanningAt(progress) else FaceNotDetected)
        && ticking && scanning && !analyzing && poll == old(poll)
        && faceMeshHeld == old(faceMeshHeld) && cameraHeld == old(cameraHeld) && streamHeld == old(streamHeld)
        && faceMeshCloses == old(faceMeshCloses) && cameraStops == old(cameraStops)
        && streamStops == old(streamStops)
      ensures progress == 100.0 ==>
        && message == Analyzing && !ticking && !scanning && analyzing
        && poll == PollPending(0, now + FirstPollDelay)
        && !faceMeshHeld && !cameraHeld && !streamHeld
        && faceMeshCloses == old(faceMeshCloses) + (if old(faceMeshHeld) then 1 else 0)
        && cameraStops == old(cameraStops) + (if old(cameraHeld) then 1 else 0)
        && streamStops == old(streamStops) + (if old(streamHeld) then 1 else 0)
    {
      Advance(now, faceSeen, captureOk);
      if progress >= 100.0 {
        Complete(now);
      }
    }

    /** The interval startScan registered. It closed over the render of the
        click, which the start guard requires to see a face, so it never
        warns that the face is missing. */
    method IntervalTick(now: int, captureOk: bool)
      requires Valid() && ProgressTagged() && ClosuresCaptured() && ticking && now >= startTime
      modifies this`progress, this`message, this`lastFrameTime, this`uploads
      modifies this`ticking, this`scanning, this`analyzing, this`poll
      modifies this`faceMeshHeld, this`cameraHeld, this`streamHeld
      modifies this`faceMeshCloses, this`cameraStops, this`streamStops
      ensures Valid() && ProgressTagged() && ClosuresCaptured()
      ensures progress == Progress(now - startTime, ScanDurationMs)
      ensures message == (if progress < 100.0 then ScanningAt(progress) else Analyzing)
    {
      Tick(now, tickSeesFace, captureOk);
    }

    /** The interval reading the current face flag (through a ref): while the
        scan runs, a missing face is reported. */
    method IntervalTickReadingFace(now: int, captureOk: bool)
      requires Valid() && ProgressTagged() && ticking && now >= startTime
      modifies this`progress, this`message, this`lastFrameTime, this`uploads
      modifies this`ticking, this`scanning, this`analyzing, this`poll
      modifies this`faceMeshHeld, this`cameraHeld, this`streamHeld
      modifies this`faceMeshCloses, this`cameraStops, this`streamStops
      ensures Valid() && ProgressTagged()
      ensures progress == Progress(now - startTime, ScanDurationMs)
      ensures progress < 100.0 ==> message == (if faceDetected then ScanningAt(progress) else FaceNotDetected)
      ensures progress == 100.0 ==> message == Analyzing
    {
      Tick(now, faceDetected, captureOk);
    }

    /** The completing tick's teardown: the capture ends, the analysis
        starts and the devices are released. */
    method Complete(now: int)
      requires Valid() && ticking
      modifies this`ticking, this`scanning, this`analyzing, this`message, this`poll
      modifies this`faceMeshHeld, this`cameraHeld, this`streamHeld
      modifies this`faceMeshCloses, this`cameraStops, this`streamStops
      ensures Valid()
      ensures message == Analyzing && !ticking && !scanning && analyzing
      ensures poll == PollPending(0, now + FirstPollDelay)
      ensures !faceMeshHeld && !cameraHeld && !streamHeld
      ensures faceMeshCloses == old(faceMeshCloses) + (if old(faceMeshHeld) then 1 else 0)
      ensures cameraStops == old(cameraStops) + (if old(cameraHeld) then 1 else 0)
      ensures streamStops == old(streamStops) + (if old(streamHeld) then 1 else 0)
    {
      FinishCapture(now);
      ReleaseDevices();
    }

    /** The first half of a tick: the progress of the elapsed time, the
        status line, and a capture when the sampling gate lets it through. */
    method Advance(now: int, faceSeen: bool, captureOk: bool)
      requires Valid() && ProgressTagged() && ticking && now >= startTime
      modifies this`progress, this`message, this`lastFrameTime, this`uploads
      ensures Valid() && ProgressTagged()
      ensures progress == Progress(now - startTime, ScanDurationMs)
      ensures message == (if faceSeen then ScanningAt(progress) else FaceNotDetected)
      ensures var sample := now - old(lastFrameTime) >= FrameInterval;
        && lastFrameTime == (if sample then now else old(lastFrameTime))
        && uploads == old(uploads) + (if sample && captureOk then [Upload(now, progress)] else [])
    {
      var p := Progress(now - startTime, ScanDurationMs);
      progress := p;
      message := if faceSeen then ScanningAt(p) else FaceNotDetected;
      if now - lastFrameTime >= FrameInterval {
        Sample(now, p, captureOk);
      }
    }

    /** A capture at time `now`: the gate moves even when the capture fails. */
    method Sample(now: int, p: real, captureOk: bool)
      requires Spaced(uploads) && (|uploads| > 0 ==> uploads[|uploads| - 1].time <= lastFrameTime)
      requires now - lastFrameTime >= FrameInterval
      requires ProgressTagged() && p == Progress(now - startTime, ScanDurationMs)
      modifies this`lastFrameTime, this`uploads
      ensures Spaced(uploads) && (|uploads| > 0 ==> uploads[|uploads| - 1].time <= lastFrameTime)
      ensures ProgressTagged()
      ensures lastFrameTime == now
      ensures uploads == old(uploads) + (if captureOk then [Upload(now, p)] else [])
    {
      lastFrameTime := now;
      if captureOk {
        uploads := uploads + [Upload(now, p)];
      }
    }

    /** The completing tick: stop the interval, switch to analyzing and
        schedule the first status query. */
    method FinishCapture(now: int)
      modifies this`ticking, this`scanning, this`analyzing, this`message, this`poll
      ensures !ticking && !scanning && analyzing && message == Analyzing
      ensures poll == PollPending(0, now + FirstPollDelay)
    {
      ticking, scanning, analyzing := false, false, true;
      message, poll := Analyzing, PollPending(0, now + FirstPollDelay);
    }

    /** Close the face mesh, stop the camera and the stream's tracks, and
        drop the three handles. */
    method ReleaseDevices()
      modifies this`faceMeshHeld, this`cameraHeld, this`streamHeld
      modifies this`faceMeshCloses, this`cameraStops, this`streamStops
      ensures !faceMeshHeld && !cameraHeld && !streamHeld
      ensures faceMeshCloses == old(faceMeshCloses) + (if old(faceMeshHeld) then 1 else 0)
      ensures cameraStops == old(cameraStops) + (if old(cameraHeld) then 1 else 0)
      ensures streamStops == old(streamStops) + (if old(streamHeld) then 1 else 0)
    {
      if faceMeshHeld {
        faceMeshHeld, faceMeshCloses := false, faceMeshCloses + 1;
      }
      if cameraHeld {
        cameraHeld, cameraStops := false, cameraStops + 1;
      }
      if streamHeld {
        streamHeld, streamStops := false, streamStops + 1;
      }
    }

    /** The pending poll timeout fires at time `now` and its status query ends
        with `answer`. A finished wait calls onComplete, which leaves the
        step and so unmounts the component. */
    method PollFire(now: int, answer: StatusAnswer)
      requires Valid() && poll.PollPending? && now >= poll.dueAt
      modifies this`statusQueries, this`poll, this`completions
      modifies this`ticking, this`streamStops, this`cameraStops
      ensures Valid()
      ensures statusQueries == old(statusQueries) + 1
      ensures PollDecision(old(poll.attempt), answer).Finish? ==>
        poll == PollFinished && completions == old(completions) + 1
      ensures PollDecision(old(poll.attempt), answer).Retry? ==>
        poll == PollPending(old(poll.attempt) + 1, now + RetryDelay) && completions == old(completions)
      ensures streamStops == old(streamStops) && cameraStops == old(cameraStops)
    {
      statusQueries := statusQueries + 1;
      match PollDecision(poll.attempt, answer)
      case Finish =>
        poll, completions := PollFinished, completions + 1;
        Unmount();
      case Retry(next) =>
        poll := PollPending(next, now + RetryDelay);
    }

    /** cleanup(): clear the interval and stop the stream and the camera
        when their refs are set, without dropping the refs. */
    method Cleanup()
      requires Valid()
      modifies this`ticking, this`streamStops, this`cameraStops
      ensures Valid()
      ensures !ticking
      ensures streamStops == old(streamStops) + (if streamHeld then 1 else 0)
      ensures cameraStops == old(cameraStops) + (if cameraHeld then 1 else 0)
    {
      if intervalHeld {
        ticking := false;
      }
      if streamHeld {
        streamStops := streamStops + 1;
      }
      if cameraHeld {
        cameraStops := cameraStops + 1;
      }
    }

    /** Leaving the step runs the cleanup of both effects. */
    method Unmount()
      requires Valid()
      modifies this`ticking, this`streamStops, this`cameraStops
      ensures Valid()
      ensures !ticking
      ensures streamStops == old(streamStops) + (if streamHeld then 2 else 0)
      ensures cameraStops == old(cameraStops) + (if cameraHeld then 2 else 0)
      ensures analyzing ==> streamStops == old(streamStops) && cameraStops == old(cameraStops)
    {
      Cleanup();
      Cleanup();
    }
  }
}

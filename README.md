# rPPG vital-signs scan: browser flow and scan server

This project models the core of a web application that estimates vital signs
(heart rate, HRV, blood pressure, stress) from a face video. It proves
properties of that model. The model has two sides.

- **The browser** (`frontend/app.jsx`).
  - The personal-information form check.
  - The scanning step, as the object `Orchestrator.ScanOrchestrator`:
    - camera start-up and face-mesh callbacks;
    - the start button with its guards, reset and start requests;
    - the 100 ms interval that computes the progress, sets the status line and uploads a frame at most every 200 ms;
    - the teardown when the progress reaches 100%;
    - the status poll (first query after 1000 ms, then every 500 ms, at most 31 queries);
    - the effect cleanups.
  - The pure pieces live in `Client`:
    - the progress and time-remaining formulas;
    - the error text of a refused start;
    - the retry rule of the poll;
    - the validation of the fetched result and the page it leads to.
- **The server** (`api/session.py`, `api/routes.py`).
  - The one application-wide `ScanSession` object, as the class `Session.ScanSession`:
    - its status, progress, result and metadata;
    - frontend-mode frame collection;
    - the processing latch that fires once on a frame carrying at least 99.9% progress.
  - The HTTP handlers (`Routes`):
    - health, metadata and start (409/422);
    - frame upload (no active scan / empty data refusals);
    - status (message table and its fallback);
    - result (202/404/500);
    - reset.
  - The overlay that the MJPEG feed draws on a frame (`VideoFeed`): every fifth landmark, the bounding box padded by 20 px and clamped to the frame, and the label or warning.

`Schedule` and `EndToEnd` connect the two sides:
- a whole scan with an on-time interval, and the frames it delivers to the session;
- the data-URL round trip between `canvas.toDataURL` and the server's `base64,` split;
- which results page each session state leads to.

Timers, the camera, the network and the foreign estimators become parameters or events:
- Each browser event is a method called with the current time in milliseconds.
- Each server request is one atomic method call on the session.
- Image decoding is a function parameter `decode`.
- The result of the processing thread is a `ProcessingOutcome` chosen by the caller of `FinishFrontendScan`.

Three behaviours of the program are easy to miss, and the model keeps them as written:
- **The incomplete-result page.** The results page has its own "Incomplete Results" branch (`frontend/app.jsx:853`). The section check inside `loadResults` (`frontend/app.jsx:819-821`) throws first, so an incomplete payload ends on "Failed to Load Results" (Finding A).
- **Stopping the stream twice.** Both effects return `cleanup` (`frontend/app.jsx:227` and `518`), and `cleanup` (`frontend/app.jsx:509-515`) stops the stream and the camera without clearing their refs. So on unmount a still-held stream and camera are stopped twice (`ScanOrchestrator.Unmount`).
- **Receiving frames.** The server accepts frames in status `complete` as well as `scanning` (`api/routes.py:123`).

## Model

| member | source | states |
|---|---|---|
| Common.NatToString | api/routes.py:106 | decimal text of a natural: non-empty, digits only, no leading zero |
| Common.NatToStringRoundTrip | api/routes.py:106 | reading the digits back gives the number: the duration printed in the start reply is exact |
| Common.IntToString | frontend/app.jsx:409 | an integer as a template literal writes it: a minus sign followed by the magnitude's digits, or the digits |
| Common.RoundHalfUp | frontend/app.jsx:409 | Math.round: the result is within half a unit of x, and a half goes up |
| Common.RoundHalfEven | api/routes.py:169 | the rounding of Python's `.0f`: within half a unit, and a tie goes to the even neighbour |
| Common.FormatFixed0 | api/routes.py:169 | `{progress:.0f}`: the text starts with '-' exactly for negative inputs; otherwise it is the half-even rounded digits |
| Session.StatusName | api/session.py:72 | each status is stored as one of the four texts idle, scanning, complete, error |
| Session.StatusNameInjective | api/session.py:72 | different statuses have different texts |
| Session.FindFrom | api/session.py:220 | the first occurrence of the marker at or after k, or proof that there is none |
| Session.DecodablePart | api/session.py:220-221 | the whole payload when there is no "base64," marker; otherwise the text from the first marker up to the next marker or the end, which holds no marker |
| Session.ScanSession.constructor | api/session.py:68-92 | the initial state: idle, progress 0, no result, no metadata, default algorithm "pos", latch open |
| Session.ScanSession.SetMetadata | api/session.py:98-101 | the metadata is stored and nothing else changes |
| Session.ScanSession.StartScan | api/session.py:118-149 | camera-mode start: refused with no change while scanning; without metadata it moves to error with the metadata message; otherwise scanning with a cleared outcome, the estimator created and one capture job launched |
| Session.ScanSession.Reset | api/session.py:151-164 | back to idle with the outcome, the capture state and the latch cleared; metadata and scan parameters kept |
| Session.ScanSession.StartScanFrontendMode | api/session.py:167-197 | the same guards; on success: scanning, frontend mode, no frames, latch open, the requested algorithm and duration |
| Session.ScanSession.ProcessFrontendFrame | api/session.py:199-250 | the progress is always stored; the frame is appended exactly when the decodable part decodes; processing is launched once, on the first decoded frame at 99.9% or more, with the frame count at that moment |
| Session.ScanSession.FinishFrontendScan | api/session.py:314-343 | estimates give complete, 100% and the result built from the disclaimer, the estimates and the scan parameters; a ValueError or any other exception gives error with its prefixed message and the outcome left as it was |
| Session.ScanSession.SetError | api/session.py:489-493 | status error with the given message |
| Routes.HealthReplyFor | api/routes.py:43-51 | always "ok" with the service name and the status text; the progress is present exactly while scanning |
| Routes.Health | api/routes.py:43-51 | the reply for the session's current status and progress |
| Routes.SetMetadata | api/routes.py:56-72 | the metadata is stored and the fixed acknowledgement is sent |
| Routes.StartReplyFor | api/routes.py:94-109 | started exactly on success; a refusal is 409 exactly when the session is scanning afterwards and 422 otherwise, each with its detail text |
| Routes.StartScan | api/routes.py:77-109 | with the session: 409 exactly when a scan was running (nothing changes), 422 exactly when the metadata was missing, and otherwise a frontend-mode scan started with the requested parameters |
| Routes.FrameText | api/routes.py:126 | the frame text, "" when the key is absent |
| Routes.ProgressValue | api/routes.py:127 | the progress, 0 when the key is absent |
| Routes.FrameAdmission | api/routes.py:121-132 | refused as "No active scan" exactly outside scanning/complete, then as "Empty frame data" exactly for an empty text, otherwise passed on |
| Routes.ReceiveFrame | api/routes.py:112-143 | a refused upload leaves the session unchanged; an admitted one reports success exactly when the frame decodes, with the progress and status text, and appends the frame only then |
| Routes.MessageFor | api/routes.py:167-176 | the table's message for a known status text, the "Unknown state." fallback otherwise |
| Routes.StatusReplyMessages | api/routes.py:152-178 | every session status has its own message, the fallback is never sent, and the progress is reported exactly while scanning |
| Routes.UnknownStatusFallsBack | api/routes.py:176 | any other status text gets the fallback |
| Routes.ScanStatus | api/routes.py:152-178 | the reply for the session state, never the fallback |
| Routes.ResultReplyFor | api/routes.py:181-201 | the stored result exactly for complete with a result; 202 scanning, 404 idle, 500 error or missing result |
| Routes.ScanResult | api/routes.py:181-201 | on a consistent session the result is served exactly when complete, and "Result unavailable." is never sent |
| Routes.ScanReset | api/routes.py:204-208 | the session is reset and the fixed acknowledgement is sent |
| VideoFeed.FaceBox | api/routes.py:231-243 | the padded box lies inside the frame |
| VideoFeed.FaceBoxIsPaddedExtent | api/routes.py:233-243 | each edge is the extreme landmark moved out by 20 px and clamped: no landmark's padded position lies beyond it, and some landmark's lies on it |
| VideoFeed.FaceBoxContainsVisibleLandmarks | api/routes.py:231-246 | every landmark inside the frame lies inside the drawn box, so the box is a proper rectangle |
| VideoFeed.EveryFifth | api/routes.py:228 | `landmarks[::5]`: element i is landmark 5i |
| VideoFeed.EveryFifthLength | api/routes.py:228 | it keeps ceil(n/5) landmarks |
| VideoFeed.FaceOverlayFor | api/routes.py:226-250 | a detected face with landmarks draws the face overlay |
| VideoFeed.OverlayFor | api/routes.py:221-255 | the warning at (w/2-150, h/2) exactly when there are no rois or no face; nothing exactly for a face without landmarks; otherwise the face overlay |
| VideoFeed.OverlayDrawsLandmarks | api/routes.py:221-250 | the overlay draws every fifth landmark (ceil(n/5) dots, each a landmark), the padded box, the label 10 px above its corner, and holds every visible landmark inside the box |
| Client.FormErrors | frontend/app.jsx:80-90 | one key per failing field, with its message; a field fails when empty or out of range |
| Client.Validate | frontend/app.jsx:80-93 | the form passes exactly when age is in 10..120, height in 100..250 and weight in 20..300 |
| Client.Progress | frontend/app.jsx:403-404 | at most 100, 100 exactly once the duration has elapsed, non-negative, and elapsed/duration·100 before that |
| Client.ProgressMonotone | frontend/app.jsx:403-404 | progress never decreases as time passes |
| Client.TimeRemaining | frontend/app.jsx:751 | whole seconds left: between 0 and the duration, the full duration at 0% and 0 at 100% |
| Client.TimeRemainingAntitone | frontend/app.jsx:751 | the time remaining never increases as progress grows |
| Client.RejectionText | frontend/app.jsx:31-34 | the reply's non-empty detail, or "Failed to start scan" |
| Client.StartError | frontend/app.jsx:25-36 | no error exactly when the start was accepted; the rejection text for a non-2xx reply; the thrown message otherwise |
| Client.PollDecision | frontend/app.jsx:461-487 | stop exactly on complete/error or at attempt 30; otherwise retry with the next attempt, never past 30 (a thrown query retries too) |
| Client.PollRun | frontend/app.jsx:461-491 | a poll from attempt a makes between 1 and 31-a queries |
| Client.PollRunStopsAtFirstConclusive | frontend/app.jsx:467-472 | the wait ends exactly at the first complete/error answer |
| Client.PollRunInconclusive | frontend/app.jsx:473-486 | with no conclusive answer it makes exactly 31-a queries |
| Client.LoadResults | frontend/app.jsx:813-830 | a payload is kept exactly when it was fetched and has hr, blood pressure and stress |
| Client.ResultsScreen | frontend/app.jsx:846-866 | results page for a complete payload, "Failed to Load Results" for none, "Incomplete Results" for an incomplete one |
| Client.LoadedScreenNeverIncomplete | frontend/app.jsx:819-821 | as written, the "Incomplete Results" page is unreachable: an incomplete payload ends on "Failed to Load Results" |
| Client.LoadResultsKeepingIncomplete | frontend/app.jsx:846-857 | the loading the page expects: every fetched payload is kept |
| Client.KeptScreenDistinguishesIncomplete | frontend/app.jsx:846-857 | with it, incomplete, failed and complete fetches each reach their own page, and complete ones are shown as before |
| Orchestrator.SpacedPairwise | frontend/app.jsx:416-417 | uploads spaced by the 200 ms gate are 200 ms apart for every upload between any two |
| Orchestrator.ScanOrchestrator.constructor | frontend/app.jsx:203-220 | the initial component state: instructions shown, nothing held, "Initializing camera...", no requests or device stops yet |
| Orchestrator.ScanOrchestrator.DismissInstructions | frontend/app.jsx:223-259 | a denied camera sets the permission error and holds nothing; a failed playback also holds the stream; a playing camera is ready, and the face mesh and camera are held as their scripts allow; the callbacks see no scan |
| Orchestrator.ScanOrchestrator.CameraStarted | frontend/app.jsx:247-294 | camera ready with "Camera ready"; the face mesh started when loaded, the camera utility only after it; the registered callback captures the current `scanning` |
| Orchestrator.ScanOrchestrator.FaceResult | frontend/app.jsx:296-324 | a face sets the flag and its time; no face clears the flag, and shows "Face lost!" exactly when the callback sees a scan and the face is gone for more than 3000 ms |
| Orchestrator.ScanOrchestrator.FaceCallback | frontend/app.jsx:278-322 | the callback as registered never changes the status line |
| Orchestrator.ScanOrchestrator.FaceCallbackReadingScanning | frontend/app.jsx:318-321 | reading the current `scanning`, a face gone for more than 3000 ms during a scan shows "Face lost!" |
| Orchestrator.ScanOrchestrator.StartScan | frontend/app.jsx:368-399 | no face: the position message, with the scan state, the gate, the start time and the requests unchanged; already scanning: no change; otherwise one reset and one start request, and then either the interval runs from `now` with no uploads (and sees a face), or the scan is back to idle with "Failed to start scan: " and the error text |
| Orchestrator.ScanOrchestrator.Begin | frontend/app.jsx:379-402 | both requests are counted, then the failure or the launch outcome as in StartScan |
| Orchestrator.ScanOrchestrator.Refuse | frontend/app.jsx:495-506 | not scanning, progress 0, interval cleared, the failure message |
| Orchestrator.ScanOrchestrator.Launch | frontend/app.jsx:396-402 | scanning from `now`, progress 0, "Initializing scan...", gate reset, no uploads, interval running |
| Orchestrator.ScanOrchestrator.Tick | frontend/app.jsx:402-493 | the progress of the elapsed time; a capture exactly when 200 ms passed since the last one (an upload only if the capture succeeded, tagged with its progress); below 100% the message follows the seen face flag and nothing else changes; at 100% the teardown and the first poll 1000 ms later |
| Orchestrator.ScanOrchestrator.IntervalTick | frontend/app.jsx:402-413 | the interval as registered always shows "Scanning... n% complete" below 100% |
| Orchestrator.ScanOrchestrator.IntervalTickReadingFace | frontend/app.jsx:408-412 | reading the current face flag, a missing face shows "Face not detected" |
| Orchestrator.ScanOrchestrator.Advance | frontend/app.jsx:403-437 | progress, message and gated capture of one tick |
| Orchestrator.ScanOrchestrator.Sample | frontend/app.jsx:416-433 | the gate moves to `now` even when the capture fails; the upload keeps the spacing and the progress tag |
| Orchestrator.ScanOrchestrator.Complete | frontend/app.jsx:440-491 | interval stopped, analyzing, first poll due 1000 ms later, each held device released (and counted) once |
| Orchestrator.ScanOrchestrator.FinishCapture | frontend/app.jsx:440-444 | interval stopped, analyzing with the completion message, first poll scheduled |
| Orchestrator.ScanOrchestrator.ReleaseDevices | frontend/app.jsx:446-458 | face mesh closed, camera stopped and stream tracks stopped, each only if held, refs cleared |
| Orchestrator.ScanOrchestrator.PollFire | frontend/app.jsx:461-491 | one more status query; a finishing decision calls onComplete (one more completion, and with the pending-poll requirement, only ever one) and unmounts the step; a retry is due 500 ms later with the next attempt and no completion |
| Orchestrator.ScanOrchestrator.Cleanup | frontend/app.jsx:509-515 | the interval cleared; the stream and the camera stopped when their refs are set, refs kept |
| Orchestrator.ScanOrchestrator.Unmount | frontend/app.jsx:517-519 | both effect cleanups run: each still-held device is stopped twice, none once the analysis started |
| Schedule.OnTimeTick | frontend/app.jsx:402-437 | an on-time tick keeps the schedule invariant: captures on alternate ticks starting with the first, one upload per capture, none above the progress of 44.9 s |
| Schedule.OnTimeScan | frontend/app.jsx:402-493 | a scan with every tick on time ends analyzing after 225 uploads, each below 99.9% |
| Schedule.DeliverUploads | api/session.py:232-244 | delivering frames in order launches processing exactly when one of them decodes at 99.9% or more; no launch if every frame is below it |
| Schedule.OnTimeScanNeverProcesses | api/session.py:236 | the frames of an on-time scan never start the server's processing |
| Schedule.AmendedCaptures | frontend/app.jsx:416-417 | the capture times under the amended gate lie within the ticks' span |
| Schedule.AmendedScanSendsFinalFrame | frontend/app.jsx:416-440 | under the amended gate, the completing tick sends a frame at 100% |
| Schedule.AmendedCapturesSpaced | frontend/app.jsx:416-417 | before the completing tick, the amended gate keeps the 200 ms spacing |
| EndToEnd.Base64HasNoMarker | api/session.py:220 | base64 text never contains the marker |
| EndToEnd.DataUrlRoundTrip | api/session.py:220-221 | the server decodes exactly the base64 text of the browser's JPEG data URL |
| EndToEnd.PayloadOf | api/session.py:314-328 | the stored result as the browser reads it has all three required sections |
| EndToEnd.Received | frontend/app.jsx:44-48 | api.getResult(): the result body is passed on, any 2xx error (the 202) arrives as a body without sections, other errors throw |
| EndToEnd.ResultsFollowSession | frontend/app.jsx:813-830 | the results page shows the vitals exactly for a completed scan with a result, and "Failed to Load Results" for every other state, a scan still running included |
| EndToEnd.KeptResultsFollowSession | frontend/app.jsx:846-857 | with the amended loading, a running scan shows "Incomplete Results" and idle/error/missing results show "Failed to Load Results" |
| EndToEnd.ShowResultsOf | api/routes.py:181-201 | on a consistent session the results page shows the vitals exactly when the scan completed |

## Left out

- Camera mode (`_run_scan`, the capture thread) and the body of `_run_frontend_scan`: rPPG, HR, HRV, the BP model and stress are foreign numerics. Only their terminal effect on the session is modelled (`FinishFrontendScan`). `StartScan` records the launched job and nothing more.
- Threads and the session lock: each session method is one atomic step, and concurrent handlers are not interleaved.
- Base64 decoding, PIL, colour conversion and JPEG encoding: these are the `decode` parameter. Canvas drawing and the MJPEG streaming loop are left out; only the overlay decision is modelled.
- `config.SCAN_DURATION_SECONDS` is not part of this model: it is the constructor parameter `configuredDuration`. Request-schema validation (pydantic) is not modelled. Progress values are reals, and non-numeric JSON is not modelled.
- Routes.ReceiveFrame: the timeout and exception replies (`api/routes.py:144-149`) are not modelled, because they arise only from foreign failures.
- Orchestrator.ScanOrchestrator.StartScan: requires `!analyzing`, because the start button is rendered only while not analyzing (`frontend/app.jsx:773`). It runs as one step, so a second click before the first click's requests end is not interleaved.
- Orchestrator.ScanOrchestrator.Begin: the optimistic `scanning`/progress/message set before the requests is not kept as an intermediate state, because both outcomes overwrite it.
- Orchestrator.ScanOrchestrator.Tick: `Date.now()` is read once per tick (the source reads it twice, microseconds apart). The upload's promise handlers only log.
- Orchestrator.ScanOrchestrator.Tick: the `videoRef.current` test at `frontend/app.jsx:416` is taken to hold. This is because the video element is rendered whenever the instructions are not shown (`frontend/app.jsx:629-642`). A null ref would skip the whole block and leave the gate in place. In the model, `captureOk` fails only the drawing and encoding, and the gate still moves, as it does in the source's `try` block.
- Orchestrator.ScanOrchestrator.Tick: requires `now >= startTime`, so a wall clock that goes backwards is not modelled (`Date.now()` is not monotone). With such a clock the source would compute a negative progress. The same requirement holds for Advance, IntervalTick, IntervalTickReadingFace and Schedule.OnTimeTick.
- Orchestrator.ScanOrchestrator.Tick: the progress tag of each upload is the separate predicate `ProgressTagged`, not part of `Valid`.
- Payload sections hold opaque `Record`s, and the JSON form of the heart-rate object is the parameter `encodeHr`.
- Schedule.OnTimeScan: assumes every interval tick fires exactly 100 ms after the previous one. Timer drift is not modelled.
- Icon redraw effects, React rendering, the instructions page and steps 1 and 3 outside validation and result loading (navigation, metadata upload) are not modelled.

## Findings

| source | as written | input that shows it | evidently intended | confidence | as-written member | corrected member |
|---|---|---|---|---|---|---|
| frontend/app.jsx:819-821 | loadResults discards a payload that lacks hr, blood_pressure or stress, so the page's "Incomplete Results" branch (line 853) can never render | GET /scan/result answers 202 while the scan still runs; the body has only `detail`, `res.ok` holds, and the page shows "Failed to Load Results" | keep the fetched payload, so that an incomplete one reaches "Incomplete Results" | high, not executed | Client.LoadedScreenNeverIncomplete | Client.KeptScreenDistinguishesIncomplete |
| frontend/app.jsx:416 | with the 200 ms gate and a 100 ms interval, only the odd ticks capture; the completing tick at 45 000 ms comes 100 ms after the last capture and sends nothing, so every frame carries at most 99.78% and the server's 99.9% trigger (api/session.py:236) never fires | every tick exactly on time after a successful start: frames at 100, 300, …, 44 900 ms | the completing tick also sends its frame, so processing starts | medium (real timers drift), not executed | Schedule.OnTimeScanNeverProcesses | Schedule.AmendedScanSendsFinalFrame |
| frontend/app.jsx:278 | onFaceResults is registered once, from the render that dismissed the instructions, where `scanning` is false; its "Face lost!" branch never runs | any scan during which the face leaves the frame for more than 3 s | read the current scanning state (a ref), so that a lost face is reported | high, not executed | Orchestrator.ScanOrchestrator.FaceCallback | Orchestrator.ScanOrchestrator.FaceCallbackReadingScanning |
| frontend/app.jsx:408 | the interval closes over `faceDetected` from the click's render, which the guard at line 369 requires to be true; "Face not detected" is never shown during a scan | any scan during which the face leaves the frame | read the current face flag (a ref), so that a missing face is reported | high, not executed | Orchestrator.ScanOrchestrator.IntervalTick | Orchestrator.ScanOrchestrator.IntervalTickReadingFace |

/** A scan whose interval fires exactly on time, every 100 ms from the start
    (frontend/app.jsx registers the tick with setInterval(..., 100)), and the
    frames it sends. The server starts processing only on a frame whose
    progress is at least 99.9 (api/session.py), but with these timings the
    200 ms capture gate lets through only the odd ticks, and the tick that
    reaches 100% is an even one. */
module Schedule {
  import opened Common
  import opened Client
  import opened Session
  import opened Orchestrator

  /** Period of the scan interval, in ms. */
  const TickInterval := 100
  /** On-time ticks until the progress reaches 100%. */
  const TicksPerScan := ScanDurationMs / TickInterval

  /** The elapsed time of the last tick that captures a frame. */
  const LastCaptureElapsed := ScanDurationMs - TickInterval

  /** The state after i on-time ticks of a scan started at st: the last
      capture was at the latest odd tick, one frame went out per odd tick,
      and every frame sent carries at most the progress of the last
      capturing tick. */
  ghost predicate AfterOnTimeTicks(o: ScanOrchestrator, st: int, i: int)
    reads o
  {
    && 0 <= i <= TicksPerScan
    && o.Valid() && o.ProgressTagged() && o.startTime == st
    && (i < TicksPerScan ==> o.ticking)
    && (i == TicksPerScan ==> o.analyzing && !o.scanning && !o.ticking)
    && (i == 0 ==> o.lastFrameTime == 0)
    && (i > 0 ==> o.lastFrameTime == st + TickInterval * (if i % 2 == 1 then i else i - 1))
    && |o.uploads| == (i + 1) / 2
    && (forall k :: 0 <= k < |o.uploads| ==>
          o.uploads[k].progress <= Progress(LastCaptureElapsed, ScanDurationMs))
  }

  /** Tick i + 1 fires on time. */
  method OnTimeTick(o: ScanOrchestrator, st: int, i: int)
    requires AfterOnTimeTicks(o, st, i) && i < TicksPerScan && st >= FrameInterval
    modifies o
    ensures AfterOnTimeTicks(o, st, i + 1)
  {
    var elapsed := TickInterval * (i + 1);
    // A capture happens on every other tick, the first one included.
    ghost var captures := i % 2 == 0;
    assert captures <==> st + elapsed - o.lastFrameTime >= FrameInterval;
    assert (i + 2) / 2 == (i + 1) / 2 + (if captures then 1 else 0);
    assert (if (i + 1) % 2 == 1 then i + 1 else i) == (if captures then i + 1 else i);
    if captures {
      ProgressMonotone(elapsed, LastCaptureElapsed, ScanDurationMs);
    }
    o.Tick(st + elapsed, true, true);
  }

  /** Runs a started scan with the interval firing on time and every capture
      succeeding: half of the ticks send a frame, and none of the frames sent
      carries the progress the server waits for. */
  method OnTimeScan(o: ScanOrchestrator)
    requires o.Valid() && o.ProgressTagged() && o.ticking
    requires o.uploads == [] && o.lastFrameTime == 0 && o.startTime >= FrameInterval
    modifies o
    ensures o.analyzing && !o.scanning && !o.ticking
    ensures |o.uploads| == TicksPerScan / 2
    ensures forall k :: 0 <= k < |o.uploads| ==> o.uploads[k].progress < TriggerProgress
  {
    var st := o.startTime;
    var i := 0;
    while i < TicksPerScan
      invariant AfterOnTimeTicks(o, st, i)
    {
      OnTimeTick(o, st, i);
      i := i + 1;
    }
    assert Progress(LastCaptureElapsed, ScanDurationMs) < TriggerProgress;
  }

  /** The frames reach process_frontend_frame in the order they were sent,
      each as the data URL `frameData`. Processing starts exactly when one
      of them decodes and carries at least 99.9 on a session that has not
      started processing yet. */
  method DeliverUploads(s: ScanSession, uploads: seq<Upload>, frameData: string, decode: string -> Option<Frame>)
    requires s.Valid()
    modifies s
    ensures s.Valid()
    ensures var decodes := decode(DecodablePart(frameData)).Some?;
      var reaches := exists k :: 0 <= k < |uploads| && uploads[k].progress >= TriggerProgress;
      s.processingStarted == (old(s.processingStarted) || (decodes && reaches))
    ensures (forall k :: 0 <= k < |uploads| ==> uploads[k].progress < TriggerProgress) ==> s.jobs == old(s.jobs)
  {
    var i := 0;
    while i < |uploads|
      invariant 0 <= i <= |uploads| && s.Valid()
      invariant s.processingStarted == (old(s.processingStarted) ||
        (decode(DecodablePart(frameData)).Some? && exists k :: 0 <= k < i && uploads[k].progress >= TriggerProgress))
      invariant (forall k :: 0 <= k < i ==> uploads[k].progress < TriggerProgress) ==> s.jobs == old(s.jobs)
    {
      var _ := s.ProcessFrontendFrame(frameData, uploads[i].progress, decode);
      i := i + 1;
    }
  }

  /** With on-time ticks the server never starts processing: whatever frame
      text is posted, delivering the frames the scan sent (`sent`, the
      server's view of the upload log) leaves processing unstarted. */
  method OnTimeScanNeverProcesses(o: ScanOrchestrator, s: ScanSession, sent: seq<Upload>,
                                  frameData: string, decode: string -> Option<Frame>)
    requires o.Valid() && o.ProgressTagged() && o.ticking
    requires o.uploads == [] && o.lastFrameTime == 0 && o.startTime >= FrameInterval
    requires s.Valid() && !s.processingStarted
    modifies o, s
    ensures o.analyzing
    ensures sent == o.uploads ==> !s.processingStarted && s.jobs == old(s.jobs)
  {
    OnTimeScan(o);
    DeliverUploads(s, sent, frameData, decode);
  }

  // ---------------------------------------------------------------------------
  // The amended capture condition
  // ---------------------------------------------------------------------------

  /** The capture condition the completion handling needs: as written (200 ms
      since the previous capture), or the tick completes the scan. */
  predicate AmendedCaptureDue(elapsed: int, lastCapture: int) {
    elapsed - lastCapture >= FrameInterval || Progress(elapsed, ScanDurationMs) >= 100.0
  }

  /** When the last frame was captured, -FrameInterval before any capture so
      that the first tick captures as it does in the browser. */
  function LastCapture(sent: seq<int>): int {
    if |sent| == 0 then -FrameInterval else sent[|sent| - 1]
  }

  /** The elapsed times of the frames the first n on-time ticks send under
      the amended condition. */
  function AmendedCaptures(n: nat): (sent: seq<int>)
    ensures forall k :: 0 <= k < |sent| ==> 0 < sent[k] <= TickInterval * n
    ensures |sent| > 0 ==> sent[|sent| - 1] == LastCapture(sent)
  {
    if n == 0 then []
    else
      var earlier := AmendedCaptures(n - 1);
      var elapsed := TickInterval * n;
      if AmendedCaptureDue(elapsed, LastCapture(earlier)) then earlier + [elapsed] else earlier
  }

  /** Under the amended condition the completing tick sends a frame, at 100%,
      and every earlier frame is still at least FrameInterval after the one
      before it. */
  lemma {:induction false} AmendedScanSendsFinalFrame(n: nat)
    requires n == TicksPerScan
    ensures var sent := AmendedCaptures(n);
      && |sent| > 0 && sent[|sent| - 1] == ScanDurationMs
      && Progress(sent[|sent| - 1], ScanDurationMs) >= TriggerProgress
  {
    assert Progress(TickInterval * n, ScanDurationMs) == 100.0;
  }

  /** Consecutive capture times at least FrameInterval apart. */
  predicate SpacedTimes(sent: seq<int>) {
    forall k :: 0 < k < |sent| ==> sent[k - 1] + FrameInterval <= sent[k]
  }

  /** Frames the amended condition lets through before the completing tick
      keep the 200 ms spacing. */
  lemma {:induction false} AmendedCapturesSpaced(n: nat)
    requires n < TicksPerScan
    ensures SpacedTimes(AmendedCaptures(n))
  {
    if n > 0 {
      AmendedCapturesSpaced(n - 1);
      var earlier := AmendedCaptures(n - 1);
      var elapsed := TickInterval * n;
      assert Progress(elapsed, ScanDurationMs) < 100.0;
      if AmendedCaptureDue(elapsed, LastCapture(earlier)) {
        assert elapsed - LastCapture(earlier) >= FrameInterval;
        var sent := earlier + [elapsed];
        forall k | 0 < k < |sent|
          ensures sent[k - 1] + FrameInterval <= sent[k]
        {
          if k < |earlier| {
            assert sent[k - 1] == earlier[k - 1] && sent[k] == earlier[k];
          } else {
            assert sent[k - 1] == LastCapture(earlier) && sent[k] == elapsed;
          }
        }
        assert SpacedTimes(sent);
      }
    }
  }
}

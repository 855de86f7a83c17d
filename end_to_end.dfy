/** How the browser and the server meet: the frame text the browser posts
    and the part of it the server decodes, and what the results step shows
    for each reply of GET /scan/result. */
module EndToEnd {
  import opened Common
  import opened Session
  import opened Routes
  import opened Client

  // ---------------------------------------------------------------------------
  // Frames: canvas.toDataURL('image/jpeg', 0.8) to process_frontend_frame
  // ---------------------------------------------------------------------------

  /** What toDataURL puts before the base64 text of a JPEG image. */
  const JpegDataUrlPrefix := "data:image/jpeg;base64,"

  predicate IsBase64Char(c: char) {
    'A' <= c <= 'Z' || 'a' <= c <= 'z' || '0' <= c <= '9' || c == '+' || c == '/' || c == '='
  }

  predicate IsBase64(s: string) {
    forall i :: 0 <= i < |s| ==> IsBase64Char(s[i])
  }

  /** Base64 text has no comma, so it never holds the marker. */
  lemma Base64HasNoMarker(b: string)
    requires IsBase64(b)
    ensures !Contains(b, Marker)
  {
    forall k | 0 <= k <= |b|
      ensures !MatchAt(b, Marker, k)
    {
      if k + |Marker| <= |b| {
        assert b[k..k + |Marker|][6] == b[k + 6] != ',';
      }
    }
  }

  /** The server decodes exactly the base64 text the browser encoded. */
  lemma DataUrlRoundTrip(b: string)
    requires IsBase64(b)
    ensures DecodablePart(JpegDataUrlPrefix + b) == b
  {
    var s := JpegDataUrlPrefix + b;
    var at := |JpegDataUrlPrefix| - |Marker|;
    assert s[..|JpegDataUrlPrefix|] == JpegDataUrlPrefix;
    assert MatchAt(s, Marker, at) by {
      assert s[at..at + |Marker|] == JpegDataUrlPrefix[at..];
    }
    forall j | 0 <= j < at
      ensures !MatchAt(s, Marker, j)
    {
      assert s[j..j + |Marker|][0] == s[j] == JpegDataUrlPrefix[j] != Marker[0];
    }
    assert FindFrom(s, Marker, 0) == Some(at);
    assert s[at + |Marker|..] == b;
    Base64HasNoMarker(b);
    assert FindFrom(b, Marker, 0).None?;
  }

  // ---------------------------------------------------------------------------
  // Results: GET /scan/result to the results step
  // ---------------------------------------------------------------------------

  /** The result dictionary as the browser parses it; the JSON form of the
      heart-rate object is `encodeHr`. */
  function PayloadOf(v: VitalsResult, encodeHr: HeartRate -> Record): (p: Payload)
    ensures Client.Complete(p)
    ensures p.bloodPressure == Some(v.bloodPressure) && p.stress == Some(v.stress) && p.hrv == Some(v.hrv)
    ensures p.hr == Some(encodeHr(v.hr))
  {
    Payload(Some(encodeHr(v.hr)), Some(v.hrv), Some(v.bloodPressure), Some(v.stress))
  }

  /** What api.getResult() hands to loadResults: res.ok holds for every 2xx
      status, so the 202 reply arrives as a body holding only its detail;
      any other error status throws. */
  function Received(r: ResultReply, encodeHr: HeartRate -> Record): (f: Fetch)
    ensures f.FetchFailed? <==> r.ResultError? && !(200 <= r.code < 300)
    ensures r.ResultBody? ==> f == Fetched(Some(PayloadOf(r.result, encodeHr)))
    ensures r.ResultError? && 200 <= r.code < 300 ==> f == Fetched(Some(Payload(None, None, None, None)))
  {
    match r
    case ResultBody(v) => Fetched(Some(PayloadOf(v, encodeHr)))
    case ResultError(code, _) =>
      if 200 <= code < 300 then Fetched(Some(Payload(None, None, None, None))) else FetchFailed
  }

  /** The results page follows the session: the vitals of a completed scan
      are shown, with the session's own sections, and every other state of
      the session ends on "Failed to Load Results", the in-progress reply
      included, whose body has none of the sections. */
  lemma ResultsFollowSession(status: Status, result: Option<VitalsResult>, encodeHr: HeartRate -> Record)
    ensures var s := ResultsScreen(LoadResults(Received(ResultReplyFor(status, result), encodeHr)));
      && (s.ShowResults? <==> status == Complete && result.Some?)
      && (s.ShowResults? ==> s.payload == PayloadOf(result.value, encodeHr))
      && (!s.ShowResults? ==> s == FailedToLoad)
  {
    var r := ResultReplyFor(status, result);
    if status == Complete && result.Some? {
      assert r == ResultBody(result.value);
    }
  }

  /** With the loading that keeps incomplete payloads, a scan still in
      progress reaches the "Incomplete Results" page instead, and a failed
      or missing scan still reaches "Failed to Load Results". */
  lemma KeptResultsFollowSession(status: Status, result: Option<VitalsResult>, encodeHr: HeartRate -> Record)
    ensures var s := ResultsScreen(LoadResultsKeepingIncomplete(Received(ResultReplyFor(status, result), encodeHr)));
      && (s.ShowResults? <==> status == Complete && result.Some?)
      && (s == IncompleteResults <==> status == Scanning)
      && (s == FailedToLoad <==> status == Idle || status == Error || (status == Complete && result.None?))
  {
    var r := ResultReplyFor(status, result);
    if status == Complete && result.Some? {
      assert r == ResultBody(result.value);
    }
  }

  /** The results step of a session in a consistent state shows the vitals
      exactly when the scan completed. */
  method ShowResultsOf(session: ScanSession, encodeHr: HeartRate -> Record) returns (s: Screen)
    requires session.Valid()
    ensures s.ShowResults? <==> session.status == Complete
    ensures s.ShowResults? ==> s.payload == PayloadOf(session.result.value, encodeHr)
    ensures !s.ShowResults? ==> s == FailedToLoad
  {
    var reply := ScanResult(session);
    ResultsFollowSession(session.status, session.result, encodeHr);
    s := ResultsScreen(LoadResults(Received(reply, encodeHr)));
  }
}

/** The browser's stateless decisions (frontend/app.jsx): the form check of
    the first step, the progress and time-remaining formulas of the scanning
    step, the error text of a refused start, the retry rule of the status
    poll and the validation of the fetched result on the last step. */
module Client {
  import opened Common

  // ---------------------------------------------------------------------------
  // Step 1: the personal-information form
  // ---------------------------------------------------------------------------

  /** A number input: the browser gives either the empty text or a number. */
  datatype Field = Empty | Number(value: real)

  datatype Form = Form(age: Field, gender: string, heightCm: Field, weightKg: Field)

  const AgeError := "Age must be between 10 and 120"
  const HeightError := "Height must be between 100 and 250 cm"
  const WeightError := "Weight must be between 20 and 300 kg"

  predicate InRange(f: Field, lo: real, hi: real) {
    f.Number? && lo <= f.value <= hi
  }

  /** `!v || v < lo || v > hi` on the input's text: the empty text is falsy,
      any number text (even "0") is truthy and then compared numerically. */
  predicate FieldRejected(f: Field, lo: real, hi: real) {
    match f
    case Empty => true
    case Number(v) => v < lo || v > hi
  }

  /** The error object validate builds, one key per failing field. */
  function FormErrors(form: Form): (errs: map<string, string>)
    ensures errs.Keys <= {"age", "height_cm", "weight_kg"}
    ensures "age" in errs <==> !InRange(form.age, 10.0, 120.0)
    ensures "height_cm" in errs <==> !InRange(form.heightCm, 100.0, 250.0)
    ensures "weight_kg" in errs <==> !InRange(form.weightKg, 20.0, 300.0)
    ensures "age" in errs ==> errs["age"] == AgeError
    ensures "height_cm" in errs ==> errs["height_cm"] == HeightError
    ensures "weight_kg" in errs ==> errs["weight_kg"] == WeightError
  {
    var e0: map<string, string> := map[];
    var e1 := if FieldRejected(form.age, 10.0, 120.0) then e0["age" := AgeError] else e0;
    var e2 := if FieldRejected(form.heightCm, 100.0, 250.0) then e1["height_cm" := HeightError] else e1;
    if FieldRejected(form.weightKg, 20.0, 300.0) then e2["weight_kg" := WeightError] else e2
  }

  /** validate(): the form goes through when no key was set. */
  function Validate(form: Form): (ok: bool)
    ensures ok <==> && InRange(form.age, 10.0, 120.0)
                    && InRange(form.heightCm, 100.0, 250.0)
                    && InRange(form.weightKg, 20.0, 300.0)
  {
    var errs := FormErrors(form);
    assert !InRange(form.age, 10.0, 120.0) ==> "age" in errs.Keys;
    assert !InRange(form.heightCm, 100.0, 250.0) ==> "height_cm" in errs.Keys;
    assert !InRange(form.weightKg, 20.0, 300.0) ==> "weight_kg" in errs.Keys;
    |errs.Keys| == 0
  }

  // ---------------------------------------------------------------------------
  // Step 2: the progress shown while scanning
  // ---------------------------------------------------------------------------

  /** Math.min((elapsed / duration) * 100, 100) for a duration in ms. */
  function Progress(elapsed: int, durationMs: int): (p: real)
    requires durationMs > 0
    ensures p <= 100.0
    ensures p == 100.0 <==> elapsed >= durationMs
    ensures elapsed >= 0 ==> p >= 0.0
    ensures elapsed < durationMs ==> p == (elapsed as real) * 100.0 / (durationMs as real)
  {
    var raw := (elapsed as real) / (durationMs as real) * 100.0;
    assert raw == (elapsed as real) * 100.0 / (durationMs as real);
    PercentReachesHundred(elapsed as real, durationMs as real);
    if raw <= 100.0 then raw else 100.0
  }

  /** e / d * 100 reaches 100 exactly when e reaches d. */
  lemma PercentReachesHundred(e: real, d: real)
    requires d > 0.0
    ensures e / d * 100.0 >= 100.0 <==> e >= d
  {
    var q := e / d;
    assert q * d == e;
    if q < 1.0 {
      assert (1.0 - q) * d > 0.0;
    } else {
      assert (q - 1.0) * d >= 0.0;
    }
  }

  /** Progress never goes back as time passes. */
  lemma {:induction false} ProgressMonotone(e1: int, e2: int, durationMs: int)
    requires durationMs > 0 && e1 <= e2
    ensures Progress(e1, durationMs) <= Progress(e2, durationMs)
  {
    if e2 < durationMs {
      var d := durationMs as real;
      assert (e1 as real) * 100.0 <= (e2 as real) * 100.0;
      DivideMonotone((e1 as real) * 100.0, (e2 as real) * 100.0, d);
    }
  }

  lemma DivideMonotone(x: real, y: real, d: real)
    requires x <= y && d > 0.0
    ensures x / d <= y / d
  {
    assert y / d - x / d == (y - x) / d;
  }

  /** Math.max(0, D - Math.floor((progress / 100) * D)): whole seconds left
      of a D-second scan. */
  function TimeRemaining(progress: real, scanDuration: int): (t: int)
    requires scanDuration >= 0
    ensures t >= 0
    ensures 0.0 <= progress <= 100.0 ==> t <= scanDuration
    ensures progress == 0.0 ==> t == scanDuration
    ensures progress >= 100.0 ==> t == 0
  {
    ElapsedSecondsBounds(progress, scanDuration);
    var done := (progress / 100.0 * scanDuration as real).Floor;
    if scanDuration - done >= 0 then scanDuration - done else 0
  }

  /** Bounds of (progress / 100) * D, the part of the scan already done. */
  lemma ElapsedSecondsBounds(progress: real, scanDuration: int)
    requires scanDuration >= 0
    ensures progress <= 0.0 ==> progress / 100.0 * scanDuration as real <= 0.0
    ensures 0.0 <= progress ==> progress / 100.0 * scanDuration as real >= 0.0
    ensures progress <= 100.0 ==> progress / 100.0 * scanDuration as real <= scanDuration as real
    ensures progress >= 100.0 ==> progress / 100.0 * scanDuration as real >= scanDuration as real
  {
    var d := scanDuration as real;
    var f := progress / 100.0;
    assert f * d - d == (f - 1.0) * d;
  }

  /** Time remaining only counts down as progress grows. */
  lemma {:induction false} TimeRemainingAntitone(p1: real, p2: real, scanDuration: int)
    requires scanDuration >= 0 && p1 <= p2
    ensures TimeRemaining(p2, scanDuration) <= TimeRemaining(p1, scanDuration)
  {
    var d := scanDuration as real;
    assert p1 / 100.0 <= p2 / 100.0;
    assert p1 / 100.0 * d <= p2 / 100.0 * d by {
      assert (p2 / 100.0 - p1 / 100.0) * d >= 0.0;
    }
    FloorMonotone(p1 / 100.0 * d, p2 / 100.0 * d);
  }

  lemma FloorMonotone(x: real, y: real)
    requires x <= y
    ensures x.Floor <= y.Floor
  {
    assert x.Floor as real <= x < y.Floor as real + 1.0;
  }

  /** The message of every tick while the (captured) face flag is set. */
  function ScanningMessage(progress: real): string {
    "Scanning... " + IntToString(RoundHalfUp(progress)) + "% complete"
  }

  // ---------------------------------------------------------------------------
  // Starting a scan: the error text of the api client
  // ---------------------------------------------------------------------------

  const StartFallback := "Failed to start scan"
  const StartFailurePrefix := "Failed to start scan: "

  /** How the POST /scan/start request ended. */
  datatype StartResponse =
    | StartAccepted
      /** A non-2xx reply; `detail` is the JSON body's detail field, if any. */
    | StartRejected(detail: Option<string>)
      /** fetch or the JSON parse threw, with this message. */
    | StartThrew(message: string)

  /** `err.detail || 'Failed to start scan'`. */
  function RejectionText(detail: Option<string>): (m: string)
    ensures detail.Some? && detail.value != "" ==> m == detail.value
    ensures detail.None? || detail.value == "" ==> m == StartFallback
    ensures m != ""
  {
    match detail
    case None => StartFallback
    case Some(d) => if d == "" then StartFallback else d
  }

  /** The message of the error the start raises, or None when it succeeded. */
  function StartError(r: StartResponse): (e: Option<string>)
    ensures e.None? <==> r.StartAccepted?
    ensures r.StartRejected? ==> e == Some(RejectionText(r.detail))
    ensures r.StartThrew? ==> e == Some(r.message)
  {
    match r
    case StartAccepted => None
    case StartRejected(d) => Some(RejectionText(d))
    case StartThrew(m) => Some(m)
  }

  // ---------------------------------------------------------------------------
  // Waiting for the server: the status poll
  // ---------------------------------------------------------------------------

  const MaxPollAttempts: nat := 30

  /** One status query: the reported status text, or a thrown error. */
  datatype StatusAnswer = Answered(status: string) | QueryFailed

  predicate Conclusive(a: StatusAnswer) {
    a == Answered("complete") || a == Answered("error")
  }

  datatype PollStep = Finish | Retry(nextAttempt: nat)

  /** After a query at `attempt`: a complete or error status ends the wait;
      otherwise (an exception included) another query follows 500 ms later
      while attempt < 30, and the wait ends unconditionally at 30. */
  function PollDecision(attempt: nat, answer: StatusAnswer): (d: PollStep)
    ensures d.Finish? <==> Conclusive(answer) || attempt >= MaxPollAttempts
    ensures d.Retry? ==> d.nextAttempt == attempt + 1 && d.nextAttempt <= MaxPollAttempts
  {
    if Conclusive(answer) then Finish
    else if attempt < MaxPollAttempts then Retry(attempt + 1)
    else Finish
  }

  /** pollForResults(attempt) fed with the answers of its queries in order:
      the number of queries made before onComplete is called (once). */
  function PollRun(attempt: nat, answers: seq<StatusAnswer>): (queries: nat)
    requires attempt <= MaxPollAttempts
    requires |answers| > MaxPollAttempts - attempt
    ensures 1 <= queries <= MaxPollAttempts + 1 - attempt
    decreases MaxPollAttempts - attempt
  {
    match PollDecision(attempt, answers[0])
    case Finish => 1
    case Retry(next) => 1 + PollRun(next, answers[1..])
  }

  /** The wait ends at the first conclusive answer... */
  lemma {:induction false} PollRunStopsAtFirstConclusive(attempt: nat, answers: seq<StatusAnswer>, k: nat)
    requires attempt <= MaxPollAttempts
    requires |answers| > MaxPollAttempts - attempt
    requires attempt + k <= MaxPollAttempts && k < |answers| && Conclusive(answers[k])
    requires forall i :: 0 <= i < k ==> !Conclusive(answers[i])
    ensures PollRun(attempt, answers) == k + 1
    decreases k
  {
    if k > 0 {
      assert !Conclusive(answers[0]);
      assert forall i :: 0 <= i < k - 1 ==> answers[1..][i] == answers[i + 1];
      PollRunStopsAtFirstConclusive(attempt + 1, answers[1..], k - 1);
    }
  }

  /** ...and with no conclusive answer it takes exactly 31 queries from 0. */
  lemma {:induction false} PollRunInconclusive(attempt: nat, answers: seq<StatusAnswer>)
    requires attempt <= MaxPollAttempts
    requires |answers| > MaxPollAttempts - attempt
    requires forall i :: 0 <= i < |answers| ==> !Conclusive(answers[i])
    ensures PollRun(attempt, answers) == MaxPollAttempts + 1 - attempt
    decreases MaxPollAttempts - attempt
  {
    assert !Conclusive(answers[0]);
    if attempt < MaxPollAttempts {
      assert forall i :: 0 <= i < |answers[1..]| ==> answers[1..][i] == answers[i + 1];
      PollRunInconclusive(attempt + 1, answers[1..]);
    }
  }

  // ---------------------------------------------------------------------------
  // Step 3: loading and checking the result
  // ---------------------------------------------------------------------------

  /** The JSON object GET /scan/result returned; a key is None when absent. */
  datatype Payload = Payload(hr: Option<Record>, hrv: Option<Record>, bloodPressure: Option<Record>, stress: Option<Record>)

  /** api.getResult(): the parsed body of a 2xx reply, or a thrown error. */
  datatype Fetch = Fetched(body: Option<Payload>) | FetchFailed

  /** The three sections the results page needs. */
  predicate Complete(p: Payload) {
    p.hr.Some? && p.bloodPressure.Some? && p.stress.Some?
  }

  /** loadResults: the results state holds a payload only if it is complete. */
  function LoadResults(f: Fetch): (results: Option<Payload>)
    ensures results.Some? ==> Complete(results.value)
    ensures results.Some? <==> f.Fetched? && f.body.Some? && Complete(f.body.value)
    ensures results.Some? ==> results == f.body
  {
    match f
    case FetchFailed => None
    case Fetched(body) =>
      if body.Some? && Complete(body.value) then body else None
  }

  datatype Screen = ShowResults(payload: Payload) | FailedToLoad | IncompleteResults

  /** The page the results step renders once loading is over. */
  function ResultsScreen(results: Option<Payload>): (s: Screen)
    ensures s.ShowResults? <==> results.Some? && Complete(results.value)
    ensures s.ShowResults? ==> s.payload == results.value
    ensures s == FailedToLoad <==> results.None?
    ensures s == IncompleteResults <==> results.Some? && !Complete(results.value)
  {
    match results
    case None => FailedToLoad
    case Some(p) => if Complete(p) then ShowResults(p) else IncompleteResults
  }

  /** As written, an incomplete payload never reaches the page: it is shown
      as a failure to load, and the "Incomplete Results" page is unreachable. */
  lemma LoadedScreenNeverIncomplete(f: Fetch)
    ensures ResultsScreen(LoadResults(f)) != IncompleteResults
    ensures f.Fetched? && f.body.Some? && !Complete(f.body.value) ==> ResultsScreen(LoadResults(f)) == FailedToLoad
  {
  }

  /** The loading the page's two-way message evidently expects: a fetched
      payload is kept even when a section is missing, so the page can tell
      an incomplete scan from a failed fetch. */
  function LoadResultsKeepingIncomplete(f: Fetch): (results: Option<Payload>)
    ensures results.Some? <==> f.Fetched? && f.body.Some?
    ensures results.Some? ==> results == f.body
  {
    match f
    case FetchFailed => None
    case Fetched(body) => body
  }

  /** With that loading, every outcome of the fetch reaches its own page. */
  lemma KeptScreenDistinguishesIncomplete(f: Fetch)
    ensures var s := ResultsScreen(LoadResultsKeepingIncomplete(f));
      && (s == IncompleteResults <==> f.Fetched? && f.body.Some? && !Complete(f.body.value))
      && (s == FailedToLoad <==> f.FetchFailed? || f.body.None?)
      && (s.ShowResults? <==> ResultsScreen(LoadResults(f)).ShowResults?)
  {
  }
}

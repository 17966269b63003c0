/** The test sequencer of js/speedtest.js: a four-field result record, the
    `isRunning` flag and the fixed phase pipeline unloaded latency, download,
    show result, upload, loaded latency, refresh all, with its error path.

    Every `Math.random()` draw is a parameter in [0, 1); every timer wait is
    one sequential step; the wall clock enters only as the elapsed seconds the
    download sampler observes at each tick. */
module Speed {
  import opened Wrappers
  import Language

  /** `testConfig` (speedtest.js:18-26), the parts the sequence reads. */
  const LatencyTestCount: nat := 5
  const DownloadSizesMb: seq<nat> := [1, 2, 5, 10, 20]
  const MaxConnections: int := 8
  /** The floor of the download result (speedtest.js:149-151). */
  const DownloadFloor: real := 0.1
  const BytesPerMb: nat := 1024 * 1024

  /** `testResults`. */
  datatype Results = Results(download: real, upload: real, latencyUnloaded: real, latencyLoaded: real)

  const ZeroResults := Results(0.0, 0.0, 0.0, 0.0)

  /** The text of a metric's display element: as the page was authored, the
      literal `'0'` written by `showError`, or a formatted number. */
  datatype Readout = AsAuthored | ZeroText | Shows(value: real)

  /** What the sequencer reads and writes: the record and the display. */
  datatype Screen = Screen(
    results: Results,
    loadingShown: bool,
    resultShown: bool,
    downloadText: Readout,
    uploadText: Readout,
    latencyUnloadedText: Readout,
    latencyLoadedText: Readout)

  /** The steps of `startTest`, in the order the code takes them. */
  datatype Phase = UnloadedLatency | Download | ResultShown | Upload | LoadedLatency | AllMetrics | ErrorHandled

  const Pipeline: seq<Phase> := [UnloadedLatency, Download, ResultShown, Upload, LoadedLatency, AllMetrics]

  /** The steps of `handleError`: it calls `showResult` again when a download
      result exists. */
  function ErrorSteps(reshown: bool): seq<Phase> {
    if reshown then [ErrorHandled, ResultShown] else [ErrorHandled]
  }

  /** The steps of a run that failed in the `k`-th phase of the pipeline. */
  function Aborted(k: nat, reshown: bool): seq<Phase>
    requires 1 <= k <= |Pipeline|
  {
    Pipeline[..k] + ErrorSteps(reshown)
  }

  /** A step together with the value of `isRunning` while it ran. */
  datatype Event = Event(phase: Phase, running: bool)

  function Stamped(phases: seq<Phase>): (r: seq<Event>)
    ensures |r| == |phases|
    ensures forall i :: 0 <= i < |phases| ==> r[i] == Event(phases[i], true)
  {
    seq(|phases|, i requires 0 <= i < |phases| => Event(phases[i], true))
  }

  /** The traces of the `try` block and of `handleError`, written out. */
  lemma StampedRuns()
    ensures Stamped(Pipeline[..1]) == [Event(UnloadedLatency, true)]
    ensures Stamped(Pipeline[..5]) == [Event(UnloadedLatency, true), Event(Download, true), Event(ResultShown, true),
                                       Event(Upload, true), Event(LoadedLatency, true)]
    ensures Stamped(Pipeline) == [Event(UnloadedLatency, true), Event(Download, true), Event(ResultShown, true),
                                  Event(Upload, true), Event(LoadedLatency, true), Event(AllMetrics, true)]
    ensures Stamped(ErrorSteps(false)) == [Event(ErrorHandled, true)]
    ensures Stamped(ErrorSteps(true)) == [Event(ErrorHandled, true), Event(ResultShown, true)]
  {
  }

  lemma StampedAppend(a: seq<Phase>, b: seq<Phase>)
    ensures Stamped(a + b) == Stamped(a) + Stamped(b)
  {
  }

  /** A value `Math.random()` can return. */
  predicate IsDraw(r: real) {
    0.0 <= r < 1.0
  }

  /** The draws of one latency phase: one per ping, `None` for a ping whose
      attempt threw and was skipped by the `catch` (speedtest.js:231-234). */
  predicate ValidPings(pings: seq<Option<real>>) {
    |pings| == LatencyTestCount && forall i :: 0 <= i < |pings| && pings[i].Some? ==> IsDraw(pings[i].value)
  }

  /** Everything a run consumes from the outside world. */
  datatype Draws = Draws(
    unloadedPings: seq<Option<real>>,
    downloadTicks: seq<real>,
    uploadDraw: real,
    loadedPings: seq<Option<real>>)

  predicate ValidDraws(d: Draws) {
    ValidPings(d.unloadedPings) && ValidPings(d.loadedPings) && IsDraw(d.uploadDraw)
  }

  /** `determineConnectionCount`: `Math.min(4, maxConnections)`. */
  function ConnectionCount(maxConnections: int): (n: int)
    ensures n <= 4 && n <= maxConnections
    ensures n == 4 || n == maxConnections
    ensures maxConnections == MaxConnections ==> n == 4
  {
    if 4 <= maxConnections then 4 else maxConnections
  }

  /** What one simulated connection reports and how long it sleeps. */
  datatype Transfer = Transfer(bytes: nat, durationMs: real)

  /** `downloadFile`: a size drawn from `downloadSizes` and a speed of
      50 Mbps scaled by a factor in [0.7, 1.3). */
  function DownloadFile(sizeDraw: real, factorDraw: real): (t: Transfer)
    requires IsDraw(sizeDraw) && IsDraw(factorDraw)
    ensures t.bytes % BytesPerMb == 0 && t.bytes / BytesPerMb in DownloadSizesMb
    ensures 35.0 * t.durationMs <= (t.bytes / BytesPerMb) as real * 8000.0 < 65.0 * t.durationMs
  {
    var sizeIndex := (sizeDraw * (|DownloadSizesMb| as real)).Floor;
    var sizeInMb := DownloadSizesMb[sizeIndex];
    var randomFactor := 0.7 + factorDraw * 0.6;
    var simulatedSpeed := 50.0 * randomFactor;
    var downloadTimeMs := (sizeInMb as real * 8.0) / simulatedSpeed * 1000.0;
    Transfer(sizeInMb * 1024 * 1024, downloadTimeMs)
  }

  /** The lowest and the (excluded) highest simulated ping. */
  function PingLow(loaded: bool): real { if loaded then 20.0 else 10.0 }
  function PingHigh(loaded: bool): real { if loaded then 60.0 else 30.0 }

  /** One simulated ping (speedtest.js:222-224). */
  function PingDelay(loaded: bool, r: real): (d: real)
    ensures IsDraw(r) ==> PingLow(loaded) <= d < PingHigh(loaded)
  {
    if loaded then 20.0 + r * 40.0 else 10.0 + r * 20.0
  }

  /** `successfulTests` after the pings `pings`. */
  function SuccessCount(pings: seq<Option<real>>): nat {
    if pings == [] then 0
    else SuccessCount(pings[..|pings| - 1]) + (if pings[|pings| - 1].Some? then 1 else 0)
  }

  /** Every ping of the phase completed. */
  predicate AllAnswered(pings: seq<Option<real>>) {
    forall i :: 0 <= i < |pings| ==> pings[i].Some?
  }

  /** When every ping completes, every ping is counted. */
  lemma {:induction false} AllAnsweredCountsAll(pings: seq<Option<real>>)
    requires AllAnswered(pings)
    ensures SuccessCount(pings) == |pings|
  {
    if pings != [] {
      var init := pings[..|pings| - 1];
      assert forall i :: 0 <= i < |init| ==> init[i] == pings[i];
      AllAnsweredCountsAll(init);
      assert pings[|pings| - 1].Some?;
    }
  }

  /** `totalLatency` after the pings `pings`. */
  function SuccessTotal(pings: seq<Option<real>>, loaded: bool): real {
    if pings == [] then 0.0
    else
      var last := pings[|pings| - 1];
      SuccessTotal(pings[..|pings| - 1], loaded) + (if last.Some? then PingDelay(loaded, last.value) else 0.0)
  }

  /** Each successful ping lies in the phase's range, so their total lies
      between `count * low` and `count * high`, strictly below when any
      ping succeeded. */
  lemma {:induction false} SuccessTotalBounds(pings: seq<Option<real>>, loaded: bool)
    requires forall i :: 0 <= i < |pings| && pings[i].Some? ==> IsDraw(pings[i].value)
    ensures (SuccessCount(pings) as real) * PingLow(loaded) <= SuccessTotal(pings, loaded)
    ensures SuccessTotal(pings, loaded) <= (SuccessCount(pings) as real) * PingHigh(loaded)
    ensures SuccessCount(pings) > 0 ==> SuccessTotal(pings, loaded) < (SuccessCount(pings) as real) * PingHigh(loaded)
  {
    if pings != [] {
      var init := pings[..|pings| - 1];
      assert forall i :: 0 <= i < |init| ==> init[i] == pings[i];
      SuccessTotalBounds(init, loaded);
      var last := pings[|pings| - 1];
      if last.Some? {
        assert IsDraw(last.value);
      }
    }
  }

  /** `avgLatency`. */
  function MeanLatency(pings: seq<Option<real>>, loaded: bool): real
    requires SuccessCount(pings) > 0
  {
    SuccessTotal(pings, loaded) / (SuccessCount(pings) as real)
  }

  /** The mean of the successful pings lies in the range of one ping. */
  lemma MeanLatencyInRange(pings: seq<Option<real>>, loaded: bool)
    requires ValidPings(pings) && SuccessCount(pings) > 0
    ensures PingLow(loaded) <= MeanLatency(pings, loaded) < PingHigh(loaded)
  {
    SuccessTotalBounds(pings, loaded);
    QuotientBounds(SuccessTotal(pings, loaded), SuccessCount(pings) as real, PingLow(loaded), PingHigh(loaded));
  }

  lemma QuotientBounds(total: real, n: real, low: real, high: real)
    requires n > 0.0 && low * n <= total < high * n
    ensures low <= total / n < high
  {
    var q := total / n;
    assert q * n == total;
    assert (q - low) * n == total - low * n;
    assert (high - q) * n == high * n - total;
  }

  /** `measureLatency(loaded)`: `None` is the thrown "All latency tests failed". */
  function LatencyPhase(s: Screen, loaded: bool, pings: seq<Option<real>>): (r: Option<Screen>)
    ensures r.None? <==> SuccessCount(pings) == 0
    ensures r.Some? ==> r.value.results.download == s.results.download && r.value.results.upload == s.results.upload
    ensures r.Some? ==> r.value.loadingShown == s.loadingShown && r.value.resultShown == s.resultShown
    ensures r.Some? ==> r.value.downloadText == s.downloadText && r.value.uploadText == s.uploadText
    ensures r.Some? ==>
      (if loaded then r.value.results.latencyLoaded else r.value.results.latencyUnloaded) == MeanLatency(pings, loaded)
  {
    if SuccessCount(pings) == 0 then None
    else
      var avg := MeanLatency(pings, loaded);
      if loaded then Some(s.(results := s.results.(latencyLoaded := avg), latencyLoadedText := Shows(avg)))
      else Some(s.(results := s.results.(latencyUnloaded := avg), latencyUnloadedText := Shows(avg)))
  }

  /** A latency phase fails exactly when no ping succeeded; otherwise it
      writes the mean, which lies in the ping range, to the matching field
      and its display, and nothing else. */
  lemma LatencyPhaseWritesItsField(s: Screen, loaded: bool, pings: seq<Option<real>>)
    requires ValidPings(pings)
    ensures LatencyPhase(s, loaded, pings).None? <==> SuccessCount(pings) == 0
    ensures LatencyPhase(s, loaded, pings).Some? ==>
      var r := LatencyPhase(s, loaded, pings).value;
      var avg := if loaded then r.results.latencyLoaded else r.results.latencyUnloaded;
      && avg == MeanLatency(pings, loaded)
      && PingLow(loaded) <= avg < PingHigh(loaded)
      && r.results.download == s.results.download
      && r.results.upload == s.results.upload
      && (loaded ==> r.results.latencyUnloaded == s.results.latencyUnloaded && r.latencyLoadedText == Shows(avg)
                     && r.latencyUnloadedText == s.latencyUnloadedText)
      && (!loaded ==> r.results.latencyLoaded == s.results.latencyLoaded && r.latencyUnloadedText == Shows(avg)
                      && r.latencyLoadedText == s.latencyLoadedText)
      && r.downloadText == s.downloadText && r.uploadText == s.uploadText
      && r.loadingShown == s.loadingShown && r.resultShown == s.resultShown
  {
    if SuccessCount(pings) > 0 {
      MeanLatencyInRange(pings, loaded);
    }
  }

  /** One reading of the download sampler: `bytes` over `elapsedSecs`, in Mbps. */
  function Sample(bytes: real, elapsedSecs: real): real
    requires elapsedSecs > 0.0
  {
    (bytes * 8.0) / (elapsedSecs * 1000000.0)
  }

  /** Whether some sampler tick saw time pass. */
  predicate AnyPositiveTick(ticks: seq<real>) {
    exists k :: 0 <= k < |ticks| && ticks[k] > 0.0
  }

  /** The screen after the sampler's ticks, as written: the byte counter it
      reads is never increased, so every reading is taken over zero bytes. */
  function Sampled(s: Screen, ticks: seq<real>): (r: Screen)
    ensures r == s.(results := s.results.(download := r.results.download), downloadText := r.downloadText)
  {
    if ticks == [] then s
    else
      var before := Sampled(s, ticks[..|ticks| - 1]);
      var elapsed := ticks[|ticks| - 1];
      if elapsed > 0.0 then
        var speed := Sample(0.0, elapsed);
        before.(results := before.results.(download := speed), downloadText := Shows(speed))
      else before
  }

  /** `measureDownloadSpeed`: the sampler, then the floor. */
  function DownloadPhase(s: Screen, ticks: seq<real>): (r: Screen)
    ensures r.results.download >= DownloadFloor
    ensures r == s.(results := s.results.(download := r.results.download), downloadText := r.downloadText)
  {
    var sampled := Sampled(s, ticks);
    if sampled.results.download < DownloadFloor then sampled.(results := sampled.results.(download := DownloadFloor))
    else sampled
  }

  /** Every reading the sampler takes is zero: once any tick saw time pass
      the download field is 0 and its display shows 0. */
  lemma {:induction false} SampledReadsZero(s: Screen, ticks: seq<real>)
    ensures var r := Sampled(s, ticks);
      && r.results.download == (if AnyPositiveTick(ticks) then 0.0 else s.results.download)
      && r.downloadText == (if AnyPositiveTick(ticks) then Shows(0.0) else s.downloadText)
      && r.results.upload == s.results.upload
      && r.results.latencyUnloaded == s.results.latencyUnloaded
      && r.results.latencyLoaded == s.results.latencyLoaded
      && r == s.(results := r.results, downloadText := r.downloadText)
  {
    if ticks != [] {
      var init := ticks[..|ticks| - 1];
      SampledReadsZero(s, init);
      assert AnyPositiveTick(ticks) <==> AnyPositiveTick(init) || ticks[|ticks| - 1] > 0.0 by {
        if AnyPositiveTick(init) {
          var k :| 0 <= k < |init| && init[k] > 0.0;
          assert ticks[k] == init[k];
        }
        if AnyPositiveTick(ticks) && ticks[|ticks| - 1] <= 0.0 {
          var k :| 0 <= k < |ticks| && ticks[k] > 0.0;
          assert init[k] == ticks[k];
        }
      }
    }
  }

  /** The download phase never ends below the floor, and as written it ends
      exactly on it whenever it starts from the zeroed record or any sampler
      tick saw time pass: the downloaded bytes never reach the result. */
  lemma DownloadEndsOnFloor(s: Screen, ticks: seq<real>)
    ensures var r := DownloadPhase(s, ticks);
      && r.results.download >= DownloadFloor
      && (AnyPositiveTick(ticks) || s.results.download < DownloadFloor ==> r.results.download == DownloadFloor)
      && r.results.upload == s.results.upload
      && r.results.latencyUnloaded == s.results.latencyUnloaded
      && r.results.latencyLoaded == s.results.latencyLoaded
      && r.loadingShown == s.loadingShown && r.resultShown == s.resultShown
      && r.downloadText == (if AnyPositiveTick(ticks) then Shows(0.0) else s.downloadText)
      && r == s.(results := r.results, downloadText := r.downloadText)
  {
    SampledReadsZero(s, ticks);
  }

  /** `10 + Math.random() * 20` (speedtest.js:193). */
  function UploadSpeed(r: real): (speed: real)
    requires IsDraw(r)
    ensures 10.0 <= speed < 30.0
  {
    10.0 + r * 20.0
  }

  /** `measureUploadSpeed`. */
  function UploadPhase(s: Screen, r: real): (u: Screen)
    requires IsDraw(r)
    ensures 10.0 <= u.results.upload < 30.0 && u.uploadText == Shows(u.results.upload)
    ensures u == s.(results := s.results.(upload := u.results.upload), uploadText := u.uploadText)
  {
    var speed := UploadSpeed(r);
    s.(results := s.results.(upload := speed), uploadText := Shows(speed))
  }

  /** `showResult`. */
  function ShowResultOn(s: Screen): Screen {
    s.(loadingShown := false, resultShown := true)
  }

  /** `showError`. */
  function ShowErrorOn(s: Screen): Screen {
    s.(loadingShown := false, resultShown := true, downloadText := ZeroText)
  }

  /** `handleError`: the error state, with the download display re-filled
      only when a download result exists; nothing is rethrown. */
  function HandleErrorOn(s: Screen): (r: Screen)
    ensures r.results == s.results
    ensures r.resultShown && !r.loadingShown
    ensures r.downloadText == if s.results.download > 0.0 then Shows(s.results.download) else ZeroText
    ensures r.uploadText == s.uploadText
    ensures r.latencyUnloadedText == s.latencyUnloadedText && r.latencyLoadedText == s.latencyLoadedText
  {
    var e := ShowErrorOn(s);
    if s.results.download > 0.0 then ShowResultOn(e.(downloadText := Shows(s.results.download)))
    else e
  }

  /** `updateAllMetrics`. */
  function RefreshAll(s: Screen): Screen {
    s.(downloadText := Shows(s.results.download),
       uploadText := Shows(s.results.upload),
       latencyUnloadedText := Shows(s.results.latencyUnloaded),
       latencyLoadedText := Shows(s.results.latencyLoaded))
  }

  /** Whether an exception reaches the `catch` of `startTest`: a latency
      phase in which no ping succeeded. */
  predicate Fails(d: Draws) {
    SuccessCount(d.unloadedPings) == 0 || SuccessCount(d.loadedPings) == 0
  }

  /** The phases the `try` block of `startTest` enters, up to and including
      the one that throws. */
  function AttemptedPhases(d: Draws): (r: seq<Phase>)
    ensures 1 <= |r| <= |Pipeline| && r == Pipeline[..|r|]
    ensures r == Pipeline <==> !Fails(d)
  {
    if SuccessCount(d.unloadedPings) == 0 then Pipeline[..1]
    else if SuccessCount(d.loadedPings) == 0 then Pipeline[..5]
    else Pipeline
  }

  /** The screen when the `try` block of `startTest` ends, normally or by a
      throw. */
  function Attempted(s: Screen, d: Draws): (r: Screen)
    requires ValidDraws(d)
    ensures SuccessCount(d.unloadedPings) == 0 ==> r == s
    ensures SuccessCount(d.unloadedPings) > 0 ==> r.resultShown && !r.loadingShown && r.results.download >= DownloadFloor
  {
    match LatencyPhase(s, false, d.unloadedPings)
    case None => s
    case Some(s1) =>
      var s4 := UploadPhase(ShowResultOn(DownloadPhase(s1, d.downloadTicks)), d.uploadDraw);
      match LatencyPhase(s4, true, d.loadedPings)
      case None => s4
      case Some(s5) => RefreshAll(s5)
  }

  /** The end state and the steps of one `startTest`. */
  datatype RunOutcome = RunOutcome(screen: Screen, phases: seq<Phase>)

  /** `startTest`: the `try` block, then `handleError` if it threw. */
  function Run(s: Screen, d: Draws): (r: RunOutcome)
    requires ValidDraws(d)
    ensures r.screen.resultShown && !r.screen.loadingShown
    ensures |r.phases| >= 2 && r.phases[0] == UnloadedLatency
  {
    var a := Attempted(s, d);
    if Fails(d) then RunOutcome(HandleErrorOn(a), AttemptedPhases(d) + ErrorSteps(a.results.download > 0.0))
    else RunOutcome(a, Pipeline)
  }

  /** The three ways a run ends, one per outcome of the latency phases. */
  lemma RunCases(s: Screen, d: Draws)
    requires ValidDraws(d)
    ensures SuccessCount(d.unloadedPings) == 0 ==>
      Run(s, d) == RunOutcome(HandleErrorOn(s), Aborted(1, s.results.download > 0.0))
    ensures SuccessCount(d.unloadedPings) > 0 ==>
      var s1 := LatencyPhase(s, false, d.unloadedPings).value;
      var s4 := UploadPhase(ShowResultOn(DownloadPhase(s1, d.downloadTicks)), d.uploadDraw);
      && (SuccessCount(d.loadedPings) == 0 ==>
            Run(s, d) == RunOutcome(HandleErrorOn(s4), Aborted(5, s4.results.download > 0.0)))
      && (SuccessCount(d.loadedPings) > 0 ==>
            Run(s, d) == RunOutcome(RefreshAll(LatencyPhase(s4, true, d.loadedPings).value), Pipeline))
  {
  }

  /** The trace each outcome of a run leaves, written out; a failure in the
      last phase always re-shows the result, since the download result is by
      then at least the floor. */
  lemma RunTraces(s: Screen, d: Draws)
    requires ValidDraws(d)
    ensures SuccessCount(d.unloadedPings) == 0 ==>
      Stamped(Run(s, d).phases) == [Event(UnloadedLatency, true), Event(ErrorHandled, true)]
                                   + (if s.results.download > 0.0 then [Event(ResultShown, true)] else [])
    ensures SuccessCount(d.unloadedPings) > 0 && SuccessCount(d.loadedPings) == 0 ==>
      Stamped(Run(s, d).phases) == [Event(UnloadedLatency, true), Event(Download, true), Event(ResultShown, true),
                                    Event(Upload, true), Event(LoadedLatency, true), Event(ErrorHandled, true),
                                    Event(ResultShown, true)]
    ensures SuccessCount(d.unloadedPings) > 0 && SuccessCount(d.loadedPings) > 0 ==>
      Stamped(Run(s, d).phases) == [Event(UnloadedLatency, true), Event(Download, true), Event(ResultShown, true),
                                    Event(Upload, true), Event(LoadedLatency, true), Event(AllMetrics, true)]
  {
    StampedRuns();
    if SuccessCount(d.unloadedPings) == 0 {
      assert Run(s, d).phases == Aborted(1, s.results.download > 0.0);
    } else {
      var s1 := LatencyPhase(s, false, d.unloadedPings).value;
      var s4 := UploadPhase(ShowResultOn(DownloadPhase(s1, d.downloadTicks)), d.uploadDraw);
      if SuccessCount(d.loadedPings) == 0 {
        assert Run(s, d).phases == Aborted(5, true);
      }
    }
  }

  /** The phases of a run follow the pipeline strictly in order; a run either
      completes all of them, or stops at the first failing phase and goes to
      `handleError`, skipping every later phase. */
  lemma RunFollowsPipeline(s: Screen, d: Draws)
    requires ValidDraws(d)
    ensures var phases := Run(s, d).phases;
      phases == Pipeline || exists k, reshown :: 1 <= k <= |Pipeline| && phases == Aborted(k, reshown)
    ensures Run(s, d).phases == Pipeline <==> SuccessCount(d.unloadedPings) > 0 && SuccessCount(d.loadedPings) > 0
    ensures Run(s, d).phases == Aborted(1, s.results.download > 0.0) <==> SuccessCount(d.unloadedPings) == 0
    ensures ErrorHandled !in Run(s, d).phases ==> Run(s, d).phases == Pipeline
  {
    LatencyPhaseWritesItsField(s, false, d.unloadedPings);
    if SuccessCount(d.unloadedPings) == 0 {
      assert Run(s, d).phases == Aborted(1, s.results.download > 0.0);
    } else {
      var s4 := UploadPhase(ShowResultOn(DownloadPhase(LatencyPhase(s, false, d.unloadedPings).value, d.downloadTicks)), d.uploadDraw);
      LatencyPhaseWritesItsField(s4, true, d.loadedPings);
      if SuccessCount(d.loadedPings) == 0 {
        assert Run(s, d).phases == Aborted(5, s4.results.download > 0.0);
      }
    }
  }

  /** A run without failures from the zeroed record fills all four fields
      with positive values in their ranges, download exactly at the floor,
      and shows them all. */
  lemma CompleteRunResults(s: Screen, d: Draws)
    requires ValidDraws(d) && s.results == ZeroResults
    requires SuccessCount(d.unloadedPings) > 0 && SuccessCount(d.loadedPings) > 0
    ensures var r := Run(s, d).screen;
      && r.results.download == DownloadFloor
      && 10.0 <= r.results.upload < 30.0
      && 10.0 <= r.results.latencyUnloaded < 30.0
      && 20.0 <= r.results.latencyLoaded < 60.0
      && r.downloadText == Shows(r.results.download)
      && r.uploadText == Shows(r.results.upload)
      && r.latencyUnloadedText == Shows(r.results.latencyUnloaded)
      && r.latencyLoadedText == Shows(r.results.latencyLoaded)
      && r.resultShown && !r.loadingShown
  {
    LatencyPhaseWritesItsField(s, false, d.unloadedPings);
    var s1 := LatencyPhase(s, false, d.unloadedPings).value;
    DownloadEndsOnFloor(s1, d.downloadTicks);
    var s4 := UploadPhase(ShowResultOn(DownloadPhase(s1, d.downloadTicks)), d.uploadDraw);
    LatencyPhaseWritesItsField(s4, true, d.loadedPings);
  }

  /** A failing unloaded-latency phase: nothing is measured, the error state
      shows `'0'` for download (or the earlier download, if any), and the
      other displays keep whatever they showed before. */
  lemma FailedFirstPhase(s: Screen, d: Draws)
    requires ValidDraws(d) && SuccessCount(d.unloadedPings) == 0
    ensures Run(s, d).phases == Aborted(1, s.results.download > 0.0)
    ensures var r := Run(s, d).screen;
      && r.results == s.results
      && r.resultShown && !r.loadingShown
      && r.downloadText == (if s.results.download > 0.0 then Shows(s.results.download) else ZeroText)
      && r.uploadText == s.uploadText
      && r.latencyUnloadedText == s.latencyUnloadedText
      && r.latencyLoadedText == s.latencyLoadedText
  {
  }

  /** A failing loaded-latency phase keeps the partial results: the download
      (on the floor) is re-displayed, the upload stays, and the loaded
      latency keeps its previous value and display. */
  lemma FailedLastPhase(s: Screen, d: Draws)
    requires ValidDraws(d) && s.results == ZeroResults
    requires SuccessCount(d.unloadedPings) > 0 && SuccessCount(d.loadedPings) == 0
    ensures Run(s, d).phases == Aborted(5, true)
    ensures var r := Run(s, d).screen;
      && r.results.download == DownloadFloor
      && r.downloadText == Shows(DownloadFloor)
      && 10.0 <= r.results.upload < 30.0
      && r.uploadText == Shows(r.results.upload)
      && 10.0 <= r.results.latencyUnloaded < 30.0
      && r.results.latencyLoaded == 0.0
      && r.latencyLoadedText == s.latencyLoadedText
      && r.resultShown && !r.loadingShown
  {
    LatencyPhaseWritesItsField(s, false, d.unloadedPings);
    var s1 := LatencyPhase(s, false, d.unloadedPings).value;
    DownloadEndsOnFloor(s1, d.downloadTicks);
    var s4 := UploadPhase(ShowResultOn(DownloadPhase(s1, d.downloadTicks)), d.uploadDraw);
    LatencyPhaseWritesItsField(s4, true, d.loadedPings);
  }

  /** `restart` before it starts the sequence again. */
  function Restarted(s: Screen): (r: Screen)
    ensures r.results == ZeroResults
    ensures r.loadingShown && !r.resultShown
    ensures r.downloadText == s.downloadText && r.uploadText == s.uploadText
    ensures r.latencyUnloadedText == s.latencyUnloadedText && r.latencyLoadedText == s.latencyLoadedText
  {
    s.(results := ZeroResults, loadingShown := true, resultShown := false)
  }

  /** After `restart` the new run's results do not depend on the previous
      run's: the record is zeroed before the first field is written. */
  lemma RestartForgetsPreviousResults(s: Screen, t: Screen, d: Draws)
    requires ValidDraws(d)
    ensures Run(Restarted(s), d).screen.results == Run(Restarted(t), d).screen.results
    ensures Run(Restarted(s), d).phases == Run(Restarted(t), d).phases
  {
    ResultsDetermineRun(Restarted(s), Restarted(t), d);
  }

  /** A run reads nothing of the screen but `testResults`: two screens with
      the same results give the same results and the same phases. */
  lemma ResultsDetermineRun(a: Screen, b: Screen, d: Draws)
    requires ValidDraws(d) && a.results == b.results
    ensures Run(a, d).screen.results == Run(b, d).screen.results
    ensures Run(a, d).phases == Run(b, d).phases
  {
    if SuccessCount(d.unloadedPings) > 0 {
      var a1, b1 := LatencyPhase(a, false, d.unloadedPings).value, LatencyPhase(b, false, d.unloadedPings).value;
      assert a1.results == b1.results;
      SampledReadsZero(a1, d.downloadTicks);
      SampledReadsZero(b1, d.downloadTicks);
      var a4 := UploadPhase(ShowResultOn(DownloadPhase(a1, d.downloadTicks)), d.uploadDraw);
      var b4 := UploadPhase(ShowResultOn(DownloadPhase(b1, d.downloadTicks)), d.uploadDraw);
      assert a4.results == b4.results;
    }
  }

  /** Every ping the code takes completes: its `try` wraps only a random draw
      and a timer. With every ping answered no phase fails, so the error path
      is never taken and every run is the full pipeline. */
  lemma EveryPingAnsweredCompletesRun(s: Screen, d: Draws)
    requires ValidDraws(d) && AllAnswered(d.unloadedPings) && AllAnswered(d.loadedPings)
    ensures Run(s, d).phases == Pipeline
    ensures ErrorHandled !in Run(s, d).phases
  {
    AllAnsweredCountsAll(d.unloadedPings);
    AllAnsweredCountsAll(d.loadedPings);
    RunFollowsPipeline(s, d);
  }

  /** `SpeedTest`. */
  class SpeedTest {
    var isRunning: bool
    var results: Results
    var loadingShown: bool
    var resultShown: bool
    var downloadText: Readout
    var uploadText: Readout
    var latencyUnloadedText: Readout
    var latencyLoadedText: Readout
    /** `additionalMetricsElement` and the more-info button. */
    const panel: Language.MoreInfoPanel
    /** The steps `startTest` has taken, each with `isRunning` at that time. */
    ghost var trace: seq<Event>

    function View(): Screen
      reads this
    {
      Screen(results, loadingShown, resultShown, downloadText, uploadText, latencyUnloadedText, latencyLoadedText)
    }

    /** The constructor, which ends by running `init`. */
    constructor (panel: Language.MoreInfoPanel, d: Draws)
      requires ValidDraws(d)
      ensures this.panel == panel && !isRunning
      ensures var start := Screen(ZeroResults, true, false, AsAuthored, AsAuthored, AsAuthored, AsAuthored);
        && View() == Run(start, d).screen
        && trace == Stamped(Run(start, d).phases)
    {
      this.panel := panel;
      isRunning := false;
      results := ZeroResults;
      loadingShown, resultShown := true, false;
      downloadText, uploadText := AsAuthored, AsAuthored;
      latencyUnloadedText, latencyLoadedText := AsAuthored, AsAuthored;
      trace := [];
      new;
      Init(d);
    }

    /** `init`: hide the result, show the loading indicator, start the test. */
    method Init(d: Draws)
      requires ValidDraws(d) && !isRunning
      modifies this
      ensures !isRunning
      ensures View() == Run(old(View()).(resultShown := false, loadingShown := true), d).screen
      ensures trace == old(trace) + Stamped(Run(old(View()).(resultShown := false, loadingShown := true), d).phases)
    {
      resultShown := false;
      loadingShown := true;
      StartTest(d);
    }

    /** `startTest`. The steps in `trace` are written by the phase methods
        themselves, so their order is the order of the calls. */
    method StartTest(d: Draws)
      requires ValidDraws(d)
      modifies this
      ensures !isRunning
      ensures View() == Run(old(View()), d).screen
      ensures trace == old(trace) + Stamped(Run(old(View()), d).phases)
    {
      isRunning := true;
      var failed := TryPhases(d);
      if failed {
        ghost var a := View();
        HandleError();
        StampedRuns();
        StampedAppend(AttemptedPhases(d), ErrorSteps(a.results.download > 0.0));
      }
      isRunning := false;
    }

    /** The `try` block of `startTest`; `failed` is an exception that reaches
        the `catch`, which stops the phases at the one that threw. */
    method TryPhases(d: Draws) returns (failed: bool)
      requires ValidDraws(d) && isRunning
      modifies this
      ensures failed == Fails(d)
      ensures View() == Attempted(old(View()), d)
      ensures isRunning
      ensures trace == old(trace) + Stamped(AttemptedPhases(d))
    {
      ghost var s0 := View();
      StampedRuns();
      var ok, latency := MeasureLatency(false, d.unloadedPings);
      if !ok {
        return true;
      }
      ghost var s1 := View();
      var downloadSpeed := MeasureDownloadSpeed(d.downloadTicks);
      ShowResult();
      var uploadSpeed := MeasureUploadSpeed(d.uploadDraw);
      ghost var s4 := View();
      assert s4 == UploadPhase(ShowResultOn(DownloadPhase(s1, d.downloadTicks)), d.uploadDraw);
      ok, latency := MeasureLatency(true, d.loadedPings);
      if !ok {
        return true;
      }
      UpdateAllMetrics();
      return false;
    }

    /** `handleError`. */
    method HandleError()
      modifies this
      ensures View() == HandleErrorOn(old(View()))
      ensures isRunning == old(isRunning)
      ensures trace == old(trace) + [Event(ErrorHandled, isRunning)]
                       + (if old(results.download) > 0.0 then [Event(ResultShown, isRunning)] else [])
    {
      trace := trace + [Event(ErrorHandled, isRunning)];
      ShowError();
      if results.download > 0.0 {
        downloadText := Shows(results.download);
        ShowResult();
      }
    }

    /** `measureLatency(loaded)`; `ok` is false where the source throws. */
    method MeasureLatency(loaded: bool, pings: seq<Option<real>>) returns (ok: bool, avg: real)
      requires ValidPings(pings)
      modifies this
      ensures ok <==> SuccessCount(pings) > 0
      ensures ok ==> avg == MeanLatency(pings, loaded) && PingLow(loaded) <= avg < PingHigh(loaded)
      ensures LatencyPhase(old(View()), loaded, pings).Some? ==> View() == LatencyPhase(old(View()), loaded, pings).value
      ensures LatencyPhase(old(View()), loaded, pings).None? ==> View() == old(View())
      ensures isRunning == old(isRunning)
      ensures trace == old(trace) + [Event(if loaded then LoadedLatency else UnloadedLatency, isRunning)]
    {
      trace := trace + [Event(if loaded then LoadedLatency else UnloadedLatency, isRunning)];
      var totalLatency := 0.0;
      var successfulTests := 0;
      var i := 0;
      while i < LatencyTestCount
        invariant 0 <= i <= LatencyTestCount
        invariant totalLatency == SuccessTotal(pings[..i], loaded)
        invariant successfulTests == SuccessCount(pings[..i])
        invariant View() == old(View()) && isRunning == old(isRunning)
        invariant trace == old(trace) + [Event(if loaded then LoadedLatency else UnloadedLatency, isRunning)]
      {
        assert pings[..i + 1][..i] == pings[..i];
        match pings[i] {
          case None =>
          case Some(r) =>
            var pingDelay := PingDelay(loaded, r);
            totalLatency := totalLatency + pingDelay;
            successfulTests := successfulTests + 1;
        }
        i := i + 1;
      }
      assert pings[..i] == pings;
      if successfulTests > 0 {
        avg := totalLatency / successfulTests as real;
        MeanLatencyInRange(pings, loaded);
        if loaded {
          results := results.(latencyLoaded := avg);
          latencyLoadedText := Shows(avg);
        } else {
          results := results.(latencyUnloaded := avg);
          latencyUnloadedText := Shows(avg);
        }
        ok := true;
      } else {
        ok, avg := false, 0.0;
      }
    }

    /** `measureDownloadSpeed`: the interval callback runs once per tick;
        its byte counter starts at zero and nothing ever adds to it. */
    method MeasureDownloadSpeed(ticks: seq<real>) returns (speed: real)
      modifies this
      ensures View() == DownloadPhase(old(View()), ticks)
      ensures speed == results.download && speed >= DownloadFloor
      ensures isRunning == old(isRunning) && trace == old(trace) + [Event(Download, isRunning)]
    {
      trace := trace + [Event(Download, isRunning)];
      var totalBytesDownloaded := 0.0;
      var i := 0;
      while i < |ticks|
        invariant 0 <= i <= |ticks|
        invariant totalBytesDownloaded == 0.0
        invariant View() == Sampled(old(View()), ticks[..i])
        invariant isRunning == old(isRunning) && trace == old(trace) + [Event(Download, isRunning)]
      {
        assert ticks[..i + 1][..i] == ticks[..i];
        var elapsedSecs := ticks[i];
        if elapsedSecs > 0.0 {
          var currentSpeed := Sample(totalBytesDownloaded, elapsedSecs);
          results := results.(download := currentSpeed);
          downloadText := Shows(currentSpeed);
          totalBytesDownloaded := 0.0;
        }
        i := i + 1;
      }
      assert ticks[..i] == ticks;
      if results.download < DownloadFloor {
        results := results.(download := DownloadFloor);
      }
      speed := results.download;
    }

    /** `measureUploadSpeed`. */
    method MeasureUploadSpeed(r: real) returns (speed: real)
      requires IsDraw(r)
      modifies this
      ensures View() == UploadPhase(old(View()), r)
      ensures speed == results.upload && 10.0 <= speed < 30.0
      ensures isRunning == old(isRunning) && trace == old(trace) + [Event(Upload, isRunning)]
    {
      trace := trace + [Event(Upload, isRunning)];
      var simulatedUploadSpeed := 10.0 + r * 20.0;
      results := results.(upload := simulatedUploadSpeed);
      uploadText := Shows(simulatedUploadSpeed);
      speed := simulatedUploadSpeed;
    }

    /** `showResult`. */
    method ShowResult()
      modifies this
      ensures View() == ShowResultOn(old(View()))
      ensures isRunning == old(isRunning) && trace == old(trace) + [Event(ResultShown, isRunning)]
    {
      trace := trace + [Event(ResultShown, isRunning)];
      loadingShown := false;
      resultShown := true;
    }

    /** `showError`. */
    method ShowError()
      modifies this
      ensures View() == ShowErrorOn(old(View()))
      ensures isRunning == old(isRunning) && trace == old(trace)
    {
      loadingShown := false;
      resultShown := true;
      downloadText := ZeroText;
    }

    /** `updateAllMetrics`. */
    method UpdateAllMetrics()
      modifies this
      ensures View() == RefreshAll(old(View()))
      ensures isRunning == old(isRunning) && trace == old(trace) + [Event(AllMetrics, isRunning)]
    {
      trace := trace + [Event(AllMetrics, isRunning)];
      downloadText := Shows(results.download);
      uploadText := Shows(results.upload);
      latencyUnloadedText := Shows(results.latencyUnloaded);
      latencyLoadedText := Shows(results.latencyLoaded);
    }

    /** `restart`; `translator` is `window.languageManager`, possibly absent. */
    method Restart(translator: Language.LanguageManager?, d: Draws)
      requires ValidDraws(d)
      modifies this, panel
      ensures !isRunning
      ensures View() == Run(Restarted(old(View())), d).screen
      ensures trace == old(trace) + Stamped(Run(Restarted(old(View())), d).phases)
      ensures !panel.expanded
      ensures panel.caption == if translator != null then translator.Translate("show-more") else old(panel.caption)
    {
      results := Results(0.0, 0.0, 0.0, 0.0);
      resultShown := false;
      loadingShown := true;
      panel.expanded := false;
      if translator != null {
        panel.caption := translator.Translate("show-more");
      }
      StartTest(d);
    }

    /** The click handler on the result panel (speedtest.js:375-379). */
    method OnResultClick(translator: Language.LanguageManager?, d: Draws)
      requires ValidDraws(d)
      modifies this, panel
      ensures old(isRunning) ==> View() == old(View()) && trace == old(trace) && unchanged(panel)
      ensures !old(isRunning) ==>
        && View() == Run(Restarted(old(View())), d).screen
        && trace == old(trace) + Stamped(Run(Restarted(old(View())), d).phases)
        && !panel.expanded
        && panel.caption == (if translator != null then translator.Translate("show-more") else old(panel.caption))
      ensures isRunning == old(isRunning) || !isRunning
    {
      if !isRunning {
        Restart(translator, d);
      }
    }
  }
}

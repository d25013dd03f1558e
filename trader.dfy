/**
 * The main page: the analysis orchestrator, the history it keeps, the live
 * screen toggle, the mode switch and the chart upload. Clocks are passed in
 * as millisecond timestamps and every remote call as its settled outcome.
 */
module Trader {
  import opened Wrappers
  import opened Types
  import opened GeminiService
  import opened Browser
  import Auth

  const HistoryCap: nat := 10
  const MarketClosed: string := "Mercado Fechado. Scanner indisponível no final de semana."
  const SelectChart: string := "Selecione um gráfico."
  const Unavailable: string := "Análise indisponível."
  const LiveStartFailed: string := "Falha ao iniciar Livescreen."
  const MsPerDay: int := 86400000

  function Min(a: int, b: int): int {
    if a < b then a else b
  }

  // ---------------------------------------------------------------------------
  // The weekend gate.

  /** `new Date(t).getUTCDay()`: epoch day 0 was a Thursday (4); Sunday is 0. */
  function WeekDay(t: int): (d: int)
    ensures 0 <= d < 7
  {
    (t / MsPerDay + 4) % 7
  }

  /**
   * The day count starts on a Thursday and advances by one, modulo the week,
   * every `MsPerDay`; 2024-01-06 (1704499200000) was a Saturday, and the last
   * millisecond before the epoch fell on a Wednesday.
   */
  lemma WeekDayCalendar(t: int)
    ensures WeekDay(0) == 4 && WeekDay(MsPerDay - 1) == 4
    ensures WeekDay(-1) == 3
    ensures WeekDay(1704499200000) == 6
    ensures WeekDay(t + MsPerDay) == (WeekDay(t) + 1) % 7
  {
    assert (t + MsPerDay) / MsPerDay == t / MsPerDay + 1;
  }

  /**
   * `isWeekend()` at time `t`: Saturday or Sunday in UTC, that is, the last two
   * days of a week counted from Monday (the epoch day being day 3 of its week).
   */
  function IsWeekend(t: int): (weekend: bool)
    ensures weekend <==> (t / MsPerDay + 3) % 7 >= 5
  {
    WeekDay(t) == 0 || WeekDay(t) == 6
  }

  /** The gate depends only on the day of the week: a week later it answers the same. */
  lemma WeekendRepeatsWeekly(t: int)
    ensures IsWeekend(t + 7 * MsPerDay) == IsWeekend(t)
  {
    assert (t + 7 * MsPerDay) / MsPerDay == t / MsPerDay + 7;
  }

  // ---------------------------------------------------------------------------
  // History: newest first, at most ten.

  /** `[res, ...prev].slice(0, 10)`: the new result first, then the newest of the old ones. */
  function Record(history: seq<AnalysisResult>, res: AnalysisResult): (h: seq<AnalysisResult>)
    ensures |h| == Min(|history| + 1, HistoryCap)
    ensures h[0] == res
    ensures h[1..] == history[..|h| - 1]
  {
    var s := [res] + history;
    assert s[1..] == history;
    s[..Min(|s|, HistoryCap)]
  }

  /** Recording several results one after another, in order. */
  function RecordAll(history: seq<AnalysisResult>, rs: seq<AnalysisResult>): seq<AnalysisResult>
    decreases |rs|
  {
    if rs == [] then history else RecordAll(Record(history, rs[0]), rs[1..])
  }

  function Reversed<T>(s: seq<T>): (r: seq<T>)
    ensures |r| == |s|
    ensures forall k | 0 <= k < |s| :: r[k] == s[|s| - 1 - k]
  {
    if s == [] then [] else Reversed(s[1..]) + [s[0]]
  }

  /** The first `HistoryCap` elements of `s`. */
  function Newest(s: seq<AnalysisResult>): seq<AnalysisResult> {
    s[..Min(|s|, HistoryCap)]
  }

  /** Truncating the tail first does not change the newest entries. */
  lemma NewestOfNewest(a: seq<AnalysisResult>, b: seq<AnalysisResult>)
    ensures Newest(a + Newest(b)) == Newest(a + b)
  {
    var l, r := Newest(a + Newest(b)), Newest(a + b);
    assert |l| == |r|;
    forall k | 0 <= k < |l|
      ensures l[k] == r[k]
    {
      if k >= |a| {
        assert l[k] == Newest(b)[k - |a|];
      }
    }
  }

  /**
   * After any sequence of successful runs, history holds the newest ten of all
   * results, newest first: the runs in reverse order, then the older history.
   */
  lemma {:induction false} RecordAllKeepsNewest(history: seq<AnalysisResult>, rs: seq<AnalysisResult>)
    requires |history| <= HistoryCap
    ensures RecordAll(history, rs) == Newest(Reversed(rs) + history)
    decreases |rs|
  {
    if rs == [] {
      assert Newest(history) == history;
    } else {
      var h := Record(history, rs[0]);
      assert h == Newest([rs[0]] + history);
      RecordAllKeepsNewest(h, rs[1..]);
      NewestOfNewest(Reversed(rs[1..]), [rs[0]] + history);
      assert Reversed(rs) + history == Reversed(rs[1..]) + ([rs[0]] + history);
    }
  }

  /** Ten or more runs in a row leave exactly the last ten, newest first, whatever came before. */
  lemma LastTenRuns(history: seq<AnalysisResult>, rs: seq<AnalysisResult>)
    requires |history| <= HistoryCap && |rs| >= HistoryCap
    ensures |RecordAll(history, rs)| == HistoryCap
    ensures forall k | 0 <= k < HistoryCap :: RecordAll(history, rs)[k] == rs[|rs| - 1 - k]
  {
    RecordAllKeepsNewest(history, rs);
  }

  // ---------------------------------------------------------------------------
  // One run of the orchestrator.

  /** A call into the service layer or the live session, with the arguments it was given. */
  datatype ServiceCall =
    | Scan
    | Chart(image: string, mode: TradeMode)
    | Predict(image: string, signal: Signal, market: string)
    | CloseLiveSession

  /**
   * Everything a run takes from its environment: the time at which the weekend
   * gate is evaluated, `Date.now()` when the result is built, and the settled
   * scan, structured-analysis, search and image calls.
   */
  datatype Env = Env(gateTime: int, now: int,
                     scan: Outcome<Response>, chart: Outcome<Response>,
                     search: Outcome<Response>, image: Outcome<Response>)

  datatype RunOutcome = Succeeded(result: AnalysisResult) | Failed(message: string)

  /** How a run ends, and the calls it made in order. */
  datatype Run = Run(outcome: RunOutcome, calls: seq<ServiceCall>)

  /** The record built from a scan: `{ ...scan, timestamp, mode: 'RADOM', signal, entrySuggestion: scan.entry }`. */
  function ScanResult(a: Analysis, now: int): (res: AnalysisResult)
    ensures res.signal == Some(a.signal) && res.market == Some(a.market) && res.warning == a.warning
    ensures res.groundingUrls == Some(a.groundingUrls)
    ensures res.entrySuggestion == a.entry && res.timestamp == now && res.mode == Radom
    ensures res.imagePreview.None? && res.predictionImageUrl.None?
  {
    AnalysisResult(Some(a.signal), a.entry, now, Radom, Some(a.market), None, None, Some(a.groundingUrls), a.warning)
  }

  /** The record built from a chart analysis, its preview and its projection. */
  function ChartResult(a: Analysis, now: int, mode: TradeMode, image: string, prediction: Option<string>): (res: AnalysisResult)
    ensures res.signal == Some(a.signal) && res.market == Some(a.market) && res.warning == a.warning
    ensures res.groundingUrls == Some(a.groundingUrls)
    ensures res.entrySuggestion == a.entry && res.timestamp == now && res.mode == mode
    ensures res.imagePreview == Some(image) && res.predictionImageUrl == prediction
  {
    AnalysisResult(Some(a.signal), a.entry, now, mode, Some(a.market), Some(image), prediction, Some(a.groundingUrls), a.warning)
  }

  /** `if (!previewUrl)` fails for a missing and for an empty preview alike. */
  function HasPreview(previewUrl: Option<string>): (present: bool)
    ensures previewUrl.None? ==> !present
    ensures previewUrl == Some("") ==> !present
    ensures previewUrl.Some? && previewUrl.value != "" ==> present
  {
    previewUrl.Some? && previewUrl.value != ""
  }

  /** The text shown for a failure: its message, or the generic one when the message is empty. */
  function ErrorText(msg: string): (t: string)
    ensures t != ""
    ensures msg != "" ==> t == msg
    ensures msg == "" ==> t == Unavailable
  {
    if msg == "" then Unavailable else msg
  }

  /**
   * What `handleAnalyze` does outside LIVE mode: the weekend gate on the
   * scanner, the missing-chart check, and the primary call followed, for
   * charts, by the projection.
   */
  function RunAnalysis(mode: TradeMode, previewUrl: Option<string>, env: Env, parse: Parser<Fields>): (r: Run)
    requires mode != Live
    ensures mode == Radom && IsWeekend(env.gateTime) ==> r == Run(Failed(MarketClosed), [])
    ensures mode == Radom && !IsWeekend(env.gateTime) ==> r.calls == [Scan]
    ensures mode == Radom && !IsWeekend(env.gateTime) ==>
              (r.outcome.Succeeded? <==> ScanMarketForSignals(env.scan, parse).Ok?)
    ensures mode == Radom && !IsWeekend(env.gateTime) && ScanMarketForSignals(env.scan, parse).Err? ==>
              r.outcome == Failed(ScanMarketForSignals(env.scan, parse).msg)
    ensures IsChartMode(mode) && !HasPreview(previewUrl) ==> r == Run(Failed(SelectChart), [])
    ensures IsChartMode(mode) && HasPreview(previewUrl) ==> |r.calls| >= 1 && r.calls[0] == Chart(previewUrl.value, mode)
    ensures IsChartMode(mode) && HasPreview(previewUrl) && ChartAnalysisOf(env.chart, env.search, parse).Err? ==>
              r == Run(Failed(ChartAnalysisOf(env.chart, env.search, parse).msg), [Chart(previewUrl.value, mode)])
    ensures r.outcome.Succeeded? ==>
              && r.outcome.result.mode == mode
              && r.outcome.result.timestamp == env.now
              && r.outcome.result.signal.Some?
  {
    if mode == Radom && IsWeekend(env.gateTime) then
      Run(Failed(MarketClosed), [])
    else if mode == Radom then
      match ScanMarketForSignals(env.scan, parse)
      case Err(m) => Run(Failed(m), [Scan])
      case Ok(scan) => Run(Succeeded(ScanResult(scan, env.now)), [Scan])
    else if !HasPreview(previewUrl) then
      Run(Failed(SelectChart), [])
    else
      var p := previewUrl.value;
      match ChartAnalysisOf(env.chart, env.search, parse)
      case Err(m) => Run(Failed(m), [Chart(p, mode)])
      case Ok(analysis) =>
        Run(Succeeded(ChartResult(analysis, env.now, mode, p, ProjectionOf(env.image))),
            [Chart(p, mode), Predict(p, analysis.signal, analysis.market)])
  }

  /**
   * The projection is requested only after the structured analysis succeeded,
   * as the second call, with that analysis's signal and market.
   */
  lemma PredictOnlyAfterChart(mode: TradeMode, previewUrl: Option<string>, env: Env, parse: Parser<Fields>)
    requires mode != Live
    ensures var run := RunAnalysis(mode, previewUrl, env, parse);
            forall k | 0 <= k < |run.calls| && run.calls[k].Predict? ::
              && k == 1 && IsChartMode(mode) && HasPreview(previewUrl)
              && ChartAnalysisOf(env.chart, env.search, parse).Ok?
              && run.calls[0] == Chart(previewUrl.value, mode)
              && run.calls[k] == Predict(previewUrl.value, ChartAnalysisOf(env.chart, env.search, parse).value.signal,
                                         ChartAnalysisOf(env.chart, env.search, parse).value.market)
  {
  }

  /**
   * A successful chart run carries the analysis's entry as its suggestion, the
   * preview it analysed and whatever projection came back (possibly none).
   */
  lemma ChartRunResult(mode: TradeMode, previewUrl: Option<string>, env: Env, parse: Parser<Fields>)
    requires IsChartMode(mode) && HasPreview(previewUrl)
    requires ChartAnalysisOf(env.chart, env.search, parse).Ok?
    ensures RunAnalysis(mode, previewUrl, env, parse).outcome.Succeeded?
    ensures var res := RunAnalysis(mode, previewUrl, env, parse).outcome.result;
            && res.entrySuggestion == ChartAnalysisOf(env.chart, env.search, parse).value.entry
            && res.signal == Some(ChartAnalysisOf(env.chart, env.search, parse).value.signal)
            && res.market == Some(ChartAnalysisOf(env.chart, env.search, parse).value.market)
            && res.warning == ChartAnalysisOf(env.chart, env.search, parse).value.warning
            && res.groundingUrls == Some(EnrichmentUrls(env.search))
            && res.imagePreview == previewUrl
            && res.predictionImageUrl == ProjectionOf(env.image)
            && RunAnalysis(mode, previewUrl, env, parse).calls
               == [Chart(previewUrl.value, mode), Predict(previewUrl.value, res.signal.value, res.market.value)]
  {
  }

  /**
   * A scanner run on a weekday that the validated scan answers is a success
   * built from the scan: its entry as suggestion, its market, no links, no
   * chart and no projection.
   */
  lemma ScanRunResult(previewUrl: Option<string>, env: Env, parse: Parser<Fields>)
    requires !IsWeekend(env.gateTime)
    requires ScanMarketForSignals(env.scan, parse).Ok?
    ensures RunAnalysis(Radom, previewUrl, env, parse).outcome.Succeeded?
    ensures var a := ScanMarketForSignals(env.scan, parse).value;
            var res := RunAnalysis(Radom, previewUrl, env, parse).outcome.result;
            && res.signal == Some(a.signal)
            && res.entrySuggestion == a.entry
            && res.market == Some(a.market)
            && res.warning == a.warning
            && res.groundingUrls == Some([])
            && res.imagePreview.None? && res.predictionImageUrl.None?
  {
  }

  /**
   * The best-effort calls never decide a run: two environments that differ only
   * in the search and image calls end the same way and make the same calls.
   */
  lemma BestEffortNeverFails(mode: TradeMode, previewUrl: Option<string>, e1: Env, e2: Env, parse: Parser<Fields>)
    requires mode != Live
    requires e1.(search := e2.search, image := e2.image) == e2
    ensures RunAnalysis(mode, previewUrl, e1, parse).outcome.Succeeded? == RunAnalysis(mode, previewUrl, e2, parse).outcome.Succeeded?
    ensures RunAnalysis(mode, previewUrl, e1, parse).calls == RunAnalysis(mode, previewUrl, e2, parse).calls
  {
    EnrichmentIsBestEffort(e1.chart, e1.search, e2.search, parse);
  }

  /**
   * The `try` block of `handleAnalyze` outside LIVE mode: the run's outcome,
   * and the service calls it made in order.
   */
  method AnalyzeOnce(mode: TradeMode, previewUrl: Option<string>, env: Env, parse: Parser<Fields>)
    returns (outcome: RunOutcome, ghost made: seq<ServiceCall>)
    requires mode != Live
    ensures Run(outcome, made) == RunAnalysis(mode, previewUrl, env, parse)
  {
    if mode == Radom && IsWeekend(env.gateTime) {
      outcome, made := Failed(MarketClosed), [];
    } else if mode == Radom {
      var scan := ScanMarketForSignals(env.scan, parse);
      if scan.Err? {
        outcome := Failed(scan.msg);
      } else {
        outcome := Succeeded(ScanResult(scan.value, env.now));
      }
      made := [Scan];
    } else if !HasPreview(previewUrl) {
      outcome, made := Failed(SelectChart), [];
    } else {
      var p := previewUrl.value;
      var analysis := AnalyzeChart(env.chart, env.search, parse);
      if analysis.Err? {
        outcome, made := Failed(analysis.msg), [Chart(p, mode)];
      } else {
        var predictionUrl := PredictContinuation(env.image);
        outcome := Succeeded(ChartResult(analysis.value, env.now, mode, p, predictionUrl));
        made := [Chart(p, mode), Predict(p, analysis.value.signal, analysis.value.market)];
      }
    }
  }


  /** A live screen session handle; the page keeps at most one. */
  datatype LiveSession = LiveSession(id: nat)

  // ---------------------------------------------------------------------------
  // The page's state and its handlers.

  class App {
    const store: LocalStorage
    var isAuthenticated: bool
    var isAnalyzing: bool
    var currentResult: Option<AnalysisResult>
    var history: seq<AnalysisResult>
    var previewUrl: Option<string>
    var error: Option<string>
    var mode: TradeMode
    var isLiveActive: bool
    /** `liveSessionRef.current`. */
    var liveSession: Option<LiveSession>
    /** Every service and session call made so far, in order. */
    ghost var calls: seq<ServiceCall>

    /** Between handlers no analysis is in flight and history is within its capacity. */
    ghost predicate Valid()
      reads this
    {
      !isAnalyzing && |history| <= HistoryCap
    }

    /** Mounting the page: authenticated exactly when the stored flag is 'true'; BINARIA mode; nothing else yet. */
    constructor (store: LocalStorage)
      ensures Valid() && this.store == store
      ensures isAuthenticated == Auth.StoredApproved(store.items)
      ensures currentResult.None? && history == [] && previewUrl.None? && error.None?
      ensures mode == Binaria && !isLiveActive && liveSession.None? && calls == []
    {
      this.store := store;
      isAuthenticated := Auth.StoredApproved(store.items);
      isAnalyzing := false;
      currentResult := None;
      history := [];
      previewUrl := None;
      error := None;
      mode := Binaria;
      isLiveActive := false;
      liveSession := None;
      calls := [];
    }

    /** `onAccessGranted`, called by the login screen. */
    method OnAccessGranted()
      requires Valid()
      modifies this
      ensures Valid() && isAuthenticated
      ensures currentResult == old(currentResult) && history == old(history) && previewUrl == old(previewUrl)
      ensures error == old(error) && mode == old(mode) && isLiveActive == old(isLiveActive)
      ensures liveSession == old(liveSession) && calls == old(calls)
    {
      isAuthenticated := true;
    }

    /** `handleLogout`: forgets the id and the approval (the page then reloads). */
    method HandleLogout()
      modifies store
      ensures store.items == Auth.LoggedOut(old(store.items))
    {
      store.RemoveItem(Auth.TraderIdKey);
      store.RemoveItem(Auth.ApprovedKey);
    }

    /**
     * `stopLiveMode`: closes the held session, if any, ignoring anything the
     * close throws, and marks live mode inactive. Safe to call repeatedly.
     */
    method StopLiveMode()
      requires Valid()
      modifies this
      ensures Valid() && !isLiveActive
      ensures calls == old(calls) + (if liveSession.Some? then [CloseLiveSession] else [])
      ensures liveSession == old(liveSession) && isAuthenticated == old(isAuthenticated)
      ensures currentResult == old(currentResult) && history == old(history) && previewUrl == old(previewUrl)
      ensures error == old(error) && mode == old(mode)
    {
      if liveSession.Some? {
        calls := calls + [CloseLiveSession];
      }
      isLiveActive := false;
    }

    /** `startLiveMode` once screen capture has been granted (`captureOk`) or refused. */
    method StartLiveMode(captureOk: bool)
      requires Valid()
      modifies this
      ensures Valid()
      ensures isLiveActive == (captureOk || old(isLiveActive))
      ensures error == (if captureOk then None else Some(LiveStartFailed))
      ensures liveSession == old(liveSession) && isAuthenticated == old(isAuthenticated)
      ensures currentResult == old(currentResult) && history == old(history) && previewUrl == old(previewUrl)
      ensures mode == old(mode) && calls == old(calls)
    {
      error := None;
      if captureOk {
        isLiveActive := true;
      } else {
        error := Some(LiveStartFailed);
      }
    }

    /** A mode button: select the mode, stop live mode, clear the error. */
    method SelectMode(m: TradeMode)
      requires Valid()
      modifies this
      ensures Valid()
      ensures mode == m && !isLiveActive && error.None?
      ensures calls == old(calls) + (if liveSession.Some? then [CloseLiveSession] else [])
      ensures liveSession == old(liveSession) && isAuthenticated == old(isAuthenticated)
      ensures currentResult == old(currentResult) && history == old(history) && previewUrl == old(previewUrl)
    {
      mode := m;
      StopLiveMode();
      error := None;
    }

    /**
     * `handleFileChange` once the reader has finished: `reader.result` is the
     * data URL, or null (`None`) when the read failed; either way it becomes
     * the preview and the current result is cleared.
     */
    method LoadChart(readerResult: Option<string>)
      requires Valid()
      modifies this
      ensures Valid()
      ensures previewUrl == readerResult && currentResult.None?
      ensures history == old(history) && error == old(error) && mode == old(mode)
      ensures isLiveActive == old(isLiveActive) && liveSession == old(liveSession)
      ensures isAuthenticated == old(isAuthenticated) && calls == old(calls)
    {
      previewUrl := readerResult;
      currentResult := None;
    }

    /**
     * `handleAnalyze`. In LIVE mode nothing at all changes. Otherwise the error
     * is cleared, the run is made, and it either records its result (current
     * result and history) or shows its error, leaving both untouched.
     */
    method HandleAnalyze(env: Env, parse: Parser<Fields>)
      requires Valid()
      modifies this
      ensures Valid()
      ensures old(mode) == Live ==> unchanged(this)
      ensures old(mode) != Live ==>
                var run := RunAnalysis(old(mode), old(previewUrl), env, parse);
                && calls == old(calls) + run.calls
                && (run.outcome.Succeeded? ==>
                      && currentResult == Some(run.outcome.result)
                      && history == Record(old(history), run.outcome.result)
                      && error.None?)
                && (run.outcome.Failed? ==>
                      && currentResult == old(currentResult)
                      && history == old(history)
                      && error == Some(ErrorText(run.outcome.message)))
      ensures mode == old(mode) && previewUrl == old(previewUrl) && isAuthenticated == old(isAuthenticated)
      ensures isLiveActive == old(isLiveActive) && liveSession == old(liveSession)
    {
      if mode == Live {
        return;
      }
      var m0, p0 := mode, previewUrl;
      error := None;
      isAnalyzing := true;
      var outcome, made := AnalyzeOnce(m0, p0, env, parse);
      calls := calls + made;
      Settle(outcome);
      isAnalyzing := false;
    }

    /**
     * How `handleAnalyze` settles a run: a result becomes the current one and
     * is recorded in history; a failure shows its message instead.
     */
    method Settle(outcome: RunOutcome)
      requires |history| <= HistoryCap
      modifies this
      ensures |history| <= HistoryCap
      ensures outcome.Succeeded? ==>
                && currentResult == Some(outcome.result)
                && history == Record(old(history), outcome.result)
                && error == old(error)
      ensures outcome.Failed? ==>
                && currentResult == old(currentResult)
                && history == old(history)
                && error == Some(ErrorText(outcome.message))
      ensures isAnalyzing == old(isAnalyzing) && calls == old(calls)
      ensures mode == old(mode) && previewUrl == old(previewUrl) && isAuthenticated == old(isAuthenticated)
      ensures isLiveActive == old(isLiveActive) && liveSession == old(liveSession)
    {
      match outcome {
        case Succeeded(res) =>
          currentResult := Some(res);
          history := Record(history, res);
        case Failed(m) =>
          error := Some(ErrorText(m));
      }
    }
  }
}

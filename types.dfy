/**
 * The shared vocabulary of the assistant: trading modes, signals, market
 * status and the analysis record shown to the trader and kept in history.
 * String-valued unions become datatypes; `ModeName`, `SignalWire` and
 * `ConditionName` give the
 * exact strings the values travel as, and the `Parse…` functions recognise them.
 */
module Types {
  import opened Wrappers

  /** The four mutually exclusive ways of running the assistant. */
  datatype TradeMode = Forex | Binaria | Live | Radom

  function ModeName(m: TradeMode): string {
    match m
    case Forex => "FOREX"
    case Binaria => "BINARIA"
    case Live => "LIVE"
    case Radom => "RADOM"
  }

  /** Recognises a mode by its wire name: exactly the four names are modes. */
  function ParseMode(w: string): (r: Option<TradeMode>)
    ensures r.Some? <==> w == "FOREX" || w == "BINARIA" || w == "LIVE" || w == "RADOM"
    ensures r.Some? ==> ModeName(r.value) == w
  {
    if w == "FOREX" then Some(Forex)
    else if w == "BINARIA" then Some(Binaria)
    else if w == "LIVE" then Some(Live)
    else if w == "RADOM" then Some(Radom)
    else None
  }

  lemma ModeNameRoundTrip(m: TradeMode)
    ensures ParseMode(ModeName(m)) == Some(m)
  {
  }

  /** The modes that analyse an uploaded chart image. */
  predicate IsChartMode(m: TradeMode) {
    m == Forex || m == Binaria
  }

  /** `SignalType`: BUY travels as 'COMPRA', SELL as 'VENDA'. */
  datatype Signal = Compra | Venda

  function SignalWire(s: Signal): string {
    match s
    case Compra => "COMPRA"
    case Venda => "VENDA"
  }

  /** Recognises a signal by its wire string: only 'COMPRA' and 'VENDA' are signals. */
  function ParseSignal(w: string): (r: Option<Signal>)
    ensures r.Some? <==> w == "COMPRA" || w == "VENDA"
    ensures r.Some? ==> SignalWire(r.value) == w
  {
    if w == "COMPRA" then Some(Compra)
    else if w == "VENDA" then Some(Venda)
    else None
  }

  lemma SignalWireRoundTrip(s: Signal)
    ensures ParseSignal(SignalWire(s)) == Some(s)
  {
  }

  /** `MarketStatus.condition`. */
  datatype MarketCondition = Excelente | Otimo | Neutro | Pessimo

  function ConditionName(c: MarketCondition): string {
    match c
    case Excelente => "EXCELENTE"
    case Otimo => "ÓTIMO"
    case Neutro => "NEUTRO"
    case Pessimo => "PÉSSIMO"
  }

  /** Recognises a market condition by its wire name: exactly the four names are conditions. */
  function ParseCondition(w: string): (r: Option<MarketCondition>)
    ensures r.Some? <==> w == "EXCELENTE" || w == "ÓTIMO" || w == "NEUTRO" || w == "PÉSSIMO"
    ensures r.Some? ==> ConditionName(r.value) == w
  {
    if w == "EXCELENTE" then Some(Excelente)
    else if w == "ÓTIMO" then Some(Otimo)
    else if w == "NEUTRO" then Some(Neutro)
    else if w == "PÉSSIMO" then Some(Pessimo)
    else None
  }

  datatype MarketStatus = MarketStatus(condition: MarketCondition, reason: string, timestamp: int)

  /**
   * One analysis as shown and kept in history. `signal` may be null;
   * `entrySuggestion`, `timestamp` and `mode` are always present; the rest
   * are optional fields. `market` is not defaulted here: the 'SPOT' fallback
   * exists only in the display.
   */
  datatype AnalysisResult = AnalysisResult(
    signal: Option<Signal>,
    entrySuggestion: string,
    timestamp: int,
    mode: TradeMode,
    market: Option<string>,
    imagePreview: Option<string>,
    predictionImageUrl: Option<string>,
    groundingUrls: Option<seq<string>>,
    warning: Option<string>)
}

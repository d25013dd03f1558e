/**
 * The response handling of the service layer that talks to the generative-AI
 * endpoint. Every remote call is an input `Outcome<Response>`: the settled
 * promise of `generateContent`, either the response or the message of the
 * error it rejected with. `JSON.parse` is the parameter `parse`, a partial
 * function that either yields the parsed value or fails with a message.
 */
module GeminiService {
  import opened Wrappers
  import opened JsString
  import opened Types

  /** The message `extractJSON` throws for any text it cannot parse. */
  const InvalidFormat: string := "Resposta da IA em formato inválido."

  /** The prefix put in front of a generated image's base64 payload for display. */
  const ImageUriPrefix: string := "data:image/png;base64,"

  /** The message of the TypeError thrown by `.trim()` on a response without `text` (V8 wording). */
  const TextOfUndefined: string := "Cannot read properties of undefined (reading 'trim')"

  // ---------------------------------------------------------------------------
  // Response shapes: only the members the service reads; each may be missing.

  datatype Web = Web(uri: Option<string>)
  datatype GroundingChunk = GroundingChunk(web: Option<Web>)
  datatype GroundingMetadata = GroundingMetadata(groundingChunks: Option<seq<GroundingChunk>>)
  datatype InlineData = InlineData(mimeType: string, data: string)
  datatype Part = Part(text: Option<string>, inlineData: Option<InlineData>)
  datatype Content = Content(parts: Option<seq<Part>>)
  datatype Candidate = Candidate(content: Option<Content>, groundingMetadata: Option<GroundingMetadata>)
  datatype Response = Response(text: Option<string>, candidates: Option<seq<Candidate>>)

  /**
   * What the pipeline reads from a parsed JSON value: its `signal`, `entry`,
   * `market` and `warning` members, each `None` when missing or not a string.
   */
  datatype Fields = Fields(signal: Option<string>, entry: Option<string>, market: Option<string>, warning: Option<string>)

  /** `JSON.parse`: the parsed value, or the SyntaxError's message. */
  type Parser<J> = string -> Outcome<J>

  /** What `analyzeChart` and `scanMarketForSignals` resolve to. */
  datatype Analysis = Analysis(signal: Signal, entry: string, market: string, warning: Option<string>, groundingUrls: seq<string>)

  // ---------------------------------------------------------------------------
  // Data-URI payload stripping: `base64Image.split(',')[1] || base64Image`.

  /** `f` is the text between the first comma of `s`, at `i`, and the next comma or the end. */
  ghost predicate FieldAfterFirstComma(s: string, i: int, f: string) {
    && 0 <= i
    && i + 1 + |f| <= |s|
    && s[i] == ','
    && ',' !in s[..i]
    && s[i + 1..i + 1 + |f|] == f
    && ',' !in f
    && (i + 1 + |f| == |s| || s[i + 1 + |f|] == ',')
  }

  /** `s.split(',')[1]`: absent when `s` has no comma. */
  function SecondField(s: string): (f: Option<string>)
    ensures f.None? <==> ',' !in s
    ensures f.Some? ==> exists i :: FieldAfterFirstComma(s, i, f.value)
  {
    match IndexOf(s, ',')
    case None => None
    case Some(i) =>
      var rest := s[i + 1..];
      match IndexOf(rest, ',')
      case None =>
        assert FieldAfterFirstComma(s, i, rest);
        Some(rest)
      case Some(j) =>
        assert FieldAfterFirstComma(s, i, rest[..j]);
        Some(rest[..j])
  }

  /**
   * The image payload sent to the endpoint: the second comma-separated field
   * when it is present and non-empty, otherwise the whole input.
   */
  function StripPayload(s: string): (r: string)
    ensures ',' !in s ==> r == s
    ensures r == s || (r != "" && exists i :: FieldAfterFirstComma(s, i, r))
    ensures r != s <==> SecondField(s).Some? && SecondField(s).value != ""
  {
    match SecondField(s)
    case Some(f) =>
      if f != "" then
        assert |f| < |s| by { var i :| FieldAfterFirstComma(s, i, f); }
        f
      else s
    case None => s
  }

  /** The field after the first comma is determined by the position of that comma. */
  lemma FieldAfterFirstCommaUnique(s: string, i: int, f: string, i': int, f': string)
    requires FieldAfterFirstComma(s, i, f) && FieldAfterFirstComma(s, i', f')
    ensures i == i' && f == f'
  {
    NotInSlice(s, ',', 0, i);
    NotInSlice(s, ',', 0, i');
    assert s[i + 1..i + 1 + |f|] == f && s[i' + 1..i' + 1 + |f'|] == f';
    NotInSlice(s, ',', i + 1, i + 1 + |f|);
    NotInSlice(s, ',', i' + 1, i' + 1 + |f'|);
  }

  /**
   * Round trip with the display prefix: stripping a data URI whose header has
   * no comma gives back its payload, provided the payload is non-empty and
   * comma-free (as base64 always is).
   */
  lemma {:induction false} StripDataUri(header: string, payload: string)
    requires ',' !in header && ',' !in payload && payload != ""
    ensures StripPayload(header + "," + payload) == payload
  {
    var s := header + "," + payload;
    assert s[..|header|] == header;
    assert s[|header| + 1..] == payload;
    assert FieldAfterFirstComma(s, |header|, payload);
    var f := SecondField(s);
    var i :| FieldAfterFirstComma(s, i, f.value);
    FieldAfterFirstCommaUnique(s, i, f.value, |header|, payload);
  }

  /** The generated image reference built by the projection strips back to its payload. */
  lemma ImageUriRoundTrip(payload: string)
    requires ',' !in payload && payload != ""
    ensures StripPayload(ImageUriPrefix + payload) == payload
  {
    assert ImageUriPrefix == "data:image/png;base64" + ",";
    assert ImageUriPrefix + payload == "data:image/png;base64" + "," + payload;
    StripDataUri("data:image/png;base64", payload);
  }

  /** A data URI with an empty payload is sent whole. */
  lemma {:induction false} StripEmptyPayload(header: string)
    requires ',' !in header
    ensures StripPayload(header + ",") == header + ","
  {
    var s := header + ",";
    assert s[..|header|] == header;
    assert FieldAfterFirstComma(s, |header|, "");
    var f := SecondField(s);
    var i :| FieldAfterFirstComma(s, i, f.value);
    FieldAfterFirstCommaUnique(s, i, f.value, |header|, "");
  }

  // ---------------------------------------------------------------------------
  // `extractJSON`: the greedy match of /\{[\s\S]*\}/, then JSON.parse.

  /** `text[i..j+1]` is the greedy brace match: from the first `{` to the last `}`, which follows it. */
  ghost predicate BraceSpan(text: string, i: int, j: int) {
    && 0 <= i < j < |text|
    && text[i] == '{' && '{' !in text[..i]
    && text[j] == '}' && '}' !in text[j + 1..]
  }

  /** Whether some `{` is followed, anywhere later, by a `}`: when the pattern matches at all. */
  ghost predicate HasBracePair(text: string) {
    exists i, j :: 0 <= i < j < |text| && text[i] == '{' && text[j] == '}'
  }

  /** The text the brace pattern matches, if it matches. */
  function JsonSpan(text: string): (r: Option<string>)
    ensures r.Some? <==> HasBracePair(text)
    ensures r.Some? ==> exists i, j :: BraceSpan(text, i, j) && r.value == text[i..j + 1]
  {
    match IndexOf(text, '{')
    case None => None
    case Some(i) =>
      match LastIndexOf(text, '}')
      case None => None
      case Some(j) =>
        if i < j then
          assert BraceSpan(text, i, j);
          Some(text[i..j + 1])
        else
          NotInSlice(text, '{', 0, i);
          NotInSlice(text, '}', j + 1, |text|);
          None
  }

  /** The `catch` of `extractJSON`: any parse failure becomes `InvalidFormat`. */
  function ParseOrInvalid<J>(parse: Parser<J>, text: string): (r: Outcome<J>)
    ensures r.Ok? <==> parse(text).Ok?
    ensures r.Ok? ==> r == parse(text)
    ensures r.Err? ==> r.msg == InvalidFormat
  {
    match parse(text)
    case Ok(v) => Ok(v)
    case Err(_) => Err(InvalidFormat)
  }

  /**
   * `extractJSON(text)`: parses the brace span when the pattern matches and the
   * whole text otherwise; it fails only with `InvalidFormat`.
   */
  function ExtractJSON<J>(text: string, parse: Parser<J>): (r: Outcome<J>)
    ensures r.Err? ==> r.msg == InvalidFormat
    ensures HasBracePair(text) ==> r.Ok? == parse(JsonSpan(text).value).Ok?
    ensures HasBracePair(text) && r.Ok? ==> r == parse(JsonSpan(text).value)
    ensures !HasBracePair(text) ==> r.Ok? == parse(text).Ok?
    ensures !HasBracePair(text) && r.Ok? ==> r == parse(text)
  {
    match JsonSpan(text)
    case Some(span) => ParseOrInvalid(parse, span)
    case None => ParseOrInvalid(parse, text)
  }

  /**
   * Once the pattern matches, the whole text is never tried: an unparsable
   * span fails even when the whole text would parse.
   */
  lemma ExtractNoFallback<J>(text: string, parse: Parser<J>)
    requires HasBracePair(text) && parse(JsonSpan(text).value).Err?
    ensures ExtractJSON(text, parse) == Err(InvalidFormat)
  {
  }

  lemma IndexOfAt(s: string, c: char, i: nat)
    requires i < |s| && s[i] == c && c !in s[..i]
    ensures IndexOf(s, c) == Some(i)
  {
    var r := IndexOf(s, c);
    assert c in s;
    NotInSlice(s, c, 0, i);
    NotInSlice(s, c, 0, r.value);
  }

  lemma LastIndexOfAt(s: string, c: char, j: nat)
    requires j < |s| && s[j] == c && c !in s[j + 1..]
    ensures LastIndexOf(s, c) == Some(j)
  {
    var r := LastIndexOf(s, c);
    assert c in s;
    NotInSlice(s, c, j + 1, |s|);
    NotInSlice(s, c, r.value + 1, |s|);
  }

  /**
   * Prose around one object: when nothing before the object opens a brace and
   * nothing after it closes one, extraction is parsing the object itself.
   */
  lemma {:induction false} ExtractWrapped<J>(prefix: string, obj: string, suffix: string, parse: Parser<J>)
    requires |obj| >= 2 && obj[0] == '{' && obj[|obj| - 1] == '}'
    requires '{' !in prefix && '}' !in suffix
    ensures ExtractJSON(prefix + obj + suffix, parse) == ParseOrInvalid(parse, obj)
  {
    var text := prefix + obj + suffix;
    var i, j := |prefix|, |prefix| + |obj| - 1;
    assert text[..i] == prefix;
    assert text[i] == '{';
    IndexOfAt(text, '{', i);
    assert text[j + 1..] == suffix;
    assert text[j] == '}';
    LastIndexOfAt(text, '}', j);
    assert text[i..j + 1] == obj;
  }

  /** Text without a brace pair is parsed whole. */
  lemma ExtractWhole<J>(text: string, parse: Parser<J>)
    requires '{' !in text
    ensures ExtractJSON(text, parse) == ParseOrInvalid(parse, text)
  {
  }

  // ---------------------------------------------------------------------------
  // Grounding URLs: `candidates?.[0]?.groundingMetadata?.groundingChunks
  //   ?.map(chunk => chunk.web?.uri).filter(Boolean) || []`.

  function UriOf(chunk: GroundingChunk): Option<string> {
    match chunk.web
    case None => None
    case Some(w) => w.uri
  }

  /** `filter(Boolean)` on a string-or-undefined: present and non-empty. */
  predicate Truthy(u: Option<string>) {
    u.Some? && u.value != ""
  }

  /** The present, non-empty URIs of `chunks`, in chunk order. */
  function PresentUris(chunks: seq<GroundingChunk>): (r: seq<string>)
    ensures |r| <= |chunks|
    ensures forall k | 0 <= k < |r| :: r[k] != ""
    ensures forall u :: u in r <==> exists i :: 0 <= i < |chunks| && Truthy(UriOf(chunks[i])) && UriOf(chunks[i]).value == u
  {
    if chunks == [] then []
    else
      var rest := PresentUris(chunks[1..]);
      assert forall i | 0 < i < |chunks| :: chunks[i] == chunks[1..][i - 1];
      if Truthy(UriOf(chunks[0])) then [UriOf(chunks[0]).value] + rest else rest
  }

  /** Filtering keeps order: the URIs of two runs of chunks are the URIs of each, concatenated. */
  lemma {:induction false} PresentUrisAppend(a: seq<GroundingChunk>, b: seq<GroundingChunk>)
    ensures PresentUris(a + b) == PresentUris(a) + PresentUris(b)
  {
    if a == [] {
      assert a + b == b;
    } else {
      assert (a + b)[1..] == a[1..] + b;
      PresentUrisAppend(a[1..], b);
    }
  }

  /** The grounding URLs of the first candidate; `[]` when any link of the chain is missing. */
  function GroundingUrls(resp: Response): (r: seq<string>)
    ensures forall k | 0 <= k < |r| :: r[k] != ""
    ensures resp.candidates.None? || resp.candidates.value == [] ==> r == []
    ensures resp.candidates.Some? && resp.candidates.value != [] ==>
              var first := resp.candidates.value[0];
              && (first.groundingMetadata.None? ==> r == [])
              && (first.groundingMetadata.Some? && first.groundingMetadata.value.groundingChunks.None? ==> r == [])
              && (first.groundingMetadata.Some? && first.groundingMetadata.value.groundingChunks.Some? ==>
                    r == PresentUris(first.groundingMetadata.value.groundingChunks.value))
  {
    match resp.candidates
    case None => []
    case Some(cs) =>
      if cs == [] then []
      else
        match cs[0].groundingMetadata
        case None => []
        case Some(gm) =>
          match gm.groundingChunks
          case None => []
          case Some(chunks) => PresentUris(chunks)
  }

  /** The enrichment's links: a failed search call leaves them empty. */
  function EnrichmentUrls(search: Outcome<Response>): (r: seq<string>)
    ensures search.Err? ==> r == []
    ensures search.Ok? ==> r == GroundingUrls(search.value)
    ensures forall k | 0 <= k < |r| :: r[k] != ""
  {
    match search
    case Err(_) => []
    case Ok(resp) => GroundingUrls(resp)
  }

  // ---------------------------------------------------------------------------
  // Validation against the requested schema.

  /** The requested schema: `signal` in {COMPRA, VENDA}, `entry` and `market` present; `warning` optional. */
  predicate Conforms(f: Fields) {
    && f.signal.Some? && ParseSignal(f.signal.value).Some?
    && f.entry.Some?
    && f.market.Some?
  }

  /** `{ ...data, groundingUrls }`, admitted only when `data` conforms to the schema. */
  function Conform(f: Fields, urls: seq<string>): (r: Outcome<Analysis>)
    ensures r.Ok? <==> Conforms(f)
    ensures r.Ok? ==> && Some(SignalWire(r.value.signal)) == f.signal
                      && Some(r.value.entry) == f.entry
                      && Some(r.value.market) == f.market
                      && r.value.warning == f.warning
                      && r.value.groundingUrls == urls
    ensures r.Err? ==> r.msg == InvalidFormat
  {
    if Conforms(f) then
      Ok(Analysis(ParseSignal(f.signal.value).value, f.entry.value, f.market.value, f.warning, urls))
    else
      Err(InvalidFormat)
  }

  // ---------------------------------------------------------------------------
  // `analyzeChart`: the structured call, then best-effort enrichment.

  /**
   * What `analyzeChart` settles to, given the structured call and the search
   * call. A failing structured call, or text that does not parse, is rethrown
   * with its own message; the search call only ever contributes links.
   */
  function ChartAnalysisOf(chart: Outcome<Response>, search: Outcome<Response>, parse: Parser<Fields>): (r: Outcome<Analysis>)
    ensures chart.Err? ==> r == Err(chart.msg)
    ensures chart.Ok? && chart.value.text.None? ==> r == Err(TextOfUndefined)
    ensures chart.Ok? && chart.value.text.Some? && parse(Trim(chart.value.text.value)).Err?
            ==> r == Err(parse(Trim(chart.value.text.value)).msg)
    ensures r.Ok? ==> && chart.Ok? && chart.value.text.Some?
                      && parse(Trim(chart.value.text.value)).Ok?
                      && Conforms(parse(Trim(chart.value.text.value)).value)
                      && r.value.groundingUrls == EnrichmentUrls(search)
    ensures chart.Ok? && chart.value.text.Some? && parse(Trim(chart.value.text.value)).Ok? ==>
              r == Conform(parse(Trim(chart.value.text.value)).value, EnrichmentUrls(search))
  {
    match chart
    case Err(m) => Err(m)
    case Ok(resp) =>
      match resp.text
      case None => Err(TextOfUndefined)
      case Some(t) =>
        match parse(Trim(t))
        case Err(m) => Err(m)
        case Ok(data) => Conform(data, EnrichmentUrls(search))
  }

  /** The enrichment cannot decide the outcome: two search calls give the same analysis up to its links. */
  lemma EnrichmentIsBestEffort(chart: Outcome<Response>, s1: Outcome<Response>, s2: Outcome<Response>, parse: Parser<Fields>)
    ensures ChartAnalysisOf(chart, s1, parse).Ok? == ChartAnalysisOf(chart, s2, parse).Ok?
    ensures ChartAnalysisOf(chart, s1, parse).Err? ==> ChartAnalysisOf(chart, s1, parse) == ChartAnalysisOf(chart, s2, parse)
    ensures ChartAnalysisOf(chart, s1, parse).Ok? ==>
              ChartAnalysisOf(chart, s1, parse).value.(groundingUrls := []) == ChartAnalysisOf(chart, s2, parse).value.(groundingUrls := [])
  {
  }

  /** `analyzeChart(base64Image, mode)` once the structured and the search call have settled. */
  method AnalyzeChart(chart: Outcome<Response>, search: Outcome<Response>, parse: Parser<Fields>) returns (r: Outcome<Analysis>)
    ensures r == ChartAnalysisOf(chart, search, parse)
  {
    if chart.Err? {
      return Err(chart.msg);
    }
    var text := chart.value.text;
    if text.None? {
      return Err(TextOfUndefined);
    }
    var data := parse(Trim(text.value));
    if data.Err? {
      return Err(data.msg);
    }
    var groundingUrls: seq<string> := [];
    if search.Ok? {
      groundingUrls := GroundingUrls(search.value);
    }
    r := Conform(data.value, groundingUrls);
  }

  // ---------------------------------------------------------------------------
  // `predictContinuation`: the first part that carries an image.

  /** `response.candidates[0].content.parts`; absent where that access would throw. */
  function PartsOf(resp: Response): (parts: Option<seq<Part>>)
    ensures resp.candidates.None? || resp.candidates.value == [] ==> parts.None?
    ensures resp.candidates.Some? && resp.candidates.value != [] ==>
              var first := resp.candidates.value[0];
              && (first.content.None? ==> parts.None?)
              && (first.content.Some? ==> parts == first.content.value.parts)
  {
    match resp.candidates
    case None => None
    case Some(cs) =>
      if cs == [] then None
      else
        match cs[0].content
        case None => None
        case Some(c) => c.parts
  }

  /** The index of the first part with inline data. */
  function FirstImageIndex(parts: seq<Part>): (r: Option<nat>)
    ensures r.None? <==> forall k | 0 <= k < |parts| :: parts[k].inlineData.None?
    ensures r.Some? ==> && r.value < |parts|
                        && parts[r.value].inlineData.Some?
                        && forall k | 0 <= k < r.value :: parts[k].inlineData.None?
  {
    if parts == [] then None
    else if parts[0].inlineData.Some? then Some(0)
    else
      match FirstImageIndex(parts[1..])
      case None => None
      case Some(i) => Some(i + 1)
  }

  /**
   * What `predictContinuation` resolves to: the display URI of the first
   * inline image of the first candidate, or absence when the call failed, the
   * response has no parts, or no part carries an image. It never fails.
   */
  function ProjectionOf(call: Outcome<Response>): (r: Option<string>)
    ensures r.Some? <==> && call.Ok? && PartsOf(call.value).Some?
                         && exists k :: 0 <= k < |PartsOf(call.value).value| && PartsOf(call.value).value[k].inlineData.Some?
    ensures r.Some? ==> exists k :: && 0 <= k < |PartsOf(call.value).value|
                                   && PartsOf(call.value).value[k].inlineData.Some?
                                   && (forall m | 0 <= m < k :: PartsOf(call.value).value[m].inlineData.None?)
                                   && r.value == ImageUriPrefix + PartsOf(call.value).value[k].inlineData.value.data
  {
    match call
    case Err(_) => None
    case Ok(resp) =>
      match PartsOf(resp)
      case None => None
      case Some(parts) =>
        match FirstImageIndex(parts)
        case None => None
        case Some(k) => Some(ImageUriPrefix + parts[k].inlineData.value.data)
  }

  /** `predictContinuation(base64Image, signal, market)` once its image call has settled. */
  method PredictContinuation(call: Outcome<Response>) returns (r: Option<string>)
    ensures r == ProjectionOf(call)
  {
    if call.Err? {
      return None;
    }
    var parts := PartsOf(call.value);
    if parts.None? {
      return None;
    }
    var ps := parts.value;
    for i := 0 to |ps|
      invariant forall k | 0 <= k < i :: ps[k].inlineData.None?
    {
      if ps[i].inlineData.Some? {
        return Some(ImageUriPrefix + ps[i].inlineData.value.data);
      }
    }
    return None;
  }

  // ---------------------------------------------------------------------------
  // `scanMarketForSignals`: free-form answer through the extractor.

  /**
   * `scanMarketForSignals` as written: the extracted value itself, whatever its
   * members. A response without text makes `text.match` throw inside the
   * extractor's `try`, so it too ends in the invalid-format error.
   */
  function ScanAsWritten(call: Outcome<Response>, parse: Parser<Fields>): (r: Outcome<Fields>)
    ensures call.Err? ==> r == Err(call.msg)
    ensures call.Ok? && call.value.text.None? ==> r == Err(InvalidFormat)
    ensures call.Ok? && call.value.text.Some? ==> r == ExtractJSON(call.value.text.value, parse)
    ensures call.Ok? && r.Err? ==> r.msg == InvalidFormat
  {
    match call
    case Err(m) => Err(m)
    case Ok(resp) =>
      match resp.text
      case None => Err(InvalidFormat)
      case Some(t) => ExtractJSON(t, parse)
  }

  /** A scan answer outside the requested shape: a NEUTRO signal and no entry. */
  const OffSchemaAnswer: string := "{\"signal\": \"NEUTRO\", \"market\": \"EURUSD\"}"

  /** `JSON.parse` as far as this answer goes: its members, and a SyntaxError for any other text. */
  function ParseOffSchemaAnswer(t: string): Outcome<Fields> {
    if t == OffSchemaAnswer then Ok(Fields(Some("NEUTRO"), None, Some("EURUSD"), None))
    else Err("Unexpected token")
  }

  /** The off-schema answer is one braced object, so the extractor hands all of it to the parser. */
  lemma OffSchemaAnswerExtracts()
    ensures ExtractJSON(OffSchemaAnswer, ParseOffSchemaAnswer) == Ok(Fields(Some("NEUTRO"), None, Some("EURUSD"), None))
  {
    var text := OffSchemaAnswer;
    assert |text| >= 2 && text[0] == '{' && text[|text| - 1] == '}';
    assert "" + text + "" == text;
    ExtractWrapped("", text, "", ParseOffSchemaAnswer);
  }

  /** As written, a scan answer with a signal outside {COMPRA, VENDA} and no entry is returned as a success. */
  lemma ScanAsWrittenAdmitsOffSchema()
    ensures var r := ScanAsWritten(Ok(Response(Some(OffSchemaAnswer), None)), ParseOffSchemaAnswer);
            && r.Ok?
            && ParseSignal(r.value.signal.value).None?
            && r.value.entry.None?
  {
    OffSchemaAnswerExtracts();
    assert ParseSignal("NEUTRO").None?;
  }



  /**
   * `scanMarketForSignals`, validating what it returns: the extracted value
   * must conform to the requested schema; its links are forced to `[]`.
   */
  function ScanMarketForSignals(call: Outcome<Response>, parse: Parser<Fields>): (r: Outcome<Analysis>)
    ensures call.Err? ==> r == Err(call.msg)
    ensures call.Ok? && r.Err? ==> r.msg == InvalidFormat
    ensures r.Ok? ==> r.value.groundingUrls == []
  {
    match ScanAsWritten(call, parse)
    case Err(m) => Err(m)
    case Ok(data) => Conform(data, [])
  }

  /** The validated scan accepts exactly the as-written results that conform, with the same members. */
  lemma ScanValidatesAsWritten(call: Outcome<Response>, parse: Parser<Fields>)
    ensures ScanMarketForSignals(call, parse).Ok? <==> ScanAsWritten(call, parse).Ok? && Conforms(ScanAsWritten(call, parse).value)
    ensures ScanMarketForSignals(call, parse).Ok? ==>
              var f := ScanAsWritten(call, parse).value;
              var a := ScanMarketForSignals(call, parse).value;
              && Some(SignalWire(a.signal)) == f.signal && Some(a.entry) == f.entry && Some(a.market) == f.market
              && a.warning == f.warning && a.groundingUrls == []
  {
  }
}

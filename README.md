# Assistente Trader: a verified model of the analysis core

Assistente Trader is a React front end over a remote generative-AI API. It
turns a trading-chart image into a buy/sell signal (COMPRA/VENDA) and a
projected price-continuation image. In scanner mode (RADOM) it asks the model
to propose a setup with no chart at all. A small access gate sits in front,
and it keeps an id and an approval flag in `localStorage`.

This project models the sequential core of the page in Dafny:

- **The analysis orchestrator** (`handleAnalyze`), in module `Trader`. The class
  `Trader.App` holds the page's state: `isAnalyzing`, `error`, `currentResult`,
  `history`, `mode`, `previewUrl`, `isLiveActive` and the live-session handle.
  A ghost log, `calls`, records every service call in order with its
  arguments. `HandleAnalyze` is proved against the pure function
  `RunAnalysis`, and the lemmas beside it state the gate, the fail-fast
  checks, the ordering of calls and the bounded history.
- **The access gate** (`AuthScreen`), in module `Auth`. Its decision rules are
  pure functions over the store, modelled as a `map<string, string>` in the
  class `Browser.LocalStorage`. Its handlers are methods of the class
  `Auth.AuthScreen`.
- **The service layer's response handling** (`geminiService.ts`), in module
  `GeminiService`. It covers data-URI payload stripping, `extractJSON`,
  grounding-URL filtering, the first-inline-image loop of
  `predictContinuation`, and the failure policy of each call.
- **The types** (`types.ts`), in module `Types`. `JsString` models the
  JavaScript string built-ins the core relies on: `trim`, the brace
  positions, and ASCII `toUpperCase`.

Each remote call is an input `Outcome<Response>`: either the response or the
message the promise rejected with. `JSON.parse` is a parameter
`parse: string -> Outcome<Fields>`. It is an abstract partial function that
yields the members the pipeline reads, or the SyntaxError's message. The
clock is passed in as millisecond timestamps, and `getUTCDay` is computed
from one as ECMAScript defines it.

Points where the code's behaviour is easy to misread:

- Once the brace pattern matches, `extractJSON` never falls back to parsing
  the whole text.
- The search enrichment runs inside `analyzeChart`, before the projection.
- Requests carry no identifiers, and no stale response is discarded.
- The `'SPOT'` default for `market` exists only in the display.
- The modes are named BINARIA and RADOM.

## Model

| member | source | states |
|---|---|---|
| `Types.ParseMode` | types.ts:1 | exactly the four names FOREX, BINARIA, LIVE, RADOM are trade modes, each naming its own mode |
| `Types.ModeNameRoundTrip` | types.ts:1 | every mode is recognised back from its wire name |
| `Types.ParseSignal` | types.ts:21-24 | only 'COMPRA' (BUY) and 'VENDA' (SELL) are signals, each naming its own value |
| `Types.SignalWireRoundTrip` | types.ts:21-24 | every signal is recognised back from its wire string, so the two are distinct |
| `Types.ParseCondition` | types.ts:3-7 | exactly EXCELENTE, ÓTIMO, NEUTRO and PÉSSIMO are market conditions |
| `JsString.Trim` | App.tsx:67 | the result is an infix of the input; everything removed is ECMAScript whitespace; the result neither starts nor ends with whitespace |
| `JsString.TrimUnchanged` | App.tsx:67 | a string with no whitespace at its ends trims to itself |
| `JsString.TrimIdempotent` | App.tsx:67 | trimming twice is trimming once |
| `JsString.IndexOf` | geminiService.ts:35 | absent iff the character does not occur; otherwise its first position |
| `JsString.LastIndexOf` | geminiService.ts:35 | absent iff the character does not occur; otherwise its last position |
| `JsString.AsciiUpper` | App.tsx:137 | same length; each character is upper-cased if it is an ASCII letter and otherwise kept |
| `GeminiService.SecondField` | geminiService.ts:55 | `split(',')[1]` is absent iff there is no comma; otherwise it is the comma-free text between the first comma and the next comma or the end |
| `GeminiService.StripPayload` | geminiService.ts:55 | input with no comma comes back unchanged; the result differs from the input iff the field after the first comma exists and is non-empty, and then it is that field |
| `GeminiService.StripDataUri` | geminiService.ts:55 | a data URI whose header has no comma strips to its non-empty, comma-free payload |
| `GeminiService.StripEmptyPayload` | geminiService.ts:55 | a data URI with an empty payload is sent whole |
| `GeminiService.ImageUriRoundTrip` | geminiService.ts:115-128 | the display URI the projection builds strips back to the payload it wrapped |
| `GeminiService.JsonSpan` | geminiService.ts:35-36 | the pattern matches iff some `{` is followed later by a `}`; the match runs from the first `{` to the last `}` |
| `GeminiService.ParseOrInvalid` | geminiService.ts:40-43 | succeeds exactly when the parser does, with its value; any parse failure becomes "Resposta da IA em formato inválido." |
| `GeminiService.ExtractJSON` | geminiService.ts:33-44 | fails only with "Resposta da IA em formato inválido."; with a brace match its outcome is that of parsing the match, otherwise that of parsing the whole text |
| `GeminiService.ExtractNoFallback` | geminiService.ts:35-42 | an unparsable brace match fails extraction even when the whole text would parse |
| `GeminiService.ExtractWrapped` | geminiService.ts:33-44 | prose with no `{` before and no `}` after one object extracts to parsing that object |
| `GeminiService.ExtractWhole` | geminiService.ts:39 | text with no `{` is parsed whole |
| `GeminiService.PresentUris` | geminiService.ts:89-90 | every URL kept is non-empty, and a URL is kept iff some chunk carries it as a present, non-empty `web.uri`; no more URLs than chunks |
| `GeminiService.PresentUrisAppend` | geminiService.ts:89-90 | filtering keeps chunk order: the URLs of two runs of chunks are their URLs concatenated |
| `GeminiService.GroundingUrls` | geminiService.ts:88-90 | missing candidates, an empty candidate list, or a first candidate without metadata or without chunks give `[]`; otherwise the links are exactly the present, non-empty URIs of the first candidate's chunks, in chunk order |
| `GeminiService.EnrichmentUrls` | geminiService.ts:80-93 | a failed search call leaves the links `[]`; a successful one gives the grounding URLs of its response; all links are non-empty |
| `GeminiService.Conform` | geminiService.ts:66-75 | admitted iff signal is COMPRA or VENDA and entry and market are present; the analysis then carries exactly those members, the warning and the links; otherwise it fails with the invalid-format message |
| `GeminiService.ChartAnalysisOf` | geminiService.ts:59-99 | a failed structured call, or text that does not parse, is rethrown with its own message; parsed text gives `Conform` of the parsed data with the enrichment's links, so it succeeds exactly when the data conforms and then carries its signal, entry, market and warning |
| `GeminiService.EnrichmentIsBestEffort` | geminiService.ts:82-93 | the search call never decides the outcome: any two search outcomes give the same success or failure, equal except for the links |
| `GeminiService.AnalyzeChart` | geminiService.ts:49-100 | the sequential method, with its reassigned `groundingUrls`, returns exactly what `ChartAnalysisOf` describes |
| `GeminiService.PartsOf` | geminiService.ts:126 | `response.candidates[0].content.parts` is absent when the candidates are missing or empty or the first has no content; otherwise it is that content's parts |
| `GeminiService.FirstImageIndex` | geminiService.ts:126-130 | absent iff no part carries inline data; otherwise the first part that does |
| `GeminiService.ProjectionOf` | geminiService.ts:105-135 | present iff the call succeeded, the first candidate has parts, and some part has inline data; then it is the PNG data-URI prefix plus the data of the first such part; it never fails |
| `GeminiService.PredictContinuation` | geminiService.ts:126-134 | the loop over parts with early return yields exactly `ProjectionOf` of the call |
| `GeminiService.ScanAsWritten` | geminiService.ts:137-154 | as written: transport errors propagate unchanged; a response without text fails with the invalid-format error; otherwise the outcome is exactly `ExtractJSON` of the response text, returned unchecked |
| `GeminiService.ScanAsWrittenAdmitsOffSchema` | geminiService.ts:149-150 | as written, the answer `{"signal": "NEUTRO", "market": "EURUSD"}`, read by a parser that yields exactly its members, is returned as a success with signal "NEUTRO" and no entry |
| `GeminiService.ScanMarketForSignals` | geminiService.ts:137-154 | transport errors propagate unchanged; every other failure is the invalid-format error; a success has its links forced to `[]` |
| `GeminiService.ScanValidatesAsWritten` | geminiService.ts:149-150 | the scan succeeds iff the as-written scan succeeds with conforming members, and it keeps those members (signal, entry, market, warning) with no links |
| `Browser.LocalStorage.SetItem` | App.tsx:58 | the store gains or replaces exactly one entry |
| `Browser.LocalStorage.RemoveItem` | App.tsx:49 | the store loses exactly that key |
| `Auth.StoredApproved` | App.tsx:36 | approved only when the flag is stored and is exactly 'true'; a missing flag or any other text is not approved |
| `Auth.StoredId` | App.tsx:35-43 | the stored id, or the empty one when none is stored |
| `Auth.InitialStep` | App.tsx:34-39 | never REGISTER; PENDING iff a non-empty id is stored and the flag is not 'true' |
| `Auth.IdToVerify` | App.tsx:67 | the trimmed login id when one was typed, else the trimmed stored id |
| `Auth.Decide` | App.tsx:64-80 | grant iff the stored flag is 'true' or the id is whitelisted; otherwise refuse (pending) iff the id is non-empty, else only ask for an id; grant and refusal carry the verified id |
| `Auth.Granted` | App.tsx:70-72 | afterwards the store is approved and holds the verified id; other keys are kept |
| `Auth.Registered` | App.tsx:57-59 | afterwards the store holds the new id and is not approved; other keys are kept |
| `Auth.LoggedOut` | App.tsx:48-50 | afterwards neither key is stored; other keys are kept |
| `Auth.GrantIsSticky` | App.tsx:64-80 | after a grant, a reload opens on LOGIN and every later check grants |
| `Auth.RegistrationIsPending` | App.tsx:55-62 | after registering a generated id, a reload opens on PENDING and checking it is refused unless that id is whitelisted |
| `Auth.LogoutResets` | App.tsx:48-53 | after logout a reload opens on LOGIN, with no id and no approval |
| `Auth.AuthScreen.constructor` | App.tsx:34-43 | the screen opens on the initial step, with the stored id and an empty id field |
| `Auth.AuthScreen.EnterLoginId` | App.tsx:137 | the id field holds the upper-cased input; step and stored id are untouched |
| `Auth.AuthScreen.ShowRegister` | App.tsx:144 | the step becomes REGISTER; nothing else changes |
| `Auth.AuthScreen.ShowLogin` | App.tsx:166 | the step becomes LOGIN; nothing else changes |
| `Auth.AuthScreen.CheckApproval` | App.tsx:64-80 | reports a grant exactly when `Decide` grants, and then stores the approval and the verified id; a refusal moves to PENDING and leaves the store alone; an empty id changes nothing |
| `Auth.AuthScreen.HandleRegister` | App.tsx:55-62 | the new id is "TRADER-" plus the random suffix; it is stored as unapproved, and the step becomes PENDING |
| `Auth.AuthScreen.HandleLogout` | App.tsx:48-53 | both keys are removed from the store |
| `Trader.WeekDay` | App.tsx:198 | the UTC day of the week of a timestamp lies in 0..6 |
| `Trader.WeekDayCalendar` | App.tsx:198 | the epoch day is a Thursday (4), the millisecond before it a Wednesday, 2024-01-06 a Saturday, and each `MsPerDay` later is the next day of the week |
| `Trader.IsWeekend` | App.tsx:197-200 | a timestamp is in the weekend iff its UTC day is one of the last two of a week counted from Monday |
| `Trader.WeekendRepeatsWeekly` | App.tsx:197-200 | the weekend gate answers the same a week later |
| `Trader.Record` | App.tsx:270 | the new history has at most 10 entries; the new result comes first, followed by the old history's newest entries in their order |
| `Trader.RecordAllKeepsNewest` | App.tsx:270 | after any sequence of successful runs, history is the newest ten of all results, newest first |
| `Trader.LastTenRuns` | App.tsx:270 | ten or more runs in a row leave exactly the last ten results, newest first (entry `k` is the `k`-th run from the end), whatever came before |
| `Trader.HasPreview` | App.tsx:255 | a missing preview and an empty one are both absent; any other preview is present |
| `Trader.ScanResult` | App.tsx:253 | the record copies the scan's signal, market, warning and links, takes its entry as suggestion, is stamped RADOM at the given time, and has no preview or projection |
| `Trader.ChartResult` | App.tsx:259-267 | the record copies the analysis's signal, market, warning and links, takes its entry as suggestion, is stamped with the mode and time, and carries the preview and the projection |
| `Trader.ErrorText` | App.tsx:273 | the shown error is the error's own message when that message is non-empty, and "Análise indisponível." when it is empty |
| `Trader.RunAnalysis` | App.tsx:241-268 | RADOM on a UTC Saturday or Sunday fails with the market-closed message and makes no call; otherwise RADOM makes one scan call, succeeds iff the scan does, and fails with the scan's own message; a chart mode with a missing or empty preview fails with "Selecione um gráfico." and makes no call; a failing structured analysis ends the run with its message after one call; a success carries the mode, `Date.now()` and a signal |
| `Trader.PredictOnlyAfterChart` | App.tsx:256-257 | a projection call is only ever the second call; it follows the chart call after the analysis succeeded, with that analysis's signal and market |
| `Trader.ScanRunResult` | App.tsx:250-253 | a weekday scanner run that the scan answers succeeds with the scan's signal, its entry as suggestion, its market and warning, no links, no chart and no projection |
| `Trader.ChartRunResult` | App.tsx:256-267 | a chart run on a non-empty preview whose analysis succeeds is a success; it carries the analysis's signal, market and warning, the enrichment's links, the analysis's entry as suggestion, the preview as image, and the projection, possibly absent, as prediction; it makes exactly the chart and projection calls |
| `Trader.BestEffortNeverFails` | App.tsx:256-267 | the search and image calls never decide whether a run succeeds, nor which calls it makes |
| `Trader.AnalyzeOnce` | App.tsx:246-268 | the sequential `try` block yields exactly the outcome and the calls that `RunAnalysis` describes |
| `Trader.App.constructor` | App.tsx:180-195 | authenticated iff the stored flag is 'true'; BINARIA mode, no result, empty history, no preview, no error, live mode off |
| `Trader.App.OnAccessGranted` | App.tsx:282 | the page becomes authenticated; nothing else changes |
| `Trader.App.HandleLogout` | App.tsx:202-206 | both keys are removed from the store |
| `Trader.App.StopLiveMode` | App.tsx:208-213 | live mode is off; the held session, if any, is closed and its errors swallowed; nothing else changes, so calling it twice is safe |
| `Trader.App.StartLiveMode` | App.tsx:215-227 | the error is cleared; a granted capture turns live mode on, and a refused one shows "Falha ao iniciar Livescreen." |
| `Trader.App.SelectMode` | App.tsx:303 | the mode is the chosen one, live mode is stopped and the error is cleared; result, history and preview are kept |
| `Trader.App.LoadChart` | App.tsx:229-239 | the preview becomes the reader's result (the data URL, or nothing when the read failed) and the current result is cleared |
| `Trader.App.Settle` | App.tsx:269-273 | a result becomes the current one and is recorded in the bounded history with the error untouched; a failure leaves result and history untouched and shows its message, or "Análise indisponível." if it is empty; nothing else changes |
| `Trader.App.HandleAnalyze` | App.tsx:241-277 | in LIVE mode no state changes at all. Otherwise the calls are those of `RunAnalysis`. A success becomes the current result and is recorded in the bounded history, with no error. A failure leaves result and history untouched and shows its message, or "Análise indisponível." if the message is empty. No analysis is in flight afterwards |

## Left out

- Rendering: all JSX, styling, `RobotIcon`, the result tabs and `activeTab`, including the `setActiveTab('SETUP')` on success. The `'SPOT'` fallback for `market` is display-only.
- The `GoogleGenAI` client, the prompts, `SYSTEM_INSTRUCTION` and the model identifiers. Each call is an input outcome. The request bodies are not modelled beyond the payload-stripping function they use.
- The search call inside `analyzeChart` is not logged in `Trader.App.calls`. The log holds the three service entry points the page calls, plus the session close.
- `connectLiveAnalysis` and the streaming session. Nothing in App.tsx ever assigns `liveSessionRef.current`, so `liveSession` stays empty. The model records a close call but not the exception it may throw, because `stopLiveMode` swallows it.
- `getDisplayMedia` and the video element. `StartLiveMode` takes whether capture was granted.
- The asynchronous `FileReader`. `LoadChart` takes `reader.result` once `onloadend` fires: the data URL, or `None` for the null result of a failed read, which the page stores as the preview just the same.
- The e-mail field of the registration form, which only holds input.
- `Math.random`, `Date.now()` and `new Date()`. These become parameters: the id suffix, `Env.now` and `Env.gateTime`.
- `alert`, `console` and the `window.location` redirect after logout. The lemmas about `InitialStep` state what the reload then shows.
- The JSON grammar. `JSON.parse` is the `parse` parameter. `Fields` keeps only the four string members the pipeline reads. The result record drops the extra `entry` member and any other members that the spread copies.
- Asynchronous interleaving. Each handler runs to completion, so `isAnalyzing` is true only inside `HandleAnalyze`, and a second click while a run is in flight is not modelled.
- JavaScript strings are UTF-16. Here characters are Unicode scalar values, which differ only for astral characters; no modelled operation looks at those.
- `Trader.App.HandleLogout` and `Auth.AuthScreen.HandleLogout`: the redirect that reloads the page is not modelled.
- `GeminiService.AnalyzeChart`: parsed data that does not conform to the requested schema is rejected with "Resposta da IA em formato inválido.". The code trusts the endpoint's schema enforcement and would pass such data through, so the two differ only when the endpoint breaks its own schema.
- `GeminiService.ChartAnalysisOf`: a response without `text` fails with V8's TypeError wording. Other engines word that message differently.
- `Auth.AuthScreen.EnterLoginId`: only ASCII letters are upper-cased. JavaScript's `toUpperCase` also maps other letters.
- `JsString.AsciiUpper`: only ASCII letters are upper-cased, for the same reason.
- `Trader.RunAnalysis`: it uses the validating scanner, so a scan answer outside the requested shape fails the run, where the page as written records it (see Findings).

## Findings

| source | as written | input that shows it | evidently intended | confidence | as-written member | corrected member |
|---|---|---|---|---|---|---|
| geminiService.ts:149-150 | the scanner returns the extracted JSON value with no check, although its declared result type promises `signal` in COMPRA/VENDA and present `entry` and `market`; `handleAnalyze` then stores it via `as any` | a scan answer `{"signal": "NEUTRO", "market": "EURUSD"}` succeeds, and the run records signal "NEUTRO" and no entry suggestion | answers that do not match the requested shape fail like unparsable ones | medium, not executed | `GeminiService.ScanAsWritten`, exhibited by `GeminiService.ScanAsWrittenAdmitsOffSchema` | `GeminiService.ScanMarketForSignals`, related by `GeminiService.ScanValidatesAsWritten` |

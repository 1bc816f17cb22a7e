# RAG front end: connectivity probe, query submission and history

A model of `script.js`, the browser client of a retrieval-augmented-generation (RAG) query
service. The page checks that the API can be reached. It sends the user's question to
`POST /query` and turns the structured answer into text. It also keeps the ten most recent
answered queries in local storage.

The model is built in layers:

- `Text`: JavaScript's `trim`, `includes`, `startsWith` and decimal printing of numbers.
- `Transport`: the outcomes a `fetch` can have, and the requests the page sends. It also holds
  `API_CONFIG` with its addresses, paths and timeouts.
- `Probe`: the decisions of `verificarConexao`, namely mixed content, the status test, the
  cross-origin test, the Chrome test and the status texts.
- `Answer`: `processarRespostaAPI`. `Synthesize` is its reference definition, and
  `ProcessApiResponse` has the `forEach` loop of the source, proved equal to it.
- `Query`: the error classification of `consultarRAG`.
- `History`: the history item, the bounded push and the lookup by id.
- `Session`: the class `AppState`. It joins `appState`, the mutable `API_CONFIG.BASE_URL`, the
  status indicator and the stored history. Its methods are the operations that change that state.
- `Scenarios`: sequences of those operations on one session.

What a network call returns is a parameter (`Outcome`, `QueryOutcome`). So are:

- the page's protocol and user agent;
- the clock readings (`now`, `endTime`, `itemId`, `timestamp`);
- the user's confirmation;
- whether local storage accepts a write.

`consultarRAG` awaits the network between sending and settling. It is modelled as two methods,
`SubmitQuery` and `FinishQuery`, so the state between them (`isQuerying` set, the request
issued) can be observed.

Behaviour of the code that the model keeps as written:

- A submission while a query is in flight is not rejected. `consultarRAG` never reads
  `isQuerying`, so `Scenarios.OverlappingQueries` sends both questions.
- Only the structured response shape is read. A body with a flat `answer` field and no
  `success`/`results` yields the fixed "no results" text.
- `carregarHistorico` does not bound the list it loads. Ten items is a bound that
  `adicionarAoHistorico` keeps, not an invariant of the session.
- A blocked mixed-content probe does not touch `isConnected`.
- `isChrome` requires a user agent that names Chrome but not Safari. Desktop Chrome names both
  (`Probe.DesktopChromeIsNotChrome`), so there the diagnostic POST is never sent and a
  cross-origin failure ends as "CORS bloqueado".

## Model

| member | source | states |
|---|---|---|
| Session.AppState.constructor | script.js:2-18 | a new session starts disconnected, with no query in flight, an empty history and the configured primary and fallback addresses |
| Session.AppState.CheckConnection | script.js:75-251 | the requests the probe issues and the resulting connection flag, base address, indicator and text, per case: (1) mixed content sends nothing and shows offline; (2) an ok primary check connects; (3) a cross-origin failure never tries the fallback, and it is connected (degraded) only if the browser passes the Chrome test and the diagnostic POST gets 200 or 422; (4) any other failure tries the fallback, which on success becomes the base address and otherwise leaves the session offline with the refined text. It never touches the query flag or the history |
| Probe.PrimaryError | script.js:127-143 | the primary check ends in no error exactly when it got an ok status; a rejected request keeps its error; any other status gives an `Error` whose message starts with "HTTP " |
| Probe.IsCorsShaped | script.js:148-151 | the cross-origin heuristic: the message mentions "CORS", "fetch" or "Network", or the error is a `TypeError` |
| Probe.IsChrome | script.js:154 | the user-agent test: it names Chrome and does not name Safari |
| Probe.FallbackError | script.js:208-233 | the fallback check ends in no error exactly when it got an ok status; a rejected request keeps its error; any other status gives an `Error` whose message starts with "Fallback também falhou: HTTP " |
| Probe.OfflineText | script.js:238-249 | the offline text is the timeout text exactly for an `AbortError`, the network text exactly for another error whose message mentions "NetworkError" or "fetch", and "Desconectado" otherwise |
| Probe.HttpStatusNotCors | script.js:141-151 | a health check answered with a non-ok status is never classified as a cross-origin failure, so it always leads to the fallback |
| Probe.AbortNotCors | script.js:144-151 | an `AbortError` with the message "The user aborted a request." (how Chrome reports a timed-out `fetch`) is not classified as cross-origin either |
| Probe.DesktopChromeIsNotChrome | script.js:154 | the user-agent test is false for a desktop Chrome user agent, because it also names Safari |
| Text.Trim | script.js:255 | `trim`: white space removed from the start, then from the end, of the question |
| Text.TrimStartDrops | script.js:255 | what `trim` keeps of the start is a suffix of the input that does not start with white space, and everything it drops there is white space |
| Text.TrimEndDrops | script.js:255 | what `trim` keeps of the end is a prefix that does not end with white space, and everything it drops there is white space |
| Text.TrimEmptyIff | script.js:255-260 | the trimmed question is empty exactly when the input is all JavaScript whitespace |
| Text.NatToString | script.js:142 | a number prints as decimal digits without a leading zero, and those digits parse back to the number |
| Session.AppState.SubmitQuery | script.js:254-292 | an empty trimmed question, or a disconnected session, sends nothing and changes nothing; otherwise the query is marked in flight and the trimmed question is POSTed to the current base address with global search on; it does not test the in-flight flag |
| Session.AppState.FinishQuery | script.js:290-331 | an ok response yields the synthesized answer and the round-trip time and pushes that item to the history and storage; any failure yields its classified message and leaves history and storage unchanged; on both paths the in-flight flag is cleared and the connection is untouched |
| Session.AppState.BeginQuery | script.js:334-344 | the in-flight flag is set and nothing else of the session changes |
| Session.AppState.EndQuery | script.js:347-358 | the in-flight flag is cleared and nothing else of the session changes |
| Query.QueryError | script.js:290-298 | the query ends in no error exactly for an ok response; a rejected request keeps its error; any other status gives an `Error` whose message starts with "HTTP " and ends with the status text |
| Query.ErrorMessage | script.js:312-324 | the ordered classification of the query error: timeout, then network ("NetworkError" or "fetch"), then "HTTP 422", then "HTTP 500", else the error's own message |
| Query.HttpFailureMessage | script.js:294-324 | for a non-ok three-digit status the message is the invalid-data text for 422, the server-error text for 500 and otherwise "HTTP status: statusText", as long as the status text does not mention HTTP, fetch or NetworkError |
| Query.HttpErrorNamesItsStatus | script.js:318-320 | for a three-digit status and a three-digit code, and a status text that does not contain "HTTP", the HTTP error text contains "HTTP code" exactly when its status is that code |
| Query.HttpErrorNotNetwork | script.js:316-317 | for a three-digit status whose status text mentions neither "fetch" nor "NetworkError", the HTTP error text mentions neither, so it is never taken for a network failure |
| Query.SingledOutStatuses | script.js:318-321 | the two statuses the classification singles out print as "HTTP 422" and "HTTP 500" in the error text |
| Query.FailedToFetchMessage | script.js:316-317 | a network-level failure ("Failed to fetch") gets the network message |
| Answer.Synthesize | script.js:416-442 | the answer text: the fixed "no results" text when `success` is false or the results are missing or empty, otherwise the header with `total_results`, one numbered entry per result in order, and the scope trailer |
| Answer.ProcessApiResponse | script.js:416-442 | the loop builds exactly `Synthesize`: the header, one entry per result in input order, then the scope trailer |
| Answer.AppendEntry | script.js:425-437 | one step of the loop appends exactly the entry of this result, numbered index + 1 |
| Answer.NoResultsIff | script.js:417-420 | the fixed "no results" text is returned exactly when `success` is false or the results are missing or empty |
| Answer.EntryInOrder | script.js:423-437 | result k appears as entry k + 1, after all earlier entries and before all later ones |
| Answer.TrailerScope | script.js:439 | the trailer ends in "Global*" exactly when `search_type` is "global" |
| Answer.ScopeMarker | script.js:439 | an answer with results ends in "Global*" exactly when `search_type` is "global" |
| Answer.TwoResultsFirstEntry | script.js:426-429 | a result without metadata has no source line |
| Answer.TwoResultsSecondEntry | script.js:429-435 | a result whose metadata has only `empresa` gets "Fonte: X - N/A" and no file name |
| Answer.TwoResultsScenario | script.js:416-442 | two results give the header, entry 1, entry 2 and the trailer, in that order |
| History.Pushed | script.js:520-525 | the new item comes first, then the old items in order; the length is one more, capped at ten |
| History.PushedDropsOldest | script.js:520-525 | what the cap drops is exactly the oldest end of the history |
| Session.AppState.AddToHistory | script.js:511-529 | the history becomes the push of the new item, has at most ten items and is saved when storage accepts it |
| Session.AppState.SaveHistory | script.js:582-588 | storage holds the current history if the write succeeds and is unchanged otherwise |
| Session.AppState.ClearHistory | script.js:567-579 | an empty history is left alone; otherwise only a confirmation empties the history and saves it |
| Session.AppState.LoadHistory | script.js:590-601 | a stored list replaces the history, an unreadable value empties it, and no stored value leaves it unchanged |
| History.FirstWithId | script.js:554 | the position of the first item with that id, or none when no item has it |
| Session.AppState.ReuseQuery | script.js:553-565 | the question of the most recent item with that id, or nothing when no item has that id |
| Scenarios.QueryAfterFallback | script.js:202-233 | after the fallback takes over, the next query is sent to the fallback address |
| Scenarios.QueryAfterMixedContent | script.js:262-265 | a disconnected session blocked for mixed content refuses a question without sending anything |
| Scenarios.OverlappingQueries | script.js:254-330 | two submissions while connected are both sent, and the first to settle clears the in-flight flag |
| Scenarios.FailedQueryKeepsHistory | script.js:309-330 | a failed query leaves the history as it was and the session connected |
| Scenarios.AnsweredQueryIsReusable | script.js:553-556 | the question of an answered query can be found again by the item's id |
| Scenarios.SaveThenLoad | script.js:582-601 | a saved history reads back unchanged |
| Scenarios.ClearThenLoad | script.js:567-601 | after a confirmed, saved clear the next load gives an empty history |

## Left out

- Rendering is not modelled: status icons, the mixed-content banner, the button, the overlay,
  notifications, `mostrarResposta`, `mostrarErro`, `atualizarHistoricoUI` and `formatarResposta`.
  They only write to the page.
- The early return of `verificarConexao` when its DOM elements are missing is not modelled. It
  is a page-loading condition.
- Clipboard copy and sharing are not modelled. They are browser services outside the core.
- `fetch`, `AbortController` and the timers are not modelled. Their effect is the outcome passed
  in, and the timeouts are constants in `Transport`. The `setInterval` of the periodic probe and
  the interleaving of a probe with a query in flight are reduced to calls in some order.
- JSON is not modelled. `response.json()` failing is folded into the failure outcome, since it
  lands in the same `catch`. `JSON.stringify`/`JSON.parse` of the history is abstracted as
  `StoredHistory`.
- An exception from `mostrarResposta` is not modelled. It would turn an answered query into a
  failure.
- Only JavaScript's loose `==` with matching types is modelled. `reutilizarConsulta` compares a
  string id from the markup with the numeric item id; the model takes both as integers.
- `total_results` is printed only when absent or an integer. Other JSON values are not
  modelled.
- Session.AppState.constructor: the indicator starts at "checking", the state `verificarConexao`
  shows first (script.js:92-94). The page's initial markup is not part of this model.
- `console` logging and the `ragDebug` helpers are not part of this model.
- Query.HttpFailureMessage: stated only for three-digit statuses, and only when the status text
  does not itself mention "HTTP", "fetch" or "NetworkError". The message for other inputs is
  still given by `ErrorMessage`.

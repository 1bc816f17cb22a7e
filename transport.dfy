/**
  What the client knows about one HTTP exchange, and the endpoint configuration (`API_CONFIG`).
  A request is not performed here: its outcome is a value handed to the code that awaits it.
 */
module Transport {

  /**
    The settled result of a `fetch` whose caller reads only the status: a response with its
    status code, or the error the promise rejected with. A response whose JSON body the caller
    then fails to parse is given as the `Err` that `response.json()` throws, because every
    caller sends that error to the same `catch` as a rejected `fetch`.
   */
  datatype Outcome = Ok(status: nat) | Err(name: string, message: string)

  /** A JavaScript `Error` as the `catch` blocks inspect it: its `name` and its `message`. */
  datatype JsError = JsError(name: string, message: string)

  /** A request the client issues: a GET with no body, or a POST of `{query, global_search}`. */
  datatype Request = Get(url: string) | Post(url: string, query: string, globalSearch: bool)

  /** `response.ok`: the status lies in 200-299. */
  predicate IsOkStatus(status: nat) {
    200 <= status <= 299
  }

  /** The base addresses of the service; the primary one may later be replaced by the fallback. */
  datatype ApiConfig = ApiConfig(baseUrl: string, fallbackUrl: string)

  /** The addresses the client ships with. */
  const Deployed := ApiConfig("https://rag.grkr.com.br:8443", "https://147.93.8.153:8443")

  const HealthPath := "/health"
  const QueryPath := "/query"

  /** Timeouts of the query, of each health check and of the diagnostic POST, and the probe period, in ms. */
  const QueryTimeoutMs := 30000
  const HealthTimeoutMs := 5000
  const DiagnosticTimeoutMs := 3000
  const ProbeIntervalMs := 30000
}

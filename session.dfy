/**
  The session of the page: `appState` (connection flag, in-flight flag, history) together with
  the mutable `API_CONFIG.BASE_URL`, the status indicator and the stored history. Its methods are
  the operations of the client that change that state.
 */
module Session {
  import opened Wrappers
  import opened Text
  import opened Transport
  import opened Probe
  import opened Answer
  import opened Query
  import opened History

  /** The class of the status indicator: `status-checking`, `-online`, `-warning` or `-offline`. */
  datatype Indicator = Checking | Online | Warning | Offline

  /** A query that was sent and has not settled: the trimmed question, the start time and the request. */
  datatype Pending = Pending(question: string, startTime: int, request: Request)

  /** How a submission ended before its request settled. */
  datatype Submission = MissingQuestion | NotConnected | Sent(pending: Pending)

  /** What a settled query shows: the answer and the round trip in ms, or an error message. */
  datatype QueryReport = Answered(answer: string, responseTime: int) | Failed(message: string)

  /** How a request to clear the history ended. */
  datatype ClearResult = AlreadyEmpty | Declined | Cleared

  class AppState {
    /** `API_CONFIG.BASE_URL_FALLBACK`. */
    const fallbackUrl: string
    /** `API_CONFIG.BASE_URL`: the address queries go to; a successful fallback probe replaces it. */
    var baseUrl: string
    var isConnected: bool
    var isQuerying: bool
    /** Most recent first. */
    var history: seq<HistoryItem>
    /** What the `ragFrontendHistory` key of local storage holds. */
    var storage: StoredHistory
    var indicator: Indicator
    var statusText: string

    /** The state before `initializeApp` runs: nothing connected or in flight, an empty history. */
    constructor (config: ApiConfig, stored: StoredHistory)
      ensures fallbackUrl == config.fallbackUrl && baseUrl == config.baseUrl
      ensures !isConnected && !isQuerying && history == [] && storage == stored
      ensures indicator == Checking && statusText == CheckingText
    {
      fallbackUrl := config.fallbackUrl;
      baseUrl := config.baseUrl;
      isConnected := false;
      isQuerying := false;
      history := [];
      storage := stored;
      indicator := Checking;
      statusText := CheckingText;
    }

    /**
      `verificarConexao`. The outcomes of the primary health check, of the diagnostic POST and of
      the fallback health check are given; `issued` lists the requests the probe actually sends,
      in order, so an outcome it does not send has no effect.
     */
    method CheckConnection(page: Page, primary: Outcome, diagnostic: Outcome, fallback: Outcome)
      returns (issued: seq<Request>)
      modifies this
      ensures isQuerying == old(isQuerying) && history == old(history) && storage == old(storage)
      ensures MixedContent(page.protocol, old(baseUrl)) ==>
        && issued == []
        && isConnected == old(isConnected) && baseUrl == old(baseUrl)
        && indicator == Offline && statusText == MixedContentText
      ensures !MixedContent(page.protocol, old(baseUrl)) && PrimaryError(primary).None? ==>
        && issued == [Get(old(baseUrl) + HealthPath)]
        && isConnected && baseUrl == old(baseUrl)
        && indicator == Online && statusText == OnlineText(old(baseUrl))
      ensures !MixedContent(page.protocol, old(baseUrl)) && PrimaryError(primary).Some?
              && IsCorsShaped(PrimaryError(primary).value) ==>
        && issued == [Get(old(baseUrl) + HealthPath)]
                     + (if IsChrome(page.userAgent) then [Post(old(baseUrl) + QueryPath, DiagnosticQuery, true)] else [])
        && isConnected == (IsChrome(page.userAgent) && PostReached(diagnostic))
        && baseUrl == old(baseUrl)
        && indicator == Warning
        && statusText == (if isConnected then DegradedText else CorsBlockedText)
      ensures !MixedContent(page.protocol, old(baseUrl)) && PrimaryError(primary).Some?
              && !IsCorsShaped(PrimaryError(primary).value) ==>
        && issued == [Get(old(baseUrl) + HealthPath), Get(fallbackUrl + HealthPath)]
        && isConnected == FallbackError(fallback).None?
        && baseUrl == (if isConnected then fallbackUrl else old(baseUrl))
        && indicator == (if isConnected then Online else Offline)
        && statusText == (if isConnected then FallbackOnlineText else OfflineText(FallbackError(fallback).value))
    {
      indicator := Checking;
      statusText := CheckingText;
      issued := [];
      if MixedContent(page.protocol, baseUrl) {
        indicator := Offline;
        statusText := MixedContentText;
        return;
      }
      var currentUrl := baseUrl;
      issued := issued + [Get(currentUrl + HealthPath)];
      var primaryError := PrimaryError(primary);
      if primaryError.None? {
        isConnected := true;
        indicator := Online;
        statusText := OnlineText(currentUrl);
        return;
      }
      if IsCorsShaped(primaryError.value) {
        if IsChrome(page.userAgent) {
          issued := issued + [Post(currentUrl + QueryPath, DiagnosticQuery, true)];
          if PostReached(diagnostic) {
            isConnected := true;
            indicator := Warning;
            statusText := DegradedText;
            return;
          }
        }
        isConnected := false;
        indicator := Warning;
        statusText := CorsBlockedText;
        return;
      }
      currentUrl := fallbackUrl;
      issued := issued + [Get(currentUrl + HealthPath)];
      var fallbackError := FallbackError(fallback);
      if fallbackError.None? {
        baseUrl := currentUrl;
        isConnected := true;
        indicator := Online;
        statusText := FallbackOnlineText;
        return;
      }
      isConnected := false;
      indicator := Offline;
      statusText := OfflineText(fallbackError.value);
    }

    /** `iniciarConsulta`, its state part. */
    method BeginQuery()
      modifies this`isQuerying
      ensures isQuerying
    {
      isQuerying := true;
    }

    /** `finalizarConsulta`, its state part. */
    method EndQuery()
      modifies this`isQuerying
      ensures !isQuerying
    {
      isQuerying := false;
    }

    /**
      `consultarRAG` up to its `await fetch`: the question is trimmed; an empty question or a
      disconnected session ends the call with no request and no change of state; otherwise the
      query is marked in flight and POSTed to the current base address. There is no test of
      `isQuerying`: a second submission while one is in flight is sent as well.
     */
    method SubmitQuery(input: string, now: int) returns (s: Submission)
      modifies this`isQuerying
      ensures Trim(input) == [] ==> s == MissingQuestion && isQuerying == old(isQuerying)
      ensures Trim(input) != [] && !isConnected ==> s == NotConnected && isQuerying == old(isQuerying)
      ensures Trim(input) != [] && isConnected ==>
        && s == Sent(Pending(Trim(input), now, Post(baseUrl + QueryPath, Trim(input), true)))
        && isQuerying
    {
      var pergunta := Trim(input);
      if pergunta == [] {
        return MissingQuestion;
      }
      if !isConnected {
        return NotConnected;
      }
      BeginQuery();
      var startTime := now;
      s := Sent(Pending(pergunta, startTime, Post(baseUrl + QueryPath, pergunta, true)));
    }

    /**
      `consultarRAG` after its `await fetch`: an ok response is answered and recorded in the
      history; any failure gets its message and leaves the history alone; on both paths the
      in-flight flag is cleared. `itemId` and `timestamp` are the clock readings of
      `adicionarAoHistorico`, `storable` whether local storage accepts the write.
     */
    method FinishQuery(p: Pending, outcome: QueryOutcome, endTime: int, itemId: int, timestamp: string, storable: bool)
      returns (report: QueryReport)
      modifies this
      ensures !isQuerying
      ensures isConnected == old(isConnected) && baseUrl == old(baseUrl)
      ensures indicator == old(indicator) && statusText == old(statusText)
      ensures QueryError(outcome).None? ==>
        var answer := Synthesize(outcome.body);
        && report == Answered(answer, endTime - p.startTime)
        && history == Pushed(old(history), HistoryItem(itemId, p.question, answer, endTime - p.startTime, timestamp))
        && storage == (if storable then Stored(history) else old(storage))
      ensures QueryError(outcome).Some? ==>
        && report == Failed(ErrorMessage(QueryError(outcome).value))
        && history == old(history) && storage == old(storage)
    {
      var responseTime := endTime - p.startTime;
      var error := QueryError(outcome);
      if error.None? {
        var answer := ProcessApiResponse(outcome.body);
        AddToHistory(p.question, answer, responseTime, itemId, timestamp, storable);
        report := Answered(answer, responseTime);
      } else {
        report := Failed(ErrorMessage(error.value));
      }
      EndQuery();
    }

    /** `adicionarAoHistorico`: the new item goes first, the history keeps ten items, and it is saved. */
    method AddToHistory(question: string, answer: string, responseTime: int, itemId: int, timestamp: string, storable: bool)
      modifies this`history, this`storage
      ensures history == Pushed(old(history), HistoryItem(itemId, question, answer, responseTime, timestamp))
      ensures |history| <= MaxHistory
      ensures storage == (if storable then Stored(history) else old(storage))
    {
      var item := HistoryItem(itemId, question, answer, responseTime, timestamp);
      history := [item] + history;
      if |history| > MaxHistory {
        history := history[..MaxHistory];
      }
      SaveHistory(storable);
    }

    /** `salvarHistorico`: the history is written unless local storage refuses it, which is ignored. */
    method SaveHistory(storable: bool)
      modifies this`storage
      ensures storage == (if storable then Stored(history) else old(storage))
    {
      if storable {
        storage := Stored(history);
      }
    }

    /**
      `limparHistorico`: an empty history stays as it is; otherwise, if the user confirms, the
      history is emptied and saved.
     */
    method ClearHistory(confirmed: bool, storable: bool) returns (r: ClearResult)
      modifies this`history, this`storage
      ensures r == (if old(history) == [] then AlreadyEmpty else if confirmed then Cleared else Declined)
      ensures r == Cleared ==> history == [] && storage == (if storable then Stored([]) else old(storage))
      ensures r != Cleared ==> history == old(history) && storage == old(storage)
    {
      if |history| == 0 {
        return AlreadyEmpty;
      }
      if !confirmed {
        return Declined;
      }
      history := [];
      SaveHistory(storable);
      r := Cleared;
    }

    /**
      `carregarHistorico`: a stored list replaces the history, a read or parse failure empties it,
      and when nothing is stored the history is left as it is. The loaded list is not bounded.
     */
    method LoadHistory()
      modifies this`history
      ensures storage.NothingStored? ==> history == old(history)
      ensures storage.Unreadable? ==> history == []
      ensures storage.Stored? ==> history == storage.items
    {
      match storage
      case NothingStored =>
      case Unreadable =>
        history := [];
      case Stored(items) =>
        history := items;
    }

    /**
      `reutilizarConsulta`: the question of the first (most recent) item recorded under `id`, or
      nothing when no item has that id.
     */
    method ReuseQuery(id: int) returns (question: Option<string>)
      ensures question.Some? ==>
        exists k :: 0 <= k < |history| && history[k].id == id && history[k].question == question.value
          && forall j :: 0 <= j < k ==> history[j].id != id
      ensures question.None? ==> forall j :: 0 <= j < |history| ==> history[j].id != id
    {
      var found := FirstWithId(history, id);
      if found.None? {
        return None;
      }
      question := Some(history[found.value].question);
    }
  }
}

/**
  The decisions `verificarConexao` takes from the outcomes of its requests: when the probe may not
  run at all, how a failed health check is classified, when the diagnostic POST is tried and what
  status text each ending shows. The probe itself, which changes the session, is
  `Session.AppState.CheckConnection`.
 */
module Probe {
  import opened Wrappers
  import opened Text
  import opened Transport

  /** What the probe reads from the browser: `window.location.protocol` and `navigator.userAgent`. */
  datatype Page = Page(protocol: string, userAgent: string)

  /** A page served over https may not call an http:// base address (mixed content). */
  predicate MixedContent(protocol: string, baseUrl: string) {
    protocol == "https:" && StartsWith(baseUrl, "http://")
  }

  /**
    The error the primary health check ends in, if any: a rejected `fetch` as it is, a response
    that is not ok as `Error("HTTP <status>")`, and nothing for an ok response.
   */
  function PrimaryError(o: Outcome): (r: Option<JsError>)
    ensures r.None? <==> o.Ok? && IsOkStatus(o.status)
    ensures o.Err? ==> r == Some(JsError(o.name, o.message))
    ensures o.Ok? && r.Some? ==> r.value.name == "Error" && StartsWith(r.value.message, "HTTP ")
  {
    match o
    case Ok(status) => if IsOkStatus(status) then None else Some(JsError("Error", "HTTP " + NatToString(status)))
    case Err(name, message) => Some(JsError(name, message))
  }

  const FallbackPrefix := "Fallback também falhou: HTTP "

  /** The error the fallback health check ends in, if any; a bad status reads "Fallback também falhou: HTTP <status>". */
  function FallbackError(o: Outcome): (r: Option<JsError>)
    ensures r.None? <==> o.Ok? && IsOkStatus(o.status)
    ensures o.Err? ==> r == Some(JsError(o.name, o.message))
    ensures o.Ok? && r.Some? ==> r.value.name == "Error" && StartsWith(r.value.message, FallbackPrefix)
  {
    match o
    case Ok(status) =>
      if IsOkStatus(status) then None else Some(JsError("Error", FallbackPrefix + NatToString(status)))
    case Err(name, message) => Some(JsError(name, message))
  }

  /**
    The heuristic that treats a failure as a cross-origin block: its message mentions "CORS",
    "fetch" or "Network", or it is a `TypeError` (what `fetch` rejects with on any network failure).
   */
  predicate IsCorsShaped(e: JsError) {
    || Contains(e.message, "CORS")
    || Contains(e.message, "fetch")
    || Contains(e.message, "Network")
    || e.name == "TypeError"
  }

  /** The user-agent test that decides whether the diagnostic POST is tried. */
  predicate IsChrome(userAgent: string) {
    Contains(userAgent, "Chrome") && !Contains(userAgent, "Safari")
  }

  /** The diagnostic POST reached the service: it answered 200, or 422 for the placeholder payload. */
  predicate PostReached(o: Outcome) {
    o.Ok? && (o.status == 200 || o.status == 422)
  }

  /** The placeholder question of the diagnostic POST. */
  const DiagnosticQuery := "test"

  const CheckingText := "Verificando conexão..."
  const MixedContentText := "Mixed Content - HTTPS → HTTP bloqueado"
  const DegradedText := "Conectado - GET bloqueado, POST OK (Chrome)"
  const CorsBlockedText := "CORS bloqueado - Tente Safari ou contate admin"
  const FallbackOnlineText := "Conectado - IP direto (fallback)"
  const DisconnectedText := "Desconectado - Verifique a API"
  const ProbeTimeoutText := "Timeout - API não responde"
  const ProbeNetworkText := "Erro de rede - CORS ou SSL inválido"

  /** The status text after the primary address answered: it names the domain or the bare IP address. */
  function OnlineText(url: string): string {
    "Conectado - " + (if Contains(url, "grkr.com.br") then "Domínio" else "IP direto")
  }

  /** The status text after the fallback also failed, refined for a timeout and for a network error. */
  function OfflineText(e: JsError): (t: string)
    ensures t == ProbeTimeoutText <==> e.name == "AbortError"
    ensures t == ProbeNetworkText <==>
      e.name != "AbortError" && (Contains(e.message, "NetworkError") || Contains(e.message, "fetch"))
    ensures t == DisconnectedText <==>
      e.name != "AbortError" && !Contains(e.message, "NetworkError") && !Contains(e.message, "fetch")
  {
    if e.name == "AbortError" then ProbeTimeoutText
    else if Contains(e.message, "NetworkError") || Contains(e.message, "fetch") then ProbeNetworkText
    else DisconnectedText
  }

  /**
    A health check answered with a status that is not ok is never taken for a cross-origin block,
    so it always leads to the fallback address.
   */
  lemma HttpStatusNotCors(status: nat)
    requires !IsOkStatus(status)
    ensures PrimaryError(Ok(status)).Some?
    ensures !IsCorsShaped(PrimaryError(Ok(status)).value)
  {
    var digits := NatToString(status);
    var m := "HTTP " + digits;
    assert PrimaryError(Ok(status)).value.message == m;
    forall k | 0 <= k < |m| ensures m[k] != 'C' && m[k] != 'f' && m[k] != 'N' {
      if k >= 5 {
        assert m[k] == digits[k - 5];
        assert IsDigit(digits[k - 5]);
      }
    }
    AbsentFirstChar(m, "CORS");
    AbsentFirstChar(m, "fetch");
    AbsentFirstChar(m, "Network");
  }

  /** A timeout, as Chrome reports an aborted `fetch`, is not taken for a cross-origin block either. */
  lemma AbortNotCors()
    ensures !IsCorsShaped(JsError("AbortError", "The user aborted a request."))
  {
    var m := "The user aborted a request.";
    forall k | 0 <= k < |m| ensures m[k] != 'C' && m[k] != 'f' && m[k] != 'N' {
    }
    AbsentFirstChar(m, "CORS");
    AbsentFirstChar(m, "fetch");
    AbsentFirstChar(m, "Network");
  }

  /**
    The user agent of a desktop Chrome browser also names Safari, so the user-agent test is false
    for it and a cross-origin failure there ends as "CORS bloqueado" without the diagnostic POST.
   */
  lemma DesktopChromeIsNotChrome()
    ensures !IsChrome("Mozilla/5.0 (Windows NT 10.0; Win64; x64) AppleWebKit/537.36 "
                      + "(KHTML, like Gecko) Chrome/120.0.0.0 " + "Safari/537.36")
  {
    var head := "Mozilla/5.0 (Windows NT 10.0; Win64; x64) AppleWebKit/537.36 "
                + "(KHTML, like Gecko) Chrome/120.0.0.0 ";
    var tail := "Safari/537.36";
    assert tail[0..6] == "Safari";
    ContainsAt(tail, "Safari", 0);
    ContainsAfter(head, tail, "Safari");
  }
}

/**
  How `consultarRAG` turns a failed POST /query into the message it shows. The submission itself,
  which changes the session, is `Session.AppState.SubmitQuery` and `Session.AppState.FinishQuery`.
 */
module Query {
  import opened Wrappers
  import opened Text
  import opened Transport
  import opened Answer

  /**
    The settled POST /query: a response with its status, its status text and, for an ok status,
    its parsed body; or the error the request rejected with (a timeout is an `AbortError`, and a
    body that does not parse is given as the error `response.json()` throws).
   */
  datatype QueryOutcome =
    | Response(status: nat, statusText: string, body: ApiResponse)
    | Failure(name: string, message: string)

  /** The message of the error a response that is not ok is turned into. */
  function HttpErrorText(status: nat, statusText: string): string {
    "HTTP " + NatToString(status) + ": " + statusText
  }

  /**
    The error the query ends in, if any: none exactly for an ok response, a rejected request as
    it is, and for any other status an `Error` whose message starts "HTTP " and ends with the
    status text.
   */
  function QueryError(o: QueryOutcome): (r: Option<JsError>)
    ensures r.None? <==> o.Response? && IsOkStatus(o.status)
    ensures o.Failure? ==> r == Some(JsError(o.name, o.message))
    ensures o.Response? && r.Some? ==>
      r.value.name == "Error" && StartsWith(r.value.message, "HTTP ") && EndsWith(r.value.message, o.statusText)
  {
    match o
    case Response(status, statusText, _) =>
      if IsOkStatus(status) then None else Some(JsError("Error", HttpErrorText(status, statusText)))
    case Failure(name, message) => Some(JsError(name, message))
  }

  const TimeoutMessage := "Timeout - A consulta demorou muito para responder"
  const NetworkMessage := "Erro de rede - Verifique sua conexão e configuração CORS"
  const InvalidDataMessage := "Dados inválidos - Verifique o formato da pergunta"
  const ServerErrorMessage := "Erro interno do servidor - Tente novamente"

  /**
    The message shown for a failed query, by the first test that holds: a timeout, then a network
    or cross-origin failure, then a rejected payload (422), then a server error (500), and
    otherwise the error's own message.
   */
  function ErrorMessage(e: JsError): string {
    if e.name == "AbortError" then TimeoutMessage
    else if Contains(e.message, "NetworkError") || Contains(e.message, "fetch") then NetworkMessage
    else if Contains(e.message, "HTTP 422") then InvalidDataMessage
    else if Contains(e.message, "HTTP 500") then ServerErrorMessage
    else e.message
  }

  /** A three-digit status prints as three digits. */
  lemma ThreeDigits(n: nat)
    requires 100 <= n <= 999
    ensures |NatToString(n)| == 3
  {
    assert 10 <= n / 10 < 100 && 1 <= n / 10 / 10 < 10;
    assert |NatToString(n / 10 / 10)| == 1;
    assert |NatToString(n / 10)| == 2;
  }

  /**
    The text of an HTTP error has, before the status text, none of the characters that start
    "NetworkError", "fetch" or "HTTP" except its own leading 'H'.
   */
  lemma HttpErrorHead(status: nat, statusText: string)
    requires 100 <= status <= 999
    ensures var d := NatToString(status);
      && HttpErrorText(status, statusText) == ("HTTP " + d + ": ") + statusText
      && HttpErrorText(status, statusText)[1..] == ("TTP " + d + ": ") + statusText
      && (forall k :: 0 <= k < |"HTTP " + d + ": "| ==> ("HTTP " + d + ": ")[k] !in "Nf")
      && (forall k :: 0 <= k < |"TTP " + d + ": "| ==> ("TTP " + d + ": ")[k] != 'H')
  {
    var d := NatToString(status);
    ThreeDigits(status);
    var p := "HTTP " + d + ": ";
    forall k | 0 <= k < |p| ensures p[k] !in "Nf" && (k > 0 ==> p[k] != 'H') {
      if 5 <= k < 8 {
        assert p[k] == d[k - 5];
        assert IsDigit(d[k - 5]);
      }
    }
    var q := "TTP " + d + ": ";
    forall k | 0 <= k < |q| ensures q[k] != 'H' {
      assert q[k] == p[k + 1];
    }
  }

  /** A string that contains `sub` contains every prefix `p` of `sub`. */
  lemma ContainsPrefixOf(s: string, p: string, sub: string)
    requires StartsWith(sub, p)
    requires Contains(s, sub)
    ensures Contains(s, p)
  {
    var i: nat :| i <= |s| && OccursAt(s, sub, i);
    assert s[i..i + |p|] == sub[..|p|];
    assert OccursAt(s, p, i);
  }

  /**
    The error text of a three-digit status contains "HTTP <code>" exactly when it is that status,
    provided the status text does not mention "HTTP" itself.
   */
  lemma HttpErrorNamesItsStatus(status: nat, statusText: string, code: nat)
    requires 100 <= status <= 999 && 100 <= code <= 999
    requires !Contains(statusText, "HTTP")
    ensures Contains(HttpErrorText(status, statusText), "HTTP " + NatToString(code)) <==> status == code
  {
    var m := HttpErrorText(status, statusText);
    var d := NatToString(status);
    var c := "HTTP " + NatToString(code);
    ThreeDigits(status);
    ThreeDigits(code);
    HttpErrorHead(status, statusText);
    ContainsSkip("TTP " + d + ": ", statusText, c);
    if Contains(statusText, c) {
      ContainsPrefixOf(statusText, "HTTP", c);
    }
    assert !Contains(m[1..], c);
    ContainsUncons(m, c);
    assert m[..8] == "HTTP " + d;
    if StartsWith(m, c) {
      assert d == c[5..] == NatToString(code);
      NatToStringInjective(status, code);
    }
  }

  /** The HTTP error text mentions neither "NetworkError" nor "fetch" unless its status text does. */
  lemma HttpErrorNotNetwork(status: nat, statusText: string)
    requires 100 <= status <= 999
    requires !Contains(statusText, "fetch") && !Contains(statusText, "NetworkError")
    ensures !Contains(HttpErrorText(status, statusText), "NetworkError")
    ensures !Contains(HttpErrorText(status, statusText), "fetch")
  {
    var d := NatToString(status);
    HttpErrorHead(status, statusText);
    ContainsSkip("HTTP " + d + ": ", statusText, "NetworkError");
    ContainsSkip("HTTP " + d + ": ", statusText, "fetch");
  }

  /** The two statuses `consultarRAG` singles out, as they appear in the error text. */
  lemma SingledOutStatuses()
    ensures "HTTP " + NatToString(422) == "HTTP 422"
    ensures "HTTP " + NatToString(500) == "HTTP 500"
  {
    assert NatToString(4) == "4" && NatToString(42) == "42";
    assert NatToString(5) == "5" && NatToString(50) == "50";
  }

  /**
    The message for an answer with a failing three-digit status: the invalid-data message for
    422, the server-error message for 500 and otherwise "HTTP <status>: <status text>", as long as
    the status text mentions neither "HTTP", "fetch" nor "NetworkError".
   */
  lemma HttpFailureMessage(status: nat, statusText: string, body: ApiResponse)
    requires 100 <= status <= 999 && !IsOkStatus(status)
    requires !Contains(statusText, "HTTP") && !Contains(statusText, "fetch") && !Contains(statusText, "NetworkError")
    ensures QueryError(Response(status, statusText, body)).Some?
    ensures ErrorMessage(QueryError(Response(status, statusText, body)).value) ==
      if status == 422 then InvalidDataMessage
      else if status == 500 then ServerErrorMessage
      else HttpErrorText(status, statusText)
  {
    var m := HttpErrorText(status, statusText);
    HttpErrorNotNetwork(status, statusText);
    SingledOutStatuses();
    HttpErrorNamesItsStatus(status, statusText, 422);
    HttpErrorNamesItsStatus(status, statusText, 500);
    assert Contains(m, "HTTP 422") <==> status == 422;
    assert Contains(m, "HTTP 500") <==> status == 500;
    assert QueryError(Response(status, statusText, body)) == Some(JsError("Error", m));
  }

  /** A `fetch` that fails at the network level in Chrome ("Failed to fetch") gets the network message. */
  lemma FailedToFetchMessage()
    ensures ErrorMessage(QueryError(Failure("TypeError", "Failed to fetch")).value) == NetworkMessage
  {
    ContainsAt("Failed to fetch", "fetch", 10);
  }
}

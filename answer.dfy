/**
  `processarRespostaAPI`: the answer text built from the structured response of POST /query.
  `Synthesize` defines the text; `ProcessApiResponse` builds it with the `forEach` loop of `processarRespostaAPI`.
 */
module Answer {
  import opened Wrappers
  import opened Text

  /** The optional source fields of one result; a field counts only when present and non-empty. */
  datatype Metadata = Metadata(empresa: Option<string>, departamento: Option<string>, arquivoOriginal: Option<string>)

  /** One retrieved passage: its text and, when the service sent one, its metadata object. */
  datatype ResultItem = ResultItem(content: string, metadata: Option<Metadata>)

  /**
    The parsed response body: the truth value of `success`, `total_results` (absent, or an
    integer), `results` (absent, or a list) and `search_type`.
   */
  datatype ApiResponse = ApiResponse(
    success: bool,
    totalResults: Option<int>,
    results: Option<seq<ResultItem>>,
    searchType: Option<string>)

  const NoResults := "Não foram encontrados resultados relevantes para sua consulta."

  /** The response carries something to report: `success` holds and `results` is a non-empty list. */
  predicate HasResults(d: ApiResponse) {
    d.success && d.results.Some? && |d.results.value| > 0
  }

  /** `meta.field || 'N/A'`: a missing or empty field reads "N/A". */
  function OrNA(field: Option<string>): string {
    if field.Some? && field.value != "" then field.value else "N/A"
  }

  /** `${x}` of the total: the number, or "undefined" when the field is absent. */
  function TotalText(total: Option<int>): string {
    if total.Some? then IntToString(total.value) else "undefined"
  }

  function Header(d: ApiResponse): string {
    "**Encontrei " + TotalText(d.totalResults) + " resultado(s) relevante(s):**\n\n"
  }

  /** The file name in parentheses, only when the field is present and non-empty. */
  function FileNote(file: Option<string>): string {
    if file.Some? && file.value != "" then " (" + file.value + ")" else ""
  }

  /** "Fonte: empresa - departamento", each field "N/A" when missing or empty. */
  function SourceLine(m: Metadata): string {
    "*Fonte: " + OrNA(m.empresa) + " - " + OrNA(m.departamento)
  }

  /** The source note of a result with metadata; a result without metadata gets none. */
  function SourceNote(metadata: Option<Metadata>): string {
    match metadata
    case None => ""
    case Some(m) => SourceLine(m) + FileNote(m.arquivoOriginal) + "*\n\n"
  }

  /** The numbered first line of the result numbered `n`. */
  function EntryHead(n: nat, item: ResultItem): string {
    "**" + NatToString(n) + ".** " + item.content + "\n\n"
  }

  /** The text of the result numbered `n`. */
  function Entry(n: nat, item: ResultItem): string {
    EntryHead(n, item) + SourceNote(item.metadata)
  }

  function Trailer(d: ApiResponse): string {
    "---\n*Busca realizada: " + (if d.searchType == Some("global") then "Global" else "Específica") + "*"
  }

  /** The texts of the entries of `rs`, in input order, the first numbered 1. */
  function EntryTexts(rs: seq<ResultItem>): seq<string> {
    seq(|rs|, k requires 0 <= k < |rs| => Entry(k + 1, rs[k]))
  }

  /** The answer `processarRespostaAPI` returns. */
  function Synthesize(d: ApiResponse): string {
    if !HasResults(d) then NoResults else Header(d) + Concat(EntryTexts(d.results.value)) + Trailer(d)
  }

  /**
    Result `k` (counted from 0) appears as the entry numbered k + 1, after the entries of all
    earlier results and before those of all later ones.
   */
  lemma EntryInOrder(d: ApiResponse, k: nat)
    requires HasResults(d) && k < |d.results.value|
    ensures var ts := EntryTexts(d.results.value);
      Synthesize(d) == Header(d) + (Concat(ts[..k]) + Entry(k + 1, d.results.value[k]) + Concat(ts[k + 1..])) + Trailer(d)
  {
    ConcatAt(EntryTexts(d.results.value), k);
  }

  /** The fixed "no results" text is returned exactly when the response has nothing to report. */
  lemma NoResultsIff(d: ApiResponse)
    ensures Synthesize(d) == NoResults <==> !HasResults(d)
  {
    if HasResults(d) {
      assert |Header(d)| >= 44 && |Trailer(d)| >= 29;
      assert |Synthesize(d)| > |NoResults|;
    }
  }

  /** The trailer ends in "Global*" exactly for a global search. */
  lemma TrailerScope(d: ApiResponse)
    ensures EndsWith(Trailer(d), "Global*") <==> d.searchType == Some("global")
  {
    var t := Trailer(d);
    if d.searchType != Some("global") {
      assert t == "---\n*Busca realizada: Específica*";
      assert t[|t| - 7] == 'c';
    }
  }

  /** An answer with results ends in "Global*" exactly when `search_type` is "global". */
  lemma ScopeMarker(d: ApiResponse)
    requires HasResults(d)
    ensures EndsWith(Synthesize(d), "Global*") <==> d.searchType == Some("global")
  {
    var body := Header(d) + Concat(EntryTexts(d.results.value));
    assert Synthesize(d) == body + Trailer(d);
    TrailerScope(d);
    EndsWithAppend(body, Trailer(d), "Global*");
  }

  /** The first entry of the scenario below: no metadata, so no source line. */
  lemma TwoResultsFirstEntry()
    ensures Entry(1, ResultItem("A", None)) == "**1.** A\n\n"
  {
  }

  /** The second entry of the scenario below: a source line with "N/A" for the missing department. */
  lemma TwoResultsSecondEntry()
    ensures Entry(2, ResultItem("B", Some(Metadata(Some("X"), None, None)))) == "**2.** B\n\n*Fonte: X - N/A*\n\n"
  {
  }

  /**
    Two results, the second with only `empresa`: the answer is the header, the two entries
    numbered 1 and 2 (for the contents "A" and "B" and the company "X", their texts are given by
    the two lemmas above) and the trailer, which `ScopeMarker` decides.
   */
  lemma TwoResultsScenario(d: ApiResponse, a: string, b: string, x: string)
    requires d.success && d.results == Some([ResultItem(a, None), ResultItem(b, Some(Metadata(Some(x), None, None)))])
    ensures Synthesize(d) == Header(d) + (Entry(1, ResultItem(a, None))
      + Entry(2, ResultItem(b, Some(Metadata(Some(x), None, None))))) + Trailer(d)
  {
    ConcatPair(EntryTexts(d.results.value));
  }

  /**
    The `forEach` callback of `processarRespostaAPI`: appends the entry of `resultado`, numbered
    `index + 1`, to the answer built so far.
   */
  method AppendEntry(resposta: string, resultado: ResultItem, index: nat) returns (r: string)
    ensures r == resposta + Entry(index + 1, resultado)
  {
    r := resposta + ("**" + NatToString(index + 1) + ".** " + resultado.content + "\n\n");
    if resultado.metadata.Some? {
      var meta := resultado.metadata.value;
      ghost var headed := r;
      r := r + ("*Fonte: " + OrNA(meta.empresa) + " - " + OrNA(meta.departamento));
      if meta.arquivoOriginal.Some? && meta.arquivoOriginal.value != "" {
        r := r + (" (" + meta.arquivoOriginal.value + ")");
      }
      AppendAssoc(headed, SourceLine(meta), FileNote(meta.arquivoOriginal));
      r := r + "*\n\n";
      AppendAssoc(headed, SourceLine(meta) + FileNote(meta.arquivoOriginal), "*\n\n");
      AppendAssoc(resposta, EntryHead(index + 1, resultado), SourceNote(resultado.metadata));
    } else {
      assert r == resposta + EntryHead(index + 1, resultado) + "";
    }
  }

  /** `processarRespostaAPI`: the header, one entry per result in a `forEach`, then the trailer. */
  method ProcessApiResponse(d: ApiResponse) returns (resposta: string)
    ensures resposta == Synthesize(d)
  {
    if !d.success || d.results.None? || |d.results.value| == 0 {
      return NoResults;
    }
    var results := d.results.value;
    ghost var ts := EntryTexts(results);
    resposta := Header(d);
    var index := 0;
    while index < |results|
      invariant 0 <= index <= |results|
      invariant resposta == Header(d) + Concat(ts[..index])
    {
      resposta := AppendEntry(resposta, results[index], index);
      AppendAssoc(Header(d), Concat(ts[..index]), ts[index]);
      ConcatSnoc(ts, index);
      index := index + 1;
    }
    assert ts[..index] == ts;
    resposta := resposta + Trailer(d);
  }
}

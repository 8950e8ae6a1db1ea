/** The Tavily web-search tool: the API-key check that decides whether a
    tool exists, the two paths on which a search yields nothing, and the
    numbered rendering of the results. The search itself is an input. */
module WebSearch {
  import opened Wrappers
  import opened Text
  import Schema

  /** One search hit: its `url` and `content` entries are each missing,
      present as `None`, or a string. */
  datatype WebResult = WebResult(url: Schema.Field<string>, content: Schema.Field<string>)

  /** How `result.get(key, "")` renders in the entry's f-string: a missing
      entry as "", a present `None` as "None", a string as itself. */
  function EntryText(f: Schema.Field<string>): (s: string)
    ensures f.Missing? ==> s == ""
    ensures f.Null? ==> s == "None"
    ensures f.Given? ==> s == f.value
  {
    match f
    case Missing => ""
    case Null => "None"
    case Given(text) => text
  }

  /** The sites a search is restricted to. */
  const Domains: seq<string> :=
    ["firs.gov.ng", "budget.gov.ng", "pwc.com/ng", "kpmg.com/ng", "nairametrics.com", "businessday.ng"]

  /** A constructed `TavilySearchResults` tool. */
  datatype Tool = Tool(maxResults: int, apiKey: string, domains: seq<string>)

  /** `get_tavily(max_results)`: no tool without an API key, nor when the
      constructor raises (`constructs` is false). */
  function GetTavily(apiKey: string, maxResults: int, constructs: bool): (r: Option<Tool>)
    ensures r.Some? <==> apiKey != "" && constructs
    ensures r.Some? ==> r.value == Tool(maxResults, apiKey, Domains)
  {
    if apiKey == "" then None
    else if !constructs then None
    else Some(Tool(maxResults, apiKey, Domains))
  }

  /** The rendering of the `i`-th hit (counting from 1). */
  function ResultPart(i: nat, r: WebResult): (p: string)
    ensures |p| > 0 && p[0] == '['
    ensures Contains(p, EntryText(r.url)) && Contains(p, EntryText(r.content))
  {
    var pieces := ["[Web Source ", NatToString(i), "]\nURL: ", EntryText(r.url), "\nContent: ", EntryText(r.content), "\n"];
    PieceInConcat(pieces, 3);
    PieceInConcat(pieces, 5);
    assert Concat(pieces) == pieces[0] + Concat(pieces[1..]);
    Concat(pieces)
  }

  /** A `url` present as `None` renders four characters ("None") more than
      a missing one, so the two hits render differently. */
  lemma NullEntryIsNotMissing(i: nat, content: Schema.Field<string>)
    ensures |ResultPart(i, WebResult(Schema.Null, content))| == |ResultPart(i, WebResult(Schema.Missing, content))| + 4
    ensures ResultPart(i, WebResult(Schema.Null, content)) != ResultPart(i, WebResult(Schema.Missing, content))
  {
    var head := ["[Web Source ", NatToString(i), "]\nURL: "];
    var tail := ["\nContent: ", EntryText(content), "\n"];
    forall url: Schema.Field<string>
      ensures ResultPart(i, WebResult(url, content)) == Concat(head) + EntryText(url) + Concat(tail)
    {
      var pieces := ["[Web Source ", NatToString(i), "]\nURL: ", EntryText(url), "\nContent: ", EntryText(content), "\n"];
      assert pieces == head + ([EntryText(url)] + tail);
      ConcatAppend(head, [EntryText(url)] + tail);
      ConcatAppend([EntryText(url)], tail);
    }
  }

  function ResultParts(results: seq<WebResult>): (r: seq<string>)
    ensures |r| == |results|
    ensures forall i :: 0 <= i < |results| ==> r[i] == ResultPart(i + 1, results[i])
  {
    seq(|results|, i requires 0 <= i < |results| => ResultPart(i + 1, results[i]))
  }

  /** `format_web_results`: "" for no hits, otherwise the numbered parts
      joined by newlines. */
  function FormatWebResults(results: seq<WebResult>): (r: string)
    ensures r == "" <==> results == []
  {
    if results == [] then ""
    else
      JoinHead(ResultParts(results), "\n");
      Join(ResultParts(results), "\n")
  }

  /** Hits are rendered in order, numbered from 1: one more hit adds its
      part, with the next number, after a newline. */
  lemma FormatWebResultsSnoc(results: seq<WebResult>, r: WebResult)
    requires results != []
    ensures FormatWebResults(results + [r]) == FormatWebResults(results) + "\n" + ResultPart(|results| + 1, r)
  {
    assert ResultParts(results + [r]) == ResultParts(results) + [ResultPart(|results| + 1, r)];
    JoinSnoc(ResultParts(results), ResultPart(|results| + 1, r), "\n");
  }

  /** A single hit renders as its own part. */
  lemma FormatSingleResult(r: WebResult)
    ensures FormatWebResults([r]) == ResultPart(1, r)
  {
  }

  /** `search_web(query, max_results)`: "" when there is no tool or the
      search raised, otherwise the rendered hits. `search` is what
      `tool.invoke` returns. */
  function SearchWeb(apiKey: string, maxResults: int, constructs: bool,
                     search: Result<seq<WebResult>, string>): (r: string)
    ensures GetTavily(apiKey, maxResults, constructs).None? ==> r == ""
    ensures search.Failure? ==> r == ""
    ensures GetTavily(apiKey, maxResults, constructs).Some? && search.Success? ==>
      r == FormatWebResults(search.value)
  {
    match GetTavily(apiKey, maxResults, constructs)
    case None => ""
    case Some(_) =>
      match search
      case Failure(_) => ""
      case Success(results) => FormatWebResults(results)
  }

  /** A search yields text exactly when a tool exists, the search succeeds,
      and it returns at least one hit. */
  lemma SearchWebNonEmpty(apiKey: string, maxResults: int, constructs: bool,
                          search: Result<seq<WebResult>, string>)
    ensures SearchWeb(apiKey, maxResults, constructs, search) != "" <==>
      apiKey != "" && constructs && search.Success? && search.value != []
  {
  }
}

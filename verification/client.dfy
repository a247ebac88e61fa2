/** The query-orchestration client: the error-as-value wrappers around the
    tool server and the language model, the intent classifier, and
    `agentic_query` in both its modes. The tool server and the language model
    are oracles passed in as functions; the answer is the ordered list of
    fragments the page is built from, together with the trace of external
    calls made. */
module Client {
  import opened Values
  import opened Text
  import opened Server

  /** One tool request: the tool's name and its parameter mapping. */
  datatype Invocation = Invocation(tool: string, params: map<string, string>)

  /** What happened to one tool request on the wire. The outer outcome is
      `asyncio.run` itself (Raised when it cannot run the coroutine); the
      inner one is the MCP client session (Raised on any connection, protocol
      or tool error, Returned with the response's data). */
  type Transport = Outcome<Outcome<Mapping>>

  /** A line of the ticket block: its name and the value shown after it. */
  datatype TicketLine = TicketLine(name: string, value: Value)

  /** A prompt, as the data it embeds; the fixed instruction text around that
      data is not modelled. */
  datatype Prompt =
    | TicketPrompt(query: string, ticket: seq<TicketLine>)
    | DeepPrompt(query: string, toolsConsulted: seq<string>, evidence: seq<Value>)

  /** An external call, as recorded in the trace. */
  datatype Call = ToolCall(invocation: Invocation) | LlmCall(prompt: Prompt)

  datatype Heading =
    | TicketInformation
    | DeepTechnicalAnswer
    | ResultsFrom(tool: string)
    | StructuredTicketSummary
    | TechnicalAnalysis

  /** One row of a results table: the hit's title, the link target and the
      link text. */
  datatype Row = Row(title: Value, href: Value, link: Value)

  /** The pieces the answer page is assembled from, in order. */
  datatype Fragment =
    | Title(heading: Heading)
    | ErrorParagraph(message: Value)
    | PreOpen
    | TicketText(lines: seq<TicketLine>)
    | PreClose
    | Table(rows: seq<Row>)
    | NoResults
    | Completion(text: string)

  /** The result of `agentic_query`: the fragments of the answer, or the
      message of an exception that escaped it; either way the calls made. */
  datatype Reply =
    | Answered(document: seq<Fragment>, calls: seq<Call>)
    | Aborted(message: string, calls: seq<Call>)

  const TicketKeywords: seq<string> := ["ticket", "raise ticket", "my ticket status"]
  const ResourceSearchTool := "resource_search"
  const DuckDuckGoSearchTool := "duckduckgo_search"
  const WebSearchTool := "web_search"
  const SearchTools: seq<string> := [ResourceSearchTool, DuckDuckGoSearchTool, WebSearchTool]

  /** `call_tool("get_ticket_info")`: no parameters, which `params or {}`
      turns into the empty mapping. */
  const TicketInvocation: Invocation := Invocation("get_ticket_info", map[])

  function SearchInvocation(tool: string, q: string): Invocation {
    Invocation(tool, map["query" := q])
  }

  /** `call_tool_async`: the session's data, or an "error" entry when the
      session raised. */
  function CallToolAsync(session: Outcome<Mapping>): (r: Mapping)
    ensures session.Returned? ==> r == session.value
    ensures session.Raised? ==>
      r.Keys == {"error"} && r["error"] == Str("Tool connection failed: " + session.message)
  {
    match session
    case Returned(data) => data
    case Raised(e) => map["error" := Str("Tool connection failed: " + e)]
  }

  /** `call_tool`: never raises. Every failure, at either layer, becomes a
      mapping whose only key is "error"; a delivered response passes through
      unchanged. */
  function CallTool(t: Transport): (r: Mapping)
    ensures t.Raised? || t.value.Raised? ==> r.Keys == {"error"} && r["error"].Str?
    ensures t.Raised? ==> r["error"] == Str("Asyncio execution error: " + t.message)
    ensures t.Returned? && t.value.Raised? ==>
      r["error"] == Str("Tool connection failed: " + t.value.message)
    ensures t.Returned? && t.value.Returned? ==> r == t.value.value
  {
    match t
    case Returned(session) => CallToolAsync(session)
    case Raised(e) => map["error" := Str("Asyncio execution error: " + e)]
  }

  /** `call_llm`: the completion text, or "LLM Error: " and the failure's
      message; it never raises. */
  function CallLlm(completion: Outcome<string>): (r: string)
    ensures completion.Returned? ==> r == completion.value
    ensures completion.Raised? ==> r == "LLM Error: " + completion.message
    ensures completion.Raised? ==> "LLM Error: " <= r
  {
    match completion
    case Returned(text) => text
    case Raised(e) => "LLM Error: " + e
  }

  /** `is_ticket_query`: some keyword occurs in the lower-cased query. Every
      keyword contains "ticket", so the longer two never change the outcome. */
  predicate IsTicketQuery(q: string): (b: bool)
    ensures b <==> Contains(Lower(q), "ticket")
  {
    KeywordsReduceToTicket(Lower(q));
    exists k :: k in TicketKeywords && Contains(Lower(q), k)
  }

  /** Some keyword occurs in `s` exactly when "ticket" does. */
  lemma KeywordsReduceToTicket(s: string)
    ensures (exists k :: k in TicketKeywords && Contains(s, k)) <==> Contains(s, "ticket")
  {
    var t := "ticket";
    if exists k :: k in TicketKeywords && Contains(s, k) {
      var k :| k in TicketKeywords && Contains(s, k);
      KeywordsMentionTicket();
      ContainsTransitive(s, k, t);
    }
    if Contains(s, t) {
      assert t == TicketKeywords[0];
    }
  }

  /** Each keyword has "ticket" inside it. */
  lemma KeywordsMentionTicket()
    ensures forall k :: k in TicketKeywords ==> Contains(k, "ticket")
  {
    var k0, k1, k2 := TicketKeywords[0], TicketKeywords[1], TicketKeywords[2];
    ContainsSlice(k0, 0, 6);
    assert k0[0..6] == "ticket";
    ContainsSlice(k1, 6, 6);
    assert k1[6..12] == "ticket";
    ContainsSlice(k2, 3, 6);
    assert k2[3..9] == "ticket";
  }

  /** The response the tool server gives to the search tool `tool` for `q`. */
  function SearchAnswer(server: Invocation -> Transport, tool: string, q: string): Mapping {
    CallTool(server(SearchInvocation(tool, q)))
  }

  /** What each search tool answers to the query, as the loop sees it. */
  function Answers(server: Invocation -> Transport, q: string): (answer: string -> Mapping)
    ensures forall tool :: answer(tool) == SearchAnswer(server, tool, q)
  {
    tool => SearchAnswer(server, tool, q)
  }

  /** The number of language-model calls in a trace. */
  function LlmCallCount(calls: seq<Call>): (n: nat)
    ensures n <= |calls|
    ensures n == 0 <==> forall i :: 0 <= i < |calls| ==> calls[i].ToolCall?
  {
    if calls == [] then 0
    else (if calls[0].LlmCall? then 1 else 0) + LlmCallCount(calls[1..])
  }

  /** Counting language-model calls distributes over concatenating traces. */
  lemma {:induction false} LlmCallCountAppend(a: seq<Call>, b: seq<Call>)
    ensures LlmCallCount(a + b) == LlmCallCount(a) + LlmCallCount(b)
    decreases |a|
  {
    if a == [] {
      assert a + b == b;
    } else {
      assert (a + b)[1..] == a[1..] + b;
      LlmCallCountAppend(a[1..], b);
    }
  }

  // ---------------------------------------------------------------------
  // Ticket mode
  // ---------------------------------------------------------------------

  /** The label of each line of the ticket block; the line shows the payload
      key of the same index in `TicketKeys`, the keys the server sends. */
  const TicketLabels: seq<string> := ["Ticket ID", "Agent Name", "Country"]

  /** The three lines of the ticket block. "N/A" is substituted only for a
      key missing from the payload; a key that is present shows its value,
      even None. */
  function TicketLines(data: Mapping): (lines: seq<TicketLine>)
    ensures |lines| == 3
    ensures forall i :: 0 <= i < 3 ==> lines[i].name == TicketLabels[i]
    ensures forall i :: 0 <= i < 3 && TicketKeys[i] in data ==> lines[i].value == data[TicketKeys[i]]
    ensures forall i :: 0 <= i < 3 && TicketKeys[i] !in data ==> lines[i].value == Str("N/A")
  {
    seq(3, i requires 0 <= i < 3 => TicketLine(TicketLabels[i], Get(data, TicketKeys[i], Str("N/A"))))
  }

  /** Ticket mode: one call to `get_ticket_info`. An "error" in its answer
      ends the request with that error under the heading, before any
      language-model call. Otherwise the ticket block is shown, the same lines
      are put into the prompt, and the completion closes the answer. */
  function TicketMode(q: string, server: Invocation -> Transport, llm: Prompt -> Outcome<string>): (r: Reply)
    ensures r.Answered?
    ensures var data := CallTool(server(TicketInvocation));
      "error" in data ==>
        && r.document == [Title(TicketInformation), ErrorParagraph(data["error"])]
        && r.calls == [ToolCall(TicketInvocation)]
    ensures var data := CallTool(server(TicketInvocation));
      "error" !in data ==>
        && |r.document| == 6
        && r.document[0] == Title(TicketInformation)
        && r.document[1..4] == [PreOpen, TicketText(TicketLines(data)), PreClose]
        && r.document[4] == Title(StructuredTicketSummary)
        && |r.calls| == 2
        && r.calls[0] == ToolCall(TicketInvocation)
        && r.calls[1] == LlmCall(TicketPrompt(q, TicketLines(data)))
        && r.document[5] == Completion(CallLlm(llm(r.calls[1].prompt)))
  {
    var data := CallTool(server(TicketInvocation));
    if "error" in data then
      Answered([Title(TicketInformation), ErrorParagraph(data["error"])], [ToolCall(TicketInvocation)])
    else
      var lines := TicketLines(data);
      var prompt := TicketPrompt(q, lines);
      var answer := CallLlm(llm(prompt));
      Answered(
        [Title(TicketInformation), PreOpen, TicketText(lines), PreClose,
         Title(StructuredTicketSummary), Completion(answer)],
        [ToolCall(TicketInvocation), LlmCall(prompt)])
  }

  // ---------------------------------------------------------------------
  // Deep-answer mode
  // ---------------------------------------------------------------------

  /** One results-table row: `r.get("title", "N/A")`, and the link built
      from `r.get("url", "#")` and `r.get("url", "N/A")`. */
  function HitRow(hit: Mapping): (row: Row)
    ensures "title" in hit ==> row.title == hit["title"]
    ensures "title" !in hit ==> row.title == Str("N/A")
    ensures "url" in hit ==> row.href == hit["url"] && row.link == hit["url"]
    ensures "url" !in hit ==> row.href == Str("#") && row.link == Str("N/A")
  {
    Row(Get(hit, "title", Str("N/A")), Get(hit, "url", Str("#")), Get(hit, "url", Str("N/A")))
  }

  /** The message of the exception that iterating a truthy non-list value as
      a list of dicts raises: strings and dicts yield strings, which have no
      `get`; other scalars are not iterable at all. */
  function IterationMessage(v: Value): string {
    if v.Str? || v.Dict? then NoGetMessage(Str(""))
    else "'" + TypeName(v) + "' object is not iterable"
  }

  /** `res_data.get("results", [])`: the value the client treats as a tool's
      hit list. */
  function ResultsOf(data: Mapping): Value {
    Get(data, "results", List([]))
  }

  /** The hits a tool contributes to the combined evidence: the "results"
      list when it is truthy, nothing otherwise. */
  function HitsOf(data: Mapping): seq<Value> {
    var results := ResultsOf(data);
    if Truthy(results) && results.List? then results.items else []
  }

  /** Whether the client can render a tool's response: its results are falsy
      or a list of dicts. */
  predicate Renderable(data: Mapping) {
    var results := ResultsOf(data);
    !Truthy(results) || (results.List? && AllDicts(results.items))
  }

  /** What one search tool adds: its fragments, and its hits for the prompt. */
  datatype Section = Section(fragments: seq<Fragment>, hits: seq<Value>)

  /** One turn of the loop over the search tools: the tool's heading, then a
      table with one row per hit, or "No results." when the tool gave no
      results key, a falsy value or an empty list (an error included). Results
      that are truthy but not a list of dicts make the comprehension raise. */
  function ToolSection(tool: string, data: Mapping): (r: Outcome<Section>)
    ensures r.Returned? <==> Renderable(data)
    ensures r.Returned? ==>
      && |r.value.fragments| == 2
      && r.value.fragments[0] == Title(ResultsFrom(tool))
      && r.value.hits == HitsOf(data)
    ensures r.Returned? && HitsOf(data) == [] ==> r.value.fragments[1] == NoResults
    ensures r.Returned? && HitsOf(data) != [] ==>
      && r.value.fragments[1].Table?
      && |r.value.fragments[1].rows| == |HitsOf(data)|
      && forall i :: 0 <= i < |HitsOf(data)| ==>
           r.value.fragments[1].rows[i] == HitRow(HitsOf(data)[i].fields)
    ensures r.Raised? && !ResultsOf(data).List? ==> r.message == IterationMessage(ResultsOf(data))
  {
    var results := ResultsOf(data);
    if !Truthy(results) then
      Returned(Section([Title(ResultsFrom(tool)), NoResults], []))
    else
      match results
      case List(items) =>
        (match MapDicts(items, HitRow)
         case Raised(m) => Raised(m)
         case Returned(rows) => Returned(Section([Title(ResultsFrom(tool)), Table(rows)], items)))
      case _ => Raised(IterationMessage(results))
  }

  /** What the loop over the search tools has built: the fragments, the
      combined hits, the calls made, and the message of the exception that
      stopped it, if any. */
  datatype Gathered = Gathered(fragments: seq<Fragment>, evidence: seq<Value>, calls: seq<Call>, failure: Option<string>)

  /** The loop over the search tools: each tool is called with the query, in
      order, and `answer` gives what the call returns; the loop stops only
      when a tool's results cannot be rendered. */
  function Gather(q: string, tools: seq<string>, answer: string -> Mapping): (g: Gathered)
    ensures |g.calls| <= |tools|
    ensures g.failure.Some? ==> 1 <= |g.calls|
    ensures g.failure.None? ==> |g.calls| == |tools| && |g.fragments| == 2 * |tools|
    decreases |tools|
  {
    if tools == [] then Gathered([], [], [], None)
    else
      var call := ToolCall(SearchInvocation(tools[0], q));
      match ToolSection(tools[0], answer(tools[0]))
      case Raised(m) => Gathered([], [], [call], Some(m))
      case Returned(section) =>
        var rest := Gather(q, tools[1..], answer);
        Gathered(section.fragments + rest.fragments, section.hits + rest.evidence,
                 [call] + rest.calls, rest.failure)
  }

  /** The loop calls the tools in list order, each with the query. */
  lemma {:induction false} GatherCalls(q: string, tools: seq<string>, answer: string -> Mapping)
    ensures var g := Gather(q, tools, answer);
      forall i :: 0 <= i < |g.calls| ==> g.calls[i] == ToolCall(SearchInvocation(tools[i], q))
    decreases |tools|
  {
    if tools != [] && ToolSection(tools[0], answer(tools[0])).Returned? {
      GatherCalls(q, tools[1..], answer);
      var rest := Gather(q, tools[1..], answer).calls;
      assert forall i :: 0 < i < |rest| + 1 ==> tools[i] == tools[1..][i - 1];
    }
  }

  /** The loop runs to the end exactly when every tool's results can be
      rendered. */
  lemma {:induction false} GatherCompletes(q: string, tools: seq<string>, answer: string -> Mapping)
    ensures Gather(q, tools, answer).failure.None?
        <==> forall i :: 0 <= i < |tools| ==> Renderable(answer(tools[i]))
    decreases |tools|
  {
    if tools != [] && Renderable(answer(tools[0])) {
      GatherCompletes(q, tools[1..], answer);
      assert forall i :: 0 < i < |tools| ==> tools[i] == tools[1..][i - 1];
    }
  }

  /** A loop that does not complete stops right after the first tool whose
      results cannot be rendered. */
  lemma {:induction false} GatherStops(q: string, tools: seq<string>, answer: string -> Mapping)
    requires Gather(q, tools, answer).failure.Some?
    ensures var n := |Gather(q, tools, answer).calls|;
      && (forall i :: 0 <= i < n - 1 ==> Renderable(answer(tools[i])))
      && !Renderable(answer(tools[n - 1]))
    decreases |tools|
  {
    if Renderable(answer(tools[0])) {
      GatherStops(q, tools[1..], answer);
      var n := |Gather(q, tools, answer).calls|;
      assert forall i :: 0 < i < n ==> tools[i] == tools[1..][i - 1];
    }
  }

  /** Deep-answer mode: the three search tools in their fixed order, then one
      language-model call on the query and the combined hits. */
  function DeepMode(q: string, server: Invocation -> Transport, llm: Prompt -> Outcome<string>): (r: Reply)
    ensures r.Answered? <==>
      forall i :: 0 <= i < 3 ==> Renderable(SearchAnswer(server, SearchTools[i], q))
    ensures r.Answered? ==>
      && |r.document| == 9
      && r.document[0] == Title(DeepTechnicalAnswer)
      && r.document[7] == Title(TechnicalAnalysis)
      && |r.calls| == 4
      && (forall i :: 0 <= i < 3 ==> r.calls[i] == ToolCall(SearchInvocation(SearchTools[i], q)))
      && r.calls[3].LlmCall?
      && r.calls[3].prompt.DeepPrompt?
      && r.calls[3].prompt.query == q
      && r.calls[3].prompt.toolsConsulted == SearchTools
      && r.document[8] == Completion(CallLlm(llm(r.calls[3].prompt)))
    ensures r.Answered? ==> LlmCallCount(r.calls) == 1
    ensures r.Aborted? ==>
      && 1 <= |r.calls| <= 3
      && (forall i :: 0 <= i < |r.calls| ==> r.calls[i] == ToolCall(SearchInvocation(SearchTools[i], q)))
      && !Renderable(SearchAnswer(server, SearchTools[|r.calls| - 1], q))
  {
    var g := Gather(q, SearchTools, Answers(server, q));
    GatherCalls(q, SearchTools, Answers(server, q));
    GatherCompletes(q, SearchTools, Answers(server, q));
    if g.failure.Some? then
      GatherStops(q, SearchTools, Answers(server, q));
      Aborted(g.failure.value, g.calls)
    else Conclude(q, g, llm)
  }

  /** The end of deep mode once the loop has run to completion: one
      language-model call on the query, the tool names and the combined hits,
      and its completion after the analysis heading. */
  function Conclude(q: string, g: Gathered, llm: Prompt -> Outcome<string>): (r: Reply)
    requires |g.fragments| == 6 && |g.calls| == 3
    requires forall i :: 0 <= i < 3 ==> g.calls[i].ToolCall?
    ensures r.Answered?
    ensures |r.document| == 9 && |r.calls| == 4
    ensures r.document[0] == Title(DeepTechnicalAnswer)
    ensures r.document[1..7] == g.fragments
    ensures r.document[7] == Title(TechnicalAnalysis)
    ensures r.calls[..3] == g.calls
    ensures r.calls[3] == LlmCall(DeepPrompt(q, SearchTools, g.evidence))
    ensures r.document[8] == Completion(CallLlm(llm(r.calls[3].prompt)))
    ensures LlmCallCount(r.calls) == 1
  {
    var prompt := DeepPrompt(q, SearchTools, g.evidence);
    LlmCallCountAppend(g.calls, [LlmCall(prompt)]);
    Answered([Title(DeepTechnicalAnswer)] + g.fragments + [Title(TechnicalAnalysis), Completion(CallLlm(llm(prompt)))],
             g.calls + [LlmCall(prompt)])
  }

  /** `agentic_query(q)`: ticket mode when the query names a ticket, deep
      answer mode otherwise. */
  function AgenticQuery(q: string, server: Invocation -> Transport, llm: Prompt -> Outcome<string>): (r: Reply)
    ensures |r.calls| >= 1
    ensures IsTicketQuery(q) ==> r.Answered? && r.calls[0] == ToolCall(TicketInvocation)
    ensures !IsTicketQuery(q) ==> r.calls[0] == ToolCall(SearchInvocation(ResourceSearchTool, q))
    ensures LlmCallCount(r.calls) <= 1
  {
    if IsTicketQuery(q) then TicketMode(q, server, llm) else DeepMode(q, server, llm)
  }
}

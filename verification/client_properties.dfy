/** Properties of the orchestrator that relate several calls or state what
    `agentic_query` promises as a whole: the classifier's
    case-insensitivity, the early exit of ticket mode, and the
    order, shape and evidence of deep-answer mode. */
module ClientProperties {
  import opened Values
  import opened Text
  import opened Client

  // ---------------------------------------------------------------------
  // Intent classification
  // ---------------------------------------------------------------------

  /** Classification ignores case: lower-casing the query first changes
      nothing. */
  lemma ClassificationIgnoresCase(q: string)
    ensures IsTicketQuery(Lower(q)) == IsTicketQuery(q)
  {
    LowerIdempotent(q);
  }

  /** Two queries that differ only in the case of their letters are handled
      in the same mode. */
  lemma SameLowerSameMode(q1: string, q2: string)
    requires Lower(q1) == Lower(q2)
    ensures IsTicketQuery(q1) == IsTicketQuery(q2)
  {
  }

  /** A query with "ticket" written in lower case anywhere in it is a
      ticket query, whatever surrounds it. */
  lemma LowerCaseTicketAnywhere(a: string, b: string)
    ensures IsTicketQuery(a + "ticket" + b)
  {
    var t := "ticket";
    assert forall i :: 0 <= i < |t| ==> !('A' <= t[i] <= 'Z');
    LowerOfLowerCase(t);
    LowerAppend(a, t);
    LowerAppend(a + t, b);
    assert Lower(a + t + b) == Lower(a) + t + Lower(b);
    ContainsMiddle(Lower(a), t, Lower(b));
  }

  /** "what is my ticket status" is a ticket query. */
  lemma TicketStatusQueryIsTicket()
    ensures IsTicketQuery("what is my ticket status")
  {
    assert "what is my ticket status" == "what is my " + "ticket" + " status";
    LowerCaseTicketAnywhere("what is my ", " status");
  }

  // ---------------------------------------------------------------------
  // Failures are values
  // ---------------------------------------------------------------------

  /** A failed tool call, at either layer, carries an "error" key and no
      "results": in deep mode it renders as "No results." and adds no hits. */
  lemma FailedCallHasNoResults(t: Transport)
    requires t.Raised? || t.value.Raised?
    ensures "error" in CallTool(t)
    ensures Renderable(CallTool(t)) && HitsOf(CallTool(t)) == []
    ensures ToolSection(ResourceSearchTool, CallTool(t)).Returned?
  {
  }

  /** The client tells a transport failure from a tool's own error only by
      the message text: a session that raised with `e` and a tool that
      answered `{"error": "Tool connection failed: " + e}` look the same. */
  lemma FailureKindsIndistinguishable(e: string)
    ensures CallTool(Returned(Raised(e)))
         == CallTool(Returned(Returned(map["error" := Str("Tool connection failed: " + e)])))
  {
  }

  // ---------------------------------------------------------------------
  // Ticket mode
  // ---------------------------------------------------------------------

  /** The ticket tool answering with an "error" ends the request: the answer
      is the heading and that error, and the language model is never called. */
  lemma TicketErrorSkipsLlm(q: string, server: Invocation -> Transport, llm: Prompt -> Outcome<string>)
    requires IsTicketQuery(q)
    requires "error" in CallTool(server(TicketInvocation))
    ensures var r := AgenticQuery(q, server, llm);
      && r.Answered?
      && r.document == [Title(TicketInformation), ErrorParagraph(CallTool(server(TicketInvocation))["error"])]
      && LlmCallCount(r.calls) == 0
      && |r.calls| == 1
  {
  }

  /** When the ticket call cannot even be run, the answer is one error
      paragraph carrying the failure, and no completion is requested. */
  lemma TicketTransportFaultIsOneError(q: string, server: Invocation -> Transport, llm: Prompt -> Outcome<string>)
    requires IsTicketQuery(q)
    requires server(TicketInvocation).Raised?
    ensures var r := AgenticQuery(q, server, llm);
      && r.Answered?
      && r.document == [Title(TicketInformation),
                        ErrorParagraph(Str("Asyncio execution error: " + server(TicketInvocation).message))]
      && LlmCallCount(r.calls) == 0
  {
  }

  /** A ticket answer without "error": six fragments, one language-model call
      whose prompt holds the query and exactly the lines shown in the ticket
      block, and the completion text as the last fragment, verbatim. */
  lemma TicketSuccessShape(q: string, server: Invocation -> Transport, llm: Prompt -> Outcome<string>)
    requires IsTicketQuery(q)
    requires "error" !in CallTool(server(TicketInvocation))
    ensures var r := AgenticQuery(q, server, llm);
      && r.Answered?
      && |r.document| == 6
      && LlmCallCount(r.calls) == 1
      && r.document[2].TicketText?
      && r.calls[1] == LlmCall(TicketPrompt(q, r.document[2].lines))
      && r.document[5] == Completion(CallLlm(llm(TicketPrompt(q, r.document[2].lines))))
      && (llm(TicketPrompt(q, r.document[2].lines)).Returned? ==>
            r.document[5].text == llm(TicketPrompt(q, r.document[2].lines)).value)
  {
    var r := AgenticQuery(q, server, llm);
    assert r.calls == [r.calls[0]] + [r.calls[1]];
    LlmCallCountAppend([r.calls[0]], [r.calls[1]]);
  }

  // ---------------------------------------------------------------------
  // Deep-answer mode
  // ---------------------------------------------------------------------

  /** The hits of the tools, concatenated in call order: the evidence the
      prompt should receive, defined independently of the rendering loop. */
  function ToolHits(tools: seq<string>, answer: string -> Mapping): seq<Value>
    decreases |tools|
  {
    if tools == [] then []
    else HitsOf(answer(tools[0])) + ToolHits(tools[1..], answer)
  }

  /** The loop's combined hits are the tools' hits in call order, with no
      deduplication or reordering. */
  lemma {:induction false} GatherEvidence(q: string, tools: seq<string>, answer: string -> Mapping)
    requires Gather(q, tools, answer).failure.None?
    ensures Gather(q, tools, answer).evidence == ToolHits(tools, answer)
    decreases |tools|
  {
    if tools != [] {
      GatherEvidence(q, tools[1..], answer);
    }
  }

  /** The fragments a tool's turn of the loop renders, or none when its
      results cannot be rendered. */
  function SectionOf(tool: string, data: Mapping): seq<Fragment> {
    match ToolSection(tool, data)
    case Returned(section) => section.fragments
    case Raised(_) => []
  }

  /** The tools' sections, concatenated in call order: the fragments the loop
      should render, defined independently of it. */
  function ToolFragments(tools: seq<string>, answer: string -> Mapping): seq<Fragment>
    decreases |tools|
  {
    if tools == [] then []
    else SectionOf(tools[0], answer(tools[0])) + ToolFragments(tools[1..], answer)
  }

  /** The loop's fragments are the tools' sections in call order. */
  lemma {:induction false} GatherFragments(q: string, tools: seq<string>, answer: string -> Mapping)
    requires Gather(q, tools, answer).failure.None?
    ensures Gather(q, tools, answer).fragments == ToolFragments(tools, answer)
    decreases |tools|
  {
    if tools != [] {
      GatherFragments(q, tools[1..], answer);
    }
  }

  /** The reference hits over three tools. */
  lemma {:induction false} ThreeHits(tools: seq<string>, answer: string -> Mapping)
    requires |tools| == 3
    ensures ToolHits(tools, answer) == HitsOf(answer(tools[0])) + HitsOf(answer(tools[1])) + HitsOf(answer(tools[2]))
  {
    var t1 := tools[1..];
    var t2 := t1[1..];
    assert t2[1..] == [];
    assert ToolHits(t2, answer) == HitsOf(answer(t2[0])) + [];
    assert ToolHits(t1, answer) == HitsOf(answer(t1[0])) + HitsOf(answer(t2[0]));
  }

  /** The loop's reference fragments over three tools. */
  lemma {:induction false} ThreeFragments(tools: seq<string>, answer: string -> Mapping)
    requires |tools| == 3
    ensures ToolFragments(tools, answer)
         == SectionOf(tools[0], answer(tools[0])) + SectionOf(tools[1], answer(tools[1])) + SectionOf(tools[2], answer(tools[2]))
  {
    var t1 := tools[1..];
    var t2 := t1[1..];
    assert t2[1..] == [];
    var f2 := SectionOf(t2[0], answer(t2[0]));
    var f1 := SectionOf(t1[0], answer(t1[0]));
    assert ToolFragments(t2, answer) == f2 + [];
    assert ToolFragments(t1, answer) == f1 + f2;
  }

  /** Pairs laid end to end. */
  lemma PairAt(all: seq<Fragment>, s0: seq<Fragment>, s1: seq<Fragment>, s2: seq<Fragment>, i: nat)
    requires all == s0 + s1 + s2 && |s0| == |s1| == |s2| == 2
    requires i < 3
    ensures all[2 * i] == [s0, s1, s2][i][0] && all[2 * i + 1] == [s0, s1, s2][i][1]
  {
  }

  /** Deep mode calls the three search tools with the query, in the order
      resource_search, duckduckgo_search, web_search, whatever each returns,
      and the language model once after them; only results the client cannot
      iterate stop it, and then before the model is called. */
  lemma DeepModeCalls(q: string, server: Invocation -> Transport, llm: Prompt -> Outcome<string>)
    requires !IsTicketQuery(q)
    ensures var r := AgenticQuery(q, server, llm);
      && (r.Answered? ==>
            && r.calls[..3] == [ToolCall(SearchInvocation(ResourceSearchTool, q)),
                                ToolCall(SearchInvocation(DuckDuckGoSearchTool, q)),
                                ToolCall(SearchInvocation(WebSearchTool, q))]
            && LlmCallCount(r.calls) == 1)
      && (r.Aborted? ==> LlmCallCount(r.calls) == 0)
      && (r.Aborted? <==> exists i :: 0 <= i < 3 && !Renderable(SearchAnswer(server, SearchTools[i], q)))
  {
    var r := DeepMode(q, server, llm);
    assert AgenticQuery(q, server, llm) == r;
    if r.Answered? {
      var tools := SearchTools;
      assert r.calls[0] == ToolCall(SearchInvocation(tools[0], q));
      assert r.calls[1] == ToolCall(SearchInvocation(tools[1], q));
      assert r.calls[2] == ToolCall(SearchInvocation(tools[2], q));
      assert r.calls[..3] == [r.calls[0], r.calls[1], r.calls[2]];
    } else {
      assert forall i :: 0 <= i < |r.calls| ==> r.calls[i].ToolCall?;
    }
  }

  /** In an answered deep query, fragments 1 to 6 are the loop's. */
  lemma DeepModeSections(q: string, server: Invocation -> Transport, llm: Prompt -> Outcome<string>)
    requires DeepMode(q, server, llm).Answered?
    ensures DeepMode(q, server, llm).document[1..7] == ToolFragments(SearchTools, Answers(server, q))
  {
    var g := Gather(q, SearchTools, Answers(server, q));
    GatherFragments(q, SearchTools, Answers(server, q));
    assert DeepMode(q, server, llm).document[1..7] == g.fragments;
  }

  /** In an answered deep query, fragments 1 + 2i and 2 + 2i are the
      section of the i-th search tool. */
  lemma DeepModeSection(q: string, server: Invocation -> Transport, llm: Prompt -> Outcome<string>, i: nat)
    requires DeepMode(q, server, llm).Answered?
    requires i < 3
    ensures ToolSection(SearchTools[i], SearchAnswer(server, SearchTools[i], q)).Returned?
    ensures DeepMode(q, server, llm).document[1 + 2 * i]
         == ToolSection(SearchTools[i], SearchAnswer(server, SearchTools[i], q)).value.fragments[0]
    ensures DeepMode(q, server, llm).document[2 + 2 * i]
         == ToolSection(SearchTools[i], SearchAnswer(server, SearchTools[i], q)).value.fragments[1]
  {
    DeepModeSections(q, server, llm);
    SectionAt(DeepMode(q, server, llm).document, SearchTools, Answers(server, q), i);
  }

  /** A document whose fragments 1 to 6 are the sections of three renderable
      tools holds the i-th tool's section at 1 + 2i and 2 + 2i. */
  lemma SectionAt(document: seq<Fragment>, tools: seq<string>, answer: string -> Mapping, i: nat)
    requires |document| >= 7 && |tools| == 3 && i < 3
    requires forall k :: 0 <= k < 3 ==> Renderable(answer(tools[k]))
    requires document[1..7] == ToolFragments(tools, answer)
    ensures ToolSection(tools[i], answer(tools[i])).Returned?
    ensures document[1 + 2 * i] == ToolSection(tools[i], answer(tools[i])).value.fragments[0]
    ensures document[2 + 2 * i] == ToolSection(tools[i], answer(tools[i])).value.fragments[1]
  {
    var s0, s1, s2 := SectionOf(tools[0], answer(tools[0])), SectionOf(tools[1], answer(tools[1])), SectionOf(tools[2], answer(tools[2]));
    ThreeFragments(tools, answer);
    PairAt(document[1..7], s0, s1, s2, i);
    assert SectionOf(tools[i], answer(tools[i])) == [s0, s1, s2][i];
  }

  /** In an answered deep query, the prompt's evidence is the three tools'
      hits concatenated in call order. */
  lemma DeepModeEvidence(q: string, server: Invocation -> Transport, llm: Prompt -> Outcome<string>)
    requires DeepMode(q, server, llm).Answered?
    ensures DeepMode(q, server, llm).calls[3].prompt.evidence
         == HitsOf(SearchAnswer(server, ResourceSearchTool, q))
            + HitsOf(SearchAnswer(server, DuckDuckGoSearchTool, q))
            + HitsOf(SearchAnswer(server, WebSearchTool, q))
  {
    GatherEvidence(q, SearchTools, Answers(server, q));
    ThreeHits(SearchTools, Answers(server, q));
  }

  /** Deep mode's answer: the mode heading, two fragments per tool in call
      order (the tool's heading, then a table with one row per hit or "No
      results."), the analysis heading and the completion verbatim; the prompt
      carries the query, the three tool names and the tools' hits
      concatenated in call order. */
  lemma DeepModeAnswer(q: string, server: Invocation -> Transport, llm: Prompt -> Outcome<string>)
    requires !IsTicketQuery(q)
    requires forall i :: 0 <= i < 3 ==> Renderable(SearchAnswer(server, SearchTools[i], q))
    ensures var r := AgenticQuery(q, server, llm);
      var prompt := DeepPrompt(q, SearchTools,
        HitsOf(SearchAnswer(server, ResourceSearchTool, q))
        + HitsOf(SearchAnswer(server, DuckDuckGoSearchTool, q))
        + HitsOf(SearchAnswer(server, WebSearchTool, q)));
      && r.Answered?
      && |r.document| == 9
      && r.calls[3] == LlmCall(prompt)
      && r.document[8] == Completion(CallLlm(llm(prompt)))
      && forall i :: 0 <= i < 3 ==>
           && r.document[1 + 2 * i] == Title(ResultsFrom(SearchTools[i]))
           && (HitsOf(SearchAnswer(server, SearchTools[i], q)) == [] ==> r.document[2 + 2 * i] == NoResults)
           && (HitsOf(SearchAnswer(server, SearchTools[i], q)) != [] ==>
                 && r.document[2 + 2 * i].Table?
                 && |r.document[2 + 2 * i].rows| == |HitsOf(SearchAnswer(server, SearchTools[i], q))|)
  {
    var r := DeepMode(q, server, llm);
    DeepModeEvidence(q, server, llm);
    forall i | 0 <= i < 3
      ensures r.document[1 + 2 * i] == Title(ResultsFrom(SearchTools[i]))
      ensures HitsOf(SearchAnswer(server, SearchTools[i], q)) == [] ==> r.document[2 + 2 * i] == NoResults
      ensures HitsOf(SearchAnswer(server, SearchTools[i], q)) != [] ==>
                 && r.document[2 + 2 * i].Table?
                 && |r.document[2 + 2 * i].rows| == |HitsOf(SearchAnswer(server, SearchTools[i], q))|
    {
      DeepModeSection(q, server, llm, i);
    }
  }

  /** The rendered half of the empty-search answer below. */
  lemma NothingFoundDocument(q: string, server: Invocation -> Transport, llm: Prompt -> Outcome<string>)
    requires !IsTicketQuery(q)
    requires forall i :: 0 <= i < 3 ==>
      Renderable(SearchAnswer(server, SearchTools[i], q)) && HitsOf(SearchAnswer(server, SearchTools[i], q)) == []
    ensures var r := DeepMode(q, server, llm);
      && r.Answered?
      && r.calls[3] == LlmCall(DeepPrompt(q, SearchTools, []))
      && r.document ==
      [Title(DeepTechnicalAnswer),
       Title(ResultsFrom(ResourceSearchTool)), NoResults,
       Title(ResultsFrom(DuckDuckGoSearchTool)), NoResults,
       Title(ResultsFrom(WebSearchTool)), NoResults,
       Title(TechnicalAnalysis), Completion(CallLlm(llm(DeepPrompt(q, SearchTools, []))))]
  {
    var tools := SearchTools;
    var r := DeepMode(q, server, llm);
    assert HitsOf(SearchAnswer(server, tools[0], q)) == [];
    assert HitsOf(SearchAnswer(server, tools[1], q)) == [];
    assert HitsOf(SearchAnswer(server, tools[2], q)) == [];
    DeepModeAnswer(q, server, llm);
    assert r.document[1] == Title(ResultsFrom(tools[0])) && r.document[2] == NoResults;
    assert r.document[3] == Title(ResultsFrom(tools[1])) && r.document[4] == NoResults;
    assert r.document[5] == Title(ResultsFrom(tools[2])) && r.document[6] == NoResults;
    assert r.document == [r.document[0], r.document[1], r.document[2], r.document[3], r.document[4],
                          r.document[5], r.document[6], r.document[7], r.document[8]];
  }

  /** When all three tools find nothing, the answer is three "No results."
      sections and the completion, and the prompt's evidence is empty. */
  lemma DeepModeNothingFound(q: string, server: Invocation -> Transport, llm: Prompt -> Outcome<string>)
    requires !IsTicketQuery(q)
    requires forall i :: 0 <= i < 3 ==>
      Renderable(SearchAnswer(server, SearchTools[i], q)) && HitsOf(SearchAnswer(server, SearchTools[i], q)) == []
    ensures AgenticQuery(q, server, llm) == Answered(
      [Title(DeepTechnicalAnswer),
       Title(ResultsFrom(ResourceSearchTool)), NoResults,
       Title(ResultsFrom(DuckDuckGoSearchTool)), NoResults,
       Title(ResultsFrom(WebSearchTool)), NoResults,
       Title(TechnicalAnalysis), Completion(CallLlm(llm(DeepPrompt(q, SearchTools, []))))],
      [ToolCall(SearchInvocation(ResourceSearchTool, q)),
       ToolCall(SearchInvocation(DuckDuckGoSearchTool, q)),
       ToolCall(SearchInvocation(WebSearchTool, q)),
       LlmCall(DeepPrompt(q, SearchTools, []))])
  {
    var r := DeepMode(q, server, llm);
    assert AgenticQuery(q, server, llm) == r;
    NothingFoundDocument(q, server, llm);
    DeepModeCalls(q, server, llm);
    assert r.calls == r.calls[..3] + [r.calls[3]];
  }

}

/** What the client makes of the answers the tool server actually gives:
    the server-side formatting and normalisation seen through the client's
    rendering of tables, ticket blocks and errors. */
module EndToEnd {
  import opened Values
  import opened Server
  import opened Client
  import opened ClientProperties

  /** The hits of a formatted search, as the server sends them. */
  function Formatted(hits: seq<Value>): seq<Value>
    requires AllDicts(hits)
  {
    seq(|hits|, i requires 0 <= i < |hits| => Dict(FormatFields(hits[i].fields)))
  }

  /** The client can always render what `resource_search` and
      `duckduckgo_search` send: a malformed hit is turned into an "error" on
      the server side, and the hits the client receives are the formatted
      ones, one for one. */
  lemma FormattedSearchRenders(tool: string, search: Outcome<seq<Value>>)
    ensures Renderable(FormattedSearch(tool, search))
    ensures search.Returned? && AllDicts(search.value) ==>
      HitsOf(FormattedSearch(tool, search)) == Formatted(search.value)
    ensures !(search.Returned? && AllDicts(search.value)) ==> HitsOf(FormattedSearch(tool, search)) == []
  {
    var r := FormattedSearch(tool, search);
    if "results" in r {
      var items := r["results"].items;
      assert forall i :: 0 <= i < |items| ==> items[i].Dict?;
      if items == [] {
        assert Formatted(search.value) == [];
      } else {
        assert items == Formatted(search.value);
      }
    }
  }

  /** The client renders what `web_search` sends exactly when the search
      raised or its hits are dicts; the hits it receives are the raw ones. */
  lemma WebSearchRenders(search: Outcome<seq<Value>>)
    ensures Renderable(WebSearch(search)) <==> search.Raised? || AllDicts(search.value)
    ensures HitsOf(WebSearch(search)) == (if search.Returned? then search.value else [])
  {
  }

  /** A formatted hit always carries "title" and "url", so the client's
      table never falls back to its own "N/A" or "#": the row shows the
      server's title and its url as both link target and link text. */
  lemma FormattedRowUsesServerFields(raw: Mapping)
    ensures var hit := FormatFields(raw);
      HitRow(hit) == Row(hit["title"], hit["url"], hit["url"])
    ensures HitRow(FormatFields(raw)).title != Str("N/A") || ("title" in raw && raw["title"] == Str("N/A"))
  {
  }

  /** `web_search` passes DuckDuckGo's hits on unchanged, and those carry the
      link under "href", not "url": the client's row then links to "#" and
      shows "N/A" as the link text, whatever "href" holds. */
  lemma RawWebHitShowsNoLink(raw: Mapping)
    requires "url" !in raw
    ensures HitRow(raw).href == Str("#")
    ensures HitRow(raw).link == Str("N/A")
    ensures "title" in raw ==> HitRow(raw).title == raw["title"]
  {
  }

  /** With the three search tools answered by the server, deep mode always
      completes when web_search's hits are dicts (or its search raised); its
      evidence is the formatted hits of the first two tools followed by
      web_search's raw hits. */
  lemma ServerSearchesAnswer(
    q: string, server: Invocation -> Transport, llm: Prompt -> Outcome<string>,
    s1: Outcome<seq<Value>>, s2: Outcome<seq<Value>>, s3: Outcome<seq<Value>>)
    requires !IsTicketQuery(q)
    requires server(SearchInvocation(ResourceSearchTool, q)) == Returned(Returned(ResourceSearch(s1)))
    requires server(SearchInvocation(DuckDuckGoSearchTool, q)) == Returned(Returned(DuckDuckGoSearch(s2)))
    requires server(SearchInvocation(WebSearchTool, q)) == Returned(Returned(WebSearch(s3)))
    requires s3.Returned? ==> AllDicts(s3.value)
    ensures var r := AgenticQuery(q, server, llm);
      && r.Answered?
      && |r.document| == 9
      && r.calls[3].prompt.evidence
         == (if s1.Returned? && AllDicts(s1.value) then Formatted(s1.value) else [])
            + (if s2.Returned? && AllDicts(s2.value) then Formatted(s2.value) else [])
            + (if s3.Returned? then s3.value else [])
  {
    assert SearchAnswer(server, SearchTools[0], q) == ResourceSearch(s1);
    assert SearchAnswer(server, SearchTools[1], q) == DuckDuckGoSearch(s2);
    assert SearchAnswer(server, SearchTools[2], q) == WebSearch(s3);
    FormattedSearchRenders(ResourceSearchTool, s1);
    FormattedSearchRenders(DuckDuckGoSearchTool, s2);
    WebSearchRenders(s3);
    assert DeepMode(q, server, llm).Answered?;
    DeepModeEvidence(q, server, llm);
  }

  /** web_search does not check its hits, so a hit that is not a dict
      escapes as an exception out of the client's table building: deep mode
      aborts after the third tool call, before the language model. */
  lemma RawWebHitCanAbort(
    q: string, server: Invocation -> Transport, llm: Prompt -> Outcome<string>,
    s1: Outcome<seq<Value>>, s2: Outcome<seq<Value>>, hits: seq<Value>)
    requires !IsTicketQuery(q)
    requires server(SearchInvocation(ResourceSearchTool, q)) == Returned(Returned(ResourceSearch(s1)))
    requires server(SearchInvocation(DuckDuckGoSearchTool, q)) == Returned(Returned(DuckDuckGoSearch(s2)))
    requires server(SearchInvocation(WebSearchTool, q)) == Returned(Returned(WebSearch(Returned(hits))))
    requires !AllDicts(hits)
    ensures var r := AgenticQuery(q, server, llm);
      r.Aborted? && |r.calls| == 3 && LlmCallCount(r.calls) == 0
  {
    FormattedSearchRenders(ResourceSearchTool, s1);
    FormattedSearchRenders(DuckDuckGoSearchTool, s2);
    assert SearchTools[2] == WebSearchTool;
    assert !Renderable(SearchAnswer(server, SearchTools[2], q));
  }

  /** A ticket answered by the server: with a row, the ticket block shows
      exactly the row's three columns (None for a missing column, never the
      client's "N/A"); without a connection or a row, the answer is the
      server's error message alone and the language model is not called. */
  lemma TicketFromDatabase(q: string, server: Invocation -> Transport, llm: Prompt -> Outcome<string>, db: Database)
    requires IsTicketQuery(q)
    requires server(TicketInvocation) == Returned(Returned(GetTicketInfo(db)))
    ensures var r := AgenticQuery(q, server, llm);
      && (HasRow(db) ==>
            && r.document[2].TicketText?
            && forall i :: 0 <= i < 3 ==> r.document[2].lines[i].value == Get(db.row.value, TicketColumns[i], Null))
      && (db.NoConnection? ==>
            r.document == [Title(TicketInformation), ErrorParagraph(Str("DB connection failed"))]
            && LlmCallCount(r.calls) == 0)
      && (db.Fetched? && !HasRow(db) ==>
            r.document == [Title(TicketInformation), ErrorParagraph(Str("No ticket found"))]
            && LlmCallCount(r.calls) == 0)
  {
    if HasRow(db) {
      var data := GetTicketInfo(db);
      assert forall i :: 0 <= i < 3 ==> TicketKeys[i] in data;
    }
  }
}

# TechnoBot orchestration core in Dafny

TechnoBot answers a free-text query in one of two modes. A query that names a
ticket is sent to the tool server's `get_ticket_info`. The answer shows the
ticket block and then a language-model summary of it. Every other query goes
to deep-answer mode. That mode calls the three search tools `resource_search`,
`duckduckgo_search` and `web_search` in that order and renders one section per
tool. It then asks the language model for an analysis of the combined hits.

The model covers four pieces:

- **`Values`**: the Python values that cross the tool boundary (None, bool,
  int, str, list, dict), with truthiness, `dict.get` and `or`. It also has the
  list comprehension that calls `.get` on each element and so raises on the
  first element that is not a dict.
- **`Text`**: `str.lower` restricted to ASCII, and substring containment.
- **`Server`**: the tool server's functions. Both DuckDuckGo searches reformat
  their hits, `web_search` passes them on raw, and `get_ticket_info` normalises
  one database row.
- **`Client`**: the error-as-value wrappers `call_tool_async`, `call_tool` and
  `call_llm`, the classifier `is_ticket_query`, and `agentic_query` in both
  modes.

External services are oracles passed in as arguments. The tool server is
`Invocation -> Outcome<Outcome<Mapping>>`: the outer outcome is `asyncio.run`
and the inner one is the MCP client session. The language model is
`Prompt -> Outcome<string>`. DuckDuckGo and the database are reduced to what
they deliver.

`agentic_query` returns HTML. The model returns the ordered list of fragments
the HTML is built from: headings, error paragraph, ticket block, table rows,
"No results." and completion text. Alongside it comes the trace of external
calls made. A prompt is modelled as the data it embeds: the query, the ticket
lines, the tool names and the combined hits.

Deep mode can also end with an exception. A tool's `"results"` value may be
truthy but not a list of dicts, because `web_search` passes DuckDuckGo's data
through unchecked. The client's table comprehension then raises and
`agentic_query` propagates the exception. The model returns `Aborted` in that
case, with the exception's message and the calls made so far.

Three behaviours of the code are easy to miss:

- `get_ticket_info` always sends all three ticket keys, with None for a
  missing column. The client shows that None, and substitutes "N/A" only for
  a key that is missing from the payload.
- A search failure reported as an `"error"` entry renders as "No results.",
  but results that cannot be iterated as dicts abort the request (see above).
- The hits `web_search` passes on carry DuckDuckGo's `href`, not `url`. The
  client's table therefore links them to `#` with the text "N/A".

## Model

| member | source | states |
|---|---|---|
| Values.MapDicts | client.py:151-157 | The comprehension succeeds exactly when every element is a dict. It then maps each element in order, one result per element. |
| Values.MapDictsFailsAtFirst | server.py:44-48 | A failed comprehension reports the AttributeError of the first element that is not a dict; every element before it is a dict. |
| Text.Lower | client.py:67 | Lower-casing keeps the length, lower-cases each character in place, and leaves no upper-case ASCII letter. |
| Text.LowerIdempotent | client.py:67 | Lower-casing an already lower-cased query changes nothing. |
| Text.LowerAppend | client.py:67 | Lower-casing distributes over concatenation. |
| Text.ContainsTransitive | client.py:68 | A string that contains a keyword also contains every substring of that keyword. |
| Client.IsTicketQuery | client.py:66-68 | A query is a ticket query if and only if its lower-cased text contains "ticket". The two longer keywords never change the outcome. |
| Client.KeywordsReduceToTicket | client.py:68 | Some keyword from the list occurs in a string exactly when "ticket" does, in both directions. |
| Client.KeywordsMentionTicket | client.py:68 | Each of the three keywords contains "ticket". |
| ClientProperties.ClassificationIgnoresCase | client.py:66-68 | Lower-casing the query before classifying it changes nothing. |
| ClientProperties.SameLowerSameMode | client.py:66-68 | Two queries that differ only in letter case go to the same mode. |
| ClientProperties.LowerCaseTicketAnywhere | client.py:66-68 | Any query with "ticket" in lower case anywhere in it is a ticket query. |
| ClientProperties.TicketStatusQueryIsTicket | client.py:66-68 | "what is my ticket status" is a ticket query. |
| Client.CallToolAsync | client.py:48-55 | Returns the session's data unchanged, or only an "error" of "Tool connection failed: " plus the message when the session raised. |
| Client.CallTool | client.py:57-61 | Never raises. A failure of `asyncio.run` becomes only an "error" of "Asyncio execution error: " plus the message, and a session failure keeps the connection error. A delivered response passes through unchanged. |
| ClientProperties.FailedCallHasNoResults | client.py:145-162 | A failed tool call carries an "error" and no usable results. Deep mode renders it as "No results." and takes no hits from it. |
| ClientProperties.FailureKindsIndistinguishable | client.py:48-61 | A session that raised with `e` and a tool that answered an "error" of "Tool connection failed: " plus `e` give the caller the same mapping. |
| Client.CallLlm | client.py:33-43 | Never raises. Returns the completion text, or "LLM Error: " followed by the failure's message. |
| Client.TicketLines | client.py:88-92 | Three lines labelled Ticket ID, Agent Name and Country, in that order. Each shows the payload's value when the key is present, even None. "N/A" is substituted only for a key missing from the payload. |
| Client.TicketMode | client.py:79-134 | One `get_ticket_info` call. An "error" in its answer gives the heading and that error alone, with no model call. Otherwise there are six fragments: heading, ticket block, summary heading and the completion verbatim. The one model call receives the query and the same lines the block shows. |
| ClientProperties.TicketErrorSkipsLlm | client.py:81-85 | A ticket answer with an "error" ends the request after one tool call and no model call. |
| ClientProperties.TicketTransportFaultIsOneError | client.py:57-85 | If the ticket call cannot be run at all, the answer is one error paragraph carrying the failure, with no model call. |
| ClientProperties.TicketSuccessShape | client.py:87-134 | A ticket answer without "error" has six fragments and two calls. The ticket block and the prompt hold the same three lines, and the completion closes the answer. |
| Client.HitRow | client.py:152-155 | A table row shows the hit's "title", or "N/A" when the key is missing. Its link target is the hit's "url", or "#" when missing, and its link text is the "url", or "N/A" when missing. A present value is shown as it is, even when falsy. |
| Client.ToolSection | client.py:144-162 | A tool's section is its heading plus either a table with one row per hit or "No results.". "No results." covers a missing, falsy or empty results value. The section fails exactly when the results are truthy but not a list of dicts. |
| Client.Gather | client.py:141-162 | When the loop completes, it has made one call and rendered two fragments per tool. When it stops early, it has still made at least one call. |
| Client.GatherCalls | client.py:144-145 | The loop calls the tools in list order, each with the query. |
| Client.GatherCompletes | client.py:144-162 | The loop runs to the end if and only if every tool's results can be rendered. |
| Client.GatherStops | client.py:150-157 | A loop that does not complete stops right after the first tool whose results cannot be rendered. |
| ClientProperties.GatherEvidence | client.py:142-160 | The combined hits are every tool's hits concatenated in call order, defined independently of the loop. |
| ClientProperties.GatherFragments | client.py:144-162 | The loop's fragments are the tools' sections concatenated in call order, defined independently of the loop. |
| Client.DeepMode | client.py:139-202 | Deep mode completes if and only if all three tools' results can be rendered. It then has nine fragments and four calls: the three tools in order and one model call on the query and the tool names. It aborts otherwise, after at most three calls and before any model call. |
| Client.Conclude | client.py:164-202 | After the loop, one model call follows the three tool calls. The document ends with the analysis heading and the completion verbatim. |
| ClientProperties.DeepModeCalls | client.py:141-197 | A completed answer calls resource_search, duckduckgo_search and web_search in order with the query, then the model once. An aborted one makes no model call. The request aborts if and only if some tool's results cannot be rendered. |
| ClientProperties.DeepModeSection | client.py:144-162 | Fragments 1 + 2i and 2 + 2i of a completed answer are the i-th tool's section. |
| ClientProperties.DeepModeEvidence | client.py:141-180 | The prompt's evidence is the three tools' hits concatenated in call order. |
| ClientProperties.DeepModeAnswer | client.py:139-202 | In a completed answer, each tool has its heading and then either "No results." or a table with one row per hit. The last fragment is the completion for the prompt with the query, the tools and the combined hits. |
| ClientProperties.DeepModeNothingFound | client.py:139-202 | If all three tools find nothing, the whole answer and the whole trace are determined: three "No results." sections, then one completion whose prompt has empty evidence. |
| Client.AgenticQuery | client.py:73-202 | Every request makes at least one call and at most one model call. A ticket query always completes and starts with `get_ticket_info`. Any other query starts with resource_search. |
| Server.FormatFields | server.py:44-48 | A formatted hit has exactly the keys title, snippet and url. The title is the hit's title if truthy, else "No Title". The snippet is the body and the url is the href, each "" when falsy or missing. |
| Server.FormattedSearch | server.py:40-53 | The answer has only "results" exactly when the search returned dicts, formatted one for one. Otherwise it has only an "error" that names the tool, with the exception's message when the search raised. |
| Server.ResourceSearch | server.py:37-53 | `resource_search` gives results or an error, never both. Its results are the formatted hits, one for one, and its error starts with "resource_search failed: ". For a failed search, the error is that prefix followed by the exception's message. |
| Server.DuckDuckGoSearch | server.py:65-81 | Whenever `resource_search` would give results, `duckduckgo_search` gives exactly the same answer. Otherwise it gives only an error starting with "duckduckgo_search failed: ". For a failed search, that error is the prefix followed by the exception's message. |
| Server.WebSearch | server.py:55-63 | `web_search` sends the search's hits as they are, or only an "error" of "web_search failed: " plus the message. |
| Server.GetTicketInfo | server.py:86-120 | "DB connection failed" without a connection and "No ticket found" without a row or for an empty row. Otherwise exactly the three normalised keys, each holding its column or None. |
| Server.TicketExposesOnlyThreeColumns | server.py:100-120 | Two rows that agree on the three selected columns give the same answer, so no other column reaches the caller. |
| EndToEnd.FormattedSearchRenders | server.py:44-50 | The client can always render what the two formatting searches send. The hits it receives are the formatted ones, or none. |
| EndToEnd.WebSearchRenders | server.py:55-63 | The client renders `web_search`'s answer if and only if the search raised or its hits are dicts. The hits it receives are the raw ones. |
| EndToEnd.FormattedRowUsesServerFields | client.py:151-156 | A formatted hit's row shows the server's title and url, never the client's fallbacks. |
| EndToEnd.RawWebHitShowsNoLink | client.py:151-156 | A raw DuckDuckGo hit, which has no "url", is linked to "#" with the text "N/A". |
| EndToEnd.ServerSearchesAnswer | client.py:141-180 | With the real tool functions behind the server, deep mode completes whenever web_search's hits are dicts. The evidence is then the two formatted hit lists followed by the raw web hits. |
| EndToEnd.RawWebHitCanAbort | server.py:58-61 | A web_search hit that is not a dict aborts deep mode after the three tool calls, before any model call. |
| EndToEnd.TicketFromDatabase | server.py:94-120 | A database row reaches the ticket block as exactly its three columns, with None and never "N/A" for a missing one. No connection or no row gives the server's error alone, with no model call. |

## Left out

- The Flask route `index` (client.py:207-223): form handling, `Markup` and the elapsed-time footer are web-framework I/O and a clock.
- The HTML markup and `tabulate`'s table layout. The answer is modelled as the ordered fragments the HTML is built from, and the final `"\n".join` is not modelled.
- The fixed instruction text of both prompts, and `call_llm`'s model name, temperature and token limit. A prompt is modelled as the data it embeds.
- Groq, the fastmcp client, `asyncio`, DuckDuckGo and MySQL are oracles. Their internals, timeouts and exception types are not modelled. Only a failure's message is kept.
- `call_tool_async`'s fallback to the raw response when it has no `.data`: the session outcome is modelled as the data mapping itself.
- `max_results=5` in the searches: the search outcome is an arbitrary list of values, so the model does not assume at most five hits.
- `ORDER BY RAND()`: which row the database returns is an input to `Server.GetTicketInfo`.
- Exceptions from `cursor.execute` or `fetchone` in `get_ticket_info` are not caught there. They are not modelled.
- The message `get_db` prints on a failed connection (output only).
- Environment and configuration loading at import time (client.py:1-28, server.py:1-32), including the startup error when GROQ_API_KEY is unset.
- Text.Lower: lower-cases ASCII letters only. Python's `str.lower` also lower-cases other Unicode letters, some of which become ASCII (the Kelvin sign becomes "k"), so a query spelling "ticket" that way is not modelled.
- Values.Value: floats, tuples and other Python types cannot appear in a tool's answer in this model.
- Client.CallLlm: a completion whose content is None is modelled as a string.
- Client.DeepMode: the exact message of an exception raised while iterating a results value follows CPython's wording, but the exception type is not kept.

/** The tool server: the three search tools and the ticket lookup. The
    DuckDuckGo search and the MySQL database are reduced to the outcomes they
    deliver, passed in as arguments. */
module Server {
  import opened Values

  /** One DuckDuckGo hit reshaped for the client: the title defaults to
      "No Title", the snippet is taken from "body" and the url from "href",
      both defaulting to the empty string; any falsy value counts as missing. */
  function FormatFields(raw: Mapping): (hit: Mapping)
    ensures hit.Keys == {"title", "snippet", "url"}
    ensures Truthy(hit["title"])
    ensures "title" in raw && Truthy(raw["title"]) ==> hit["title"] == raw["title"]
    ensures !("title" in raw && Truthy(raw["title"])) ==> hit["title"] == Str("No Title")
    ensures Truthy(hit["snippet"]) <==> "body" in raw && Truthy(raw["body"])
    ensures Truthy(hit["snippet"]) ==> hit["snippet"] == raw["body"]
    ensures !Truthy(hit["snippet"]) ==> hit["snippet"] == Str("")
    ensures Truthy(hit["url"]) <==> "href" in raw && Truthy(raw["href"])
    ensures Truthy(hit["url"]) ==> hit["url"] == raw["href"]
    ensures !Truthy(hit["url"]) ==> hit["url"] == Str("")
  {
    map[
      "title" := Or(Get(raw, "title", Null), Str("No Title")),
      "snippet" := Or(Get(raw, "body", Null), Str("")),
      "url" := Or(Get(raw, "href", Null), Str(""))
    ]
  }

  /** The shared body of `resource_search` and `duckduckgo_search`: the
      search's hits reformatted one for one under "results", or, when the
      search raises or a hit is not a dict, a single "error" entry naming the
      tool. */
  function FormattedSearch(tool: string, search: Outcome<seq<Value>>): (r: Mapping)
    ensures "results" in r <==> search.Returned? && AllDicts(search.value)
    ensures "results" in r ==>
      && r.Keys == {"results"}
      && r["results"].List?
      && |r["results"].items| == |search.value|
      && forall i :: 0 <= i < |search.value| ==>
           r["results"].items[i] == Dict(FormatFields(search.value[i].fields))
    ensures "results" !in r ==>
      && r.Keys == {"error"}
      && r["error"].Str?
      && tool + " failed: " <= r["error"].s
    ensures search.Raised? ==> r == map["error" := Str(tool + " failed: " + search.message)]
  {
    match search
    case Raised(m) => map["error" := Str(tool + " failed: " + m)]
    case Returned(hits) =>
      match MapDicts(hits, FormatFields)
      case Raised(m) => map["error" := Str(tool + " failed: " + m)]
      case Returned(formatted) =>
        map["results" := List(seq(|formatted|, i requires 0 <= i < |formatted| => Dict(formatted[i])))]
  }

  /** `resource_search(query)`, given what the DuckDuckGo text search did. */
  function ResourceSearch(search: Outcome<seq<Value>>): (r: Mapping)
    ensures r.Keys == {"results"} || r.Keys == {"error"}
    ensures "results" in r <==> search.Returned? && AllDicts(search.value)
    ensures "results" in r ==>
      && r["results"].List?
      && |r["results"].items| == |search.value|
      && forall i :: 0 <= i < |search.value| ==>
           r["results"].items[i] == Dict(FormatFields(search.value[i].fields))
    ensures "error" in r ==> r["error"].Str? && "resource_search failed: " <= r["error"].s
    ensures search.Raised? ==> r == map["error" := Str("resource_search failed: " + search.message)]
  {
    assert "resource_search" + " failed: " == "resource_search failed: ";
    FormattedSearch("resource_search", search)
  }

  /** `duckduckgo_search(query)`, given what the DuckDuckGo text search did:
      a second copy of `resource_search` that differs only in the tool name
      its errors carry. */
  function DuckDuckGoSearch(search: Outcome<seq<Value>>): (r: Mapping)
    ensures "results" in r <==> "results" in ResourceSearch(search)
    ensures "results" in r ==> r == ResourceSearch(search)
    ensures "results" !in r ==>
      && r.Keys == {"error"}
      && r["error"].Str?
      && "duckduckgo_search failed: " <= r["error"].s
    ensures search.Raised? ==> r == map["error" := Str("duckduckgo_search failed: " + search.message)]
  {
    assert ResourceSearch(search) == FormattedSearch("resource_search", search);
    assert "duckduckgo_search" + " failed: " == "duckduckgo_search failed: ";
    FormattedSearch("duckduckgo_search", search)
  }

  /** `web_search(query)`: the search's hits are passed on untouched, with no
      renaming of fields and no defaults. */
  function WebSearch(search: Outcome<seq<Value>>): (r: Mapping)
    ensures "results" in r <==> search.Returned?
    ensures search.Returned? ==> r.Keys == {"results"} && r["results"] == List(search.value)
    ensures search.Raised? ==> r == map["error" := Str("web_search failed: " + search.message)]
  {
    match search
    case Returned(hits) => map["results" := List(hits)]
    case Raised(m) => map["error" := Str("web_search failed: " + m)]
  }

  /** What the database side of `get_ticket_info` delivered: no connection
      (`get_db` returned None), or the row `fetchone` returned (None when the
      table is empty). Which row `ORDER BY RAND()` picks is not modelled: the
      row is an arbitrary input. */
  datatype Database = NoConnection | Fetched(row: Option<Mapping>)

  /** The columns `get_ticket_info` exposes, and the keys it exposes them under. */
  const TicketColumns: seq<string> := ["Ticket ID", "Agent Name", "Country"]
  const TicketKeys: seq<string> := ["ticket_id", "agent_name", "country"]

  predicate HasRow(db: Database) {
    db.Fetched? && db.row.Some? && db.row.value != map[]
  }

  /** `get_ticket_info()`: an error when there is no connection or no row,
      otherwise exactly the three normalised keys, each holding its column's
      value (None when the row lacks that column). */
  function GetTicketInfo(db: Database): (r: Mapping)
    ensures "error" in r <==> !HasRow(db)
    ensures db.NoConnection? ==> r == map["error" := Str("DB connection failed")]
    ensures db.Fetched? && !HasRow(db) ==> r == map["error" := Str("No ticket found")]
    ensures HasRow(db) ==>
      && r.Keys == {"ticket_id", "agent_name", "country"}
      && forall i :: 0 <= i < 3 ==> r[TicketKeys[i]] == Get(db.row.value, TicketColumns[i], Null)
  {
    match db
    case NoConnection => map["error" := Str("DB connection failed")]
    case Fetched(row) =>
      if row.None? || row.value == map[] then map["error" := Str("No ticket found")]
      else
        var fields := row.value;
        map[
          "ticket_id" := Get(fields, "Ticket ID", Null),
          "agent_name" := Get(fields, "Agent Name", Null),
          "country" := Get(fields, "Country", Null)
        ]
  }

  /** No column other than the three selected ones reaches the caller: two
      rows that agree on those columns give the same answer. */
  lemma TicketExposesOnlyThreeColumns(row1: Mapping, row2: Mapping)
    requires row1 != map[] && row2 != map[]
    requires forall i :: 0 <= i < 3 ==>
      Get(row1, TicketColumns[i], Null) == Get(row2, TicketColumns[i], Null)
    ensures GetTicketInfo(Fetched(Some(row1))) == GetTicketInfo(Fetched(Some(row2)))
  {
    assert Get(row1, "Ticket ID", Null) == Get(row2, "Ticket ID", Null) by {
      assert TicketColumns[0] == "Ticket ID";
    }
    assert Get(row1, "Agent Name", Null) == Get(row2, "Agent Name", Null) by {
      assert TicketColumns[1] == "Agent Name";
    }
    assert Get(row1, "Country", Null) == Get(row2, "Country", Null) by {
      assert TicketColumns[2] == "Country";
    }
  }
}

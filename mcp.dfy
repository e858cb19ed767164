/**
  The JSON-RPC side of the agent server: response construction, method
  dispatch, the query cache key and the agent-query cache, the reasoning
  text, `resources/list` pagination and the `resources/read` URI check.
  Agent lookup in the database and definition loading are outside the model:
  the agents are a parameter and a handler's outcome is given.
 */
module McpServer {
  import opened Common

  // ---------------------------------------------------------------------
  // Responses and dispatch
  // ---------------------------------------------------------------------

  datatype RpcError = RpcError(code: int, message: string, data: Option<Json>)

  datatype Request = Request(jsonrpc: string, methodName: string, params: Option<Json>, id: Json)

  datatype Response = Response(jsonrpc: string, result: Option<Json>, error: Option<RpcError>, id: Json)

  /** `JsonRpcResponse::success` */
  function Success(id: Json, result: Json): (r: Response)
    ensures r.jsonrpc == "2.0" && r.id == id
    ensures r.result == Some(result) && r.error.None?
  {
    Response("2.0", Some(result), None, id)
  }

  /** `JsonRpcResponse::error` */
  function Error(id: Json, code: int, message: string, data: Option<Json>): (r: Response)
    ensures r.jsonrpc == "2.0" && r.id == id
    ensures r.result.None? && r.error == Some(RpcError(code, message, data))
  {
    Response("2.0", None, Some(RpcError(code, message, data)), id)
  }

  /** Every response carries exactly one of a result and an error. */
  predicate WellShaped(r: Response)
  {
    r.jsonrpc == "2.0" && (r.result.Some? != r.error.Some?)
  }

  /** The methods `handle_request` dispatches to a handler. */
  const Methods: seq<string> := [
    "initialize", "agents/query", "agents/list", "agents/get", "agents/get_definition",
    "agents/discover_by_capability", "agents/discover_by_role", "agents/discover",
    "health", "cache/stats", "cache/clear", "prompts/list", "prompts/get",
    "resources/list", "resources/read"]

  const METHOD_NOT_FOUND: int := -32601
  const INTERNAL_ERROR: int := -32603

  /**
    `handle_request`: an unknown method is answered with "Method not found"
    and the method's name; a known one runs its handler, whose value becomes
    the result and whose error becomes "Internal error" with the error text.
    `run` gives each handler's outcome.
   */
  function HandleRequest(req: Request, run: (string, Option<Json>) -> Result<Json, string>): (r: Response)
    ensures WellShaped(r) && r.id == req.id
    ensures req.methodName !in Methods ==>
      r.error == Some(RpcError(METHOD_NOT_FOUND, "Method not found", Some(JObject([("method", JStr(req.methodName))]))))
    ensures req.methodName in Methods && run(req.methodName, req.params).Ok? ==>
      r.result == Some(run(req.methodName, req.params).value)
    ensures req.methodName in Methods && run(req.methodName, req.params).Err? ==>
      r.error == Some(RpcError(INTERNAL_ERROR, "Internal error", Some(JObject([("error", JStr(run(req.methodName, req.params).error))]))))
  {
    if req.methodName !in Methods then
      Error(req.id, METHOD_NOT_FOUND, "Method not found", Some(JObject([("method", JStr(req.methodName))])))
    else
      match run(req.methodName, req.params)
      case Ok(value) => Success(req.id, value)
      case Err(e) => Error(req.id, INTERNAL_ERROR, "Internal error", Some(JObject([("error", JStr(e))])))
  }

  /** For an unknown method the handlers play no part: any handlers give the same response. */
  lemma UnknownMethodRunsNoHandler(req: Request, run1: (string, Option<Json>) -> Result<Json, string>, run2: (string, Option<Json>) -> Result<Json, string>)
    requires req.methodName !in Methods
    ensures HandleRequest(req, run1) == HandleRequest(req, run2)
  {
  }

  // ---------------------------------------------------------------------
  // Agent queries: reasoning text and cache key
  // ---------------------------------------------------------------------

  /** `AgentQueryParams` */
  datatype QueryParams = QueryParams(context: Option<string>, role: Option<string>, capability: Option<string>, limit: Option<nat>)

  /** The parameters `agents/query` uses when none are sent. */
  const DefaultQuery := QueryParams(None, None, None, Some(10))

  function OrEmpty(o: Option<string>): string
  {
    if o.Some? then o.value else ""
  }

  /** The cache key of a query: its three criteria, an absent one written as empty. */
  function CacheKey(q: QueryParams): (key: string)
    ensures StartsWith(key, "query:")
  {
    "query:" + OrEmpty(q.context) + ":" + OrEmpty(q.role) + ":" + OrEmpty(q.capability)
  }

  /** The limit is not part of the key: queries that differ only in their limit share a cache entry. */
  lemma CacheKeyIgnoresLimit(q: QueryParams, limit: Option<nat>)
    ensures CacheKey(q.(limit := limit)) == CacheKey(q)
  {
  }

  /**
    Distinct criteria can share a key: an absent criterion and an empty one,
    and criteria whose text contains the ':' separator.
   */
  lemma CacheKeyCollides()
    ensures CacheKey(QueryParams(Some(""), None, None, None)) == CacheKey(QueryParams(None, None, None, None))
    ensures CacheKey(QueryParams(Some("a:"), None, None, None)) == CacheKey(QueryParams(Some("a"), Some(":"), None, None))
  {
    assert CacheKey(QueryParams(Some("a:"), None, None, None)) == "query:a:::";
    assert CacheKey(QueryParams(Some("a"), Some(":"), None, None)) == "query:a:::";
  }

  const LISTING_ALL := "Listing all available agents"
  const FOUND_FOR := "Found agents for: "

  /** The phrases for the criteria present, in context, role, capability order. */
  function CriteriaPhrases(q: QueryParams): (parts: seq<string>)
    ensures |parts| == 0 <==> q.context.None? && q.role.None? && q.capability.None?
  {
    (if q.context.Some? then ["context matching '" + q.context.value + "'"] else [])
    + (if q.role.Some? then ["role '" + q.role.value + "'"] else [])
    + (if q.capability.Some? then ["capability '" + q.capability.value + "'"] else [])
  }

  /**
    `generate_reasoning`: "Listing all available agents" exactly when no
    criterion is given; otherwise "Found agents for: " and the first criterion
    present, then the others joined with ", ".
   */
  function GenerateReasoning(q: QueryParams): (s: string)
    ensures s == LISTING_ALL <==> q.context.None? && q.role.None? && q.capability.None?
  {
    var parts := CriteriaPhrases(q);
    if |parts| == 0 then LISTING_ALL
    else
      assert (FOUND_FOR + Join(parts, ", "))[0] != LISTING_ALL[0];
      FOUND_FOR + Join(parts, ", ")
  }

  /** When criteria are given, the reasoning names the first of them right after "Found agents for: ". */
  lemma ReasoningNamesFirstCriterion(q: QueryParams)
    ensures q.context.Some? ==> StartsWith(GenerateReasoning(q), FOUND_FOR + "context matching '" + q.context.value + "'")
    ensures q.context.None? && q.role.Some? ==> StartsWith(GenerateReasoning(q), FOUND_FOR + "role '" + q.role.value + "'")
    ensures q.context.None? && q.role.None? && q.capability.Some? ==>
      StartsWith(GenerateReasoning(q), FOUND_FOR + "capability '" + q.capability.value + "'")
  {
    if q.context.Some? || q.role.Some? || q.capability.Some? {
      ReasoningStartsWithFirstPhrase(q);
    }
  }

  /** With one criterion, the reasoning is "Found agents for: " and that criterion's phrase. */
  lemma ReasoningTextOne(c: string, r: string, k: string, limit: Option<nat>)
    ensures GenerateReasoning(QueryParams(Some(c), None, None, limit)) == FOUND_FOR + "context matching '" + c + "'"
    ensures GenerateReasoning(QueryParams(None, Some(r), None, limit)) == FOUND_FOR + "role '" + r + "'"
    ensures GenerateReasoning(QueryParams(None, None, Some(k), limit)) == FOUND_FOR + "capability '" + k + "'"
  {
    var pc, pr, pk := "context matching '" + c + "'", "role '" + r + "'", "capability '" + k + "'";
    ReasoningOfPhrases(QueryParams(Some(c), None, None, limit), [pc]);
    ReasoningOfPhrases(QueryParams(None, Some(r), None, limit), [pr]);
    ReasoningOfPhrases(QueryParams(None, None, Some(k), limit), [pk]);
  }

  /** With a context and a role, both phrases appear, context first, separated by ", ". */
  lemma ReasoningTextContextRole(c: string, r: string, limit: Option<nat>)
    ensures GenerateReasoning(QueryParams(Some(c), Some(r), None, limit))
            == FOUND_FOR + "context matching '" + c + "', role '" + r + "'"
  {
    var pc, pr := "context matching '" + c + "'", "role '" + r + "'";
    ReasoningOfPhrases(QueryParams(Some(c), Some(r), None, limit), [pc, pr]);
    JoinTwo(pc, pr, ", ");
  }

  /** With a context and a capability, both phrases appear, context first, separated by ", ". */
  lemma ReasoningTextContextCapability(c: string, k: string, limit: Option<nat>)
    ensures GenerateReasoning(QueryParams(Some(c), None, Some(k), limit))
            == FOUND_FOR + "context matching '" + c + "', capability '" + k + "'"
  {
    var pc, pk := "context matching '" + c + "'", "capability '" + k + "'";
    ReasoningOfPhrases(QueryParams(Some(c), None, Some(k), limit), [pc, pk]);
    JoinTwo(pc, pk, ", ");
  }

  /** With a role and a capability, both phrases appear, role first, separated by ", ". */
  lemma ReasoningTextRoleCapability(r: string, k: string, limit: Option<nat>)
    ensures GenerateReasoning(QueryParams(None, Some(r), Some(k), limit))
            == FOUND_FOR + "role '" + r + "', capability '" + k + "'"
  {
    var pr, pk := "role '" + r + "'", "capability '" + k + "'";
    ReasoningOfPhrases(QueryParams(None, Some(r), Some(k), limit), [pr, pk]);
    JoinTwo(pr, pk, ", ");
  }

  /** With all three criteria, the three phrases appear in order, separated by ", ". */
  lemma ReasoningTextThree(c: string, r: string, k: string, limit: Option<nat>)
    ensures GenerateReasoning(QueryParams(Some(c), Some(r), Some(k), limit))
            == FOUND_FOR + "context matching '" + c + "', role '" + r + "', capability '" + k + "'"
  {
    var pc, pr, pk := "context matching '" + c + "'", "role '" + r + "'", "capability '" + k + "'";
    ReasoningOfPhrases(QueryParams(Some(c), Some(r), Some(k), limit), [pc, pr, pk]);
    JoinThree(pc, pr, pk, ", ");
    Regroup(FOUND_FOR, "context matching '", c, "role '", r, "capability '", k, "'", ", ");
    assert "'" + ", " + "role '" == "', role '";
    assert "'" + ", " + "capability '" == "', capability '";
  }

  /** Moving the separators of three quoted phrases into the quoted text between them. */
  lemma Regroup(f: string, a: string, x: string, b: string, y: string, d: string, z: string, q: string, sep: string)
    ensures f + ((a + x + q) + sep + (b + y + q) + sep + (d + z + q))
            == f + a + x + (q + sep + b) + y + (q + sep + d) + z + q
  {
  }

  /** The reasoning for criteria whose phrases are `parts`. */
  lemma ReasoningOfPhrases(q: QueryParams, parts: seq<string>)
    requires |parts| > 0 && CriteriaPhrases(q) == parts
    ensures GenerateReasoning(q) == FOUND_FOR + Join(parts, ", ")
  {
  }

  lemma ReasoningStartsWithFirstPhrase(q: QueryParams)
    requires q.context.Some? || q.role.Some? || q.capability.Some?
    ensures StartsWith(GenerateReasoning(q), FOUND_FOR + CriteriaPhrases(q)[0])
  {
    var parts := CriteriaPhrases(q);
    var first := parts[0];
    var joined := Join(parts, ", ");
    JoinStartsWithFirst(parts, ", ");
    assert joined == first + joined[|first|..];
    assert GenerateReasoning(q) == (FOUND_FOR + first) + joined[|first|..];
  }

  /** An agent's metadata, as far as listing and reading use it. */
  datatype AgentMeta = AgentMeta(name: string, description: string)

  /** What `agents/query` answers: the agents, the reasoning, and the `cache_hit` flag. */
  datatype QueryAnswer = QueryAnswer(agents: seq<AgentMeta>, reasoning: string, cacheHit: bool)

  /** The agent server's mutable state: the query cache. */
  class McpHandler {
    var cache: map<string, QueryAnswer>

    /** Every answer in the cache was stored with `cache_hit` false. */
    ghost predicate Valid()
      reads this
    {
      forall key :: key in cache ==> !cache[key].cacheHit
    }

    /**
      `McpHandler::new` keeps the query cache its caller passes in. That cache
      must hold only answers stored by `handle_agent_query`, which say
      `cache_hit` false.
     */
    constructor (initial: map<string, QueryAnswer>)
      requires forall key :: key in initial ==> !initial[key].cacheHit
      ensures Valid() && cache == initial
    {
      cache := initial;
    }

    /**
      `handle_agent_query`: the parameters (or the defaults), then the cached
      answer for their key if there is one, and otherwise a fresh answer from
      `queryAgents`, which is stored under the key. The answer is stored and
      returned with `cache_hit` false, so a cached answer also says false.
     */
    method HandleAgentQuery(params: Option<QueryParams>, queryAgents: QueryParams -> seq<AgentMeta>) returns (r: QueryAnswer)
      requires Valid()
      modifies this
      ensures Valid()
      ensures var q := if params.Some? then params.value else DefaultQuery;
              var key := CacheKey(q);
              && (key in old(cache) ==> r == old(cache)[key] && cache == old(cache))
              && (key !in old(cache) ==> r == QueryAnswer(queryAgents(q), GenerateReasoning(q), false) && cache == old(cache)[key := r])
      ensures !r.cacheHit
    {
      var q := if params.Some? then params.value else DefaultQuery;
      var key := CacheKey(q);
      if key in cache {
        return cache[key];
      }
      r := QueryAnswer(queryAgents(q), GenerateReasoning(q), false);
      cache := cache[key := r];
    }

    /** `handle_cache_clear` */
    method HandleCacheClear() returns (r: Json)
      modifies this
      ensures Valid() && cache == map[]
      ensures r == JObject([("cleared", JBool(true))])
    {
      cache := map[];
      r := JObject([("cleared", JBool(true))]);
    }
  }

  // ---------------------------------------------------------------------
  // resources/list
  // ---------------------------------------------------------------------

  datatype Resource = Resource(uri: string, name: string, description: Option<string>, mimeType: Option<string>)

  datatype ResourcePage = ResourcePage(resources: seq<Resource>, total: nat, count: nat, cursor: Option<string>)

  /** What a handler does: return a value, or panic. */
  datatype Outcome<T> = Returned(value: T) | Panicked

  const AGENT_MIME := "application/vnd.orchestr8.agent"

  function Min(a: nat, b: nat): nat
  {
    if a <= b then a else b
  }

  /** The page size: the requested limit, 20 when none is given, never more than 100. */
  function PageLimit(limit: Option<nat>): (page: nat)
    ensures page <= 100
    ensures limit.None? ==> page == 20
    ensures limit.Some? ==> page == Min(limit.value, 100)
  {
    Min(if limit.Some? then limit.value else 20, 100)
  }

  /** The offset a cursor names: its decimal value, or 0 when it is absent or not a `usize`. */
  function CursorOffset(cursor: Option<string>): (offset: nat)
    ensures offset <= USIZE_MAX
    ensures cursor.None? ==> offset == 0
  {
    if cursor.None? then 0
    else match ParseUsize(cursor.value)
      case Some(n) => n
      case None => 0
  }

  /** A cursor the server hands out names the offset it was made from. */
  lemma CursorRoundTrip(n: nat)
    requires n <= USIZE_MAX
    ensures CursorOffset(Some(NatToString(n))) == n
  {
    ParseUsizeOfNatToString(n);
  }

  function AgentName(a: AgentMeta): string
  {
    a.name
  }

  /** The agents in name order, as `sort_by(|a, b| a.name.cmp(&b.name))` leaves them. */
  function ByName(agents: seq<AgentMeta>): (sorted: seq<AgentMeta>)
    ensures multiset(sorted) == multiset(agents) && |sorted| == |agents|
    ensures forall i, j :: 0 <= i < j < |sorted| ==> LexLe(sorted[i].name, sorted[j].name)
  {
    var r := SortBy(agents, AgentName);
    assert |r| == |agents| by { assert |multiset(r)| == |multiset(agents)|; }
    r
  }

  /** How a listed agent is shown: uri `agent://<name>`, its description and the agent mime type. */
  function AsResource(a: AgentMeta): (r: Resource)
    ensures r.uri == "agent://" + r.name && r.name == a.name
    ensures r.description == Some(a.description) && r.mimeType == Some(AGENT_MIME)
  {
    Resource("agent://" + a.name, a.name, Some(a.description), Some(AGENT_MIME))
  }

  /** The page of the sorted agents from `start` to `end`. */
  function PageOf(sorted: seq<AgentMeta>, start: nat, end: nat): (rs: seq<Resource>)
    requires start <= end <= |sorted|
    ensures |rs| == end - start
    ensures forall i :: 0 <= i < |rs| ==> rs[i] == AsResource(sorted[start + i])
  {
    seq(end - start, i requires 0 <= i < end - start => AsResource(sorted[start + i]))
  }

  /** The next cursor: the offset of the following page, while agents remain past this one. */
  function NextCursor(offset: nat, page: nat, total: nat): (c: Option<string>)
    ensures c.Some? <==> offset + page < total
  {
    if Min(offset + page, total) < total then Some(NatToString(offset + page)) else None
  }

  /**
    `handle_resources_list` as written, on the agents already sorted by
    name: the slice from the cursor's offset to `min(offset + page, total)`,
    and a next cursor while agents remain. The slice panics when the offset
    lies past the end.
   */
  function PaginateAsWritten(sorted: seq<AgentMeta>, limit: Option<nat>, cursor: Option<string>): (r: Outcome<ResourcePage>)
    ensures r.Panicked? <==> CursorOffset(cursor) > |sorted|
  {
    var page := PageLimit(limit);
    var offset := CursorOffset(cursor);
    var total := |sorted|;
    var end := Min(offset + page, total);
    if offset > end then Panicked
    else Returned(ResourcePage(PageOf(sorted, offset, end), total, end - offset, NextCursor(offset, page, total)))
  }

  /** `handle_resources_list` as written: the agents sorted by name, then paged. */
  function ResourcesListAsWritten(limit: Option<nat>, cursor: Option<string>, agents: seq<AgentMeta>): (r: Outcome<ResourcePage>)
    ensures r.Panicked? <==> CursorOffset(cursor) > |agents|
  {
    PaginateAsWritten(ByName(agents), limit, cursor)
  }

  /** A cursor past the last agent makes the handler panic, for instance "1" when there are no agents. */
  lemma CursorPastEndPanics()
    ensures ResourcesListAsWritten(None, Some("1"), []).Panicked?
  {
    assert ParseUsize("1") == Some(1) by {
      ParseUsizeOfNatToString(1);
      assert NatToString(1) == "1";
    }
  }

  /** Paging with the start of the slice clamped to the end, so that a cursor past the end gives an empty page. */
  function Paginate(sorted: seq<AgentMeta>, limit: Option<nat>, cursor: Option<string>): ResourcePage
  {
    var page := PageLimit(limit);
    var offset := CursorOffset(cursor);
    var total := |sorted|;
    var end := Min(offset + page, total);
    var start := Min(offset, end);
    ResourcePage(PageOf(sorted, start, end), total, end - start, NextCursor(offset, page, total))
  }

  /** `handle_resources_list` with the clamped slice. */
  function ResourcesList(limit: Option<nat>, cursor: Option<string>, agents: seq<AgentMeta>): (r: ResourcePage)
    ensures r.total == |agents| && r.count == |r.resources| <= PageLimit(limit)
    ensures CursorOffset(cursor) >= |agents| ==> r.resources == [] && r.cursor.None?
  {
    Paginate(ByName(agents), limit, cursor)
  }

  /** Wherever the code as written returns, the clamped version returns the same page. */
  lemma ClampedAgreesWhereNoPanic(limit: Option<nat>, cursor: Option<string>, agents: seq<AgentMeta>)
    ensures ResourcesListAsWritten(limit, cursor, agents).Returned? ==>
            ResourcesListAsWritten(limit, cursor, agents).value == ResourcesList(limit, cursor, agents)
  {
  }

  /**
    A page reports all agents as its total and holds `min(offset + page,
    total) - offset` of them (none once the offset is past the end), each the
    agent at that position, shown as `agent://<name>`.
   */
  lemma PaginateContents(sorted: seq<AgentMeta>, limit: Option<nat>, cursor: Option<string>)
    ensures var r := Paginate(sorted, limit, cursor);
            var offset := CursorOffset(cursor);
            && r.total == |sorted|
            && r.count == |r.resources| <= PageLimit(limit)
            && r.count == (if offset <= |sorted| then Min(offset + PageLimit(limit), |sorted|) - offset else 0)
            && forall i :: 0 <= i < r.count ==> r.resources[i] == AsResource(sorted[offset + i])
  {
  }

  /** A page of agents in name order lists their names in order. */
  lemma PaginateKeepsOrder(sorted: seq<AgentMeta>, limit: Option<nat>, cursor: Option<string>)
    requires forall i, j :: 0 <= i < j < |sorted| ==> LexLe(sorted[i].name, sorted[j].name)
    ensures var rs := Paginate(sorted, limit, cursor).resources;
            forall i, j :: 0 <= i < j < |rs| ==> LexLe(rs[i].name, rs[j].name)
  {
    var rs := Paginate(sorted, limit, cursor).resources;
    var end := Min(CursorOffset(cursor) + PageLimit(limit), |sorted|);
    var start := Min(CursorOffset(cursor), end);
    assert rs == PageOf(sorted, start, end);
    forall i, j | 0 <= i < j < |rs| ensures LexLe(rs[i].name, rs[j].name) {
      assert rs[i].name == sorted[start + i].name;
      assert rs[j].name == sorted[start + j].name;
    }
  }

  /** The names on a page of `resources/list` come in sorted order. */
  lemma ResourcesListSorted(limit: Option<nat>, cursor: Option<string>, agents: seq<AgentMeta>)
    ensures var rs := ResourcesList(limit, cursor, agents).resources;
            forall i, j :: 0 <= i < j < |rs| ==> LexLe(rs[i].name, rs[j].name)
  {
    PaginateKeepsOrder(ByName(agents), limit, cursor);
  }

  /**
    A next cursor is given exactly when agents remain after the page, and it
    names the offset where the next page starts.
   */
  lemma NextCursorContinues(sorted: seq<AgentMeta>, limit: Option<nat>, cursor: Option<string>)
    requires |sorted| <= USIZE_MAX
    ensures var r := Paginate(sorted, limit, cursor);
            var offset := CursorOffset(cursor);
            && (r.cursor.Some? <==> offset + PageLimit(limit) < |sorted|)
            && (r.cursor.Some? ==> CursorOffset(r.cursor) == offset + r.count)
  {
    var offset := CursorOffset(cursor);
    var page := PageLimit(limit);
    var r := Paginate(sorted, limit, cursor);
    assert r.cursor == NextCursor(offset, page, |sorted|);
    if offset + page < |sorted| {
      assert r.count == page;
      assert r.cursor == Some(NatToString(offset + page));
      CursorRoundTrip(offset + page);
    }
  }

  /** With a limit of 0 the next cursor repeats the current offset, so paging never advances. */
  lemma ZeroLimitStalls(sorted: seq<AgentMeta>, cursor: Option<string>)
    requires CursorOffset(cursor) < |sorted| <= USIZE_MAX
    ensures var r := Paginate(sorted, Some(0), cursor);
            r.count == 0 && r.cursor.Some? && CursorOffset(r.cursor) == CursorOffset(cursor)
  {
    var offset := CursorOffset(cursor);
    assert PageLimit(Some(0)) == 0;
    assert Paginate(sorted, Some(0), cursor).cursor == Some(NatToString(offset));
    CursorRoundTrip(offset);
  }

  // ---------------------------------------------------------------------
  // resources/read
  // ---------------------------------------------------------------------

  /** The first index at or after `from` where `sep` occurs in `s`. */
  function FindFrom(s: string, sep: string, from: nat): (r: Option<nat>)
    requires |sep| > 0
    ensures r.Some? ==> from <= r.value && OccursAt(s, sep, r.value)
    ensures r.Some? ==> forall j :: from <= j < r.value ==> !OccursAt(s, sep, j)
    ensures r.None? ==> forall j :: from <= j ==> !OccursAt(s, sep, j)
    decreases |s| - from
  {
    if from + |sep| > |s| then None
    else if OccursAt(s, sep, from) then Some(from)
    else FindFrom(s, sep, from + 1)
  }

  /** `str::split`: the pieces between the occurrences of `sep`, from left to right. */
  function Split(s: string, sep: string): (parts: seq<string>)
    requires |sep| > 0
    ensures |parts| >= 1
    ensures forall k, j :: 0 <= k < |parts| ==> !OccursAt(parts[k], sep, j)
    decreases |s|
  {
    match FindFrom(s, sep, 0)
    case None => [s]
    case Some(i) =>
      assert forall j: nat :: OccursAt(s[..i], sep, j) ==> j < i && OccursAt(s, sep, j) by {
        forall j: nat | OccursAt(s[..i], sep, j)
          ensures j < i && OccursAt(s, sep, j)
        {
          OccursInPrefix(s, sep, i, j);
        }
      }
      [s[..i]] + Split(s[i + |sep|..], sep)
  }

  /** An occurrence inside a prefix is an occurrence in the whole text, ending within the prefix. */
  lemma OccursInPrefix(s: string, pat: string, i: nat, j: nat)
    requires i <= |s| && OccursAt(s[..i], pat, j)
    ensures j + |pat| <= i && OccursAt(s, pat, j)
  {
    assert s[..i][j..j + |pat|] == s[j..j + |pat|];
  }

  /** Joining the pieces of a split with the separator gives back the original text. */
  lemma {:induction false} SplitJoinsBack(s: string, sep: string)
    requires |sep| > 0
    ensures Join(Split(s, sep), sep) == s
    decreases |s|
  {
    match FindFrom(s, sep, 0)
    case None =>
    case Some(i) =>
      var rest := s[i + |sep|..];
      assert Split(s, sep) == [s[..i]] + Split(rest, sep);
      SplitJoinsBack(rest, sep);
      JoinCons(s[..i], Split(rest, sep), sep);
      assert s[i..i + |sep|] == sep;
      assert s == s[..i] + s[i..i + |sep|] + rest;
  }

  /** The check `handle_resources_read` makes: two pieces around "://", the first "agent". */
  predicate IsAgentUri(uri: string)
  {
    var parts := Split(uri, "://");
    |parts| == 2 && parts[0] == "agent"
  }

  /** A URI passes the check exactly when it is "agent://" followed by text without "://". */
  lemma IsAgentUriIff(uri: string)
    ensures IsAgentUri(uri) <==> StartsWith(uri, "agent://") && forall j :: !OccursAt(uri[8..], "://", j)
  {
    if StartsWith(uri, "agent://") {
      assert OccursAt(uri, "://", 5);
      forall j | 0 <= j < 5 ensures !OccursAt(uri, "://", j) {
        assert uri[j..j + 3][0] == uri[j] == uri[..8][j] != ':';
      }
      assert FindFrom(uri, "://", 0) == Some(5);
      assert uri[..5] == "agent";
      var rest := uri[8..];
      if forall j :: !OccursAt(rest, "://", j) {
        assert FindFrom(rest, "://", 0).None?;
        assert Split(uri, "://") == ["agent", rest];
      } else {
        var j :| OccursAt(rest, "://", j);
        assert FindFrom(rest, "://", 0).Some?;
        assert |Split(rest, "://")| >= 2;
      }
    }
  }

  /** The first agent with the given name. */
  function FindAgent(agents: seq<AgentMeta>, name: string): (r: Option<AgentMeta>)
    ensures r.Some? ==> r.value in agents && r.value.name == name
    ensures r.None? ==> forall a :: a in agents ==> a.name != name
  {
    if |agents| == 0 then None
    else if agents[0].name == name then Some(agents[0])
    else FindAgent(agents[1..], name)
  }

  /**
    `handle_resources_read` up to loading the definition: a malformed URI and
    an unknown agent are errors naming the URI; otherwise the agent the URI
    names.
   */
  function ResourcesRead(uri: string, agents: seq<AgentMeta>): (r: Result<AgentMeta, string>)
    ensures r.Ok? ==> r.value in agents && uri == "agent://" + r.value.name
    ensures !IsAgentUri(uri) ==> r == Err("Invalid resource URI format. Expected 'agent://name', got '" + uri + "'")
    ensures IsAgentUri(uri) && r.Err? ==>
      r.error == "Resource not found: " + uri && forall a :: a in agents ==> uri != "agent://" + a.name
  {
    if !IsAgentUri(uri) then
      Err("Invalid resource URI format. Expected 'agent://name', got '" + uri + "'")
    else
      IsAgentUriIff(uri);
      var name := Split(uri, "://")[1];
      assert uri == "agent://" + name by {
        assert FindFrom(uri, "://", 0) == Some(5) by {
          forall j | 0 <= j < 5 ensures !OccursAt(uri, "://", j) {
            assert uri[j] != ':';
          }
        }
        assert Split(uri[8..], "://") == [uri[8..]];
      }
      assert forall a: AgentMeta :: uri == "agent://" + a.name ==> a.name == name by {
        forall a: AgentMeta | uri == "agent://" + a.name ensures a.name == name {
          assert ("agent://" + a.name)[8..] == a.name;
        }
      }
      match FindAgent(agents, name)
      case Some(a) => Ok(a)
      case None => Err("Resource not found: " + uri)
  }
}

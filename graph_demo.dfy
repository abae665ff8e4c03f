/**
 * The older retrieve-then-generate demo (graph_demo.py): HTTP tool discovery
 * over every configured server, the HTTP tool call, the two pipeline steps
 * writing into a shared state, the graph they are wired into, and one turn of
 * its question loop.
 *
 * HTTP requests are oracles: `get` answers a discovery URL, `post` a tool
 * call. The index and the chat model are the `Services` of the document
 * search.
 */
module GraphDemo {
  import opened Wrappers
  import opened Text
  import NasaSearch
  import McpClient
  import Cli

  // ---------------------------------------------------------------------------
  // HTTP discovery

  /** One element of the "tools" array: an object with a name (an empty or
      missing name is skipped), an object without one, or a value that is not
      an object (reading its name raises). */
  datatype Advert = Named(name: string) | Unnamed | Malformed

  /** A 200 reply's body: an object whose "tools" array is given (a missing
      array is the empty one), or a body that is not a JSON object (reading it
      raises). */
  datatype Body = ToolList(entries: seq<Advert>) | NotAnObject

  /** What `requests.get` gives: a status and a body, or an exception. */
  datatype Reply = Reply(status: int, body: Body) | ConnectionFailed(message: string)

  /** `MCPTool(name=..., callable=call_tool)`: the tool and the stripped server
      URL its callable posts to. */
  datatype HttpTool = HttpTool(name: string, url: string)

  /** The tools one server's array yields, and whether reading it raised. */
  datatype Scan = Scan(tools: seq<HttpTool>, raised: bool)

  /** The loop over the "tools" array, entry by entry: a named entry adds a
      tool, an unnamed one is skipped, and a malformed one raises, keeping what
      was already added. */
  function ScanAdverts(url: string, entries: seq<Advert>): (s: Scan)
    ensures |s.tools| <= |entries|
    ensures forall i :: 0 <= i < |s.tools| ==> s.tools[i].url == url && s.tools[i].name != ""
    ensures s.raised ==> Malformed in entries
  {
    if entries == [] then Scan([], false)
    else
      var s := ScanAdverts(url, entries[..|entries| - 1]);
      if s.raised then s
      else match entries[|entries| - 1]
        case Named(n) => if n != "" then Scan(s.tools + [HttpTool(n, url)], false) else s
        case Unnamed => s
        case Malformed => Scan(s.tools, true)
  }

  /** Reference definition: the tools of the named entries, in order. */
  function NamedTools(url: string, entries: seq<Advert>): seq<HttpTool> {
    if entries == [] then []
    else (if entries[0].Named? && entries[0].name != "" then [HttpTool(entries[0].name, url)] else [])
         + NamedTools(url, entries[1..])
  }

  lemma {:induction false} NamedToolsAppend(url: string, entries: seq<Advert>, a: Advert)
    ensures NamedTools(url, entries + [a]) == NamedTools(url, entries) + NamedTools(url, [a])
  {
    if entries != [] {
      assert (entries + [a])[1..] == entries[1..] + [a];
      NamedToolsAppend(url, entries[1..], a);
    }
  }

  /** Without malformed entries the loop yields exactly the named entries, in
      the order the server advertised them, and does not raise. */
  lemma {:induction false} ScanWellFormed(url: string, entries: seq<Advert>)
    requires Malformed !in entries
    ensures ScanAdverts(url, entries) == Scan(NamedTools(url, entries), false)
  {
    if entries != [] {
      var init := entries[..|entries| - 1];
      var last := entries[|entries| - 1];
      ScanWellFormed(url, init);
      assert init + [last] == entries;
      NamedToolsAppend(url, init, last);
    }
  }

  /** Once the loop has raised, later entries change nothing. */
  lemma {:induction false} ScanRaisedStays(url: string, entries: seq<Advert>, j: nat)
    requires j <= |entries| && ScanAdverts(url, entries[..j]).raised
    ensures ScanAdverts(url, entries) == ScanAdverts(url, entries[..j])
    decreases |entries| - j
  {
    if j < |entries| {
      assert entries[..j + 1][..j] == entries[..j];
      ScanRaisedStays(url, entries, j + 1);
    } else {
      assert entries[..j] == entries;
    }
  }

  /** A malformed entry ends the scan: the tools already added are kept and
      nothing after it is read. */
  lemma ScanStopsAtMalformed(url: string, entries: seq<Advert>, rest: seq<Advert>)
    requires !ScanAdverts(url, entries).raised
    ensures ScanAdverts(url, entries + [Malformed] + rest) == Scan(ScanAdverts(url, entries).tools, true)
  {
    var all := entries + [Malformed] + rest;
    assert all[..|entries| + 1][..|entries|] == entries;
    assert all[..|entries| + 1][|entries|] == Malformed;
    ScanRaisedStays(url, all, |entries| + 1);
  }

  /** The contribution of one server queried at `url + "/mcp"`: its named
      tools on a 200 reply, nothing on another status, and a report when the
      request or the reading of the body raises. */
  function ServerScan(url: string, reply: Reply): (s: Scan)
    ensures forall i :: 0 <= i < |s.tools| ==> s.tools[i].url == url && s.tools[i].name != ""
    ensures s.tools != [] ==> reply.Reply? && reply.status == 200
    ensures reply.Reply? && reply.status != 200 ==> s == Scan([], false)
    ensures reply.ConnectionFailed? ==> s == Scan([], true)
  {
    match reply
    case ConnectionFailed(_) => Scan([], true)
    case Reply(status, body) =>
      if status != 200 then Scan([], false)
      else match body
        case NotAnObject => Scan([], true)
        case ToolList(entries) => ScanAdverts(url, entries)
  }

  /** What discovery produced: the tools, the URLs requested in order, and the
      pieces reported as failing. */
  datatype Discovery = Discovery(tools: seq<HttpTool>, requested: seq<string>, failed: seq<string>)

  /** The loop over the comma-separated pieces, piece by piece. */
  function DiscoverPieces(pieces: seq<string>, get: string -> Reply): (d: Discovery)
    ensures |d.requested| <= |pieces| && |d.failed| <= |d.requested|
  {
    if pieces == [] then Discovery([], [], [])
    else
      var d := DiscoverPieces(pieces[..|pieces| - 1], get);
      var piece := pieces[|pieces| - 1];
      var url := Trim(piece);
      if url == [] then d
      else
        var s := ServerScan(url, get(url + "/mcp"));
        Discovery(d.tools + s.tools, d.requested + [url + "/mcp"],
                  if s.raised then d.failed + [piece] else d.failed)
  }

  /** `get_mcp_tools()` over the setting `MCP_SERVER_URLS`: the URLs it
      requests are exactly those the MCP client parses from the same setting,
      each with "/mcp", and at most one failure is reported per request. */
  function Discover(setting: string, get: string -> Reply): (d: Discovery)
    ensures d.requested == WithMcpSuffix(McpClient.GetServerUrls(setting))
    ensures |d.failed| <= |d.requested|
  {
    var s := Trim(setting);
    if s == [] then Discovery([], [], [])
    else
      RequestsFollowParsedUrls(Split(s, ','), get);
      DiscoverPieces(Split(s, ','), get)
  }

  /** The inner loop over one server's "tools" array. */
  method ReadAdverts(url: string, entries: seq<Advert>) returns (found: seq<HttpTool>, raised: bool)
    ensures Scan(found, raised) == ScanAdverts(url, entries)
  {
    found, raised := [], false;
    var j := 0;
    while j < |entries| && !raised
      invariant 0 <= j <= |entries|
      invariant ScanAdverts(url, entries[..j]) == Scan(found, raised)
    {
      assert entries[..j + 1][..j] == entries[..j];
      match entries[j] {
        case Named(n) =>
          if n != "" {
            found := found + [HttpTool(n, url)];
          }
        case Unnamed =>
        case Malformed =>
          raised := true;
      }
      j := j + 1;
    }
    if raised {
      ScanRaisedStays(url, entries, j);
    } else {
      assert entries[..j] == entries;
    }
  }

  /** The body of the `try` for one server queried at `url + "/mcp"`. */
  method QueryServer(url: string, get: string -> Reply) returns (found: seq<HttpTool>, raised: bool)
    ensures Scan(found, raised) == ServerScan(url, get(url + "/mcp"))
  {
    found, raised := [], false;
    var response := get(url + "/mcp");
    match response {
      case ConnectionFailed(_) =>
        raised := true;
      case Reply(status, body) =>
        if status == 200 {
          match body {
            case NotAnObject =>
              raised := true;
            case ToolList(entries) =>
              found, raised := ReadAdverts(url, entries);
          }
        }
    }
  }

  /** One more piece: a blank one changes nothing, another one adds its
      request, its tools and possibly its report. */
  lemma DiscoverAdvance(pieces: seq<string>, i: nat, get: string -> Reply)
    requires i < |pieces|
    ensures var d := DiscoverPieces(pieces[..i], get);
      var url := Trim(pieces[i]);
      var s := ServerScan(url, get(url + "/mcp"));
      DiscoverPieces(pieces[..i + 1], get)
      == if url == [] then d
         else Discovery(d.tools + s.tools, d.requested + [url + "/mcp"],
                        if s.raised then d.failed + [pieces[i]] else d.failed)
  {
    assert pieces[..i + 1][..i] == pieces[..i];
    assert pieces[..i + 1][i] == pieces[i];
  }

  /** `get_mcp_tools()`: every non-blank piece is requested at its stripped
      form + "/mcp"; each server answering 200 contributes its named tools; a
      server whose request or body raises is reported and the loop goes on. */
  method GetMcpTools(setting: string, get: string -> Reply)
    returns (tools: seq<HttpTool>, requested: seq<string>, failed: seq<string>)
    ensures Discovery(tools, requested, failed) == Discover(setting, get)
  {
    tools, requested, failed := [], [], [];
    var s := Trim(setting);
    if s == [] {
      return;
    }
    var pieces := Split(s, ',');
    var i := 0;
    while i < |pieces|
      invariant 0 <= i <= |pieces|
      invariant Discovery(tools, requested, failed) == DiscoverPieces(pieces[..i], get)
    {
      DiscoverAdvance(pieces, i, get);
      var url := Trim(pieces[i]);
      if url != [] {
        requested := requested + [url + "/mcp"];
        var found, raised := QueryServer(url, get);
        tools := tools + found;
        if raised {
          failed := failed + [pieces[i]];
        }
      }
      i := i + 1;
    }
    assert pieces[..i] == pieces;
  }

  /** A blank setting yields nothing and sends no request. */
  lemma BlankSettingSendsNothing(setting: string, get: string -> Reply)
    requires IsBlank(setting)
    ensures Discover(setting, get) == Discovery([], [], [])
  {
  }

  /** Reference definition: every server's contribution in server order. */
  function Contributions(pieces: seq<string>, get: string -> Reply): seq<HttpTool> {
    if pieces == [] then []
    else (if Trim(pieces[0]) == [] then [] else ServerScan(Trim(pieces[0]), get(Trim(pieces[0]) + "/mcp")).tools)
         + Contributions(pieces[1..], get)
  }

  lemma {:induction false} ContributionsAppend(pieces: seq<string>, p: string, get: string -> Reply)
    ensures Contributions(pieces + [p], get) == Contributions(pieces, get) + Contributions([p], get)
  {
    if pieces != [] {
      assert (pieces + [p])[1..] == pieces[1..] + [p];
      ContributionsAppend(pieces[1..], p, get);
    }
  }

  /** Unlike the bridge, discovery keeps going after a success: the tools are
      those of every server, in server order and then in advertised order. */
  lemma {:induction false} DiscoveryAggregatesAllServers(pieces: seq<string>, get: string -> Reply)
    ensures DiscoverPieces(pieces, get).tools == Contributions(pieces, get)
  {
    if pieces != [] {
      var init := pieces[..|pieces| - 1];
      DiscoveryAggregatesAllServers(init, get);
      assert init + [pieces[|pieces| - 1]] == pieces;
      ContributionsAppend(init, pieces[|pieces| - 1], get);
    }
  }

  /** `url + "/mcp"` for every URL, in order. */
  function WithMcpSuffix(urls: seq<string>): (r: seq<string>)
    ensures |r| == |urls| && forall i :: 0 <= i < |urls| ==> r[i] == urls[i] + "/mcp"
  {
    if urls == [] then [] else [urls[0] + "/mcp"] + WithMcpSuffix(urls[1..])
  }

  lemma {:induction false} StrippedNonBlankAppend(pieces: seq<string>, p: string)
    ensures McpClient.StrippedNonBlank(pieces + [p])
            == McpClient.StrippedNonBlank(pieces) + (if Trim(p) == [] then [] else [Trim(p)])
  {
    if pieces != [] {
      assert (pieces + [p])[1..] == pieces[1..] + [p];
      StrippedNonBlankAppend(pieces[1..], p);
    }
  }

  lemma WithMcpSuffixAppend(urls: seq<string>, u: string)
    ensures WithMcpSuffix(urls + [u]) == WithMcpSuffix(urls) + [u + "/mcp"]
  {
    var l := WithMcpSuffix(urls + [u]);
    var r := WithMcpSuffix(urls) + [u + "/mcp"];
    assert |l| == |r|;
    forall i | 0 <= i < |l| ensures l[i] == r[i] {
      if i < |urls| {
        assert (urls + [u])[i] == urls[i];
      }
    }
  }

  /** Discovery requests exactly the servers the bridge parses from the same
      pieces, in the same order, each at its URL + "/mcp". */
  lemma {:induction false} RequestsFollowParsedUrls(pieces: seq<string>, get: string -> Reply)
    ensures DiscoverPieces(pieces, get).requested == WithMcpSuffix(McpClient.StrippedNonBlank(pieces))
  {
    if pieces != [] {
      var init := pieces[..|pieces| - 1];
      var p := pieces[|pieces| - 1];
      RequestsFollowParsedUrls(init, get);
      assert init + [p] == pieces;
      StrippedNonBlankAppend(init, p);
      var before := McpClient.StrippedNonBlank(init);
      var d := DiscoverPieces(init, get);
      if Trim(p) != [] {
        assert DiscoverPieces(pieces, get).requested == d.requested + [Trim(p) + "/mcp"];
        WithMcpSuffixAppend(before, Trim(p));
      } else {
        assert DiscoverPieces(pieces, get).requested == d.requested;
        assert before + [] == before;
      }
    }
  }

  // ---------------------------------------------------------------------------
  // The HTTP tool

  /** What `requests.post` gives: the status, the body parsed as JSON (None
      when the body is not JSON) and the raw text; or an exception. */
  datatype PostReply = Posted(status: int, json: Option<string>, text: string) | PostFailed(message: string)

  /** The exceptions a call raises: the tool's own, the request's, or the
      decoding error `response.json()` raises on a body that is not JSON. */
  datatype CallError = ToolException(message: string) | RequestError(message: string) | JsonDecodeError

  /** The endpoint a tool posts to. */
  function ToolEndpoint(tool: HttpTool): string {
    tool.url + "/mcp/" + tool.name
  }

  /** `MCPTool._run`, delegating to `call_tool(params)`: the JSON of a 200
      reply, or a decoding error when that body is not JSON; any other status
      raises `ToolException("Error calling <name>: <text>")` rather than
      returning an error string. */
  function RunTool<P>(tool: HttpTool, params: P, post: (string, P) -> PostReply): (r: Result<string, CallError>)
    ensures r.Ok? <==> post(ToolEndpoint(tool), params).Posted? && post(ToolEndpoint(tool), params).status == 200
                       && post(ToolEndpoint(tool), params).json.Some?
    ensures r.Ok? ==> Some(r.value) == post(ToolEndpoint(tool), params).json
    ensures (post(ToolEndpoint(tool), params).Posted? && post(ToolEndpoint(tool), params).status == 200
             && post(ToolEndpoint(tool), params).json.None?) ==> r == Err(JsonDecodeError)
    ensures post(ToolEndpoint(tool), params).Posted? && post(ToolEndpoint(tool), params).status != 200 ==>
              r == Err(ToolException("Error calling " + tool.name + ": " + post(ToolEndpoint(tool), params).text))
    ensures post(ToolEndpoint(tool), params).PostFailed? ==>
              r == Err(RequestError(post(ToolEndpoint(tool), params).message))
  {
    match post(ToolEndpoint(tool), params)
    case PostFailed(msg) => Err(RequestError(msg))
    case Posted(status, json, text) =>
      if status != 200 then Err(ToolException("Error calling " + tool.name + ": " + text))
      else if json.None? then Err(JsonDecodeError)
      else Ok(json.value)
  }

  // ---------------------------------------------------------------------------
  // The pipeline

  const DemoDbPath := "./chroma_db"
  const DemoModel := "gpt-4o-mini"
  const DemoK := 4

  /** The `State` dictionary: the question, and the keys the steps add. */
  class RagState {
    var question: string
    var context: Option<string>
    var answer: Option<string>

    /** `{"question": q}` */
    constructor (question: string)
      ensures this.question == question && context == None && answer == None
    {
      this.question := question;
      context := None;
      answer := None;
    }

    /** `retrieve`: the top four hits for the question, joined by blank lines,
        become the context; nothing else changes. */
    method Retrieve(services: NasaSearch.Services)
      modifies this
      ensures question == old(question) && answer == old(answer)
      ensures context == Some(NasaSearch.Context(services.similaritySearch(DemoDbPath, question, DemoK)))
    {
      var hits := services.similaritySearch(DemoDbPath, question, DemoK);
      context := Some(NasaSearch.Context(hits));
    }

    /** `generate`: the chat model's reply to the executive prompt becomes the
        answer; without a context the lookup raises and nothing changes. */
    method Generate(services: NasaSearch.Services) returns (ok: bool)
      modifies this
      ensures ok <==> old(context).Some?
      ensures question == old(question) && context == old(context)
      ensures ok ==> answer == Some(services.invoke(DemoModel, NasaSearch.ExecutivePrompt(context.value, question)))
      ensures !ok ==> answer == old(answer)
    {
      if context.None? {
        return false;
      }
      var prompt := NasaSearch.ExecutivePrompt(context.value, question);
      answer := Some(services.invoke(DemoModel, prompt));
      ok := true;
    }
  }

  /** `chain.invoke({"question": q})`: retrieve, then generate. The answer is
      the one the document search gives with its defaults and k = 4. */
  method RunChain(question: string, services: NasaSearch.Services) returns (answer: string)
    ensures answer == NasaSearch.SearchAnswer(services, NasaSearch.DefaultDbPath, NasaSearch.DefaultModel, question, NasaSearch.DefaultK)
  {
    var state := new RagState(question);
    state.Retrieve(services);
    var ok := state.Generate(services);
    answer := state.answer.value;
  }

  // ---------------------------------------------------------------------------
  // The graph

  /** A LangGraph `Graph` as it is built: its nodes, edges, entry and finish
      points. */
  class Graph {
    var nodes: seq<string>
    var edges: seq<(string, string)>
    var entry: Option<string>
    var finish: Option<string>

    constructor ()
      ensures nodes == [] && edges == [] && entry == None && finish == None
    {
      nodes, edges, entry, finish := [], [], None, None;
    }

    method AddNode(name: string)
      modifies this
      ensures nodes == old(nodes) + [name]
      ensures edges == old(edges) && entry == old(entry) && finish == old(finish)
    {
      nodes := nodes + [name];
    }

    method AddEdge(source: string, target: string)
      modifies this
      ensures edges == old(edges) + [(source, target)]
      ensures nodes == old(nodes) && entry == old(entry) && finish == old(finish)
    {
      edges := edges + [(source, target)];
    }

    method SetEntryPoint(name: string)
      modifies this
      ensures entry == Some(name)
      ensures nodes == old(nodes) && edges == old(edges) && finish == old(finish)
    {
      entry := Some(name);
    }

    method SetFinishPoint(name: string)
      modifies this
      ensures finish == Some(name)
      ensures nodes == old(nodes) && edges == old(edges) && entry == old(entry)
    {
      finish := Some(name);
    }
  }

  /** The wiring at import time: the two steps, one node per discovered tool,
      and the single edge from retrieve to generate. */
  method BuildGraph(tools: seq<HttpTool>) returns (g: Graph)
    ensures fresh(g)
    ensures |g.nodes| == 2 + |tools| && g.nodes[0] == "retrieve" && g.nodes[1] == "generate"
    ensures forall i :: 0 <= i < |tools| ==> g.nodes[i + 2] == tools[i].name
    ensures g.edges == [("retrieve", "generate")]
    ensures g.entry == Some("retrieve") && g.finish == Some("generate")
  {
    g := new Graph();
    g.AddNode("retrieve");
    g.AddNode("generate");
    var i := 0;
    while i < |tools|
      invariant 0 <= i <= |tools|
      invariant |g.nodes| == 2 + i && g.nodes[0] == "retrieve" && g.nodes[1] == "generate"
      invariant forall k :: 0 <= k < i ==> g.nodes[k + 2] == tools[k].name
      invariant g.edges == [] && g.entry == None && g.finish == None
    {
      g.AddNode(tools[i].name);
      i := i + 1;
    }
    g.SetEntryPoint("retrieve");
    g.AddEdge("retrieve", "generate");
    g.SetFinishPoint("generate");
  }

  /** The target of the first edge leaving `node`. */
  function Successor(edges: seq<(string, string)>, node: string): (r: Option<string>)
    ensures r.Some? ==> exists i :: 0 <= i < |edges| && edges[i] == (node, r.value)
    ensures r.None? ==> forall i :: 0 <= i < |edges| ==> edges[i].0 != node
  {
    if edges == [] then None
    else if edges[0].0 == node then Some(edges[0].1)
    else
      var r := Successor(edges[1..], node);
      assert r.Some? ==> exists i :: 0 <= i < |edges[1..]| && edges[1..][i] == (node, r.value);
      assert forall i :: 0 < i < |edges| ==> edges[i] == edges[1..][i - 1];
      r
  }

  /** The nodes a run visits from `node`, following edges until the finish
      point, at most `fuel` steps. */
  function RunPath(edges: seq<(string, string)>, node: string, finish: string, fuel: nat): seq<string>
    decreases fuel
  {
    if node == finish || fuel == 0 then [node]
    else match Successor(edges, node)
      case None => [node]
      case Some(next) => [node] + RunPath(edges, next, finish, fuel - 1)
  }

  /** Whatever tools were discovered, a run visits retrieve and then generate,
      and no tool node. */
  method BuiltGraphRun(tools: seq<HttpTool>) returns (path: seq<string>)
    ensures path == ["retrieve", "generate"]
  {
    var g := BuildGraph(tools);
    assert Successor(g.edges, "retrieve") == Some("generate");
    assert RunPath(g.edges, "generate", "generate", |g.nodes| - 1) == ["generate"];
    path := RunPath(g.edges, g.entry.value, g.finish.value, |g.nodes|);
  }

  // ---------------------------------------------------------------------------
  // One turn of the question loop

  datatype Turn = Goodbye | Shown(answer: string)

  /** A question is read: an exit word ends the loop; anything else runs the
      chain, whose output always holds an answer, which is shown. */
  method DemoTurn(question: string, services: NasaSearch.Services) returns (t: Turn)
    ensures Cli.IsExitCommand(question) ==> t == Goodbye
    ensures !Cli.IsExitCommand(question) ==>
              t == Shown(NasaSearch.SearchAnswer(services, NasaSearch.DefaultDbPath, NasaSearch.DefaultModel, question, NasaSearch.DefaultK))
  {
    if Cli.IsExitCommand(question) {
      return Goodbye;
    }
    var answer := RunChain(question, services);
    t := Shown(answer);
  }
}

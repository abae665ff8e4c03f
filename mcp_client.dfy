/**
 * The bridge between the agent and remote filesystem tool servers
 * (common/mcp_client.py): endpoint parsing and normalisation, first-success
 * connection, the four synchronous wrappers and the process-wide instance.
 *
 * A remote endpoint is an oracle: for a normalised URL it either lists its
 * tool names or fails, and invoking a tool either returns text or fails.
 * `asyncio.run` is plain sequential evaluation; the cases where it raises are
 * parameters.
 */
module McpClient {
  import opened Wrappers
  import opened Text

  // ---------------------------------------------------------------------------
  // Endpoint list

  /** `MCPClient._get_server_urls`: a blank setting gives no URL; otherwise the
      stripped setting is split on ",", every piece is stripped, blank pieces are
      dropped and the order is kept. */
  function GetServerUrls(setting: string): (urls: seq<string>)
    ensures IsBlank(setting) ==> urls == []
    ensures forall u :: u in urls ==> IsServerUrl(u)
  {
    var s := Trim(setting);
    if s == [] then []
    else
      var pieces := Split(s, ',');
      StrippedNonBlankHasNoComma(pieces);
      StrippedNonBlank(pieces)
  }

  /** Non-empty, with no white space at either end. */
  predicate IsStripped(u: string) {
    u != [] && !IsSpace(u[0]) && !IsSpace(u[|u| - 1])
  }

  /** What every parsed URL looks like: stripped and without a comma. */
  predicate IsServerUrl(u: string) {
    IsStripped(u) && ',' !in u
  }

  /** The comprehension `[p.strip() for p in pieces if p.strip()]`. */
  function StrippedNonBlank(pieces: seq<string>): (urls: seq<string>)
    ensures |urls| <= |pieces|
    ensures forall u :: u in urls ==> IsStripped(u)
  {
    if pieces == [] then []
    else
      var p := Trim(pieces[0]);
      var rest := StrippedNonBlank(pieces[1..]);
      if p == [] then rest else [p] + rest
  }

  /** Pieces without a comma give URLs without a comma. */
  lemma {:induction false} StrippedNonBlankHasNoComma(pieces: seq<string>)
    requires forall p :: p in pieces ==> ',' !in p
    ensures forall u :: u in StrippedNonBlank(pieces) ==> IsServerUrl(u)
  {
    if pieces != [] {
      StrippedNonBlankHasNoComma(pieces[1..]);
      TrimKeepsAbsent(pieces[0], ',');
    }
  }

  /** Stripping never introduces a character. */
  lemma TrimKeepsAbsent(s: string, c: char)
    ensures c !in s ==> c !in Trim(s)
  {
    var t := TrimStart(s);
    TrimStartShape(s);
    TrimEndShape(t);
    var r := Trim(s);
    assert r == TrimEnd(t);
    assert r == t[..|r|];
    assert t == s[|s| - |t|..];
  }

  /** The first character of a join is the first character of its first part,
      and its last character is the last character of its last part. */
  lemma {:induction false} JoinEnds(parts: seq<string>, sep: string)
    requires parts != [] && forall i :: 0 <= i < |parts| ==> parts[i] != []
    ensures Join(parts, sep) != []
    ensures Join(parts, sep)[0] == parts[0][0]
    ensures Join(parts, sep)[|Join(parts, sep)| - 1] == parts[|parts| - 1][|parts[|parts| - 1]| - 1]
  {
    if |parts| > 1 {
      JoinEnds(parts[1..], sep);
    }
  }

  /** Already-stripped non-blank pieces pass the comprehension unchanged. */
  lemma {:induction false} StrippedNonBlankOfUrls(urls: seq<string>)
    requires forall u :: u in urls ==> IsStripped(u)
    ensures StrippedNonBlank(urls) == urls
  {
    if urls != [] {
      assert forall u :: u in urls[1..] ==> u in urls;
      StrippedNonBlankOfUrls(urls[1..]);
      assert urls[0] in urls;
      TrimUnchanged(urls[0]);
      assert StrippedNonBlank(urls) == [urls[0]] + StrippedNonBlank(urls[1..]);
      assert [urls[0]] + urls[1..] == urls;
    }
  }

  /** Round trip: writing a list of URLs comma-separated into the setting and
      parsing it gives the same list back, in the same order. */
  lemma ServerUrlsRoundTrip(urls: seq<string>)
    requires forall u :: u in urls ==> IsServerUrl(u)
    ensures GetServerUrls(Join(urls, ",")) == urls
  {
    if urls != [] {
      JoinOfUrlsIsStripped(urls);
      SplitJoinOfUrls(urls);
      StrippedNonBlankOfUrls(urls);
    }
  }

  /** Parsing is idempotent: the URLs parsed from a setting, written back,
      parse to themselves. */
  lemma ServerUrlsIdempotent(setting: string)
    ensures GetServerUrls(Join(GetServerUrls(setting), ",")) == GetServerUrls(setting)
  {
    ServerUrlsRoundTrip(GetServerUrls(setting));
  }

  /** The joined URLs are non-blank and already stripped. */
  lemma JoinOfUrlsIsStripped(urls: seq<string>)
    requires urls != [] && forall u :: u in urls ==> IsServerUrl(u)
    ensures Join(urls, ",") != [] && Trim(Join(urls, ",")) == Join(urls, ",")
  {
    assert forall i :: 0 <= i < |urls| ==> urls[i] in urls;
    JoinEnds(urls, ",");
    assert urls[0] in urls && urls[|urls| - 1] in urls;
    TrimUnchanged(Join(urls, ","));
  }

  /** Splitting the joined URLs on "," gives them back. */
  lemma SplitJoinOfUrls(urls: seq<string>)
    requires urls != [] && forall u :: u in urls ==> IsServerUrl(u)
    ensures Split(Join(urls, ","), ',') == urls
  {
    assert forall i :: 0 <= i < |urls| ==> urls[i] in urls;
    SplitJoin(urls, ',');
  }

  // ---------------------------------------------------------------------------
  // URL normalisation

  const McpPath := "/mcp/"

  /** `MCPClient._clean_url`: the URL extended just enough to end with "/mcp/".
      (Its full shape is stated by `CleanUrlShape`.) */
  function CleanUrl(url: string): (clean: string)
    ensures EndsWith(url, McpPath) ==> clean == url
    ensures |url| <= |clean| <= |url| + |McpPath|
  {
    if EndsWith(url, McpPath) then url
    else if EndsWith(url, "/mcp") then url + "/"
    else url + McpPath
  }

  /** The normalised URL ends with "/mcp/", starts with the URL, equals it
      exactly when it already ended so, and is 0, 1 or 5 characters longer. */
  lemma CleanUrlShape(url: string)
    ensures EndsWith(CleanUrl(url), McpPath)
    ensures StartsWith(CleanUrl(url), url)
    ensures CleanUrl(url) == url <==> EndsWith(url, McpPath)
    ensures |CleanUrl(url)| - |url| in {0, 1, 5}
  {
    if EndsWith(url, McpPath) {
    } else if EndsWith(url, "/mcp") {
      assert (url + "/")[|url| + 1 - 5..] == url[|url| - 4..] + "/";
      assert (url + "/")[..|url|] == url;
    } else {
      assert (url + McpPath)[|url|..] == McpPath;
      assert (url + McpPath)[..|url|] == url;
    }
  }

  /** Normalising twice is normalising once. */
  lemma CleanUrlIdempotent(url: string)
    ensures CleanUrl(CleanUrl(url)) == CleanUrl(url)
  {
    CleanUrlShape(url);
  }

  /** "X", "X/mcp" and "X/mcp/" all normalise to "X/mcp/" (the first one
      provided X does not already end in "/mcp" or "/mcp/"). */
  lemma CleanUrlForms(x: string)
    ensures CleanUrl(x + "/mcp") == x + McpPath
    ensures CleanUrl(x + McpPath) == x + McpPath
    ensures !EndsWith(x, "/mcp") && !EndsWith(x, McpPath) ==> CleanUrl(x) == x + McpPath
  {
    var a := x + "/mcp";
    assert a[|a| - 4..] == "/mcp";
    assert a[|a| - 1] == 'p';
    assert !EndsWith(a, McpPath) by {
      if |McpPath| <= |a| {
        assert a[|a| - |McpPath|..][4] == a[|a| - 1];
      }
    }
    assert a + "/" == x + McpPath;
    var b := x + McpPath;
    assert b[|b| - 5..] == McpPath;
  }

  // ---------------------------------------------------------------------------
  // The remote side, as seen by the client library

  /** Enumerating the tools of an endpoint: their names in advertised order, or
      the text of the exception raised. */
  datatype Listing = Tools(names: seq<string>) | Unreachable(message: string)

  /** Invoking one remote tool: its result text, or the text of the exception raised. */
  datatype Invocation = Returned(text: string) | Raised(message: string)

  /** The parameter object a wrapper sends. */
  datatype Params =
    | ListDirectoryParams(path: string)
    | ReadFileParams(filePath: string, maxLines: int)
    | SearchFilesParams(directory: string, pattern: string, fileType: string)
    | GetFileInfoParams(filePath: string)

  /** Everything outside the process: per normalised URL, the tool listing; per
      URL, tool name and parameters, the invocation; and the text of the client
      library's error for a server name missing from its configuration. */
  datatype Remote = Remote(
    listing: string -> Listing,
    invoke: (string, string, Params) -> Invocation,
    unknownServer: string -> string)

  /** A `MultiServerMCPClient` configured with exactly one named server. */
  datatype Session = Session(serverName: string, url: string)

  /** `f"server_{i}"` */
  function ServerName(i: nat): string {
    "server_" + NatToString(i)
  }

  /** `server_i` names server 0 only for i == 0. */
  lemma ServerNameZero(i: nat)
    ensures ServerName(i) == "server_0" <==> i == 0
  {
    NatToStringZero(i);
    if ServerName(i) == "server_0" {
      assert NatToString(i) == ServerName(i)[7..];
    }
  }

  /** `client.get_tools(server_name=name)`: the library only knows the server it
      was configured with. */
  function GetTools(session: Session, serverName: string, remote: Remote): Listing {
    if serverName == session.serverName then remote.listing(session.url)
    else Unreachable(remote.unknownServer(serverName))
  }

  /** The session built on the attempt at position `i`. */
  function Attempt(urls: seq<string>, i: nat): Session
    requires i < |urls|
  {
    Session(ServerName(i), CleanUrl(urls[i]))
  }

  /** The normalised URL at position `i` lists its tools. */
  predicate Connects(urls: seq<string>, i: nat, remote: Remote)
    requires i < |urls|
  {
    remote.listing(CleanUrl(urls[i])).Tools?
  }

  /** The attempt at position `i` asks for the very name it was configured
      with, so it enumerates its tools exactly when its URL connects. */
  lemma AttemptListing(urls: seq<string>, i: nat, remote: Remote)
    requires i < |urls|
    ensures GetTools(Attempt(urls, i), ServerName(i), remote) == remote.listing(CleanUrl(urls[i]))
    ensures GetTools(Attempt(urls, i), ServerName(i), remote).Tools? <==> Connects(urls, i, remote)
  {
  }

  /** The position of the first URL at or after `from` that connects: every
      URL before it fails, and when there is none every URL from `from` on fails. */
  function FirstConnecting(urls: seq<string>, remote: Remote, from: nat): (r: Option<nat>)
    requires from <= |urls|
    ensures r.Some? ==> from <= r.value < |urls| && Connects(urls, r.value, remote)
    ensures forall j :: from <= j < |urls| && (r.None? || j < r.value) ==> !Connects(urls, j, remote)
    decreases |urls| - from
  {
    if from == |urls| then None
    else if Connects(urls, from, remote) then Some(from)
    else FirstConnecting(urls, remote, from + 1)
  }

  /** The value `_init_client` returns: a set field as it is; otherwise the
      attempt on the first URL that connects, or None when none does. */
  function InitReturn(client: Option<Session>, urls: seq<string>, remote: Remote): (r: Option<Session>)
    ensures client.Some? ==> r == client
    ensures client.None? && r.Some? ==>
              exists i :: 0 <= i < |urls| && r == Some(Attempt(urls, i)) && Connects(urls, i, remote)
    ensures client.None? && r.None? ==> forall j :: 0 <= j < |urls| ==> !Connects(urls, j, remote)
  {
    if client.Some? || urls == [] then client
    else match FirstConnecting(urls, remote, 0)
      case Some(i) => Some(Attempt(urls, i))
      case None => None
  }

  /** The `client` field after `_init_client`: because the field is assigned
      before enumeration, a run in which every URL fails leaves the last attempt
      in it. */
  function ClientAfterInit(client: Option<Session>, urls: seq<string>, remote: Remote): (after: Option<Session>)
    ensures client.Some? || urls == [] ==> after == client
    ensures urls != [] ==> after.Some?
    ensures InitReturn(client, urls, remote).Some? ==> after == InitReturn(client, urls, remote)
    ensures client.None? && urls != [] && InitReturn(client, urls, remote).None? ==>
              after == Some(Attempt(urls, |urls| - 1))
  {
    if client.Some? || urls == [] then client
    else match FirstConnecting(urls, remote, 0)
      case Some(i) => Some(Attempt(urls, i))
      case None => Some(Attempt(urls, |urls| - 1))
  }

  /** The four synchronous wrappers. */
  datatype SyncTool = ListDirectory | ReadFile | SearchFiles | GetFileInfo

  function ToolName(t: SyncTool): string {
    match t
    case ListDirectory => "list_directory"
    case ReadFile => "read_file"
    case SearchFiles => "search_files"
    case GetFileInfo => "get_file_info"
  }

  /** `_create_sync_tools`, in its order. */
  const AllWrappers: seq<SyncTool> := [ListDirectory, ReadFile, SearchFiles, GetFileInfo]

  /** The list `get_sync_tools` returns: nothing without URLs or when running the
      initialisation raises; otherwise the wrappers exactly when the `client`
      field is set afterwards (the field is tested, not the returned value).
      Since every attempt is stored in the field first, that is whenever there
      is a URL and the run does not raise. */
  function SyncTools(client: Option<Session>, urls: seq<string>, remote: Remote, runFails: bool): (tools: seq<SyncTool>)
    ensures tools == [] || tools == AllWrappers
    ensures tools == AllWrappers <==> urls != [] && !runFails
  {
    if urls == [] || runFails then []
    else if ClientAfterInit(client, urls, remote).None? then []
    else AllWrappers
  }

  /** The exact text `str(e)` gives when `get_tools` is called on `None`. */
  const NoneHasNoGetTools := "'NoneType' object has no attribute 'get_tools'"

  /** `_run_async_tool` for a given state of the `client` field. `runError` is
      the exception `asyncio.run` itself raises, if any. */
  function RunAsyncTool(client: Option<Session>, name: string, params: Params, remote: Remote,
                        runError: Option<string>): (reply: string)
    ensures StartsWith(reply, "Error")
            || (runError.None? && client.Some? && remote.invoke(client.value.url, name, params) == Returned(reply))
  {
    if runError.Some? then "Error in sync wrapper for " + name + ": " + runError.value
    else if client.None? then "Error in " + name + ": " + NoneHasNoGetTools
    else match GetTools(client.value, "server_0", remote)
      case Unreachable(msg) => "Error in " + name + ": " + msg
      case Tools(names) =>
        if name !in names then "Error: " + name + " tool not found"
        else match remote.invoke(client.value.url, name, params)
          case Returned(text) => text
          case Raised(msg) => "Error in " + name + ": " + msg
  }

  /** What each wrapper sends for its arguments, with the defaults of the Python
      signatures (`max_lines=100`, `file_type=""`). */
  function ListDirectoryCall(path: string): Params { ListDirectoryParams(path) }
  function ReadFileCall(filePath: string, maxLines: int := 100): Params { ReadFileParams(filePath, maxLines) }
  function SearchFilesCall(directory: string, pattern: string, fileType: string := ""): Params {
    SearchFilesParams(directory, pattern, fileType)
  }
  function GetFileInfoCall(filePath: string): Params { GetFileInfoParams(filePath) }

  /** The tool each parameter object is sent to. */
  function ToolOf(p: Params): SyncTool {
    match p
    case ListDirectoryParams(_) => ListDirectory
    case ReadFileParams(_, _) => ReadFile
    case SearchFilesParams(_, _, _) => SearchFiles
    case GetFileInfoParams(_) => GetFileInfo
  }

  // ---------------------------------------------------------------------------
  // Properties of connection and tool calls

  /** Whichever single URL is reachable, wherever it sits in the list, is the one
      connected to, and `_init_client` returns it. */
  lemma OnlyReachableEndpointWins(urls: seq<string>, remote: Remote, k: nat)
    requires k < |urls|
    requires forall j :: 0 <= j < |urls| ==> (Connects(urls, j, remote) <==> j == k)
    ensures InitReturn(None, urls, remote) == Some(Attempt(urls, k))
    ensures ClientAfterInit(None, urls, remote) == Some(Attempt(urls, k))
    ensures SyncTools(None, urls, remote, false) == AllWrappers
  {
    FirstConnectingFinds(urls, remote, 0, k);
  }

  /** A connecting URL preceded only by failing ones is the one found: the
      contract of `FirstConnecting` pins its result down. */
  lemma FirstConnectingFinds(urls: seq<string>, remote: Remote, from: nat, k: nat)
    requires from <= k < |urls| && Connects(urls, k, remote)
    requires forall j :: from <= j < k ==> !Connects(urls, j, remote)
    ensures FirstConnecting(urls, remote, from) == Some(k)
  {
  }

  /** One attempt of `_init_client`'s loop, every earlier one having failed:
      if it enumerates its tools it is the result and the new field value;
      otherwise one more URL is known to fail, and after the last one the
      result is None with the last attempt left in the field. */
  lemma InitAdvance(urls: seq<string>, i: nat, remote: Remote)
    requires i < |urls|
    requires forall j :: 0 <= j < i ==> !Connects(urls, j, remote)
    ensures var tools := GetTools(Session(ServerName(i), CleanUrl(urls[i])), ServerName(i), remote);
      if tools.Tools? then
        && InitReturn(None, urls, remote) == Some(Session(ServerName(i), CleanUrl(urls[i])))
        && ClientAfterInit(None, urls, remote) == Some(Session(ServerName(i), CleanUrl(urls[i])))
      else
        && (forall j :: 0 <= j < i + 1 ==> !Connects(urls, j, remote))
        && (i + 1 == |urls| ==> InitReturn(None, urls, remote) == None
                                && ClientAfterInit(None, urls, remote) == Some(Session(ServerName(i), CleanUrl(urls[i]))))
  {
    AttemptListing(urls, i, remote);
    if Connects(urls, i, remote) {
      FirstConnectingFinds(urls, remote, 0, i);
    }
  }

  /** When no URL connects, `_init_client` returns None but leaves the last
      attempt in the `client` field, so `get_sync_tools` still hands out the four
      wrappers. */
  lemma NoEndpointStillYieldsWrappers(urls: seq<string>, remote: Remote)
    requires urls != []
    requires forall j :: 0 <= j < |urls| ==> !Connects(urls, j, remote)
    ensures InitReturn(None, urls, remote) == None
    ensures ClientAfterInit(None, urls, remote) == Some(Attempt(urls, |urls| - 1))
    ensures SyncTools(None, urls, remote, false) == AllWrappers
  {
  }

  /** An empty setting never attempts a connection and gives no wrapper, and a
      set `client` field is kept as it is. */
  lemma InitSkipped(client: Option<Session>, setting: string, remote: Remote, runFails: bool)
    requires IsBlank(setting) || client.Some?
    ensures ClientAfterInit(client, GetServerUrls(setting), remote) == client
    ensures IsBlank(setting) ==> SyncTools(client, GetServerUrls(setting), remote, runFails) == []
  {
  }

  /** Every wrapper asks for "server_0": when a later URL was the one connected,
      every call fails with the library's unknown-server error, whatever the
      remote offers. */
  lemma WrappersAskServerZero(urls: seq<string>, i: nat, t: SyncTool, params: Params, remote: Remote)
    requires 0 < i < |urls|
    ensures RunAsyncTool(Some(Attempt(urls, i)), ToolName(t), params, remote, None)
            == "Error in " + ToolName(t) + ": " + remote.unknownServer("server_0")
  {
    ServerNameZero(i);
  }

  /** Calling a tool the server does not list gives an error text that names the
      tool right after "Error: ", and never anything else. */
  lemma UnknownToolReply(session: Session, name: string, params: Params, remote: Remote)
    requires session.serverName == "server_0"
    requires remote.listing(session.url).Tools? && name !in remote.listing(session.url).names
    ensures var reply := RunAsyncTool(Some(session), name, params, remote, None);
      && reply == "Error: " + name + " tool not found"
      && StartsWith(reply, "Error: ") && reply[7..7 + |name|] == name
  {
    var reply := RunAsyncTool(Some(session), name, params, remote, None);
    assert reply == "Error: " + name + " tool not found";
    assert reply[..7] == "Error: ";
  }

  /** No failure escapes a wrapper: an exception from running the event loop
      comes back as the sync-wrapper error, an unset `client` as the error
      `get_tools` raises on None, and every other reply is either an error
      text or exactly what the remote tool returned. */
  lemma WrapperReplies(client: Option<Session>, name: string, params: Params, remote: Remote,
                       runError: Option<string>)
    ensures var reply := RunAsyncTool(client, name, params, remote, runError);
      && (runError.Some? ==> reply == "Error in sync wrapper for " + name + ": " + runError.value)
      && (runError.None? && client.None? ==> reply == "Error in " + name + ": " + NoneHasNoGetTools)
      && (StartsWith(reply, "Error")
          || (runError.None? && client.Some? && remote.invoke(client.value.url, name, params) == Returned(reply)))
  {
  }

  /** Once the first URL is connected and the tool is listed, a wrapper returns
      the remote result unchanged; a remote failure comes back as text. */
  lemma ConnectedCall(urls: seq<string>, name: string, params: Params, remote: Remote)
    requires urls != []
    requires remote.listing(CleanUrl(urls[0])).Tools? && name in remote.listing(CleanUrl(urls[0])).names
    ensures var reply := RunAsyncTool(Some(Attempt(urls, 0)), name, params, remote, None);
      match remote.invoke(CleanUrl(urls[0]), name, params)
      case Returned(text) => reply == text
      case Raised(msg) => reply == "Error in " + name + ": " + msg
  {
    ServerNameZero(0);
  }

  // ---------------------------------------------------------------------------
  // The client object and its process-wide instance

  class MCPClient {
    /** `self.client`: the library client, or None. */
    var client: Option<Session>
    /** `self.server_urls`, read once when the object is built. */
    const serverUrls: seq<string>

    /** `MCPClient.__init__` with the value of MCP_SERVER_URLS. */
    constructor (setting: string)
      ensures client == None && serverUrls == GetServerUrls(setting)
    {
      client := None;
      serverUrls := GetServerUrls(setting);
    }

    /** `_init_client`: returns at once when `client` is set or there is no URL;
        otherwise tries the URLs in order, naming the i-th `server_i`, stores each
        attempt in `client` before enumerating, and stops at the first success. */
    method InitClient(remote: Remote) returns (r: Option<Session>)
      modifies this
      ensures r == InitReturn(old(client), serverUrls, remote)
      ensures client == ClientAfterInit(old(client), serverUrls, remote)
    {
      if client.Some? || serverUrls == [] {
        return client;
      }
      var i := 0;
      while i < |serverUrls|
        invariant 0 <= i <= |serverUrls|
        invariant forall j :: 0 <= j < i ==> !Connects(serverUrls, j, remote)
        invariant i > 0 ==> client == Some(Attempt(serverUrls, i - 1))
        invariant old(client).None?
      {
        var serverName := ServerName(i);
        var cleanUrl := CleanUrl(serverUrls[i]);
        client := Some(Session(serverName, cleanUrl));
        var tools := GetTools(client.value, serverName, remote);
        InitAdvance(serverUrls, i, remote);
        if tools.Tools? {
          return client;
        }
        i := i + 1;
      }
      return None;
    }

    /** `get_sync_tools`. `runFails` says that `asyncio.run(self._init_client())`
        raises before any attempt (the client library cannot be imported, or an
        event loop is already running). */
    method GetSyncTools(remote: Remote, runFails: bool) returns (tools: seq<SyncTool>)
      modifies this
      ensures tools == SyncTools(old(client), serverUrls, remote, runFails)
      ensures client == if serverUrls == [] || runFails then old(client)
                        else ClientAfterInit(old(client), serverUrls, remote)
    {
      if serverUrls == [] {
        return [];
      }
      if runFails {
        return [];
      }
      var _ := InitClient(remote);
      if client.None? {
        return [];
      }
      tools := AllWrappers;
    }

    /** A call through one of the wrappers: it enumerates the tools of
        "server_0" afresh and never raises. */
    function Call(params: Params, remote: Remote, runError: Option<string>): (reply: string)
      reads this
      ensures StartsWith(reply, "Error")
              || (runError.None? && client.Some?
                  && remote.invoke(client.value.url, ToolName(ToolOf(params)), params) == Returned(reply))
    {
      RunAsyncTool(client, ToolName(ToolOf(params)), params, remote, runError)
    }
  }

  /** The module-level `_mcp_client` and `get_mcp_tools`. */
  class Registry {
    var instance: MCPClient?

    constructor ()
      ensures instance == null
    {
      instance := null;
    }

    /** `get_mcp_tools`: builds the client on the first call only (reading the
        setting then), and asks it for its wrappers on every call. */
    method GetMcpTools(setting: string, remote: Remote, runFails: bool) returns (tools: seq<SyncTool>)
      modifies this, instance
      ensures old(instance) != null ==> instance == old(instance)
      ensures old(instance) == null ==> fresh(instance) && instance.serverUrls == GetServerUrls(setting)
      ensures instance != null
      ensures tools == SyncTools(if old(instance) == null then None else old(instance.client),
                                 instance.serverUrls, remote, runFails)
      ensures instance.client == if instance.serverUrls == [] || runFails
                                 then (if old(instance) == null then None else old(instance.client))
                                 else ClientAfterInit(if old(instance) == null then None else old(instance.client),
                                                      instance.serverUrls, remote)
    {
      if instance == null {
        instance := new MCPClient(setting);
      }
      tools := instance.GetSyncTools(remote, runFails);
    }
  }
}

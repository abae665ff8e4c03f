# NASA document assistant: a verified model of its core

This project models, in Dafny, the core of a small question-answering
assistant over NASA documents. The modelled parts are:

- **Document search.** A lazily built vector store and chat model answer a
  question by joining the retrieved pages into a context and asking the model
  through an "executives only" prompt.
- **MCP client.** A client for remote MCP filesystem servers (Model Context
  Protocol, the remote-tool interface). It parses the comma-separated endpoint
  setting and normalises every URL to end in `/mcp/`. It connects to the first
  endpoint that lists its tools, hands out four synchronous wrappers and turns
  every failure into text.
- **Agent factory.** It puts the document search tool first, adds the MCP
  wrappers, and picks one of two system prompts depending on whether any
  wrapper is present.
- **Configuration.** Environment lookup with `.env` precedence, a
  recursion limit that falls back to 25, validation warnings, and
  process-wide singletons.
- **Filesystem server.** The four tools of the MCP filesystem server:
  `list_directory`, `read_file`, `search_files` and `get_file_info`, with
  Python's slice, `readlines` and `pathlib` suffix semantics.
- **Graph demo.** Tool discovery over plain HTTP, the retrieve-then-generate
  graph, and its question loop.
- **Main loop.** The interactive loop of `main.py`: exit words, answer
  extraction, and errors that do not end the session.

Everything outside the process is a parameter of the model:

- the remote MCP endpoints (`McpClient.Remote`);
- the vector store and the language model (`NasaSearch.Services`);
- the HTTP `get` and `post`;
- the directory tree (`McpFilesystem.FileSystem`);
- `glob`;
- the agent's `invoke`;
- the environment and `.env` maps.

Python's `str` operations used by the core are defined in module `Text`,
over ASCII: `strip`, `split` on one character, `join`, `lower`, `int()` and
`str()`.

Module layout, one module per source file:

- `Text` and `Wrappers` are shared helpers.
- `McpClient` models `common/mcp_client.py`.
- `AgentFactory` models `common/agent_factory.py`.
- `NasaSearch` models `common/nasa_search.py`.
- `Config` models `common/config.py`.
- `McpFilesystem` models `mcp_filesystem.py`.
- `GraphDemo` models `graph_demo.py`.
- `Cli` models `main.py`.

Objects whose fields the source updates in place are classes: `MCPClient`,
`NASADocumentSearch`, `AppConfig`, the three module-level singletons, the
state graph and the RAG state. Their methods state the new state in their
`ensures` clauses.

Where the code and its own comments or guards disagree, the model follows the
code.
- **Failed connections.** `get_sync_tools` guards with `if self.client is
  None: return []` (common/mcp_client.py:76-77), evidently so that no MCP tool
  is handed out when nothing connects. But `_init_client` assigns each attempt
  to `self.client` (common/mcp_client.py:45) before it enumerates that
  attempt's tools. So after every endpoint has failed, the field still holds
  the last attempt, the guard does not fire, and the four wrappers are handed
  out anyway (`McpClient.NoEndpointStillYieldsWrappers`,
  `AgentFactory.UnreachableServersStillGiveFilesystemAgent`).
- **Temperature default.** The constructor's docstring says the temperature
  defaults to 0 (common/config.py:62), but the code reads "0.2"
  (common/config.py:92). The factory default is 0.0
  (common/agent_factory.py:59), and `create_nasa_agent` uses that default.

## Model

| member | source | states |
|---|---|---|
| Text.Trim | common/mcp_client.py:21 | `str.strip()`: the result is no longer than the input, is empty exactly when the input is all white space, and starts and ends with a non-space character |
| Text.TrimUnchanged | common/mcp_client.py:24 | an already-stripped non-empty string is left unchanged by `strip()` |
| Text.TrimIdempotent | common/mcp_client.py:24 | stripping twice is stripping once |
| Text.TrimStartShape | common/mcp_client.py:21 | left stripping drops a blank prefix and keeps the rest as a suffix, which is empty or starts with a non-space |
| Text.TrimEndShape | common/mcp_client.py:21 | right stripping drops a blank suffix and keeps the rest as a prefix, which is empty or ends with a non-space |
| Text.Split | common/mcp_client.py:24 | `str.split(sep)`: at least one piece, no piece holds the separator, and joining the pieces with the separator gives the input back |
| Text.SplitJoin | common/mcp_client.py:24 | splitting a separator-free list joined by the separator gives the list back |
| Text.SplitSeparatorFreePrefix | common/mcp_client.py:24 | a separator-free prefix only extends the first piece of a split |
| Text.JoinAppend | graph_demo.py:225 | joining one more part appends the separator and that part |
| Text.Lower | main.py:90 | `str.lower()`: same length, and each character is lowered on its own |
| Text.NatToString | common/mcp_client.py:35 | decimal digits only; a leading '0' exactly for zero; a single digit exactly below ten |
| Text.DigitsValueOfNatToString | common/config.py:87 | reading back the decimal digits of n gives n |
| Text.ParseIntOfIntToString | common/config.py:87 | `int(str(n)) == n` for every integer, negative ones included |
| Text.ParseInt | common/config.py:87 | `int()` on a string: blank text gives no value; a value needs text whose stripped form ends in a digit; a negative value needs a leading '-' |
| Text.ParseIntAcceptsSignAndSpaces | common/config.py:87 | `int()` accepts surrounding white space and a leading '+' or '-': " +42\n" gives 42 and "-7" gives -7 |
| Text.ParseIntRejects | common/config.py:87 | inner white space, a bare sign and a decimal point are refused: "4 2", "-" and "2.5" give no value |
| Text.NatToStringZero | common/mcp_client.py:35 | the decimal text is "0" exactly for zero |
| McpClient.GetServerUrls | common/mcp_client.py:19-24 | a blank setting gives no URL; every URL is non-empty, stripped and comma-free |
| McpClient.StrippedNonBlank | common/mcp_client.py:24 | the comprehension keeps at most as many pieces as it receives, each stripped and non-empty |
| McpClient.StrippedNonBlankHasNoComma | common/mcp_client.py:24 | pieces without a comma give URLs without a comma |
| McpClient.TrimKeepsAbsent | common/mcp_client.py:24 | stripping never introduces a character |
| McpClient.StrippedNonBlankOfUrls | common/mcp_client.py:24 | already-stripped non-empty pieces pass the comprehension unchanged |
| McpClient.ServerUrlsRoundTrip | common/mcp_client.py:19-24 | writing a list of URLs comma-separated into the setting and parsing it gives the same list in the same order |
| McpClient.ServerUrlsIdempotent | common/mcp_client.py:19-24 | parsing the written-back result of a parse gives the same URLs |
| McpClient.JoinOfUrlsIsStripped | common/mcp_client.py:21 | a comma-joined list of URLs is non-blank and unchanged by `strip()` |
| McpClient.SplitJoinOfUrls | common/mcp_client.py:24 | splitting comma-joined URLs on "," returns them |
| McpClient.JoinEnds | common/mcp_client.py:21 | a join of non-empty parts starts with the first part's first character and ends with the last part's last character |
| McpClient.CleanUrl | common/mcp_client.py:56-63 | a URL already ending in "/mcp/" is kept; otherwise the result is at most five characters longer than the input and never shorter |
| McpClient.CleanUrlShape | common/mcp_client.py:56-63 | the normalised URL ends with "/mcp/", starts with the input, equals it exactly when it already ended so, and is 0, 1 or 5 characters longer |
| McpClient.CleanUrlIdempotent | common/mcp_client.py:56-63 | normalising twice is normalising once |
| McpClient.CleanUrlForms | common/mcp_client.py:56-63 | "X/mcp" and "X/mcp/" normalise to "X/mcp/", and so does a bare "X" that ends in neither |
| McpClient.ServerNameZero | common/mcp_client.py:35 | `server_{i}` is "server_0" exactly for i = 0 |
| McpClient.AttemptListing | common/mcp_client.py:35-46 | each attempt asks for the server name it was configured with, so it enumerates tools exactly when its normalised URL lists them |
| McpClient.FirstConnecting | common/mcp_client.py:33-52 | the position found connects, every earlier URL fails, and when none is found every URL fails |
| McpClient.FirstConnectingFinds | common/mcp_client.py:33-48 | a connecting URL preceded only by failing ones is the one found |
| McpClient.InitReturn | common/mcp_client.py:26-54 | a set client is returned as is; otherwise a returned client is the attempt at some URL that connects, and None means every URL fails |
| McpClient.ClientAfterInit | common/mcp_client.py:26-54 | the `client` field after `_init_client`: unchanged when already set or with no URL; always set when there is a URL; the returned client when one connected; otherwise the attempt at the last URL |
| McpClient.InitAdvance | common/mcp_client.py:33-54 | one loop step: a success is the returned client and the field value; a failure extends the failing prefix; after the last failure the result is None and the field keeps the last attempt |
| McpClient.OnlyReachableEndpointWins | common/mcp_client.py:26-54 | whichever single URL is reachable, wherever it is, is returned and stored, and the four wrappers are handed out |
| McpClient.NoEndpointStillYieldsWrappers | common/mcp_client.py:26-79 | with every URL failing, `_init_client` returns None but leaves the last attempt in `client`, so `get_sync_tools` still gives the four wrappers |
| McpClient.InitSkipped | common/mcp_client.py:26-29 | a set `client` field is kept and a blank setting gives no wrapper |
| McpClient.SyncTools | common/mcp_client.py:65-79 | `get_sync_tools` gives either no tool or all four wrappers, and all four exactly when there is a URL and `asyncio.run` does not raise |
| McpClient.WrappersAskServerZero | common/mcp_client.py:110-123 | when a later URL was the one connected, every wrapper call fails with the library's unknown-server error |
| McpClient.RunAsyncTool | common/mcp_client.py:110-128 | every reply either starts with "Error" or is the text returned by the remote tool on a connected client with no event-loop failure |
| McpClient.WrapperReplies | common/mcp_client.py:110-128 | an event-loop failure gives "Error in sync wrapper for <name>: …"; an unset client gives "Error in <name>: " and the NoneType error text; every reply is the remote's returned text or starts with "Error" |
| McpClient.UnknownToolReply | common/mcp_client.py:114-118 | a tool missing from the listing gives exactly "Error: <name> tool not found" |
| McpClient.ConnectedCall | common/mcp_client.py:110-128 | with server 0 connected and the tool listed, a wrapper returns the remote text unchanged, or the remote error as text |
| McpClient.MCPClient.constructor | common/mcp_client.py:15-17 | starts with no client and the URLs parsed from the setting |
| McpClient.MCPClient.InitClient | common/mcp_client.py:26-54 | the returned value and the new `client` field are those of the first connecting URL, with the last attempt kept when every URL fails (loop proved step by step) |
| McpClient.MCPClient.GetSyncTools | common/mcp_client.py:65-108 | no URL or a failing run gives []; otherwise the four wrappers exactly when `client` is set after initialisation |
| McpClient.MCPClient.Call | common/mcp_client.py:81-128 | calling a wrapper with its parameters runs that wrapper's tool name; the reply is the remote's returned text or starts with "Error" |
| McpClient.Registry.GetMcpTools | common/mcp_client.py:131-139 | the client is built once, from the setting read at the first call, and asked for its wrappers on every call |
| AgentFactory.ChoosePrompt | common/agent_factory.py:143-196 | the filesystem prompt is chosen exactly when MCP tools are present |
| AgentFactory.PromptTextsDiffer | common/agent_factory.py:172-196 | the two system prompt texts differ (they differ in length) |
| AgentFactory.BridgeTools | common/agent_factory.py:113-116 | one agent tool per MCP wrapper, in order |
| AgentFactory.ComposeAgent | common/agent_factory.py:110-141 | the search tool comes first and the MCP tools follow in order; the model is bound to exactly these tools with the factory's model and temperature; the filesystem prompt is chosen exactly when MCP tools are present, the document-only prompt exactly when none are |
| AgentFactory.BlankSettingGivesDocumentOnlyAgent | common/agent_factory.py:113-131 | a blank endpoint setting gives an agent with the search tool only and the document-only prompt |
| AgentFactory.UnreachableServersStillGiveFilesystemAgent | common/agent_factory.py:113-131 | with endpoints configured but none reachable, the agent still gets the four wrappers and the filesystem prompt |
| AgentFactory.AgentFactory.constructor | common/agent_factory.py:59-77 | the factory keeps its model and temperature |
| AgentFactory.AgentFactory.CreateAgent | common/agent_factory.py:79-141 | the agent is the composition of the singleton search tool and, when asked for, the bridged MCP wrappers of the client as `get_sync_tools` leaves it; with MCP an existing bridge is kept (a new one reads its URLs from the setting) and its `client` field becomes the state `_init_client` leaves; without MCP the bridge singleton is untouched; a search singleton built here has the default path and model |
| AgentFactory.CreateNasaAgent | common/agent_factory.py:199-227 | the model is bound to the agent's own tools, and the search tool comes first; with MCP the agent is the composition of the search tool and the bridged wrappers, an existing bridge is kept (a new one reads its URLs from the setting) and its `client` field is the one `_init_client` leaves; without MCP the search tool is the only tool and the prompt is document-only; the search singleton is kept or built with defaults |
| Config.LoadDotenv | common/config.py:67 | `load_dotenv(override=True)`: `.env` values override the process environment; every other variable is kept |
| Config.LoadDotenvIdempotent | common/config.py:67 | loading the same `.env` twice is loading it once |
| Config.GetEnv | common/config.py:71-81 | `os.getenv(name, default)`: the variable's value when set, the default otherwise |
| Config.GetEnvAfterDotenv | common/config.py:67-81 | after loading, a variable named in `.env` reads its `.env` value and any other reads as in the process environment |
| Config.RecursionLimit | common/config.py:86-89 | any limit other than 25 comes from a RECURSION_LIMIT that is set and parses to that integer |
| Config.RecursionLimitFallback | common/config.py:86-89 | an absent or non-integer RECURSION_LIMIT gives 25 |
| Config.RecursionLimitReadsInteger | common/config.py:86-87 | a RECURSION_LIMIT holding the decimal text of n gives n |
| Config.RecursionLimitReadsParsed | common/config.py:86-87 | any RECURSION_LIMIT text that `int()` parses to n, with white space, sign or leading zeros, gives n |
| Config.ServersConfigured | common/config.py:178-188 | servers count as configured exactly when the setting is not blank |
| Config.ParsedUrlsImplyConfigured | common/config.py:175 | a setting that yields URLs counts as configured |
| Config.CommasOnlyConfiguredWithoutUrls | common/config.py:175 | ",," counts as configured yet yields no URL |
| Config.SplitCommas | common/mcp_client.py:24 | ",," splits into three empty pieces |
| Config.BlankPiecesDropped | common/mcp_client.py:24 | empty pieces are all dropped |
| Config.Validate | common/config.py:101-132 | warns about the API key exactly when it lacks "sk-", about the database exactly when its path is missing, and about the recursion limit exactly when it is outside 1..100, and about nothing else |
| Config.UnsetKeyWarns | common/config.py:71-119 | an unset OPENAI_API_KEY is warned about |
| Config.AppConfig.constructor | common/config.py:51-99 | the `.env` file is merged over the process environment, each field is read from the result with its default, the limit falls back to 25, and the warnings are the validation of those values |
| Config.AppConfig.HasMcpServers | common/config.py:178-188 | true exactly when the endpoint setting is not blank |
| Config.AppConfig.GetNasaConfig | common/config.py:138-155 | the database path, chat model and embedding model of the configuration |
| Config.AppConfig.GetAgentConfig | common/config.py:157-176 | model and recursion limit of the configuration; MCP is included exactly when the setting is not blank |
| Config.EmptyEnvironmentDefaults | common/config.py:71-89 | an empty environment gives the defaults "gpt-4.1", "text-embedding-3-small", "./chroma_db" and 25, no MCP, and a first warning about the API key |
| Config.ConfigHolder.GetConfig | common/config.py:214-236 | at the first call a fresh configuration is built from the `.env` file merged over the process environment, with every field and warning as the constructor states; later calls return the same object |
| NasaSearch.NASADocumentSearch.constructor | common/nasa_search.py:14-18 | keeps path and model, with neither store nor model built yet |
| NasaSearch.NASADocumentSearch.VectorDb | common/nasa_search.py:20-28 | the store is built once, on the database path with the embedding model, and reused afterwards |
| NasaSearch.NASADocumentSearch.Llm | common/nasa_search.py:30-35 | the chat model is built once with the configured name and reused afterwards |
| NasaSearch.NASADocumentSearch.AccessTwice | common/nasa_search.py:20-35 | two accesses give the same store and the same model |
| NasaSearch.PageContents | common/nasa_search.py:41 | the page contents of the hits, one per hit, in order |
| NasaSearch.ContextAppend | common/nasa_search.py:41 | the context of one hit is its page, and each further hit adds a blank line and its page |
| NasaSearch.ExecutivePromptParts | common/nasa_search.py:44 | the prompt is the fixed header, the context, the question marker and the query, in that order and nothing else |
| NasaSearch.SearchAnswer | common/nasa_search.py:37-46 | the answer is the model's reply to a prompt made of the fixed header, the joined pages of the k nearest hits, the question marker and the query, in that order |
| NasaSearch.NASADocumentSearch.SearchDocuments | common/nasa_search.py:37-46 | the answer is the model's reply to the executive prompt over the k nearest pages, and store and model are built at most once |
| NasaSearch.NASADocumentSearch.GetTool | common/nasa_search.py:48-57 | the tool is named "nasa_document_search" and belongs to this search object |
| NasaSearch.RunSearchTool | common/nasa_search.py:53-55 | invoking the tool answers with the owner's path and model and k = 4 |
| NasaSearch.DatabaseInfo | common/nasa_search.py:59-69 | a readable collection gives its count, its name and the path; otherwise the error text |
| NasaSearch.NASADocumentSearch.GetDatabaseInfo | common/nasa_search.py:59-69 | the reply is the database information of this object's path, and the store is built at most once |
| NasaSearch.Registry.Instance | common/nasa_search.py:72-79 | the instance is built with default path and model at the first call and reused afterwards |
| NasaSearch.Registry.GetNasaSearchTool | common/nasa_search.py:75-80 | the tool is the "nasa_document_search" tool of the one process-wide instance, built with defaults on first use |
| NasaSearch.Registry.GetNasaDbInfo | common/nasa_search.py:82-87 | database information of the one process-wide instance |
| McpFilesystem.PathJoin | mcp_filesystem.py:14 | `os.path.join`: ends with the name; an absolute name replaces the directory; otherwise the directory is a prefix |
| McpFilesystem.EntryOf | mcp_filesystem.py:14-21 | an entry has the item's name; its kind is "directory" exactly when the joined path is a directory, which is also exactly when its size is None; a file carries its size |
| McpFilesystem.ListDirectory | mcp_filesystem.py:8-24 | a missing path or a file gives the error; a listing has one entry per item in order; it fails exactly when an item's joined path vanished, naming the first such path |
| McpFilesystem.FirstLineLength | mcp_filesystem.py:31 | the first line runs up to and including the first newline, or to the end |
| McpFilesystem.Lines | mcp_filesystem.py:31 | `readlines()`: the lines concatenate back to the text; each is non-empty with no inner newline; all but the last end with a newline |
| McpFilesystem.ConcatSplit | mcp_filesystem.py:34 | concatenating a list is concatenating its two halves |
| McpFilesystem.TakePrefix | mcp_filesystem.py:31 | Python's `[:n]`: a prefix, of length n clipped to the list, or of length len+n (at least 0) for negative n |
| McpFilesystem.ReadFile | mcp_filesystem.py:26-38 | a missing path or a directory gives the error; a read returns a prefix of the file's lines, with `truncated` exactly when the number of lines kept equals max_lines |
| McpFilesystem.ReadFileIsPrefix | mcp_filesystem.py:31-34 | the content read is a prefix of the file's text |
| McpFilesystem.ReadFileTruncation | mcp_filesystem.py:31-35 | for max_lines ≥ 0: truncated exactly when the file has at least max_lines lines; a shorter file is read whole |
| McpFilesystem.ReadFileNegativeCap | mcp_filesystem.py:31-35 | a negative max_lines never reports truncation |
| McpFilesystem.SearchFiles | mcp_filesystem.py:40-46 | echoes the pattern; the matches are the first at most 50 results of the glob, in glob order, and all of them when there are at most 50 |
| McpFilesystem.SearchPatternShape | mcp_filesystem.py:44 | for a directory not ending in "/" the pattern is directory + "/**/*" + pattern + "*" + type |
| McpFilesystem.LastIndexOf | mcp_filesystem.py:58 | None exactly when the character is absent; otherwise a position holding it with none after it |
| McpFilesystem.BaseName | mcp_filesystem.py:58 | the final component holds no "/" |
| McpFilesystem.Suffix | mcp_filesystem.py:58 | `pathlib` suffix: empty, or a dot followed by at least one character with no further dot or slash, ending the final component and shorter than it |
| McpFilesystem.SuffixOfDoubleExtension | mcp_filesystem.py:58 | "report.tar.gz" has suffix ".gz" |
| McpFilesystem.SuffixOfHiddenFile | mcp_filesystem.py:58 | ".bashrc" has no suffix |
| McpFilesystem.SuffixOfTrailingDot | mcp_filesystem.py:58 | "notes." has no suffix |
| McpFilesystem.GetFileInfo | mcp_filesystem.py:48-61 | an error exactly for a missing path; otherwise its size, modification time, whether it is a directory, and its suffix |
| GraphDemo.ScanAdverts | graph_demo.py:154-168 | at most one tool per entry, each with a non-empty name and the server's URL; a raise only when a malformed entry is present |
| GraphDemo.NamedToolsAppend | graph_demo.py:154-168 | the named entries of a longer array extend those of the shorter one |
| GraphDemo.ScanWellFormed | graph_demo.py:154-168 | without a malformed entry the scan yields exactly the named entries and does not raise |
| GraphDemo.ScanRaisedStays | graph_demo.py:154-169 | once a prefix raised, later entries change nothing |
| GraphDemo.ScanStopsAtMalformed | graph_demo.py:154-169 | a malformed entry raises and keeps exactly the tools added before it |
| GraphDemo.DiscoverPieces | graph_demo.py:144-171 | at most one request per piece, and at most one failure per request |
| GraphDemo.ReadAdverts | graph_demo.py:154-168 | the loop over the array computes the scan |
| GraphDemo.QueryServer | graph_demo.py:148-168 | querying a server requests URL + "/mcp" and scans its reply |
| GraphDemo.ServerScan | graph_demo.py:148-169 | each tool carries the server's URL and a non-empty name; tools come only from a status-200 reply; another status gives no tool and no failure; a failed connection gives no tool and a failure |
| GraphDemo.DiscoverAdvance | graph_demo.py:144-171 | one step of the outer loop: a blank piece changes nothing; otherwise the server's tools, its request and its failure are appended |
| GraphDemo.GetMcpTools | graph_demo.py:130-173 | the loop's tools, requests and failures are those of the discovery function |
| GraphDemo.BlankSettingSendsNothing | graph_demo.py:136-138 | a blank setting sends no request and finds no tool |
| GraphDemo.ContributionsAppend | graph_demo.py:144-171 | the tools of more pieces extend the tools of fewer |
| GraphDemo.DiscoveryAggregatesAllServers | graph_demo.py:141-173 | the tools found are each server's tools concatenated in setting order, whatever fails on the way |
| GraphDemo.Discover | graph_demo.py:130-173 | the requests are exactly the URLs the MCP client parses from the same setting, each with "/mcp", and there are no more failures than requests |
| GraphDemo.WithMcpSuffix | graph_demo.py:150 | each URL with "/mcp" appended, in order |
| GraphDemo.StrippedNonBlankAppend | graph_demo.py:144-146 | one more piece adds its stripped form exactly when it is not blank |
| GraphDemo.WithMcpSuffixAppend | graph_demo.py:150 | suffixing distributes over appending |
| GraphDemo.RequestsFollowParsedUrls | graph_demo.py:144-150 | the requests are the stripped non-blank pieces with "/mcp", in order |
| GraphDemo.RunTool | graph_demo.py:158-164 | status 200 returns the JSON, or raises a decoding error when the body is not JSON; any other status raises an error naming the tool with the body text; a failed post raises its error |
| GraphDemo.RagState.constructor | graph_demo.py:296 | the state starts with the question and no context or answer |
| GraphDemo.RagState.Retrieve | graph_demo.py:213-226 | the context becomes the blank-line join of the k nearest pages; question and answer unchanged |
| GraphDemo.RagState.Generate | graph_demo.py:229-243 | with a context the answer becomes the model's reply to the executive prompt; otherwise nothing changes |
| GraphDemo.RunChain | graph_demo.py:250-267 | the chain's answer is the document-search answer with the demo's path, model and k |
| GraphDemo.Graph.AddNode | graph_demo.py:254-259 | appends the node and changes nothing else |
| GraphDemo.Graph.AddEdge | graph_demo.py:263 | appends the edge and changes nothing else |
| GraphDemo.Graph.SetEntryPoint | graph_demo.py:262 | sets the entry point and changes nothing else |
| GraphDemo.Graph.SetFinishPoint | graph_demo.py:264 | sets the finish point and changes nothing else |
| GraphDemo.BuildGraph | graph_demo.py:250-264 | nodes retrieve, generate, then one per tool in order; the single edge is retrieve→generate; entry retrieve, finish generate |
| GraphDemo.Successor | graph_demo.py:263 | the successor comes from an edge leaving the node, and none exists exactly when no edge leaves it |
| GraphDemo.BuiltGraphRun | graph_demo.py:250-267 | whatever tools were discovered, a run visits retrieve then generate and no tool node |
| GraphDemo.DemoTurn | graph_demo.py:282-305 | an exit word says goodbye; any other question shows the chain's answer |
| Cli.ExitCommandShape | main.py:90 | a question with surrounding white space is never an exit command |
| Cli.UpperCaseExitWords | main.py:90 | "QUIT", "Exit" and "Q" are exit commands |
| Cli.IsExitCommand | main.py:90 | an exit command has length 1 or 4 |
| Cli.ExtractAnswer | main.py:108-118 | an answer is shown exactly when the response has a non-empty message list whose last message has non-empty content, and the answer is that content |
| Cli.OnlyLastMessageMatters | main.py:108-112 | earlier messages do not affect what is shown |
| Cli.StartAgent | main.py:59-70 | the configuration is built at the first call from `.env` merged over the process environment; the agent uses its model and recursion limit and the factory's temperature; with MCP servers it is the composition of the search tool and the bridged wrappers, an existing bridge is kept (a new one reads its URLs from the merged environment) and its `client` field is the one `_init_client` leaves; without them it has the search tool only and the bridge singleton is untouched |
| Cli.StepFarewell | main.py:86-130 | a step prints the farewell exactly when it ends the session |
| Cli.SessionAdvance | main.py:82-130 | one loop step extends the printed outputs by the step's output and stops exactly when the step stops |
| Cli.RunSession | main.py:82-130 | the loop prints exactly the outputs of the session function |
| Cli.FarewellIsLast | main.py:90-124 | a farewell is only ever the last output |
| Cli.ErrorsDoNotEndSession | main.py:125-130 | events that do not stop the loop produce one output each, and no farewell |
| Cli.ExitStopsReading | main.py:90-92 | after an exit word nothing more is read and the farewell is the last output |

## Left out

- `common/thinking_spinner.py`, the spinner in `main.py` and `graph_demo.py`, and all console output (`print_status`, banners, warning texts) are display-only. Warnings are modelled as values.
- `load_environment` (common/config.py:238-255) is `get_config` plus the status display, so only `get_config` is modelled.
- The ingestion, data-fetching, debug and test scripts, and `common/__init__.py`, are outside the core.
- Temperature parsing and its range warning (common/config.py:91-94, 133-136) are left out because they work on floating point. The factory's temperature is an opaque `real`.
- Unicode white space, Unicode case mapping, and underscores between digits in `int()` are left out. `Text` covers ASCII only.
- Failures while constructing Chroma, the embeddings or the chat model are not modelled. The search's collaborators are total functions.
- The ReAct agent loop, the LangGraph runtime, and the enforcement of the recursion limit are library code. The model passes the limit to `invoke` and stops there.
- Duplicate node names and `graph.compile()` errors are not modelled.
- The import-time side effects of `graph_demo.py` are left out: `load_dotenv`, building the store, the LLM and the tools at import time, and the `as_tool` decorator.
- GraphDemo.DemoTurn: exceptions raised by the chain (graph_demo.py:307-312) are not modelled, because the chain's collaborators are total.
- GraphDemo.RunPath: it follows at most `fuel` edges. `BuiltGraphRun` shows that the built graph reaches the finish within its node count.
- For `read_file`, UTF-8 decoding errors, universal-newline translation and permission errors are not modelled. The file system is a map from paths to nodes.
- For `get_file_info` and `search_files`, the `pathlib` normalisation of "." and of repeated slashes is not modelled, and neither is the glob matching itself. `glob` is a parameter.
- McpClient.GetTools: it assumes that the client library knows only the server name it was configured with. Asking it for any other name fails with an opaque error text.
- The JSON decoding of HTTP replies is reduced to the shapes that matter. In discovery these are a tools array whose entries are named, unnamed or malformed, and a body that is not an object. In a tool call it is the decoded value as text, or no value when the body is not JSON.
- The `asyncio` event loop is sequential evaluation. The cases where `asyncio.run` itself raises are boolean or optional parameters (`runFails`, `runError`).
- GraphDemo.ScanAdverts: it assumes that building `MCPTool(name=…, callable=…)` (graph_demo.py:106-107 and graph_demo.py:168) succeeds. `BaseTool` is given no description and `callable` is not a declared field, so whether construction raises depends on the installed langchain_core and pydantic versions, which are not part of this model. If it raises, each server advertising a named tool is reported as failing instead.

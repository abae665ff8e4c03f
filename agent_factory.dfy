/**
 * Agent composition (common/agent_factory.py): the tool list (document search
 * first, then the bridge's wrappers when asked for), the choice between the
 * two system prompts, and the agent assembled from model, tools and prompt.
 *
 * `ChatOpenAI(...).bind_tools(...)` and `create_react_agent(...)` are opaque
 * constructors: the model only records what they are given.
 */
module AgentFactory {
  import McpClient
  import NasaSearch

  const DefaultModel := "gpt-4.1"
  const DefaultTemperature: real := 0.0

  /** A tool the agent may call: the document search, or one bridge wrapper
      bound to the client object it calls through. */
  datatype Tool =
    | DocumentSearch(search: NasaSearch.SearchTool)
    | Bridge(client: McpClient.MCPClient, wrapper: McpClient.SyncTool)

  /** `ChatOpenAI(model=..., temperature=...).bind_tools(tools)` */
  datatype BoundModel = BoundModel(model: string, temperature: real, tools: seq<Tool>)

  /** The two system prompts `_get_system_prompt` chooses between. */
  datatype SystemPrompt = FilesystemPrompt | DocumentOnlyPrompt

  /** `create_react_agent(model=..., tools=..., prompt=...)`: the prompt is
      one of the two texts, `PromptText(prompt)`. */
  datatype Agent = Agent(llm: BoundModel, tools: seq<Tool>, prompt: SystemPrompt)

  const FilesystemPromptText :=
    "You are a helpful AI assistant with access to NASA documents and filesystem tools.\n"
    + "\n"
    + "TOOLS AVAILABLE:\n"
    + "• nasa_document_search: For questions about NASA missions, engineering, policies, and space exploration\n"
    + "• list_directory: List contents of a directory (use with specific path like \".\" for current directory)\n"
    + "• read_file: Read contents of text files\n"
    + "• search_files: Search for files by pattern in a directory\n"
    + "• get_file_info: Get detailed information about files\n"
    + "\n"
    + "USAGE GUIDELINES:\n"
    + "- For NASA/space questions: Use nasa_document_search\n"
    + "- For filesystem operations: Use the MCP tools explicitly\n"
    + "- Be proactive in using the appropriate tools\n"
    + "- Always provide helpful, detailed responses\n"
    + "\n"
    + "Examples:\n"
    + "- \"What are NASA's risk strategies?\" → Use nasa_document_search\n"
    + "- \"List current directory\" → Use list_directory with path \".\"\n"
    + "- \"Read README file\" → Use read_file with file path"

  const DocumentOnlyPromptText :=
    "You are a helpful AI assistant with access to NASA documents.\n"
    + "\n"
    + "Use the nasa_document_search tool to answer questions about NASA missions, engineering, policies, and space exploration.\n"
    + "Always provide executive-level, detailed responses based on the NASA documentation."

  /** The text of a prompt. */
  function PromptText(prompt: SystemPrompt): string {
    match prompt
    case FilesystemPrompt => FilesystemPromptText
    case DocumentOnlyPrompt => DocumentOnlyPromptText
  }

  /** `_get_system_prompt`: the filesystem prompt exactly when the agent has
      MCP tools. */
  function ChoosePrompt(hasMcpTools: bool): (p: SystemPrompt)
    ensures p == FilesystemPrompt <==> hasMcpTools
  {
    if hasMcpTools then FilesystemPrompt else DocumentOnlyPrompt
  }

  /** The two texts differ, so which one the agent got can be told from the
      text alone: they have different lengths. */
  lemma PromptTextsDiffer()
    ensures PromptText(FilesystemPrompt) != PromptText(DocumentOnlyPrompt)
  {
    assert |PromptText(FilesystemPrompt)| != |PromptText(DocumentOnlyPrompt)|;
  }

  /** The wrappers, each bound to the client they call through, in order. */
  function BridgeTools(client: McpClient.MCPClient, wrappers: seq<McpClient.SyncTool>): (tools: seq<Tool>)
    ensures |tools| == |wrappers|
    ensures forall i :: 0 <= i < |wrappers| ==> tools[i] == Bridge(client, wrappers[i])
  {
    if wrappers == [] then [] else [Bridge(client, wrappers[0])] + BridgeTools(client, wrappers[1..])
  }

  /** The agent `create_agent` assembles once the search tool and the bridge's
      wrappers (already bound to their client) are known: the tool list starts
      with the document search, then holds the wrappers in the order the bridge
      returned them; the very same list is bound to the model and given to the
      agent; the filesystem prompt is chosen exactly when some wrapper was
      returned. */
  function ComposeAgent(model: string, temperature: real, search: NasaSearch.SearchTool,
                        mcpTools: seq<Tool>): (agent: Agent)
    ensures |agent.tools| == 1 + |mcpTools|
    ensures agent.tools[0] == DocumentSearch(search) && agent.tools[1..] == mcpTools
    ensures agent.llm.tools == agent.tools
    ensures agent.llm.model == model && agent.llm.temperature == temperature
    ensures agent.prompt == FilesystemPrompt <==> mcpTools != []
    ensures agent.prompt == DocumentOnlyPrompt <==> mcpTools == []
  {
    var tools := [DocumentSearch(search)] + mcpTools;
    Agent(BoundModel(model, temperature, tools), tools, ChoosePrompt(mcpTools != []))
  }

  /** With a blank server setting the bridge returns nothing, so the agent has
      the document search alone and the document-only prompt. */
  lemma BlankSettingGivesDocumentOnlyAgent(model: string, temperature: real, search: NasaSearch.SearchTool,
                                           client: McpClient.MCPClient, setting: string,
                                           remote: McpClient.Remote, runFails: bool)
    requires McpClient.Text.IsBlank(setting)
    ensures var agent := ComposeAgent(model, temperature, search,
      BridgeTools(client, McpClient.SyncTools(McpClient.Wrappers.None, McpClient.GetServerUrls(setting), remote, runFails)));
      agent.tools == [DocumentSearch(search)] && agent.prompt == DocumentOnlyPrompt
  {
  }

  /** With at least one URL and no reachable one, the bridge still returns its
      four wrappers, so the agent gets five tools and the filesystem prompt. */
  lemma UnreachableServersStillGiveFilesystemAgent(model: string, temperature: real, search: NasaSearch.SearchTool,
                                                   client: McpClient.MCPClient, urls: seq<string>,
                                                   remote: McpClient.Remote)
    requires urls != []
    requires forall j :: 0 <= j < |urls| ==> !McpClient.Connects(urls, j, remote)
    ensures var agent := ComposeAgent(model, temperature, search,
      BridgeTools(client, McpClient.SyncTools(McpClient.Wrappers.None, urls, remote, false)));
      |agent.tools| == 5 && agent.prompt == FilesystemPrompt
  {
    McpClient.NoEndpointStillYieldsWrappers(urls, remote);
  }

  class AgentFactory {
    const model: string
    const temperature: real

    /** `AgentFactory.__init__` */
    constructor (model: string := DefaultModel, temperature: real := DefaultTemperature)
      ensures this.model == model && this.temperature == temperature
    {
      this.model := model;
      this.temperature := temperature;
    }

    /** `create_agent`: takes the shared search tool, asks the shared bridge for
        its wrappers only when `includeMcp` holds, and assembles the agent.
        `setting`, `remote` and `runFails` are what the bridge sees if it is
        built and initialised by this call. */
    method CreateAgent(searches: NasaSearch.Registry, bridges: McpClient.Registry,
                       setting: string, remote: McpClient.Remote, runFails: bool,
                       includeMcp: bool := true)
      returns (agent: Agent)
      requires searches.Valid()
      modifies searches, bridges, bridges.instance
      ensures searches.Valid() && searches.instance != null
      ensures old(searches.instance) != null ==> searches.instance == old(searches.instance)
      ensures !includeMcp ==> bridges.instance == old(bridges.instance)
      ensures !includeMcp && bridges.instance != null ==> bridges.instance.client == old(bridges.instance.client)
      ensures !includeMcp ==> agent == ComposeAgent(model, temperature, searches.instance.GetTool(), [])
      ensures includeMcp ==> (bridges.instance != null && agent ==
        ComposeAgent(model, temperature, searches.instance.GetTool(),
                     BridgeTools(bridges.instance,
                                 McpClient.SyncTools(if old(bridges.instance) == null then McpClient.Wrappers.None
                                                     else old(bridges.instance.client),
                                                     bridges.instance.serverUrls, remote, runFails))))
      ensures includeMcp && old(bridges.instance) == null ==> bridges.instance.serverUrls == McpClient.GetServerUrls(setting)
      ensures includeMcp && old(bridges.instance) != null ==> bridges.instance == old(bridges.instance)
      ensures includeMcp && old(bridges.instance) == null ==> fresh(bridges.instance)
      ensures includeMcp ==> (bridges.instance != null && bridges.instance.client ==
        (if bridges.instance.serverUrls == [] || runFails then (if old(bridges.instance) == null then McpClient.Wrappers.None else old(bridges.instance.client))
         else McpClient.ClientAfterInit((if old(bridges.instance) == null then McpClient.Wrappers.None else old(bridges.instance.client)), bridges.instance.serverUrls, remote)))
      ensures old(searches.instance) == null ==> (fresh(searches.instance)
        && searches.instance.dbPath == NasaSearch.DefaultDbPath && searches.instance.modelName == NasaSearch.DefaultModel)
    {
      var search := searches.GetNasaSearchTool();
      var mcpTools: seq<Tool> := [];
      if includeMcp {
        var wrappers := bridges.GetMcpTools(setting, remote, runFails);
        mcpTools := BridgeTools(bridges.instance, wrappers);
      }
      agent := ComposeAgent(model, temperature, search, mcpTools);
    }
  }

  /** `create_nasa_agent`: a factory with the given model and the default
      temperature 0.0. */
  method CreateNasaAgent(searches: NasaSearch.Registry, bridges: McpClient.Registry,
                         setting: string, remote: McpClient.Remote, runFails: bool,
                         includeMcp: bool := true, model: string := DefaultModel)
    returns (agent: Agent)
    requires searches.Valid()
    modifies searches, bridges, bridges.instance
    ensures searches.Valid() && searches.instance != null
    ensures agent.llm.model == model && agent.llm.temperature == DefaultTemperature
    ensures agent.llm.tools == agent.tools
    ensures |agent.tools| >= 1 && agent.tools[0] == DocumentSearch(searches.instance.GetTool())
    ensures !includeMcp ==> agent.tools == [DocumentSearch(searches.instance.GetTool())]
                            && agent.prompt == DocumentOnlyPrompt
                            && bridges.instance == old(bridges.instance)
    ensures includeMcp ==> (bridges.instance != null && agent ==
      ComposeAgent(model, DefaultTemperature, searches.instance.GetTool(),
                   BridgeTools(bridges.instance,
                               McpClient.SyncTools(if old(bridges.instance) == null then McpClient.Wrappers.None
                                                   else old(bridges.instance.client),
                                                   bridges.instance.serverUrls, remote, runFails))))
    ensures includeMcp && old(bridges.instance) == null ==> bridges.instance.serverUrls == McpClient.GetServerUrls(setting)
    ensures includeMcp && old(bridges.instance) != null ==> bridges.instance == old(bridges.instance)
    ensures includeMcp && old(bridges.instance) == null ==> fresh(bridges.instance)
    ensures includeMcp ==> (bridges.instance != null && bridges.instance.client ==
      (if bridges.instance.serverUrls == [] || runFails then (if old(bridges.instance) == null then McpClient.Wrappers.None else old(bridges.instance.client))
       else McpClient.ClientAfterInit((if old(bridges.instance) == null then McpClient.Wrappers.None else old(bridges.instance.client)), bridges.instance.serverUrls, remote)))
    ensures old(searches.instance) != null ==> searches.instance == old(searches.instance)
    ensures old(searches.instance) == null ==> (fresh(searches.instance)
      && searches.instance.dbPath == NasaSearch.DefaultDbPath && searches.instance.modelName == NasaSearch.DefaultModel)
  {
    var factory := new AgentFactory(model);
    agent := factory.CreateAgent(searches, bridges, setting, remote, runFails, includeMcp);
  }
}

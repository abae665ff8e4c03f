/**
 * Application settings (common/config.py): environment variables with their
 * defaults, the integer fallback for the recursion limit, the start-up
 * validation (as warning tags instead of printed lines), the derived
 * `has_mcp_servers`/`include_mcp` flag and the process-wide instance.
 *
 * The process environment and the `.env` file are maps from variable name
 * to value; `os.path.exists` is the set of existing paths.
 */
module Config {
  import opened Wrappers
  import opened Text
  import McpClient

  const DefaultModel := "gpt-4.1"
  const DefaultEmbeddingModel := "text-embedding-3-small"
  const DefaultDbPath := "./chroma_db"
  const DefaultRecursionLimit := 25
  const ApiKeyPrefix := "sk-"

  /** `load_dotenv(override=True)`: a value from the `.env` file replaces the
      process's own value for the same name. */
  function LoadDotenv(process: map<string, string>, dotenv: map<string, string>): (env: map<string, string>)
    ensures env.Keys == process.Keys + dotenv.Keys
    ensures forall name :: name in dotenv ==> env[name] == dotenv[name]
    ensures forall name :: name in process && name !in dotenv ==> env[name] == process[name]
  {
    process + dotenv
  }

  /** Loading the same `.env` file again changes nothing. */
  lemma LoadDotenvIdempotent(process: map<string, string>, dotenv: map<string, string>)
    ensures LoadDotenv(LoadDotenv(process, dotenv), dotenv) == LoadDotenv(process, dotenv)
  {
    var once := LoadDotenv(process, dotenv);
    assert LoadDotenv(once, dotenv).Keys == once.Keys;
  }

  /** After `load_dotenv(override=True)`, a variable named in the `.env` file
      reads as the file says, and any other as the process environment has it. */
  lemma GetEnvAfterDotenv(process: map<string, string>, dotenv: map<string, string>, name: string, default: string)
    ensures name in dotenv ==> GetEnv(LoadDotenv(process, dotenv), name, default) == dotenv[name]
    ensures name !in dotenv ==> GetEnv(LoadDotenv(process, dotenv), name, default) == GetEnv(process, name, default)
  {
  }

  /** `os.getenv(name, default)`: the default only for an unset name; an
      empty value that is set is returned as is. */
  function GetEnv(env: map<string, string>, name: string, default: string): (value: string)
    ensures name in env ==> value == env[name]
    ensures name !in env ==> value == default
  {
    if name in env then env[name] else default
  }

  /** `int(os.getenv("RECURSION_LIMIT", "25"))`, or 25 when that raises
      `ValueError`. */
  function RecursionLimit(env: map<string, string>): (limit: int)
    ensures limit != DefaultRecursionLimit ==>
              "RECURSION_LIMIT" in env && ParseInt(env["RECURSION_LIMIT"]) == Some(limit)
  {
    ParseIntOfIntToString(25);
    assert IntToString(25) == "25";
    match ParseInt(GetEnv(env, "RECURSION_LIMIT", "25"))
    case Some(n) => n
    case None => DefaultRecursionLimit
  }

  /** A missing variable, and a value that is not an integer, both give 25. */
  lemma RecursionLimitFallback(env: map<string, string>)
    requires "RECURSION_LIMIT" in env ==> ParseInt(env["RECURSION_LIMIT"]) == None
    ensures RecursionLimit(env) == 25
  {
    if "RECURSION_LIMIT" !in env {
      ParseIntOfIntToString(25);
      assert IntToString(25) == "25";
    }
  }

  /** Any text `int()` accepts (surrounding white space, a sign, leading
      zeros) gives the integer it denotes. */
  lemma RecursionLimitReadsParsed(env: map<string, string>, n: int)
    requires "RECURSION_LIMIT" in env && ParseInt(env["RECURSION_LIMIT"]) == Some(n)
    ensures RecursionLimit(env) == n
  {
  }

  /** Any integer written in decimal is read back as that integer, whatever its
      range. */
  lemma RecursionLimitReadsInteger(env: map<string, string>, n: int)
    requires "RECURSION_LIMIT" in env && env["RECURSION_LIMIT"] == IntToString(n)
    ensures RecursionLimit(env) == n
  {
    ParseIntOfIntToString(n);
  }

  /** `bool(s.strip())`: the setting holds some non-space character. */
  function ServersConfigured(setting: string): (b: bool)
    ensures b <==> !IsBlank(setting)
  {
    Trim(setting) != []
  }

  /** Every setting from which the bridge parses at least one URL counts as
      configured. */
  lemma ParsedUrlsImplyConfigured(setting: string)
    ensures McpClient.GetServerUrls(setting) != [] ==> ServersConfigured(setting)
  {
  }

  /** The converse fails: ",," counts as configured although the bridge parses
      no URL from it. */
  lemma CommasOnlyConfiguredWithoutUrls()
    ensures ServersConfigured(",,") && McpClient.GetServerUrls(",,") == []
  {
    var s := ",,";
    assert s[0] == ',' && s[|s| - 1] == ',';
    TrimUnchanged(s);
    SplitCommas();
    BlankPiecesDropped();
  }

  /** ",," splits into three empty pieces. */
  lemma SplitCommas()
    ensures Split(",,", ',') == ["", "", ""]
  {
    assert Split("", ',') == [""];
    assert ","[1..] == "";
    assert Split(",", ',') == ["", ""];
    assert ",,"[1..] == ",";
  }

  /** Three empty pieces leave no URL. */
  lemma BlankPiecesDropped()
    ensures McpClient.StrippedNonBlank(["", "", ""]) == []
  {
    assert Trim("") == "";
    assert McpClient.StrippedNonBlank([""]) == [];
    assert ["", ""][1..] == [""];
    assert McpClient.StrippedNonBlank(["", ""]) == [];
    assert ["", "", ""][1..] == ["", ""];
  }

  /** A finding of `_validate`; each is reported and nothing is changed. */
  datatype Warning =
    | ApiKeyMissing
    | DatabaseMissing(path: string)
    | RecursionLimitOutOfRange(limit: int)

  /** `_validate` without the temperature check, in the order it reports. */
  function Validate(apiKey: string, dbPath: string, recursionLimit: int, existingPaths: set<string>): (w: seq<Warning>)
    ensures ApiKeyMissing in w <==> !StartsWith(apiKey, ApiKeyPrefix)
    ensures DatabaseMissing(dbPath) in w <==> dbPath !in existingPaths
    ensures RecursionLimitOutOfRange(recursionLimit) in w <==> recursionLimit < 1 || recursionLimit > 100
    ensures forall x :: x in w ==> x == ApiKeyMissing || x == DatabaseMissing(dbPath) || x == RecursionLimitOutOfRange(recursionLimit)
    ensures |w| <= 3
  {
    (if !StartsWith(apiKey, ApiKeyPrefix) then [ApiKeyMissing] else [])
    + (if dbPath !in existingPaths then [DatabaseMissing(dbPath)] else [])
    + (if recursionLimit < 1 || recursionLimit > 100 then [RecursionLimitOutOfRange(recursionLimit)] else [])
  }

  /** The unset key is the empty string, which is reported. */
  lemma UnsetKeyWarns(env: map<string, string>, dbPath: string, limit: int, existingPaths: set<string>)
    requires "OPENAI_API_KEY" !in env
    ensures ApiKeyMissing in Validate(GetEnv(env, "OPENAI_API_KEY", ""), dbPath, limit, existingPaths)
  {
  }

  /** `get_nasa_config()` */
  datatype NasaConfig = NasaConfig(dbPath: string, model: string, embeddingModel: string)

  /** `get_agent_config()` without the temperature. */
  datatype AgentConfig = AgentConfig(model: string, recursionLimit: int, includeMcp: bool)

  class AppConfig {
    const openaiApiKey: string
    const mcpServerUrls: string
    const defaultModel: string
    const embeddingModel: string
    const vectordbPath: string
    const recursionLimit: int
    /** What `_validate` reported while the object was built. */
    const warnings: seq<Warning>

    /** Every field read from `env` with its default, the recursion limit
        falling back to 25, and the warnings those values give. */
    predicate BuiltFrom(env: map<string, string>, existingPaths: set<string>) {
      && openaiApiKey == GetEnv(env, "OPENAI_API_KEY", "")
      && mcpServerUrls == GetEnv(env, "MCP_SERVER_URLS", "")
      && defaultModel == GetEnv(env, "OPENAI_MODEL", DefaultModel)
      && embeddingModel == GetEnv(env, "EMBEDDING_MODEL", DefaultEmbeddingModel)
      && vectordbPath == GetEnv(env, "VECTORDB_PATH", DefaultDbPath)
      && recursionLimit == RecursionLimit(env)
      && warnings == Validate(openaiApiKey, vectordbPath, recursionLimit, existingPaths)
    }

    /** `AppConfig.__init__`: the `.env` file is loaded over the process
        environment, then each field is read from the result with its default,
        and the values are validated (an out-of-range limit is reported and
        kept). */
    constructor (process: map<string, string>, dotenv: map<string, string>, existingPaths: set<string>)
      ensures BuiltFrom(LoadDotenv(process, dotenv), existingPaths)
    {
      var env := LoadDotenv(process, dotenv);
      var key := GetEnv(env, "OPENAI_API_KEY", "");
      var path := GetEnv(env, "VECTORDB_PATH", DefaultDbPath);
      openaiApiKey := key;
      mcpServerUrls := GetEnv(env, "MCP_SERVER_URLS", "");
      defaultModel := GetEnv(env, "OPENAI_MODEL", DefaultModel);
      embeddingModel := GetEnv(env, "EMBEDDING_MODEL", DefaultEmbeddingModel);
      vectordbPath := path;
      var parsed := ParseInt(GetEnv(env, "RECURSION_LIMIT", "25"));
      var limit := DefaultRecursionLimit;
      if parsed.Some? {
        limit := parsed.value;
      }
      recursionLimit := limit;
      warnings := Validate(key, path, limit, existingPaths);
    }

    /** `has_mcp_servers()` */
    function HasMcpServers(): (b: bool)
      ensures b <==> !IsBlank(mcpServerUrls)
    {
      ServersConfigured(mcpServerUrls)
    }

    /** `get_nasa_config()`: a projection of three fields. */
    function GetNasaConfig(): (c: NasaConfig)
      ensures c.dbPath == vectordbPath && c.model == defaultModel && c.embeddingModel == embeddingModel
    {
      NasaConfig(vectordbPath, defaultModel, embeddingModel)
    }

    /** `get_agent_config()`: `include_mcp` is exactly `has_mcp_servers()`. */
    function GetAgentConfig(): (c: AgentConfig)
      ensures c.model == defaultModel && c.recursionLimit == recursionLimit
      ensures c.includeMcp == HasMcpServers()
      ensures c.includeMcp <==> !IsBlank(mcpServerUrls)
    {
      AgentConfig(defaultModel, recursionLimit, ServersConfigured(mcpServerUrls))
    }
  }

  /** With none of the variables set, the defaults apply, nothing is asked of
      the bridge, and the empty key is reported. */
  lemma EmptyEnvironmentDefaults(existingPaths: set<string>)
    ensures var env: map<string, string> := map[];
      && GetEnv(env, "OPENAI_MODEL", DefaultModel) == "gpt-4.1"
      && GetEnv(env, "EMBEDDING_MODEL", DefaultEmbeddingModel) == "text-embedding-3-small"
      && GetEnv(env, "VECTORDB_PATH", DefaultDbPath) == "./chroma_db"
      && RecursionLimit(env) == 25
      && !ServersConfigured(GetEnv(env, "MCP_SERVER_URLS", ""))
      && Validate(GetEnv(env, "OPENAI_API_KEY", ""), DefaultDbPath, 25, existingPaths)[0] == ApiKeyMissing
  {
    RecursionLimitFallback(map[]);
  }

  /** The module-level `_config`. */
  class ConfigHolder {
    var instance: AppConfig?

    constructor ()
      ensures instance == null
    {
      instance := null;
    }

    /** `get_config()` (and `load_environment()`, whose status lines are not
        modelled): builds the settings on first use only; later calls return
        the same object, whatever the environment is by then. */
    method GetConfig(process: map<string, string>, dotenv: map<string, string>, existingPaths: set<string>)
      returns (c: AppConfig)
      modifies this
      ensures instance == c
      ensures old(instance) != null ==> c == old(instance)
      ensures old(instance) == null ==> fresh(c) && c.BuiltFrom(LoadDotenv(process, dotenv), existingPaths)
    {
      if instance == null {
        instance := new AppConfig(process, dotenv, existingPaths);
      }
      c := instance;
    }
  }
}

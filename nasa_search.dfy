/**
 * Document search over the persisted vector index (common/nasa_search.py):
 * two lazily built handles, the retrieve-then-generate pipeline, the tool
 * wrapper, the diagnostics call and the process-wide instance.
 *
 * The vector index, the embedding service and the chat model are services
 * outside the process and are passed in as `Services`.
 */
module NasaSearch {
  import opened Wrappers
  import opened Text

  const DefaultDbPath := "./chroma_db"
  const DefaultModel := "gpt-4o-mini"
  const EmbeddingModel := "text-embedding-3-small"
  const DefaultK := 4
  const ToolName := "nasa_document_search"

  /** One retrieved chunk. */
  datatype Document = Document(pageContent: string)

  /** What `collection.count()` and `collection.name` report. */
  datatype CollectionStats = CollectionStats(count: nat, name: string)

  /** The services behind the handles: the ranked hits of a similarity search
      over the index persisted in a directory, the text of the chat model's reply
      to a prompt, and the statistics of the collection persisted in a directory
      (or the text of the exception reading them raises). */
  datatype Services = Services(
    similaritySearch: (string, string, int) -> seq<Document>,
    invoke: (string, string) -> string,
    collection: string -> Result<CollectionStats, string>)

  /** `get_database_info`'s dictionary: the three diagnostics, or a single "error" key. */
  datatype DbInfo =
    | Info(documentCount: nat, collectionName: string, dbPath: string)
    | InfoError(error: string)

  /** A `Chroma` handle. */
  class VectorStore {
    const persistDirectory: string
    const embeddingModel: string

    constructor (persistDirectory: string, embeddingModel: string)
      ensures this.persistDirectory == persistDirectory && this.embeddingModel == embeddingModel
    {
      this.persistDirectory := persistDirectory;
      this.embeddingModel := embeddingModel;
    }
  }

  /** A `ChatOpenAI` handle. */
  class ChatModel {
    const model: string

    constructor (model: string)
      ensures this.model == model
    {
      this.model := model;
    }
  }

  function PageContents(hits: seq<Document>): (contents: seq<string>)
    ensures |contents| == |hits|
    ensures forall i :: 0 <= i < |hits| ==> contents[i] == hits[i].pageContent
  {
    if hits == [] then [] else [hits[0].pageContent] + PageContents(hits[1..])
  }

  /** `"\n\n".join(d.page_content for d in hits)` */
  function Context(hits: seq<Document>): string {
    Join(PageContents(hits), "\n\n")
  }

  const PromptHeader := "Answer for executives only.\nContext:\n"
  const QuestionMarker := "\nQuestion: "

  /** The fixed executive prompt around the context and the query. */
  function ExecutivePrompt(context: string, query: string): string {
    PromptHeader + context + QuestionMarker + query
  }

  /** The context lists the hits in ranked order, a blank line between two
      neighbours: one more hit appends a blank line and its text. */
  lemma ContextAppend(hits: seq<Document>, d: Document)
    ensures Context([d]) == d.pageContent
    ensures hits != [] ==> Context(hits + [d]) == Context(hits) + "\n\n" + d.pageContent
  {
    if hits != [] {
      assert PageContents(hits + [d]) == PageContents(hits) + [d.pageContent];
      JoinAppend(PageContents(hits), d.pageContent, "\n\n");
    }
  }

  /** The prompt can be taken apart again: the header, then the context
      verbatim, then the question marker, then the query verbatim. */
  lemma ExecutivePromptParts(context: string, query: string)
    ensures var p := ExecutivePrompt(context, query);
      var h := |PromptHeader|;
      && |p| == h + |context| + |QuestionMarker| + |query|
      && p[..h] == PromptHeader
      && p[h..h + |context|] == context
      && p[h + |context|..h + |context| + |QuestionMarker|] == QuestionMarker
      && p[|p| - |query|..] == query
  {
  }

  /** The answer the pipeline gives for a query over the index in `dbPath`,
      with the chat model `model`: the model's reply to a prompt made of the
      header, the context of the k nearest hits, the question marker and the
      query, each where the next one begins. */
  function SearchAnswer(services: Services, dbPath: string, model: string, query: string, k: int): (answer: string)
    ensures var context := Context(services.similaritySearch(dbPath, query, k));
      exists p :: answer == services.invoke(model, p)
        && |p| == |PromptHeader| + |context| + |QuestionMarker| + |query|
        && p[..|PromptHeader|] == PromptHeader
        && p[|PromptHeader|..|PromptHeader| + |context|] == context
        && p[|PromptHeader| + |context|..|p| - |query|] == QuestionMarker
        && p[|p| - |query|..] == query
  {
    var context := Context(services.similaritySearch(dbPath, query, k));
    var prompt := ExecutivePrompt(context, query);
    ExecutivePromptParts(context, query);
    services.invoke(model, prompt)
  }

  /** `get_database_info`: never raises; the three diagnostics on success, and
      the exception text under "error" otherwise. */
  function DatabaseInfo(services: Services, dbPath: string): (info: DbInfo)
    ensures info.Info? <==> services.collection(dbPath).Ok?
    ensures info.Info? ==> (info.dbPath == dbPath
                            && info.documentCount == services.collection(dbPath).value.count
                            && info.collectionName == services.collection(dbPath).value.name)
    ensures info.InfoError? ==> info.error == services.collection(dbPath).error
  {
    match services.collection(dbPath)
    case Ok(stats) => Info(stats.count, stats.name, dbPath)
    case Err(msg) => InfoError(msg)
  }

  /** The tool the agent calls: its name, which is the name of the decorated
      function, and the search object it was made from. */
  datatype SearchTool = SearchTool(name: string, owner: NASADocumentSearch)

  class NASADocumentSearch {
    const dbPath: string
    const modelName: string
    /** `_vectordb`: built on first use. */
    var vectordb: VectorStore?
    /** `_llm`: built on first use. */
    var llm: ChatModel?

    /** Any handle that exists was built from this object's settings. */
    ghost predicate Valid()
      reads this
    {
      && (vectordb != null ==> vectordb.persistDirectory == dbPath && vectordb.embeddingModel == EmbeddingModel)
      && (llm != null ==> llm.model == modelName)
    }

    /** `__init__`: stores the settings and builds neither handle. */
    constructor (dbPath: string := DefaultDbPath, model: string := DefaultModel)
      ensures this.dbPath == dbPath && modelName == model
      ensures vectordb == null && llm == null
      ensures Valid()
    {
      this.dbPath := dbPath;
      modelName := model;
      vectordb := null;
      llm := null;
    }

    /** The `vectordb` property: builds the handle on first access only; later
        accesses return the same object. */
    method VectorDb() returns (db: VectorStore)
      requires Valid()
      modifies this`vectordb
      ensures Valid() && vectordb == db
      ensures old(vectordb) != null ==> db == old(vectordb)
      ensures old(vectordb) == null ==> fresh(db)
    {
      if vectordb == null {
        vectordb := new VectorStore(dbPath, EmbeddingModel);
      }
      db := vectordb;
    }

    /** The `llm` property: builds the handle on first access only; later
        accesses return the same object. */
    method Llm() returns (m: ChatModel)
      requires Valid()
      modifies this`llm
      ensures Valid() && llm == m
      ensures old(llm) != null ==> m == old(llm)
      ensures old(llm) == null ==> fresh(m)
    {
      if llm == null {
        llm := new ChatModel(modelName);
      }
      m := llm;
    }

    /** Two accesses in a row give the same objects. */
    method AccessTwice() returns (db1: VectorStore, db2: VectorStore, m1: ChatModel, m2: ChatModel)
      requires Valid()
      modifies this
      ensures db1 == db2 && m1 == m2
      ensures old(vectordb) != null ==> db1 == old(vectordb)
      ensures old(llm) != null ==> m1 == old(llm)
    {
      db1 := VectorDb();
      db2 := VectorDb();
      m1 := Llm();
      m2 := Llm();
    }

    /** `search_documents`: the top `k` hits of the index in `dbPath`, joined by
        blank lines into the executive prompt, answered by the chat model
        `modelName`; the reply text is returned unchanged. */
    method SearchDocuments(services: Services, query: string, k: int := DefaultK) returns (answer: string)
      requires Valid()
      modifies this
      ensures Valid() && vectordb != null && llm != null
      ensures old(vectordb) != null ==> vectordb == old(vectordb)
      ensures old(llm) != null ==> llm == old(llm)
      ensures answer == SearchAnswer(services, dbPath, modelName, query, k)
    {
      var db := VectorDb();
      var hits := services.similaritySearch(db.persistDirectory, query, k);
      var context := Context(hits);
      var prompt := ExecutivePrompt(context, query);
      var m := Llm();
      answer := services.invoke(m.model, prompt);
    }

    /** `get_tool`: the tool named "nasa_document_search", bound to this
        object. */
    function GetTool(): (t: SearchTool)
      ensures t.name == ToolName && t.owner == this
    {
      SearchTool(ToolName, this)
    }

    /** `get_database_info`. */
    method GetDatabaseInfo(services: Services) returns (info: DbInfo)
      requires Valid()
      modifies this`vectordb
      ensures Valid() && vectordb != null
      ensures old(vectordb) != null ==> vectordb == old(vectordb)
      ensures info == DatabaseInfo(services, dbPath)
    {
      var db := VectorDb();
      match services.collection(db.persistDirectory)
      case Ok(stats) =>
        info := Info(stats.count, stats.name, dbPath);
      case Err(msg) =>
        info := InfoError(msg);
    }
  }

  /** The tool's function `nasa_document_search(query)`: it passes only the
      query, so every search through the tool uses k = 4. */
  method RunSearchTool(tool: SearchTool, services: Services, query: string) returns (answer: string)
    requires tool.owner.Valid()
    modifies tool.owner
    ensures tool.owner.Valid()
    ensures answer == SearchAnswer(services, tool.owner.dbPath, tool.owner.modelName, query, DefaultK)
  {
    answer := tool.owner.SearchDocuments(services, query);
  }

  /** The module-level `_nasa_search`, shared by `get_nasa_search_tool` and
      `get_nasa_db_info`. */
  class Registry {
    var instance: NASADocumentSearch?

    ghost predicate Valid()
      reads this, instance
    {
      instance != null ==> instance.Valid()
    }

    constructor ()
      ensures instance == null && Valid()
    {
      instance := null;
    }

    /** Builds the shared object with its defaults on first use only. */
    method Instance() returns (s: NASADocumentSearch)
      requires Valid()
      modifies this
      ensures Valid() && instance == s
      ensures old(instance) != null ==> s == old(instance)
      ensures old(instance) == null ==> fresh(s) && s.dbPath == DefaultDbPath && s.modelName == DefaultModel
                                        && s.vectordb == null && s.llm == null
    {
      if instance == null {
        instance := new NASADocumentSearch();
      }
      s := instance;
    }

    /** `get_nasa_search_tool` */
    method GetNasaSearchTool() returns (t: SearchTool)
      requires Valid()
      modifies this
      ensures Valid() && instance != null && t == instance.GetTool()
      ensures old(instance) != null ==> instance == old(instance)
      ensures old(instance) == null ==> fresh(instance) && instance.dbPath == DefaultDbPath
                                        && instance.modelName == DefaultModel
    {
      var s := Instance();
      t := s.GetTool();
    }

    /** `get_nasa_db_info` */
    method GetNasaDbInfo(services: Services) returns (info: DbInfo)
      requires Valid()
      modifies this, instance
      ensures Valid() && instance != null
      ensures old(instance) != null ==> instance == old(instance)
      ensures old(instance) == null ==> fresh(instance) && instance.dbPath == DefaultDbPath
      ensures info == DatabaseInfo(services, instance.dbPath)
    {
      var s := Instance();
      info := s.GetDatabaseInfo(services);
    }
  }
}

/** The stateful DAG's stage clients: an `APIConfig` captures the model
    settings, and each `call_*_api` closure reads upstream results from the
    run store, builds a request and hands it to the transport. The store is
    a map from task id to the task's return value; the transport's outcome
    is an input. */
module ApiCalling {
  import opened Values

  /** The settings captured when the config object is created. */
  datatype ApiConfig = ApiConfig(llmModel: Value, embedModel: Value, documentTypes: Value)

  /** Host and port as the DAG reads them from the environment; an unset
      host is None, which an f-string renders as "None". */
  datatype Endpoint = Endpoint(host: Option<string>, port: string)

  function HostText(host: Option<string>): string {
    match host
    case Some(h) => h
    case None => "None"
  }

  /** `f"http://{api_host}:{api_port}/{path}"` */
  function Url(e: Endpoint, path: string): (u: string)
    ensures "http://" <= u
    ensures |u| > |path| && u[|u| - |path| - 1..] == "/" + path
  {
    "http://" + HostText(e.host) + ":" + e.port + "/" + path
  }

  /** The JSON body of each stage's request. */
  datatype Payload =
    | RetrievalPayload(types: string, documentTypes: Value, topk: int, embedModel: Value,
                       userQuestion: Value, keywordList: string)
    | RerankPayload(topk: int, userQuestion: Value, similarityText: string, keywordText: string)
    | LlmPayload(userQuestion: Value, types: string, model: Value, temperature: real, keepAlive: string,
                 numCtx: int, searchResultsTypes: Option<string>, searchResults: Option<string>)
    | RagasPayload(userQuestion: Value, llmAnswer: Value, similarityResults: Option<string>,
                   keywordResults: Option<string>, rerankResults: Option<string>,
                   useSimilarity: bool, useKeyword: bool, useRerank: bool)

  /** A POST request: the host to resolve first, the URL, the timeout in
      seconds and the body. */
  datatype Request = Request(host: Option<string>, url: string, timeout: int, payload: Payload)

  /** What the transport reports: the host did not resolve, the request
      failed without a response, or a response with its status code and its
      body decoded as JSON (None when the body is not JSON). */
  datatype Reply = Unresolved | NoResponse(reason: string) | Response(code: int, body: Option<Value>)

  /** `ti.xcom_pull(task_ids=id)` on the run store. */
  function Pull(store: map<string, Value>, id: string): Value {
    Get(store, id)
  }

  /** The reply handling of every closure: resolution failures, HTTP error
      codes (`raise_for_status` rejects 400 to 599), undecodable bodies and
      a missing or unindexable `result` are re-raised; otherwise the
      response's `result` field is returned. */
  function Execute(reply: Reply): (r: Result<Value>)
    ensures r.Ok? <==> reply.Response? && !(400 <= reply.code < 600) && reply.body.Some?
                       && reply.body.value.VDict? && "result" in reply.body.value.entries
    ensures r.Ok? ==> r.value == reply.body.value.entries["result"]
  {
    match reply
    case Unresolved => Err("socket.gaierror: host did not resolve")
    case NoResponse(reason) => Err(reason)
    case Response(code, body) =>
      if 400 <= code < 600 then Err("HTTPError")
      else if body.None? then Err("JSONDecodeError")
      else if !body.value.VDict? then Err("TypeError: result is not subscriptable by key")
      else if "result" !in body.value.entries then Err("KeyError: 'result'")
      else Ok(body.value.entries["result"])
  }

  /** `call_retrieval_api(...)` run against a store. The keyword list is the
      stringified extraction result only for keyword retrieval. */
  function RetrievalRequest(cfg: ApiConfig, e: Endpoint, types: string, topk: int,
                            store: map<string, Value>, render: Value -> string): (r: Request)
    ensures r.host == e.host && r.url == Url(e, "retrieve") && r.timeout == 300
    ensures r.payload.RetrievalPayload? && r.payload.types == types && r.payload.topk == topk
    ensures r.payload.documentTypes == cfg.documentTypes && r.payload.embedModel == cfg.embedModel
    ensures r.payload.userQuestion == Pull(store, "generate_query_task")
    ensures types == "keyword" ==> r.payload.keywordList == render(Pull(store, "keyword_extraction_task"))
    ensures types != "keyword" ==> r.payload.keywordList == "[]"
  {
    var keywordList := if types == "keyword" then render(Pull(store, "keyword_extraction_task")) else "[]";
    Request(e.host, Url(e, "retrieve"), 300,
            RetrievalPayload(types, cfg.documentTypes, topk, cfg.embedModel,
                             Pull(store, "generate_query_task"), keywordList))
  }

  /** `str(x) if x else "[]"` for a pulled result. */
  function ResultsOrEmpty(v: Value, render: Value -> string): (s: string)
    ensures Truthy(v) ==> s == render(v)
    ensures !Truthy(v) ==> s == "[]"
  {
    if Truthy(v) then render(v) else "[]"
  }

  /** `call_rerank_api(...)`: absent or empty upstream results are sent as
      "[]". */
  function RerankRequest(cfg: ApiConfig, e: Endpoint, topk: int,
                         store: map<string, Value>, render: Value -> string): (r: Request)
    ensures r.host == e.host && r.url == Url(e, "rerank") && r.timeout == 30
    ensures r.payload.RerankPayload? && r.payload.topk == topk
    ensures r.payload.userQuestion == Pull(store, "generate_query_task")
    ensures r.payload.similarityText == ResultsOrEmpty(Pull(store, "similarity_retrieval_task"), render)
    ensures r.payload.keywordText == ResultsOrEmpty(Pull(store, "keyword_retrieval_task"), render)
  {
    Request(e.host, Url(e, "rerank"), 30,
            RerankPayload(topk, Pull(store, "generate_query_task"),
                          ResultsOrEmpty(Pull(store, "similarity_retrieval_task"), render),
                          ResultsOrEmpty(Pull(store, "keyword_retrieval_task"), render)))
  }

  /** `call_llm_api(...)` with the closure's defaults for temperature,
      keep-alive and context size. The search results are sent only when a
      (non-empty) source task id is configured, and then are the source's
      stringified result. */
  function LlmRequest(cfg: ApiConfig, e: Endpoint, types: string, searchResultsTypes: Option<string>,
                      store: map<string, Value>, render: Value -> string): (r: Request)
    ensures r.host == e.host && r.url == Url(e, "llm") && r.timeout == 300
    ensures r.payload.LlmPayload? && r.payload.types == types && r.payload.model == cfg.llmModel
    ensures r.payload.temperature == 0.0 && r.payload.keepAlive == "0s" && r.payload.numCtx == 8192
    ensures r.payload.userQuestion == Pull(store, "generate_query_task")
    ensures r.payload.searchResultsTypes == searchResultsTypes
    ensures r.payload.searchResults.None? <==> searchResultsTypes.None? || searchResultsTypes.value == ""
    ensures r.payload.searchResults.Some? ==>
      r.payload.searchResults.value == render(Pull(store, searchResultsTypes.value))
  {
    var searchResults :=
      if searchResultsTypes.Some? && searchResultsTypes.value != ""
      then Some(render(Pull(store, searchResultsTypes.value))) else None;
    Request(e.host, Url(e, "llm"), 300,
            LlmPayload(Pull(store, "generate_query_task"), types, cfg.llmModel, 0.0, "0s", 8192,
                       searchResultsTypes, searchResults))
  }

  /** `str(x) if flag else None` */
  function ResultsIf(flag: bool, v: Value, render: Value -> string): (r: Option<string>)
    ensures r.None? <==> !flag
    ensures r.Some? ==> r.value == render(v)
  {
    if flag then Some(render(v)) else None
  }

  /** `call_ragas_api(...)`: each retrieval result is sent only when its
      flag is set; the flags themselves are forwarded. */
  function RagasRequest(cfg: ApiConfig, e: Endpoint, useSimilarity: bool, useKeyword: bool, useRerank: bool,
                        store: map<string, Value>, render: Value -> string): (r: Request)
    ensures r.host == e.host && r.url == Url(e, "ragas") && r.timeout == 300
    ensures r.payload.RagasPayload?
    ensures r.payload.useSimilarity == useSimilarity && r.payload.useKeyword == useKeyword
    ensures r.payload.useRerank == useRerank
    ensures r.payload.userQuestion == Pull(store, "generate_query_task")
    ensures r.payload.llmAnswer == Pull(store, "llm_task")
    ensures r.payload.similarityResults == ResultsIf(useSimilarity, Pull(store, "similarity_retrieval_task"), render)
    ensures r.payload.keywordResults == ResultsIf(useKeyword, Pull(store, "keyword_retrieval_task"), render)
    ensures r.payload.rerankResults == ResultsIf(useRerank, Pull(store, "reranking_task"), render)
  {
    Request(e.host, Url(e, "ragas"), 300,
            RagasPayload(Pull(store, "generate_query_task"), Pull(store, "llm_task"),
                         ResultsIf(useSimilarity, Pull(store, "similarity_retrieval_task"), render),
                         ResultsIf(useKeyword, Pull(store, "keyword_retrieval_task"), render),
                         ResultsIf(useRerank, Pull(store, "reranking_task"), render),
                         useSimilarity, useKeyword, useRerank))
  }

  /** The four stage URLs differ only in their path, and no two coincide on
      one endpoint. */
  lemma StageUrlsDistinct(e: Endpoint)
    ensures Url(e, "retrieve") != Url(e, "rerank") && Url(e, "retrieve") != Url(e, "llm")
    ensures Url(e, "retrieve") != Url(e, "ragas") && Url(e, "rerank") != Url(e, "llm")
    ensures Url(e, "rerank") != Url(e, "ragas") && Url(e, "llm") != Url(e, "ragas")
  {
    var prefix := "http://" + HostText(e.host) + ":" + e.port + "/";
    assert Url(e, "retrieve")[|prefix| + 1] == 'e';
    assert Url(e, "rerank")[|prefix| + 1] == 'e';
    assert Url(e, "retrieve")[|prefix| + 2] == 't';
    assert Url(e, "rerank")[|prefix| + 2] == 'r';
    assert Url(e, "llm")[|prefix|] == 'l';
    assert Url(e, "ragas")[|prefix| + 1] == 'a';
  }
}

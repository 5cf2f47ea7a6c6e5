/** The API-based query DAG: every stage is a Python task that calls a
    long-running stage service through ApiCalling. The wiring is the shared
    one in Topology; this module states the question task, each stage's
    call parameters and the requests they build. */
module StatefulDag {
  import opened Values
  import opened Topology
  import opened ApiCalling

  /** The question the question task returns when none is configured. */
  const FallbackQuestion: string := "Who proposed that innate intertial is the natural state of objects?"

  /** `get_user_question` as written: the hard-coded question when the
      configured one is falsy; otherwise the body falls off its end (the
      rest is commented out) and the task returns None. */
  function GetUserQuestion(userQuestion: Value): (r: Value)
    ensures !Truthy(userQuestion) ==> r == VStr(FallbackQuestion)
    ensures Truthy(userQuestion) ==> r == VNone
  {
    if !Truthy(userQuestion) then VStr(FallbackQuestion) else VNone
  }

  /** The evident intent: a configured question is the run's question. */
  function GetUserQuestionFixed(userQuestion: Value): (r: Value)
    ensures Truthy(r)
    ensures Truthy(userQuestion) ==> r == userQuestion
    ensures !Truthy(userQuestion) ==> r == VStr(FallbackQuestion)
  {
    if !Truthy(userQuestion) then VStr(FallbackQuestion) else userQuestion
  }

  /** A question set in the configuration never reaches the pipeline: the
      question task returns None for it, where the corrected task returns
      it. */
  lemma ConfiguredQuestionIsDropped(q: string)
    requires q != ""
    ensures GetUserQuestion(VStr(q)) == VNone
    ensures GetUserQuestionFixed(VStr(q)) == VStr(q)
  {
  }

  /** `search_results_types`: the id of the task whose result the generation
      stage reads. */
  function SearchResultsTypes(f: Flags): (r: Option<string>)
    ensures r.None? <==> SearchSource(f).None?
    ensures r.Some? ==> r.value == TaskId(SearchSource(f).value)
  {
    if f.rerank then Some("reranking_task")
    else if f.similarity then Some("similarity_retrieval_task")
    else if f.keyword then Some("keyword_retrieval_task")
    else None
  }

  /** What each task does when it runs. */
  datatype Stage =
    | QuestionStage(userQuestion: Value)
    | RetrievalStage(types: string, topk: int)
    | LlmStage(types: string, searchResultsTypes: Option<string>)
    | BranchStage(useSimilarity: bool, useKeyword: bool)
    | RerankStage(topk: int)
    | RagasStage(useSimilarity: bool, useKeyword: bool, useRerank: bool)

  /** The stage of each created task, as the DAG file parameterises it. */
  function StageOf(f: Flags, userQuestion: Value, t: Task): (r: Option<Stage>)
    ensures r.Some? <==> t in Nodes(f)
  {
    match t
    case GenerateQuery => Some(QuestionStage(userQuestion))
    case ExpertRetrieval => if f.expert then Some(RetrievalStage("expert", 5)) else None
    case ExpertValidation => if f.expert then Some(LlmStage("validation", None)) else None
    case ExpertBranching => if f.expert then Some(BranchStage(f.similarity, f.keyword)) else None
    case SimilarityRetrieval => if f.similarity then Some(RetrievalStage("similarity", 10)) else None
    case KeywordExtraction => if f.keyword then Some(LlmStage("keyword", None)) else None
    case KeywordRetrieval => if f.keyword then Some(RetrievalStage("keyword", 10)) else None
    case Reranking => if f.rerank then Some(RerankStage(5)) else None
    case LlmGenerate => Some(LlmStage(LlmMode(f), SearchResultsTypes(f)))
    case RagasEvaluation => if f.ragas then Some(RagasStage(f.similarity, f.keyword, f.rerank))
                            else None
  }

  /** The per-stage topk: expert 5, similarity 10, keyword 10, rerank 5. */
  lemma StageTopk(f: Flags, q: Value)
    ensures f.expert ==> StageOf(f, q, ExpertRetrieval) == Some(RetrievalStage("expert", 5))
    ensures f.similarity ==> StageOf(f, q, SimilarityRetrieval) == Some(RetrievalStage("similarity", 10))
    ensures f.keyword ==> StageOf(f, q, KeywordRetrieval) == Some(RetrievalStage("keyword", 10))
    ensures f.rerank ==> StageOf(f, q, Reranking) == Some(RerankStage(5))
  {
  }

  /** The generation stage runs in "rag" mode iff a retrieval task exists
      and reads the result of the task it is wired below (under the
      derivation); the evaluation stage receives the derived flags
      unchanged. */
  lemma {:induction false} GenerationAndEvaluationStages(c: Flags, q: Value)
    ensures var f := Derive(c);
      var s := StageOf(f, q, LlmGenerate).value;
      && s.LlmStage?
      && (s.types == "rag" <==> f.similarity || f.keyword)
      && (s.searchResultsTypes.Some? ==>
            exists t :: t in AllTasks && TaskId(t) == s.searchResultsTypes.value
                        && Edge(t, LlmGenerate) in Edges(f))
      && (f.ragas ==> StageOf(f, q, RagasEvaluation) == Some(RagasStage(f.similarity, f.keyword, f.rerank)))
  {
    var f := Derive(c);
    if SearchSource(f).Some? {
      var t := SearchSource(f).value;
      LlmUpstreamIsSearchSource(c, t);
      AllTasksComplete(t);
    }
  }

  /** The environment's endpoint for one stage service: the host if set,
      and the port if set, else the stage's default port. */
  function EndpointOf(env: map<string, string>, hostVar: string, portVar: string, defaultPort: string): (e: Endpoint)
    ensures e.host == (if hostVar in env then Some(env[hostVar]) else None)
    ensures e.port == (if portVar in env then env[portVar] else defaultPort)
  {
    Endpoint(if hostVar in env then Some(env[hostVar]) else None,
             if portVar in env then env[portVar] else defaultPort)
  }

  /** The APIConfig the DAG builds from its settings. */
  function ConfigOf(s: Settings): ApiConfig {
    ApiConfig(s.llmModel, s.embedModel, s.documentTypes)
  }

  /** The request a stage's closure builds, or None for the question and
      branching tasks, which call no service. */
  function StageRequest(stage: Stage, s: Settings, env: map<string, string>,
                        store: map<string, Value>, render: Value -> string): (r: Option<Request>)
    ensures r.None? <==> stage.QuestionStage? || stage.BranchStage?
    ensures stage.RetrievalStage? ==>
      var e := EndpointOf(env, "RETRIEVAL_API_HOST", "RETRIEVAL_API_PORT", "8000");
      && r.value.payload.RetrievalPayload? && r.value.url == Url(e, "retrieve") && r.value.host == e.host
      && r.value.timeout == 300 && r.value.payload.types == stage.types && r.value.payload.topk == stage.topk
      && r.value.payload.embedModel == s.embedModel && r.value.payload.documentTypes == s.documentTypes
    ensures stage.RerankStage? ==>
      var e := EndpointOf(env, "RERANK_API_HOST", "RERANK_API_PORT", "8001");
      && r.value.payload.RerankPayload? && r.value.url == Url(e, "rerank") && r.value.host == e.host
      && r.value.timeout == 30 && r.value.payload.topk == stage.topk
    ensures stage.LlmStage? ==>
      var e := EndpointOf(env, "LLM_API_HOST", "LLM_API_PORT", "8002");
      && r.value.payload.LlmPayload? && r.value.url == Url(e, "llm") && r.value.host == e.host
      && r.value.timeout == 300 && r.value.payload.types == stage.types
      && r.value.payload.searchResultsTypes == stage.searchResultsTypes && r.value.payload.model == s.llmModel
    ensures stage.RagasStage? ==>
      var e := EndpointOf(env, "RAGAS_API_HOST", "RAGAS_API_PORT", "8003");
      && r.value.payload.RagasPayload? && r.value.url == Url(e, "ragas") && r.value.host == e.host
      && r.value.timeout == 300 && r.value.payload.useSimilarity == stage.useSimilarity
      && r.value.payload.useKeyword == stage.useKeyword && r.value.payload.useRerank == stage.useRerank
    ensures r.Some? ==> r.value.payload.userQuestion == Pull(store, "generate_query_task")
  {
    var cfg := ConfigOf(s);
    match stage
    case QuestionStage(_) => None
    case BranchStage(_, _) => None
    case RetrievalStage(types, topk) =>
      Some(RetrievalRequest(cfg, EndpointOf(env, "RETRIEVAL_API_HOST", "RETRIEVAL_API_PORT", "8000"),
                            types, topk, store, render))
    case RerankStage(topk) =>
      Some(RerankRequest(cfg, EndpointOf(env, "RERANK_API_HOST", "RERANK_API_PORT", "8001"),
                         topk, store, render))
    case LlmStage(types, srt) =>
      Some(LlmRequest(cfg, EndpointOf(env, "LLM_API_HOST", "LLM_API_PORT", "8002"),
                      types, srt, store, render))
    case RagasStage(sim, kw, rr) =>
      Some(RagasRequest(cfg, EndpointOf(env, "RAGAS_API_HOST", "RAGAS_API_PORT", "8003"),
                        sim, kw, rr, store, render))
  }

  /** The generation request carries the source's own stringified result,
      and nothing when there is no retrieval. */
  lemma GenerationRequest(f: Flags, q: Value, s: Settings, env: map<string, string>,
                          store: map<string, Value>, render: Value -> string)
    ensures var r := StageRequest(StageOf(f, q, LlmGenerate).value, s, env, store, render).value;
      && r.payload.LlmPayload?
      && r.payload.model == s.llmModel
      && (r.payload.searchResults.Some? <==> SearchSource(f).Some?)
      && (SearchSource(f).Some? ==>
            r.payload.searchResults.value == render(Pull(store, TaskId(SearchSource(f).value))))
  {
  }

  /** The validation stage is a plain llm call: no source task id, so its
      request carries no search results, whatever the expert retrieval
      returned. */
  lemma ValidationRequestHasNoContext(f: Flags, q: Value, s: Settings, env: map<string, string>,
                                      store: map<string, Value>, render: Value -> string)
    requires f.expert
    ensures var r := StageRequest(StageOf(f, q, ExpertValidation).value, s, env, store, render).value;
      r.payload.LlmPayload? && r.payload.types == "validation"
      && r.payload.searchResultsTypes.None? && r.payload.searchResults.None?
  {
  }

  /** The evident intent for the validation stage: read the expert
      retrieval's result. */
  function ValidationStageFixed(): Stage {
    LlmStage("validation", Some("expert_retrieval_task"))
  }

  lemma ValidationFixedCarriesContext(s: Settings, env: map<string, string>,
                                      store: map<string, Value>, render: Value -> string)
    ensures var r := StageRequest(ValidationStageFixed(), s, env, store, render).value;
      r.payload.LlmPayload? && r.payload.searchResultsTypes == Some("expert_retrieval_task")
      && r.payload.searchResults == Some(render(Pull(store, "expert_retrieval_task")))
  {
  }
}

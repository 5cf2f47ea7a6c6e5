/** The pod-based query DAG: each stage is a pod whose command-line
    arguments carry templates that pull upstream results at run time. The
    wiring is the shared one in Topology; this module states the argument
    lists. */
module PodDag {
  import opened Values
  import opened Topology

  /** The template that pulls a task's return value when the pod starts. */
  function PullTemplate(id: string): string {
    "{{ ti.xcom_pull(task_ids='" + id + "', key='return_value') }}"
  }

  function QuestionPull(): Value {
    VStr(PullTemplate("generate_query_task"))
  }

  /** The command-line flags the DAG passes to its pods. */
  datatype Flag =
    | DocumentType | Types | Topk | EmbedModel | UserQuestion | KeywordList | Model
    | SearchResultsTypes | SearchResults | SimilarityResults | KeywordResults | RerankResults
    | LlmAnswer | UseSimilarity | UseKeyword | UseRerank

  function FlagName(f: Flag): string {
    match f
    case DocumentType => "--document-type"
    case Types => "--types"
    case Topk => "--topk"
    case EmbedModel => "--embed-model"
    case UserQuestion => "--user-question"
    case KeywordList => "--keyword-list"
    case Model => "--model"
    case SearchResultsTypes => "--search-results-types"
    case SearchResults => "--search-results"
    case SimilarityResults => "--similarity-results"
    case KeywordResults => "--keyword-results"
    case RerankResults => "--rerank-results"
    case LlmAnswer => "--llm-answer"
    case UseSimilarity => "--use-similarity"
    case UseKeyword => "--use-keyword"
    case UseRerank => "--use-rerank"
  }

  /** A pod's arguments as argparse reads them: each flag given once, with
      its value. */
  type Args = map<Flag, Value>

  /** A retrieval pod: document type, retrieval type, topk, embedding model,
      question, and for keyword retrieval the extracted keyword list. */
  function RetrievalArgs(s: Settings, types: string, topk: string): (r: Args)
    ensures r.Keys == {DocumentType, Types, Topk, EmbedModel, UserQuestion}
                      + (if types == "keyword" then {KeywordList} else {})
    ensures r[DocumentType] == s.documentTypes && r[EmbedModel] == s.embedModel
    ensures r[Types] == VStr(types) && r[Topk] == VStr(topk) && r[UserQuestion] == QuestionPull()
    ensures types == "keyword" ==> r[KeywordList] == VStr(PullTemplate("keyword_extraction_task"))
  {
    map[DocumentType := s.documentTypes, Types := VStr(types), Topk := VStr(topk),
        EmbedModel := s.embedModel, UserQuestion := QuestionPull()]
    + (if types == "keyword" then map[KeywordList := VStr(PullTemplate("keyword_extraction_task"))] else map[])
  }

  /** An llm pod that answers from the question alone or validates the
      expert context: type, model and question, and no search results. */
  function PlainLlmArgs(s: Settings, types: string): (r: Args)
    ensures r.Keys == {Types, Model, UserQuestion}
    ensures r[Types] == VStr(types) && r[Model] == s.llmModel && r[UserQuestion] == QuestionPull()
  {
    map[Types := VStr(types), Model := s.llmModel, UserQuestion := QuestionPull()]
  }

  function RerankArgs(): (r: Args)
    ensures r.Keys == {UserQuestion, SimilarityResults, KeywordResults, Topk}
    ensures r[UserQuestion] == QuestionPull() && r[Topk] == VStr("5")
    ensures r[SimilarityResults] == VStr(PullTemplate("similarity_retrieval_task"))
    ensures r[KeywordResults] == VStr(PullTemplate("keyword_retrieval_task"))
  {
    map[UserQuestion := QuestionPull(),
        SimilarityResults := VStr(PullTemplate("similarity_retrieval_task")),
        KeywordResults := VStr(PullTemplate("keyword_retrieval_task")),
        Topk := VStr("5")]
  }

  /** The search-result arguments of the generation pod for one source. */
  function SourceArgs(id: string): Args {
    map[SearchResultsTypes := VStr(id), SearchResults := VStr(PullTemplate(id))]
  }

  /** The generation pod: its mode, then the search-result source and its
      pull when there is one. */
  function LlmArgs(f: Flags, s: Settings): Args {
    map[Types := VStr(if f.similarity || f.keyword then "rag" else "general"),
        Model := s.llmModel, UserQuestion := QuestionPull()]
    + (if f.rerank then SourceArgs("reranking_task")
       else if f.similarity then SourceArgs("similarity_retrieval_task")
       else if f.keyword then SourceArgs("keyword_retrieval_task")
       else map[])
  }

  /** The evaluation pod: all result pulls and the three flags as `str()`
      of a bool. */
  function RagasArgs(f: Flags): (r: Args)
    ensures r.Keys == {UserQuestion, LlmAnswer, SimilarityResults, KeywordResults, RerankResults,
                       UseSimilarity, UseKeyword, UseRerank}
    ensures r[UserQuestion] == QuestionPull() && r[LlmAnswer] == VStr(PullTemplate("llm_task"))
    ensures r[SimilarityResults] == VStr(PullTemplate("similarity_retrieval_task"))
    ensures r[KeywordResults] == VStr(PullTemplate("keyword_retrieval_task"))
    ensures r[RerankResults] == VStr(PullTemplate("reranking_task"))
  {
    map[UserQuestion := QuestionPull(),
        LlmAnswer := VStr(PullTemplate("llm_task")),
        SimilarityResults := VStr(PullTemplate("similarity_retrieval_task")),
        KeywordResults := VStr(PullTemplate("keyword_retrieval_task")),
        RerankResults := VStr(PullTemplate("reranking_task")),
        UseSimilarity := VStr(BoolStr(f.similarity)),
        UseKeyword := VStr(BoolStr(f.keyword)),
        UseRerank := VStr(BoolStr(f.rerank))]
  }

  /** The arguments of each created pod; None for tasks that are not pods
      (the question and branching tasks) and for tasks not created. */
  function PodArgs(f: Flags, s: Settings, t: Task): (r: Option<Args>)
    ensures r.Some? ==> t in Nodes(f)
    ensures r.None? ==> t == GenerateQuery || t == ExpertBranching || t !in Nodes(f)
  {
    match t
    case GenerateQuery => None
    case ExpertBranching => None
    case ExpertRetrieval => if f.expert then Some(RetrievalArgs(s, "expert", "5")) else None
    case ExpertValidation => if f.expert then Some(PlainLlmArgs(s, "validation")) else None
    case SimilarityRetrieval => if f.similarity then Some(RetrievalArgs(s, "similarity", "10")) else None
    case KeywordExtraction => if f.keyword then Some(PlainLlmArgs(s, "keyword")) else None
    case KeywordRetrieval => if f.keyword then Some(RetrievalArgs(s, "keyword", "10")) else None
    case Reranking => if f.rerank then Some(RerankArgs()) else None
    case LlmGenerate => Some(LlmArgs(f, s))
    case RagasEvaluation => if f.ragas then Some(RagasArgs(f)) else None
  }

  /** The source task id the generation pod is told to read, if any. */
  function SourceId(f: Flags): Option<Value> {
    match SearchSource(f)
    case Some(t) => Some(VStr(TaskId(t)))
    case None => None
  }

  /** The generation pod runs in "rag" mode exactly when a retrieval task
      exists; it reads rerank before similarity before keyword results, and
      gets no search-result arguments without any of them. */
  lemma LlmArgsSelection(f: Flags, s: Settings)
    ensures var args := LlmArgs(f, s);
      && Types in args && args[Types] == VStr(LlmMode(f))
      && (SearchResultsTypes in args <==> SearchSource(f).Some?)
      && (SearchResults in args <==> SearchSource(f).Some?)
      && (SearchSource(f).Some? ==>
            Some(args[SearchResultsTypes]) == SourceId(f)
            && args[SearchResults] == VStr(PullTemplate(TaskId(SearchSource(f).value))))
  {
  }

  /** Every pod is handed the question pull. */
  lemma EveryPodGetsQuestion(f: Flags, s: Settings, t: Task)
    requires PodArgs(f, s, t).Some?
    ensures UserQuestion in PodArgs(f, s, t).value
    ensures PodArgs(f, s, t).value[UserQuestion] == QuestionPull()
  {
  }

  /** The topk each retrieval and rerank pod is given: expert 5, similarity
      and keyword 10, rerank 5. */
  lemma PodTopk(f: Flags, s: Settings)
    ensures f.expert ==> PodArgs(f, s, ExpertRetrieval).value[Topk] == VStr("5")
    ensures f.similarity ==> PodArgs(f, s, SimilarityRetrieval).value[Topk] == VStr("10")
    ensures f.keyword ==> PodArgs(f, s, KeywordRetrieval).value[Topk] == VStr("10")
    ensures f.rerank ==> PodArgs(f, s, Reranking).value[Topk] == VStr("5")
  {
  }

  /** The evaluation pod receives the derived flags as "True"/"False". */
  lemma RagasFlagArgs(f: Flags)
    ensures RagasArgs(f)[UseSimilarity] == VStr(BoolStr(f.similarity))
    ensures RagasArgs(f)[UseKeyword] == VStr(BoolStr(f.keyword))
    ensures RagasArgs(f)[UseRerank] == VStr(BoolStr(f.rerank))
  {
  }

  /** The validation pod as written is given no search results, so it
      cannot read the expert retrieval's result. */
  lemma ValidationPodHasNoContext(f: Flags, s: Settings)
    requires f.expert
    ensures SearchResultsTypes !in PodArgs(f, s, ExpertValidation).value
    ensures SearchResults !in PodArgs(f, s, ExpertValidation).value
  {
  }
}

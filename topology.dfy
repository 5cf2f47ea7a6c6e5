/** The stage topology of the query DAGs (both the pod-based and the
    API-based variant wire their tasks with the same code): configuration
    flags, the derived rerank flag, which tasks exist, and the edges added by
    the moving "cursor" and the list of retrieval tasks. */
module Topology {
  import opened Values

  datatype Task =
    | GenerateQuery
    | ExpertRetrieval
    | ExpertValidation
    | ExpertBranching
    | SimilarityRetrieval
    | KeywordExtraction
    | KeywordRetrieval
    | Reranking
    | LlmGenerate
    | RagasEvaluation

  /** The Airflow task id of each task. */
  function TaskId(t: Task): string {
    match t
    case GenerateQuery => "generate_query_task"
    case ExpertRetrieval => "expert_retrieval_task"
    case ExpertValidation => "expert_validation_task"
    case ExpertBranching => "expert_branching_task"
    case SimilarityRetrieval => "similarity_retrieval_task"
    case KeywordExtraction => "keyword_extraction_task"
    case KeywordRetrieval => "keyword_retrieval_task"
    case Reranking => "reranking_task"
    case LlmGenerate => "llm_task"
    case RagasEvaluation => "ragas_evaluation_task"
  }

  const AllTasks: seq<Task> :=
    [GenerateQuery, ExpertRetrieval, ExpertValidation, ExpertBranching, SimilarityRetrieval,
     KeywordExtraction, KeywordRetrieval, Reranking, LlmGenerate, RagasEvaluation]

  /** The position of a task in the fixed stage order. */
  function Rank(t: Task): nat {
    match t
    case GenerateQuery => 0
    case ExpertRetrieval => 1
    case ExpertValidation => 2
    case ExpertBranching => 3
    case SimilarityRetrieval => 4
    case KeywordExtraction => 5
    case KeywordRetrieval => 6
    case Reranking => 7
    case LlmGenerate => 8
    case RagasEvaluation => 9
  }

  /** Every task is listed in AllTasks, at its rank. */
  lemma AllTasksComplete(t: Task)
    ensures t in AllTasks && AllTasks[Rank(t)] == t
  {
  }

  // ---------------------------------------------------------------- flags

  /** The five pipeline flags (use_expert_retrieval, use_similarity_retrieval,
      use_keyword_retrieval, use_rerank, use_ragas). */
  datatype Flags = Flags(expert: bool, similarity: bool, keyword: bool, rerank: bool, ragas: bool)

  const AllOff := Flags(false, false, false, false, false)

  /** The rerank derivation: forced on with both retrievals, the configured
      value with exactly one, off with none. */
  function Derive(c: Flags): (f: Flags)
    ensures c.similarity && c.keyword ==> f.rerank
    ensures c.similarity != c.keyword ==> f.rerank == c.rerank
    ensures !c.similarity && !c.keyword ==> !f.rerank
    ensures f.expert == c.expert && f.similarity == c.similarity
    ensures f.keyword == c.keyword && f.ragas == c.ragas
  {
    var rerank :=
      if c.similarity && c.keyword then true
      else if c.similarity || c.keyword then c.rerank
      else false;
    c.(rerank := rerank)
  }

  /** Flags as the DAG modules use them: already passed through Derive. */
  predicate IsDerived(f: Flags) {
    Derive(f) == f
  }

  lemma DeriveIsDerived(c: Flags)
    ensures IsDerived(Derive(c))
    ensures Derive(c).rerank ==> c.similarity || c.keyword
  {
  }

  /** How the DAG files see their configuration file. */
  datatype ConfigFile = Missing | Malformed | Parsed(json: Value)

  /** `rag_config.get(key, False)` taken for its truthiness. */
  function FlagsOf(rc: map<string, Value>): Flags {
    Flags(Truthy(Get(rc, "use_expert_retrieval")), Truthy(Get(rc, "use_similarity_retrieval")),
          Truthy(Get(rc, "use_keyword_retrieval")), Truthy(Get(rc, "use_rerank")),
          Truthy(Get(rc, "use_ragas")))
  }

  /** A decoded configuration whose `rag_pipeline_config` is an object. */
  predicate HasPipelineSection(json: Value) {
    json.VDict? && "rag_pipeline_config" in json.entries && json.entries["rag_pipeline_config"].VDict?
  }

  /** The derived flags of a DAG file. A missing or undecodable file gives
      the all-false defaults; a decoded document that is not an object, or
      whose `rag_pipeline_config` is absent or not an object, makes `.get`
      fail, so the DAG module does not load. */
  function LoadFlags(file: ConfigFile): (r: Result<Flags>)
    ensures r.Ok? ==> IsDerived(r.value)
    ensures file.Missing? || file.Malformed? ==> r == Ok(Derive(AllOff))
    ensures file.Parsed? && HasPipelineSection(file.json) ==>
      r == Ok(Derive(FlagsOf(file.json.entries["rag_pipeline_config"].entries)))
    ensures file.Parsed? && !HasPipelineSection(file.json) ==> r.Err?
  {
    match file
    case Missing => Ok(Derive(AllOff))
    case Malformed => Ok(Derive(AllOff))
    case Parsed(json) =>
      if json.VDict? && "rag_pipeline_config" in json.entries
         && json.entries["rag_pipeline_config"].VDict?
      then Ok(Derive(FlagsOf(json.entries["rag_pipeline_config"].entries)))
      else Err("AttributeError: object has no attribute 'get'")
  }

  lemma LoadFlagsDefaults(file: ConfigFile)
    requires file.Missing? || file.Malformed?
    ensures LoadFlags(file) == Ok(AllOff)
  {
  }

  /** `config_data.get(key, default)`. */
  function GetDefault(m: map<string, Value>, key: string, default: Value): Value
  {
    if key in m then m[key] else default
  }

  /** The model settings a DAG module reads besides the flags. */
  datatype Settings = Settings(flags: Flags, llmModel: Value, embedModel: Value, documentTypes: Value)

  function SettingsOf(flags: Flags, m: map<string, Value>, documentDefault: Value): Settings {
    Settings(flags, GetDefault(m, "llm_model", VStr("gemma2:9b")),
             GetDefault(m, "embed_model", VStr("imac/zpoint_large_embedding_zh")),
             GetDefault(m, "document_types", documentDefault))
  }

  /** The DAG module as written: the fallback branch binds only `rag_config`,
      so the later `config_data.get("llm_model", ...)` raises NameError; the
      defaults of the fallback never reach a built DAG. */
  function LoadSettings(file: ConfigFile, documentDefault: Value): (r: Result<Settings>)
    ensures r.Ok? ==> file.Parsed? && LoadFlags(file) == Ok(r.value.flags)
  {
    match LoadFlags(file)
    case Err(e) => Err(e)
    case Ok(flags) =>
      if file.Parsed? then Ok(SettingsOf(flags, file.json.entries, documentDefault))
      else Err("NameError: name 'config_data' is not defined")
  }

  /** The evident intent: the fallback also binds `config_data = {}`, so the
      model, embedding and document defaults apply. */
  function LoadSettingsFixed(file: ConfigFile, documentDefault: Value): (r: Result<Settings>)
    ensures file.Missing? || file.Malformed? ==>
      r == Ok(SettingsOf(AllOff, map[], documentDefault))
    ensures file.Parsed? ==> r == LoadSettings(file, documentDefault)
  {
    match LoadFlags(file)
    case Err(e) => Err(e)
    case Ok(flags) =>
      Ok(SettingsOf(flags, if file.Parsed? then file.json.entries else map[], documentDefault))
  }

  /** A missing configuration file: the flags fall back to all-false, yet the
      module fails, whereas the corrected loader builds the default DAG. */
  lemma MissingConfigFailsToLoad(documentDefault: Value)
    ensures LoadFlags(Missing) == Ok(AllOff)
    ensures LoadSettings(Missing, documentDefault).Err?
    ensures LoadSettingsFixed(Missing, documentDefault).Ok?
    ensures LoadSettingsFixed(Missing, documentDefault).value.flags == AllOff
    ensures LoadSettingsFixed(Missing, documentDefault).value.llmModel == VStr("gemma2:9b")
  {
  }

  // ---------------------------------------------------------------- graph

  /** Which tasks are created for the flags. */
  function Nodes(f: Flags): (ns: set<Task>)
    ensures GenerateQuery in ns && LlmGenerate in ns
    ensures ExpertRetrieval in ns <==> f.expert
    ensures ExpertValidation in ns <==> f.expert
    ensures ExpertBranching in ns <==> f.expert
    ensures SimilarityRetrieval in ns <==> f.similarity
    ensures KeywordExtraction in ns <==> f.keyword
    ensures KeywordRetrieval in ns <==> f.keyword
    ensures Reranking in ns <==> f.rerank
    ensures RagasEvaluation in ns <==> f.ragas
  {
    {GenerateQuery, LlmGenerate}
    + (if f.expert then {ExpertRetrieval, ExpertValidation, ExpertBranching} else {})
    + (if f.similarity then {SimilarityRetrieval} else {})
    + (if f.keyword then {KeywordExtraction, KeywordRetrieval} else {})
    + (if f.rerank then {Reranking} else {})
    + (if f.ragas then {RagasEvaluation} else {})
  }

  datatype Edge = Edge(from: Task, to: Task)

  /** Where the cursor stands once the expert chain is placed. */
  function Head(f: Flags): Task {
    if f.expert then ExpertBranching else GenerateQuery
  }

  /** Rerank is wired only when a retrieval task exists. */
  predicate Converges(f: Flags) {
    f.rerank && (f.similarity || f.keyword)
  }

  /** The reference wiring, stated per target task: which upstream task, if
      any, points at it. */
  predicate Wanted(f: Flags, a: Task, b: Task) {
    match b
    case GenerateQuery => false
    case ExpertRetrieval => f.expert && a == GenerateQuery
    case ExpertValidation => f.expert && a == ExpertRetrieval
    case ExpertBranching => f.expert && a == ExpertValidation
    case SimilarityRetrieval => f.similarity && a == Head(f)
    case KeywordExtraction => f.keyword && a == Head(f)
    case KeywordRetrieval => f.keyword && a == KeywordExtraction
    case Reranking =>
      f.rerank && ((f.similarity && a == SimilarityRetrieval) || (f.keyword && a == KeywordRetrieval))
    case LlmGenerate =>
      if Converges(f) then a == Reranking
      else if f.similarity && !f.keyword then a == SimilarityRetrieval
      else if f.keyword && !f.similarity then a == KeywordRetrieval
      else a == Head(f)
    case RagasEvaluation => f.ragas && (f.similarity || f.keyword) && a == LlmGenerate
  }

  /** The retrieval tasks in the order the wiring appends them. */
  function Leaves(f: Flags): (r: seq<Task>)
    ensures |r| <= 2 && (|r| == 0 <==> !f.similarity && !f.keyword)
  {
    (if f.similarity then [SimilarityRetrieval] else [])
    + (if f.keyword then [KeywordRetrieval] else [])
  }

  /** The edges from each listed retrieval task to the rerank task. */
  function IntoRerank(leaves: seq<Task>): set<Edge> {
    if leaves == [] then {}
    else IntoRerank(leaves[..|leaves| - 1]) + {Edge(leaves[|leaves| - 1], Reranking)}
  }

  /** The expert chain `generate >> expert_retrieval >> validation >> branching`. */
  function ExpertEdges(f: Flags): set<Edge> {
    if f.expert then {Edge(GenerateQuery, ExpertRetrieval), Edge(ExpertRetrieval, ExpertValidation),
                      Edge(ExpertValidation, ExpertBranching)}
    else {}
  }

  /** The retrieval branches hung off the cursor task. */
  function BranchEdges(f: Flags): set<Edge> {
    (if f.similarity then {Edge(Head(f), SimilarityRetrieval)} else {})
    + (if f.keyword then {Edge(Head(f), KeywordExtraction), Edge(KeywordExtraction, KeywordRetrieval)} else {})
  }

  /** The edges into the generation task (through the rerank task when it converges). */
  function GenerateEdges(f: Flags): set<Edge> {
    var leaves := Leaves(f);
    if f.rerank && |leaves| > 0 then IntoRerank(leaves) + {Edge(Reranking, LlmGenerate)}
    else if |leaves| == 1 then {Edge(leaves[0], LlmGenerate)}
    else {Edge(Head(f), LlmGenerate)}
  }

  /** The evaluation edge, added only after a retrieval stage. */
  function EvaluationEdges(f: Flags): set<Edge> {
    if f.ragas && |Leaves(f)| > 0 then {Edge(LlmGenerate, RagasEvaluation)} else {}
  }

  /** The edges the wiring code adds, phase by phase. */
  function Edges(f: Flags): set<Edge> {
    ExpertEdges(f) + BranchEdges(f) + GenerateEdges(f) + EvaluationEdges(f)
  }

  lemma IntoRerankLeaves(f: Flags)
    ensures IntoRerank(Leaves(f)) ==
      (if f.similarity then {Edge(SimilarityRetrieval, Reranking)} else {})
      + (if f.keyword then {Edge(KeywordRetrieval, Reranking)} else {})
  {
    var leaves := Leaves(f);
    if f.similarity && f.keyword {
      assert leaves == [SimilarityRetrieval, KeywordRetrieval];
      assert leaves[..1] == [SimilarityRetrieval];
      assert leaves[..1][..0] == [];
      assert IntoRerank([SimilarityRetrieval]) == {Edge(SimilarityRetrieval, Reranking)};
      assert IntoRerank(leaves) == IntoRerank([SimilarityRetrieval]) + {Edge(KeywordRetrieval, Reranking)};
    } else if f.similarity {
      assert leaves == [SimilarityRetrieval];
      assert leaves[..0] == [];
    } else if f.keyword {
      assert leaves == [KeywordRetrieval];
      assert leaves[..0] == [];
    }
  }

  lemma ExpertEdgesMembership(f: Flags, a: Task, b: Task)
    ensures Edge(a, b) in ExpertEdges(f) <==>
      f.expert && ((a == GenerateQuery && b == ExpertRetrieval) || (a == ExpertRetrieval && b == ExpertValidation)
                   || (a == ExpertValidation && b == ExpertBranching))
  {
  }

  lemma BranchEdgesMembership(f: Flags, a: Task, b: Task)
    ensures Edge(a, b) in BranchEdges(f) <==>
      (f.similarity && a == Head(f) && b == SimilarityRetrieval)
      || (f.keyword && a == Head(f) && b == KeywordExtraction)
      || (f.keyword && a == KeywordExtraction && b == KeywordRetrieval)
  {
  }

  lemma GenerateEdgesMembership(f: Flags, a: Task, b: Task)
    ensures Edge(a, b) in GenerateEdges(f) <==>
      if Converges(f) then
        (b == Reranking && ((f.similarity && a == SimilarityRetrieval) || (f.keyword && a == KeywordRetrieval)))
        || (a == Reranking && b == LlmGenerate)
      else
        b == LlmGenerate &&
        (if f.similarity && !f.keyword then a == SimilarityRetrieval
         else if f.keyword && !f.similarity then a == KeywordRetrieval
         else a == Head(f))
  {
    IntoRerankLeaves(f);
  }

  /** The wired edges are exactly the reference wiring. */
  lemma EdgesMembership(f: Flags, a: Task, b: Task)
    ensures Edge(a, b) in Edges(f) <==> Wanted(f, a, b)
  {
    ExpertEdgesMembership(f, a, b);
    BranchEdgesMembership(f, a, b);
    GenerateEdgesMembership(f, a, b);
  }

  /** The expert phase of the wiring: the chain, then the cursor moves to
      the branching task. */
  method WireExpert(f: Flags) returns (edges: set<Edge>, cursor: Task)
    ensures edges == ExpertEdges(f) && cursor == Head(f)
  {
    edges := {};
    cursor := GenerateQuery;
    if f.expert {
      edges := edges + {Edge(GenerateQuery, ExpertRetrieval), Edge(ExpertRetrieval, ExpertValidation),
                        Edge(ExpertValidation, ExpertBranching)};
      cursor := ExpertBranching;
    }
  }

  /** The retrieval phase: each enabled retrieval hangs off the cursor and
      is appended to the list of retrieval tasks. */
  method WireRetrieval(f: Flags, cursor: Task) returns (added: set<Edge>, retrievalTasks: seq<Task>)
    requires cursor == Head(f)
    ensures added == BranchEdges(f) && retrievalTasks == Leaves(f)
  {
    added := {};
    retrievalTasks := [];
    if f.similarity {
      added := added + {Edge(cursor, SimilarityRetrieval)};
      retrievalTasks := retrievalTasks + [SimilarityRetrieval];
    }
    if f.keyword {
      added := added + {Edge(cursor, KeywordExtraction), Edge(KeywordExtraction, KeywordRetrieval)};
      retrievalTasks := retrievalTasks + [KeywordRetrieval];
    }
  }

  /** The convergence phase: every retrieval task into rerank and rerank into
      generation; or the single retrieval task, or else the cursor, into
      generation. */
  method WireGeneration(f: Flags, cursor: Task, retrievalTasks: seq<Task>) returns (added: set<Edge>)
    requires cursor == Head(f) && retrievalTasks == Leaves(f)
    ensures added == GenerateEdges(f)
  {
    added := {};
    if f.rerank && |retrievalTasks| > 0 {
      for i := 0 to |retrievalTasks|
        invariant added == IntoRerank(retrievalTasks[..i])
      {
        assert retrievalTasks[..i + 1][..i] == retrievalTasks[..i];
        added := added + {Edge(retrievalTasks[i], Reranking)};
      }
      assert retrievalTasks[..|retrievalTasks|] == retrievalTasks;
      added := added + {Edge(Reranking, LlmGenerate)};
    } else if |retrievalTasks| == 1 {
      added := {Edge(retrievalTasks[0], LlmGenerate)};
    } else {
      added := {Edge(cursor, LlmGenerate)};
    }
  }

  /** The wiring code of both DAGs: a cursor that moves to the branching
      task, a list of retrieval tasks, and `>>` edges added phase by phase. */
  method Wire(f: Flags) returns (edges: set<Edge>)
    ensures edges == Edges(f)
  {
    var cursor;
    edges, cursor := WireExpert(f);
    var branches, retrievalTasks := WireRetrieval(f, cursor);
    edges := edges + branches;
    var generation := WireGeneration(f, cursor, retrievalTasks);
    edges := edges + generation;
    if f.ragas && |retrievalTasks| > 0 {
      edges := edges + {Edge(LlmGenerate, RagasEvaluation)};
    }
  }

  // ------------------------------------------------------ graph properties

  /** Every edge goes forward in the fixed stage order. */
  lemma EdgesGoForward(f: Flags, e: Edge)
    requires e in Edges(f)
    ensures Rank(e.from) < Rank(e.to)
  {
    EdgesMembership(f, e.from, e.to);
    WantedGoesForward(f, e.from, e.to);
  }

  lemma WantedGoesForward(f: Flags, a: Task, b: Task)
    requires Wanted(f, a, b)
    ensures Rank(a) < Rank(b)
  {
    assert Rank(Head(f)) <= 3;
  }

  /** Both endpoints of every edge are created tasks. */
  lemma EdgesWithinNodes(f: Flags, e: Edge)
    requires e in Edges(f)
    ensures e.from in Nodes(f) && e.to in Nodes(f)
  {
    EdgesMembership(f, e.from, e.to);
    WantedWithinNodes(f, e.from, e.to);
  }

  lemma WantedWithinNodes(f: Flags, a: Task, b: Task)
    requires Wanted(f, a, b)
    ensures a in Nodes(f) && b in Nodes(f)
  {
    assert Head(f) in Nodes(f);
  }

  predicate IsPath(edges: set<Edge>, p: seq<Task>) {
    |p| >= 1 && forall i :: 0 <= i < |p| - 1 ==> Edge(p[i], p[i + 1]) in edges
  }

  /** Along any path the rank strictly increases, so no path returns to its
      start: the graph is acyclic. */
  lemma {:induction false} PathsAscend(f: Flags, p: seq<Task>)
    requires IsPath(Edges(f), p) && |p| >= 2
    ensures Rank(p[0]) < Rank(p[|p| - 1])
    ensures p[0] != p[|p| - 1]
  {
    EdgesGoForward(f, Edge(p[0], p[1]));
    if |p| > 2 {
      assert IsPath(Edges(f), p[1..]);
      PathsAscend(f, p[1..]);
    }
  }

  /** The task whose result the generation stage reads: rerank first, then
      similarity, then keyword retrieval, else none. */
  function SearchSource(f: Flags): (r: Option<Task>)
    ensures r.Some? ==> r.value in Nodes(f)
    ensures r.None? <==> !f.rerank && !f.similarity && !f.keyword
    ensures f.rerank ==> r == Some(Reranking)
    ensures !f.rerank && f.similarity ==> r == Some(SimilarityRetrieval)
    ensures !f.rerank && !f.similarity && f.keyword ==> r == Some(KeywordRetrieval)
  {
    if f.rerank then Some(Reranking)
    else if f.similarity then Some(SimilarityRetrieval)
    else if f.keyword then Some(KeywordRetrieval)
    else None
  }

  /** The generation mode: "rag" when a retrieval task exists. */
  function LlmMode(f: Flags): (r: string)
    ensures r == "rag" <==> SimilarityRetrieval in Nodes(f) || KeywordRetrieval in Nodes(f)
    ensures r != "rag" ==> r == "general"
  {
    if f.similarity || f.keyword then "rag" else "general"
  }

  /** Under the derivation the generation stage has exactly one upstream
      task. It is the task it reads its search results from, or the cursor
      when there is no retrieval. */
  lemma LlmUpstreamIsSearchSource(c: Flags, a: Task)
    ensures var f := Derive(c);
      Edge(a, LlmGenerate) in Edges(f) <==>
        (if SearchSource(f).Some? then a == SearchSource(f).value else a == Head(f))
  {
    EdgesMembership(Derive(c), a, LlmGenerate);
  }

  /** The fallback edge from the cursor to the generation stage is present
      exactly when no retrieval task exists. */
  lemma {:induction false} FallbackOnlyWithoutRetrieval(c: Flags)
    ensures var f := Derive(c);
      Edge(Head(f), LlmGenerate) in Edges(f) <==> !f.similarity && !f.keyword
  {
    var f := Derive(c);
    EdgesMembership(f, Head(f), LlmGenerate);
  }

  /** Without the derivation, both retrievals with rerank off would take the
      fallback edge while the generation stage reads the similarity result,
      which is then not upstream of it. */
  lemma AmbiguousCaseNeedsDerivation(expert: bool, ragas: bool)
    ensures var f := Flags(expert, true, true, false, ragas);
      !IsDerived(f) && Edge(Head(f), LlmGenerate) in Edges(f)
      && SearchSource(f) == Some(SimilarityRetrieval)
      && Edge(SimilarityRetrieval, LlmGenerate) !in Edges(f)
  {
    var f := Flags(expert, true, true, false, ragas);
    EdgesMembership(f, Head(f), LlmGenerate);
    EdgesMembership(f, SimilarityRetrieval, LlmGenerate);
  }

  /** The evaluation task exists whenever use_ragas is set, but it hangs off
      the generation stage only when a retrieval task exists; otherwise it
      is a second root with no upstream task. */
  lemma RagasWiring(f: Flags, a: Task)
    ensures Edge(a, RagasEvaluation) in Edges(f) <==>
      f.ragas && (f.similarity || f.keyword) && a == LlmGenerate
    ensures RagasEvaluation in Nodes(f) <==> f.ragas
  {
    EdgesMembership(f, a, RagasEvaluation);
  }

  /** With expert retrieval the chain is generate, expert retrieval,
      validation, branching; the generate task then has no other child, and
      all later branches hang off the branching task. */
  lemma ExpertChain(f: Flags, b: Task)
    requires f.expert && IsDerived(f)
    ensures Edge(GenerateQuery, ExpertRetrieval) in Edges(f)
    ensures Edge(ExpertRetrieval, ExpertValidation) in Edges(f)
    ensures Edge(ExpertValidation, ExpertBranching) in Edges(f)
    ensures Edge(GenerateQuery, b) in Edges(f) ==> b == ExpertRetrieval
    ensures Edge(ExpertBranching, b) in Edges(f) <==>
      (b == SimilarityRetrieval && f.similarity) || (b == KeywordExtraction && f.keyword)
      || (b == LlmGenerate && !f.similarity && !f.keyword)
  {
    EdgesMembership(f, GenerateQuery, ExpertRetrieval);
    EdgesMembership(f, ExpertRetrieval, ExpertValidation);
    EdgesMembership(f, ExpertValidation, ExpertBranching);
    EdgesMembership(f, GenerateQuery, b);
    EdgesMembership(f, ExpertBranching, b);
  }

  /** A path from the cursor to the generation stage. With expert retrieval
      the cursor is the branching task, so when branching is skipped the
      skip reaches the generation stage too (every task has Airflow's
      default all-success trigger rule). */
  function PathToLlm(f: Flags): (p: seq<Task>)
    requires IsDerived(f)
    ensures IsPath(Edges(f), p) && p[0] == Head(f) && p[|p| - 1] == LlmGenerate
  {
    EdgesMembership(f, Head(f), SimilarityRetrieval);
    EdgesMembership(f, Head(f), KeywordExtraction);
    EdgesMembership(f, KeywordExtraction, KeywordRetrieval);
    EdgesMembership(f, SimilarityRetrieval, Reranking);
    EdgesMembership(f, KeywordRetrieval, Reranking);
    EdgesMembership(f, Reranking, LlmGenerate);
    EdgesMembership(f, SimilarityRetrieval, LlmGenerate);
    EdgesMembership(f, KeywordRetrieval, LlmGenerate);
    EdgesMembership(f, Head(f), LlmGenerate);
    if f.similarity then
      if f.rerank then [Head(f), SimilarityRetrieval, Reranking, LlmGenerate]
      else [Head(f), SimilarityRetrieval, LlmGenerate]
    else if f.keyword then
      if f.rerank then [Head(f), KeywordExtraction, KeywordRetrieval, Reranking, LlmGenerate]
      else [Head(f), KeywordExtraction, KeywordRetrieval, LlmGenerate]
    else [Head(f), LlmGenerate]
  }

  /** Every created task except the generate task and an unwired evaluation
      task has an upstream task. */
  lemma {:induction false} EveryStageHasUpstream(c: Flags, t: Task)
    requires t in Nodes(Derive(c)) && t != GenerateQuery && t != RagasEvaluation
    ensures exists a :: a in AllTasks && Edge(a, t) in Edges(Derive(c))
  {
    var f := Derive(c);
    var a := match t
      case ExpertRetrieval => GenerateQuery
      case ExpertValidation => ExpertRetrieval
      case ExpertBranching => ExpertValidation
      case SimilarityRetrieval => Head(f)
      case KeywordExtraction => Head(f)
      case KeywordRetrieval => KeywordExtraction
      case Reranking => if f.similarity then SimilarityRetrieval else KeywordRetrieval
      case LlmGenerate => if SearchSource(f).Some? then SearchSource(f).value else Head(f)
      case _ => GenerateQuery;
    EdgesMembership(f, a, t);
    AllTasksComplete(a);
  }
}

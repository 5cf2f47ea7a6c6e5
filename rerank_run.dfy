/** The reranking stage's command-line program (`rerank_run`): its options,
    the stand-in it builds from them, and the result it hands back. */
module RerankRun {
  import opened Values
  import opened Cli
  import opened Rerank
  import RerankApi
  import opened WorkerHarness

  /** The parsed options. */
  datatype RerankArgs = RerankArgs(userQuestion: Option<string>, similarityResults: Option<string>,
                                   keywordResults: Option<string>, topk: int)

  /** `parser.parse_args()`: every option is optional, and `--topk`
      defaults to 5. */
  function ParseArgs(argv: Argv, toInt: string -> Option<int>): (r: Result<RerankArgs>)
    ensures r.Ok? <==> IntOr(argv, "topk", 5, toInt).Ok?
    ensures r.Ok? ==> r.value.topk == IntOr(argv, "topk", 5, toInt).value
    ensures r.Ok? && "topk" !in argv ==> r.value.topk == 5
    ensures r.Ok? ==> r.value.userQuestion == Opt(argv, "user-question")
                      && r.value.similarityResults == Opt(argv, "similarity-results")
                      && r.value.keywordResults == Opt(argv, "keyword-results")
  {
    match IntOr(argv, "topk", 5, toInt)
    case Err(e) => Err(e)
    case Ok(k) => Ok(RerankArgs(Opt(argv, "user-question"), Opt(argv, "similarity-results"),
                                Opt(argv, "keyword-results"), k))
  }

  /** The program's stand-in: the options as the service's stand-in holds
      them, the question defaulting when it is absent or empty. */
  function MockOf(a: RerankArgs): RerankApi.MockTi {
    RerankApi.MockTi(a.userQuestion, a.similarityResults, a.keywordResults)
  }

  lemma MockPull(a: RerankArgs, parse: string -> Option<Value>)
    ensures RerankApi.XcomPull(MockOf(a), parse, "generate_query_task") == QuestionOrDefault(a.userQuestion)
    ensures a.userQuestion.None? ==>
      RerankApi.XcomPull(MockOf(a), parse, "generate_query_task") == VStr(DefaultQuestion)
    ensures a.similarityResults.None? ==>
      RerankApi.XcomPull(MockOf(a), parse, "similarity_retrieval_task") == VList([])
    ensures a.keywordResults.None? ==>
      RerankApi.XcomPull(MockOf(a), parse, "keyword_retrieval_task") == VList([])
  {
  }

  /** `main()` with a fresh reranker: a usage error, or the reranked list
      of merged passages; the model is the one loaded on first use. */
  method RunProgram(argv: Argv, toInt: string -> Option<int>, parse: string -> Option<Value>,
              load: Result<Model>, score: (Model, Value, seq<Value>) -> Option<seq<int>>)
    returns (r: Result<Value>)
    ensures ParseArgs(argv, toInt).Err? ==> r.Err?
    ensures ParseArgs(argv, toInt).Ok? ==> r.Ok? && r.value.VList?
    ensures ParseArgs(argv, toInt).Ok? ==>
      var a := ParseArgs(argv, toInt).value;
      var m := ListOrEmpty(ParsedOrEmpty(parse, a.similarityResults))
               + ListOrEmpty(ParsedOrEmpty(parse, a.keywordResults));
      && (forall x :: x in r.value.items ==> x in m)
      && (m == [] || (exists x :: x in m && !Hashable(x)) ==> r.value.items == [])
      && (m != [] && (forall x :: x in m ==> Hashable(x)) ==>
            RerankedFrom(r.value.items, m, QuestionOrDefault(a.userQuestion), a.topk, load, score))
  {
    var parsed := ParseArgs(argv, toInt);
    if parsed.Err? {
      return Err(parsed.error);
    }
    var a := parsed.value;
    var reranker := new Reranker();
    var pull := RerankApi.PullOf(MockOf(a), parse);
    RerankApi.MockMerged(MockOf(a), parse);
    assert pull("generate_query_task") == QuestionOrDefault(a.userQuestion);
    assert ModelFor(reranker.cached, load) == load;
    var result := reranker.Rerank(a.topk, pull, load, score);
    r := Ok(VList(result));
  }
}

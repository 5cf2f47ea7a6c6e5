/** The reranking service (`rerank-api`): the `/rerank` route validates its
    body, touches the idle timer and reranks against a stand-in task
    instance built from the body, with the reranker model cached across
    requests. */
module RerankApi {
  import opened Values
  import opened ApiCalling
  import opened WorkerHarness
  import opened Rerank

  /** The stand-in task instance: the question and the two retrieval
      results as text. */
  datatype MockTi = MockTi(userQuestion: Option<string>, similarityResults: Option<string>,
                           keywordResults: Option<string>)

  /** `MockTi.xcom_pull`: the question (or the default question when it is
      empty), each retrieval result decoded with [] for a missing, empty or
      unparseable string, and None for any other id. */
  function XcomPull(ti: MockTi, parse: string -> Option<Value>, taskId: string): (v: Value)
    ensures taskId == "generate_query_task" ==> v == QuestionOrDefault(ti.userQuestion)
    ensures taskId == "similarity_retrieval_task" ==> v == ParsedOrEmpty(parse, ti.similarityResults)
    ensures taskId == "keyword_retrieval_task" ==> v == ParsedOrEmpty(parse, ti.keywordResults)
    ensures taskId !in {"generate_query_task", "similarity_retrieval_task", "keyword_retrieval_task"} ==> v == VNone
  {
    if taskId == "generate_query_task" then QuestionOrDefault(ti.userQuestion)
    else if taskId == "similarity_retrieval_task" then ParsedOrEmpty(parse, ti.similarityResults)
    else if taskId == "keyword_retrieval_task" then ParsedOrEmpty(parse, ti.keywordResults)
    else VNone
  }

  function PullOf(ti: MockTi, parse: string -> Option<Value>): string -> Value {
    id => XcomPull(ti, parse, id)
  }

  /** What the reranker merges through the stand-in: the decoded lists, and
      nothing from a result that does not decode to a list. */
  lemma MockMerged(ti: MockTi, parse: string -> Option<Value>)
    ensures Merged(PullOf(ti, parse)("similarity_retrieval_task"), PullOf(ti, parse)("keyword_retrieval_task"))
         == ListOrEmpty(ParsedOrEmpty(parse, ti.similarityResults)) + ListOrEmpty(ParsedOrEmpty(parse, ti.keywordResults))
  {
    assert PullOf(ti, parse)("similarity_retrieval_task") == ParsedOrEmpty(parse, ti.similarityResults);
    assert PullOf(ti, parse)("keyword_retrieval_task") == ParsedOrEmpty(parse, ti.keywordResults);
  }

  /** The body FastAPI accepts on `/rerank`: a rerank payload whose question
      is a string. */
  predicate Accepted(p: Payload) {
    p.RerankPayload? && p.userQuestion.VStr?
  }

  function MockOf(p: Payload): MockTi
    requires Accepted(p)
  {
    MockTi(Some(p.userQuestion.s), Some(p.similarityText), Some(p.keywordText))
  }

  /** The `/rerank` route. `rerank` catches every failure itself, so an
      accepted request always succeeds: with [] for an empty or unhashable
      context, otherwise with the ranking of the deduplicated passages by
      the cached or newly loaded model, which the cache then holds. */
  method HandleRerank(timer: IdleTimer, reranker: Reranker, now: int, p: Payload,
                      parse: string -> Option<Value>, load: Result<Model>,
                      score: (Model, Value, seq<Value>) -> Option<seq<int>>) returns (reply: Reply)
    modifies timer, reranker
    ensures !Accepted(p) ==> reply.Response? && reply.code == 422
                             && timer.lastUsed == old(timer.lastUsed) && reranker.cached == old(reranker.cached)
    ensures Accepted(p) ==> timer.lastUsed == now
    ensures Accepted(p) ==> Execute(reply).Ok? && Execute(reply).value.VList?
    ensures Accepted(p) ==>
      var m := ListOrEmpty(ParsedOrEmpty(parse, Some(p.similarityText)))
               + ListOrEmpty(ParsedOrEmpty(parse, Some(p.keywordText)));
      && (forall x :: x in Execute(reply).value.items ==> x in m)
      && (m == [] || (exists x :: x in m && !Hashable(x)) ==>
            Execute(reply).value.items == [] && reranker.cached == old(reranker.cached))
      && (m != [] && (forall x :: x in m ==> Hashable(x)) ==>
            reranker.cached == CacheAfter(old(reranker.cached), load)
            && RerankedFrom(Execute(reply).value.items, m, QuestionOrDefault(Some(p.userQuestion.s)), p.topk,
                            ModelFor(old(reranker.cached), load), score))
  {
    if !Accepted(p) {
      return Rejected("user_question must be a string");
    }
    timer.Touch(now);
    ghost var cached0 := reranker.cached;
    var pull := PullOf(MockOf(p), parse);
    MockMerged(MockOf(p), parse);
    assert pull("generate_query_task") == QuestionOrDefault(Some(p.userQuestion.s));
    var result := reranker.Rerank(p.topk, pull, load, score);
    reply := Respond(Ok(VList(result)));
    RespondExecuteRoundTrip(Ok(VList(result)));
    assert Execute(reply).value.items == result;
    assert cached0 == old(reranker.cached);
  }

  method HandleRoot(timer: IdleTimer, now: int) returns (body: Value)
    modifies timer
    ensures body == Health("rerank-api") && timer.lastUsed == now
  {
    timer.Touch(now);
    body := Health("rerank-api");
  }
}

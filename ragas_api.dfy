/** The evaluation service (`ragas-api`): the `/ragas` route validates its
    body, touches the idle timer, evaluates against a stand-in task
    instance built from the body, and shapes the result. */
module RagasApi {
  import opened Values
  import opened ApiCalling
  import opened WorkerHarness
  import opened RagasEvaluator

  /** The stand-in task instance: the question, the generated answer and the
      three retrieval results as text. */
  datatype MockTi = MockTi(userQuestion: Option<string>, llmAnswer: Option<string>,
                           similarityResults: Option<string>, keywordResults: Option<string>,
                           rerankResults: Option<string>)

  /** A carried string, or None. */
  function TextOrNone(s: Option<string>): (v: Value)
    ensures s.None? <==> v == VNone
    ensures s.Some? ==> v == VStr(s.value)
  {
    match s
    case None => VNone
    case Some(t) => VStr(t)
  }

  /** The task ids the stand-in answers. */
  const KnownTasks: set<string> :=
    {"generate_query_task", "llm_task", "similarity_retrieval_task", "keyword_retrieval_task", "reranking_task"}

  /** `MockTi.xcom_pull`: the question and the answer as given, each
      retrieval result decoded to a list ([] for a missing, empty,
      unparseable or non-list string), and None for any other id. */
  function XcomPull(ti: MockTi, parse: string -> Option<Value>, taskId: string): (v: Value)
    ensures taskId == "generate_query_task" ==> v == TextOrNone(ti.userQuestion)
    ensures taskId == "llm_task" ==> v == TextOrNone(ti.llmAnswer)
    ensures taskId == "similarity_retrieval_task" ==> v == ListOrEmptyParsed(parse, ti.similarityResults)
    ensures taskId == "keyword_retrieval_task" ==> v == ListOrEmptyParsed(parse, ti.keywordResults)
    ensures taskId == "reranking_task" ==> v == ListOrEmptyParsed(parse, ti.rerankResults)
    ensures taskId !in KnownTasks ==> v == VNone
  {
    if taskId == "generate_query_task" then TextOrNone(ti.userQuestion)
    else if taskId == "llm_task" then TextOrNone(ti.llmAnswer)
    else if taskId == "similarity_retrieval_task" then ListOrEmptyParsed(parse, ti.similarityResults)
    else if taskId == "keyword_retrieval_task" then ListOrEmptyParsed(parse, ti.keywordResults)
    else if taskId == "reranking_task" then ListOrEmptyParsed(parse, ti.rerankResults)
    else VNone
  }

  function PullOf(ti: MockTi, parse: string -> Option<Value>): string -> Value {
    id => XcomPull(ti, parse, id)
  }

  /** What the evaluation runs on: the stand-in, the service's QA file and
      the metric evaluation. */
  function InputsOf(ti: MockTi, parse: string -> Option<Value>, qa: Option<Value>,
                    evaluate: Dataset -> EvalOutcome): Inputs {
    Inputs(PullOf(ti, parse), qa, evaluate)
  }

  /** The body FastAPI accepts on `/ragas`: an evaluation payload whose
      question and answer are strings. */
  predicate Accepted(p: Payload) {
    p.RagasPayload? && p.userQuestion.VStr? && p.llmAnswer.VStr?
  }

  function MockOf(p: Payload): MockTi
    requires Accepted(p)
  {
    MockTi(Some(p.userQuestion.s), Some(p.llmAnswer.s), p.similarityResults, p.keywordResults, p.rerankResults)
  }

  function ModesOf(p: Payload): Modes
    requires p.RagasPayload?
  {
    Modes(p.useRerank, p.useSimilarity, p.useKeyword)
  }

  /** The evaluation reads the request's question and answer as sent, and a
      rendered result list comes back whole. */
  lemma MockReadsRequest(p: Payload, parse: string -> Option<Value>, render: Value -> string, v: Value)
    requires Accepted(p)
    ensures PullOf(MockOf(p), parse)("generate_query_task") == p.userQuestion
    ensures PullOf(MockOf(p), parse)("llm_task") == p.llmAnswer
    ensures p.rerankResults == Some(render(v)) && parse(render(v)) == Some(v) && render(v) != "" && v.VList? ==>
      PullOf(MockOf(p), parse)("reranking_task") == v
  {
    assert PullOf(MockOf(p), parse)("reranking_task") == ListOrEmptyParsed(parse, p.rerankResults);
    if p.rerankResults == Some(render(v)) && parse(render(v)) == Some(v) && render(v) != "" && v.VList? {
      DecodersInvertRender(parse, render, v);
    }
  }

  /** The evaluation's result as the handler returns it. */
  function Outcome(r: Result<map<string, ModeScore>>): (o: Result<Value>)
    ensures o.Ok? <==> r.Ok?
    ensures r.Ok? ==> o.value.VDict? && o.value.entries.Keys == r.value.Keys
  {
    match r
    case Ok(scores) => Ok(ScoresValue(scores))
    case Err(e) => Err(e)
  }

  /** The `/ragas` route: 422 for a body that fails validation, otherwise
      the evaluation's scores as a success body (the caller reads back a
      dict keyed by enabled modes) or its error text as a 500. */
  function RagasEndpoint(p: Payload, parse: string -> Option<Value>, qa: Option<Value>,
                         evaluate: Dataset -> EvalOutcome): (reply: Reply)
    ensures !Accepted(p) <==> reply.Response? && reply.code == 422
    ensures Accepted(p) ==>
      var r := Visit(ModeOrder, ModesOf(p), StepOf(InputsOf(MockOf(p), parse, qa, evaluate)), map[]);
      (Execute(reply).Ok? <==> r.Ok?) && (r.Ok? ==> Execute(reply) == Ok(ScoresValue(r.value)))
      && (r.Ok? ==> forall k :: k in r.value ==> Enabled(ModesOf(p), k))
  {
    if !Accepted(p) then Rejected("user_question and llm_answer must be strings")
    else
      var r := Visit(ModeOrder, ModesOf(p), StepOf(InputsOf(MockOf(p), parse, qa, evaluate)), map[]);
      RespondExecuteRoundTrip(Outcome(r));
      RagasKeys(ModesOf(p), InputsOf(MockOf(p), parse, qa, evaluate));
      Respond(Outcome(r))
  }

  /** The handler with its side effect: an accepted request touches the
      timer, then runs the evaluation loop. */
  method HandleRagas(timer: IdleTimer, now: int, p: Payload, parse: string -> Option<Value>,
                     qa: Option<Value>, evaluate: Dataset -> EvalOutcome) returns (reply: Reply)
    modifies timer
    ensures reply == RagasEndpoint(p, parse, qa, evaluate)
    ensures Accepted(p) ==> timer.lastUsed == now
    ensures !Accepted(p) ==> timer.lastUsed == old(timer.lastUsed)
  {
    if !Accepted(p) {
      return Rejected("user_question and llm_answer must be strings");
    }
    timer.Touch(now);
    var r := Ragas(ModesOf(p), InputsOf(MockOf(p), parse, qa, evaluate));
    reply := Respond(Outcome(r));
  }

  method HandleRoot(timer: IdleTimer, now: int) returns (body: Value)
    modifies timer
    ensures body == Health("ragas-api") && timer.lastUsed == now
  {
    timer.Touch(now);
    body := Health("ragas-api");
  }
}

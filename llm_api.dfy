/** The generation service (`llm-api`): the `/llm` route validates its body,
    touches the idle timer, runs the generation stage against a stand-in task
    instance built from the body, and shapes the result. */
module LlmApi {
  import opened Values
  import opened ApiCalling
  import opened WorkerHarness
  import opened Llm

  /** The stand-in task instance: the question, and one named upstream
      result carried as text. */
  datatype MockTi = MockTi(userQuestion: Option<string>, searchResultsTypes: Option<string>,
                           searchResults: Option<string>)

  /** `MockTi.xcom_pull(task_ids, key='return_value')`: the question (or the
      default question when it is empty), the decoded search results under
      their own task id, and None for every other id. */
  function XcomPull(ti: MockTi, parse: string -> Option<Value>, taskId: string): (v: Value)
    ensures taskId == "generate_query_task" ==> v == QuestionOrDefault(ti.userQuestion)
    ensures taskId != "generate_query_task" && ti.searchResultsTypes == Some(taskId) ==>
      v == LiteralOrRaw(parse, ti.searchResults)
    ensures taskId != "generate_query_task" && ti.searchResultsTypes != Some(taskId) ==> v == VNone
  {
    if taskId == "generate_query_task" then QuestionOrDefault(ti.userQuestion)
    else if ti.searchResultsTypes == Some(taskId) then LiteralOrRaw(parse, ti.searchResults)
    else VNone
  }

  /** The task instance as the generation stage sees it. */
  function PullOf(ti: MockTi, parse: string -> Option<Value>): string -> Value {
    id => XcomPull(ti, parse, id)
  }

  /** The retrieval task ids on the generation stage's fallback chain. */
  predicate OnFallbackChain(id: string) {
    id == "reranking_task" || id == "similarity_retrieval_task" || id == "keyword_retrieval_task"
  }

  /** What the generation stage reads through the stand-in: the one result
      the request carries when its id is on the fallback chain, and []
      otherwise. Whether the carried value is truthy does not matter: a
      falsy result makes the chain fall through to ids the stand-in answers
      with None. */
  lemma {:induction false} MockContext(ti: MockTi, parse: string -> Option<Value>, types: string)
    requires types != "validation"
    ensures GetContext(types, PullOf(ti, parse)) ==
      (if ti.searchResultsTypes.Some? && OnFallbackChain(ti.searchResultsTypes.value)
       then ListOrEmpty(LiteralOrRaw(parse, ti.searchResults)) else [])
  {
    var pull := PullOf(ti, parse);
    var d := LiteralOrRaw(parse, ti.searchResults);
    var srt := ti.searchResultsTypes;
    assert pull("reranking_task") == if srt == Some("reranking_task") then d else VNone;
    assert pull("similarity_retrieval_task") == if srt == Some("similarity_retrieval_task") then d else VNone;
    assert pull("keyword_retrieval_task") == if srt == Some("keyword_retrieval_task") then d else VNone;
    if !Truthy(d) {
      assert ListOrEmpty(d) == [];
    }
  }

  /** In validation mode the stage reads the carried result only when the
      request names the expert retrieval. */
  lemma MockValidationContext(ti: MockTi, parse: string -> Option<Value>)
    ensures GetContext("validation", PullOf(ti, parse)) ==
      (if ti.searchResultsTypes == Some("expert_retrieval_task")
       then ListOrEmpty(LiteralOrRaw(parse, ti.searchResults)) else [])
  {
    assert PullOf(ti, parse)("expert_retrieval_task") == XcomPull(ti, parse, "expert_retrieval_task");
  }

  /** The body FastAPI accepts on `/llm`: a generation payload whose
      question and model name are strings (pydantic rejects anything else
      with 422). */
  predicate Accepted(p: Payload) {
    p.LlmPayload? && p.userQuestion.VStr? && p.model.VStr?
  }

  /** The stand-in built from an accepted body. */
  function MockOf(p: Payload): MockTi
    requires Accepted(p)
  {
    MockTi(Some(p.userQuestion.s), p.searchResultsTypes, p.searchResults)
  }

  /** The `/llm` route: 422 for a body that fails validation, otherwise the
      stage's result as a success body (which the caller reads back as that
      result) or its error text as a 500. */
  function LlmEndpoint(p: Payload, model: Prompt -> string, parse: string -> Option<Value>): (reply: Reply)
    ensures !Accepted(p) <==> reply.Response? && reply.code == 422
    ensures Accepted(p) ==>
      var r := Run(p.types, PullOf(MockOf(p), parse), model, parse);
      (Execute(reply).Ok? <==> r.Ok?) && (r.Ok? ==> Execute(reply) == r)
      && (r.Err? ==> reply == Response(500, Some(VDict(map["detail" := VStr(r.error)]))))
  {
    if !Accepted(p) then Rejected("user_question and model must be strings")
    else
      var r := Run(p.types, PullOf(MockOf(p), parse), model, parse);
      RespondExecuteRoundTrip(r);
      Respond(r)
  }

  /** The handler with its side effect: an accepted request touches the
      timer before it runs; a rejected one never reaches the handler. */
  method HandleLlm(timer: IdleTimer, now: int, p: Payload, model: Prompt -> string,
                   parse: string -> Option<Value>) returns (reply: Reply)
    modifies timer
    ensures reply == LlmEndpoint(p, model, parse)
    ensures Accepted(p) ==> timer.lastUsed == now
    ensures !Accepted(p) ==> timer.lastUsed == old(timer.lastUsed)
  {
    if !Accepted(p) {
      return Rejected("user_question and model must be strings");
    }
    timer.Touch(now);
    reply := Respond(Run(p.types, PullOf(MockOf(p), parse), model, parse));
  }

  /** The health route touches the timer too. */
  method HandleRoot(timer: IdleTimer, now: int) returns (body: Value)
    modifies timer
    ensures body == Health("llm-api") && timer.lastUsed == now
  {
    timer.Touch(now);
    body := Health("llm-api");
  }
}

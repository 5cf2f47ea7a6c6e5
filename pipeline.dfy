/** How the API-based DAG's requests land on the generation service: what
    the two defects of the DAG file do to the answer stage once their
    requests arrive, and what the corrected stages deliver instead. */
module Pipeline {
  import opened Values
  import opened Topology
  import opened ApiCalling
  import opened WorkerHarness
  import opened StatefulDag
  import opened Llm
  import LlmApi

  /** The generation stage's request for a run store. */
  function GenerationRequestFor(f: Flags, q: Value, s: Settings, env: map<string, string>,
                                store: map<string, Value>, render: Value -> string): (r: Request)
    ensures r.payload.LlmPayload? && r.payload.userQuestion == Pull(store, "generate_query_task")
    ensures r.payload.model == s.llmModel
  {
    StageRequest(StageOf(f, q, LlmGenerate).value, s, env, store, render).value
  }

  /** With a question set in the configuration, the question task hands
      None to the run store, the generation request carries None as its
      question, and the generation service rejects the body with 422, so
      the generation task fails. */
  lemma ConfiguredQuestionFailsGeneration(f: Flags, q: string, s: Settings, env: map<string, string>,
                                          store: map<string, Value>, render: Value -> string,
                                          model: Prompt -> string, parse: string -> Option<Value>)
    requires q != ""
    ensures var written := store["generate_query_task" := GetUserQuestion(VStr(q))];
      var reply := LlmApi.LlmEndpoint(GenerationRequestFor(f, VStr(q), s, env, written, render).payload, model, parse);
      reply.Response? && reply.code == 422 && Execute(reply).Err?
  {
    var written := store["generate_query_task" := GetUserQuestion(VStr(q))];
    assert Pull(written, "generate_query_task") == VNone;
    RejectedIsError("user_question and model must be strings");
  }

  /** With the corrected question task the same request carries the
      configured question, is accepted, and the service reads that
      question. */
  lemma FixedQuestionReachesGeneration(f: Flags, q: string, s: Settings, env: map<string, string>,
                                       store: map<string, Value>, render: Value -> string,
                                       parse: string -> Option<Value>)
    requires q != "" && s.llmModel.VStr?
    ensures var written := store["generate_query_task" := GetUserQuestionFixed(VStr(q))];
      var req := GenerationRequestFor(f, VStr(q), s, env, written, render);
      LlmApi.Accepted(req.payload) && req.payload.userQuestion == VStr(q)
      && Llm.UserQuestion(LlmApi.PullOf(LlmApi.MockOf(req.payload), parse)) == VStr(q)
  {
    var written := store["generate_query_task" := GetUserQuestionFixed(VStr(q))];
    assert Pull(written, "generate_query_task") == VStr(q);
    var req := GenerationRequestFor(f, VStr(q), s, env, written, render);
    assert LlmApi.PullOf(LlmApi.MockOf(req.payload), parse)("generate_query_task")
        == LlmApi.XcomPull(LlmApi.MockOf(req.payload), parse, "generate_query_task");
  }

  /** The validation request names no source task, so the generation
      service's stand-in answers the expert retrieval's id with None and
      the validation prompt gets an empty context, whatever the expert
      retrieval found. The corrected stage's request carries the expert
      results, and the service reads them back whole. */
  lemma ValidationLosesExpertContext(f: Flags, q: Value, s: Settings, env: map<string, string>,
                                     store: map<string, Value>, render: Value -> string,
                                     parse: string -> Option<Value>)
    requires f.expert
    ensures var req := StageRequest(StageOf(f, q, ExpertValidation).value, s, env, store, render).value;
      req.payload.LlmPayload? && req.payload.types == "validation"
      && (LlmApi.Accepted(req.payload) ==>
            GetContext("validation", LlmApi.PullOf(LlmApi.MockOf(req.payload), parse)) == [])
    ensures var req := StageRequest(ValidationStageFixed(), s, env, store, render).value;
      var found := Pull(store, "expert_retrieval_task");
      LlmApi.Accepted(req.payload) && parse(render(found)) == Some(found) ==>
        GetContext("validation", LlmApi.PullOf(LlmApi.MockOf(req.payload), parse)) == ListOrEmpty(found)
  {
    var req := StageRequest(StageOf(f, q, ExpertValidation).value, s, env, store, render).value;
    ValidationRequestHasNoContext(f, q, s, env, store, render);
    if LlmApi.Accepted(req.payload) {
      LlmApi.MockValidationContext(LlmApi.MockOf(req.payload), parse);
    }
    var fixed := StageRequest(ValidationStageFixed(), s, env, store, render).value;
    var found := Pull(store, "expert_retrieval_task");
    ValidationFixedCarriesContext(s, env, store, render);
    if LlmApi.Accepted(fixed.payload) && parse(render(found)) == Some(found) {
      LlmApi.MockValidationContext(LlmApi.MockOf(fixed.payload), parse);
      DecodersInvertRender(parse, render, found);
    }
  }
}

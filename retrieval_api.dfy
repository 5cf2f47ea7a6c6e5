/** The retrieval service (`retrieval-api`): the `/retrieve` route validates
    its body, touches the idle timer, fetches the retrieval instance for the
    embedding model from a per-model cache, and runs the search against a
    stand-in task instance. Creating an instance and the search itself are
    inputs. */
module RetrievalApi {
  import opened Values
  import opened ApiCalling
  import opened WorkerHarness

  /** The stand-in task instance: the question and the keyword list as
      text. */
  datatype MockTi = MockTi(userQuestion: Option<string>, keywordList: Option<string>)

  /** `MockTi.xcom_pull`: the question (or the default question when it is
      empty), the keyword list decoded (its raw text when it does not
      parse), and None for any other id. */
  function XcomPull(ti: MockTi, parse: string -> Option<Value>, taskId: string): (v: Value)
    ensures taskId == "generate_query_task" ==> v == QuestionOrDefault(ti.userQuestion)
    ensures taskId == "keyword_extraction_task" ==> v == LiteralOrRaw(parse, ti.keywordList)
    ensures taskId != "generate_query_task" && taskId != "keyword_extraction_task" ==> v == VNone
  {
    if taskId == "generate_query_task" then QuestionOrDefault(ti.userQuestion)
    else if taskId == "keyword_extraction_task" then LiteralOrRaw(parse, ti.keywordList)
    else VNone
  }

  function PullOf(ti: MockTi, parse: string -> Option<Value>): string -> Value {
    id => XcomPull(ti, parse, id)
  }

  /** A retrieval instance, by identity. */
  datatype Instance = Instance(id: nat)

  /** The search a retrieval instance runs: type, document type, topk and
      the task instance it pulls from. */
  type Search = (Instance, string, string, int, string -> Value) -> Result<Value>

  /** The global `retrieval_instances` dict. */
  class InstanceCache {
    var instances: map<string, Instance>

    constructor ()
      ensures instances == map[]
    {
      instances := map[];
    }

    /** `get_retrieval_instance`: the cached instance of a model, or a new
        one stored under it. A constructor that raises stores nothing. An
        entry, once stored, is never replaced or removed. */
    method GetInstance(embedModel: string, create: string -> Result<Instance>) returns (r: Result<Instance>)
      modifies this
      ensures embedModel in old(instances) ==> r == Ok(old(instances)[embedModel]) && instances == old(instances)
      ensures embedModel !in old(instances) ==> r == create(embedModel)
      ensures embedModel !in old(instances) && r.Ok? ==> instances == old(instances)[embedModel := r.value]
      ensures r.Err? ==> instances == old(instances)
      ensures forall k :: k in old(instances) ==> k in instances && instances[k] == old(instances)[k]
    {
      if embedModel !in instances {
        var created := create(embedModel);
        if created.Err? {
          return created;
        }
        instances := instances[embedModel := created.value];
      }
      r := Ok(instances[embedModel]);
    }
  }

  /** The body FastAPI accepts on `/retrieve`: a retrieval payload whose
      question, document type and embedding model are strings. */
  predicate Accepted(p: Payload) {
    p.RetrievalPayload? && p.userQuestion.VStr? && p.documentTypes.VStr? && p.embedModel.VStr?
  }

  function MockOf(p: Payload): MockTi
    requires Accepted(p)
  {
    MockTi(Some(p.userQuestion.s), Some(p.keywordList))
  }

  /** The `/retrieve` route: the timer is touched, the instance comes from
      the cache, and the search's result (or any failure, including a
      failed instance creation) is shaped into the reply. */
  method HandleRetrieve(timer: IdleTimer, cache: InstanceCache, now: int, p: Payload,
                        parse: string -> Option<Value>, create: string -> Result<Instance>, search: Search)
    returns (reply: Reply)
    modifies timer, cache
    ensures !Accepted(p) ==> reply.Response? && reply.code == 422
                             && timer.lastUsed == old(timer.lastUsed) && cache.instances == old(cache.instances)
    ensures Accepted(p) ==> timer.lastUsed == now
    ensures Accepted(p) && p.embedModel.s in old(cache.instances) ==> cache.instances == old(cache.instances)
    ensures Accepted(p) && p.embedModel.s !in old(cache.instances) && create(p.embedModel.s).Ok? ==>
      cache.instances == old(cache.instances)[p.embedModel.s := create(p.embedModel.s).value]
    ensures Accepted(p) && p.embedModel.s !in old(cache.instances) && create(p.embedModel.s).Err? ==>
      cache.instances == old(cache.instances) && Execute(reply).Err?
    ensures Accepted(p) ==> p.embedModel.s in cache.instances || Execute(reply).Err?
    ensures Accepted(p) && p.embedModel.s in cache.instances ==>
      var inst := cache.instances[p.embedModel.s];
      var r := search(inst, p.types, p.documentTypes.s, p.topk, PullOf(MockOf(p), parse));
      (Execute(reply).Ok? <==> r.Ok?) && (r.Ok? ==> Execute(reply) == r)
    ensures forall k :: k in old(cache.instances) ==> k in cache.instances && cache.instances[k] == old(cache.instances)[k]
  {
    if !Accepted(p) {
      return Rejected("user_question, document_types and embed_model must be strings");
    }
    timer.Touch(now);
    var inst := cache.GetInstance(p.embedModel.s, create);
    if inst.Err? {
      reply := Respond(Err(inst.error));
      RespondExecuteRoundTrip(Err(inst.error));
      return;
    }
    var r := search(inst.value, p.types, p.documentTypes.s, p.topk, PullOf(MockOf(p), parse));
    reply := Respond(r);
    RespondExecuteRoundTrip(r);
  }

  method HandleRoot(timer: IdleTimer, now: int) returns (body: Value)
    modifies timer
    ensures body == Health("retrieval-api") && timer.lastUsed == now
  {
    timer.Touch(now);
    body := Health("retrieval-api");
  }
}

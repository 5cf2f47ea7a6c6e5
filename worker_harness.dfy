/** What the four stage services share: the idle timer that shuts a
    service down after five quiet minutes, the shape of their responses, and
    the decoders their stand-in task instances ("MockTi") apply to the
    strings a request carries. */
module WorkerHarness {
  import opened Values
  import opened ApiCalling

  /** Seconds without a request after which a service exits. */
  const InactivityTimeout: int := 300
  /** Seconds between two checks of the monitor. */
  const CheckInterval: int := 60

  /** The global last-used time of one service, with the clock passed in. */
  class IdleTimer {
    var lastUsed: int

    /** The value set when the service module is loaded. */
    constructor (now: int)
      ensures lastUsed == now
    {
      lastUsed := now;
    }

    /** `update_last_used_time()`, called first by every handler. */
    method Touch(now: int)
      modifies this
      ensures lastUsed == now
    {
      lastUsed := now;
    }

    /** The monitor's test at one check. */
    predicate Expired(now: int)
      reads this
    {
      now - lastUsed > InactivityTimeout
    }

    /** `inactivity_monitor()` when no request arrives after `start`: it
        sleeps one interval, checks, and exits at the first check that finds
        more than the timeout elapsed. That check is a whole number of
        intervals after `start`, and it is the first one past the timeout,
        so a quiet service exits between 300 and 360 seconds after its last
        request (or at the first check, when it was already expired). */
    method Monitor(start: int) returns (exitAt: int)
      requires lastUsed <= start
      ensures Expired(exitAt)
      ensures exitAt > start && (exitAt - start) % CheckInterval == 0
      ensures exitAt - CheckInterval == start || !Expired(exitAt - CheckInterval)
      ensures exitAt - lastUsed <= InactivityTimeout + CheckInterval || exitAt == start + CheckInterval
    {
      var now := start;
      while true
        invariant now >= start && (now - start) % CheckInterval == 0
        invariant now == start || !Expired(now)
        decreases lastUsed + InactivityTimeout + CheckInterval - now
      {
        now := now + CheckInterval;
        if Expired(now) {
          return now;
        }
      }
    }
  }

  /** A handler's reply: `{"status": "success", "result": r}`, or HTTP 500
      whose detail is the error text. */
  function Respond(r: Result<Value>): (reply: Reply)
    ensures reply.Response? && reply.body.Some? && reply.body.value.VDict?
    ensures r.Ok? <==> reply.code == 200
    ensures r.Err? ==> reply.code == 500 && reply.body.value.entries == map["detail" := VStr(r.error)]
    ensures r.Ok? ==> reply.body.value.entries == map["status" := VStr("success"), "result" := r.value]
  {
    match r
    case Ok(v) => Response(200, Some(VDict(map["status" := VStr("success"), "result" := v])))
    case Err(e) => Response(500, Some(VDict(map["detail" := VStr(e)])))
  }

  /** A request body that fails the service's field validation never
      reaches the handler: FastAPI answers 422 and the timer is not touched. */
  function Rejected(reason: string): (reply: Reply)
    ensures reply.Response? && reply.code == 422
  {
    Response(422, Some(VDict(map["detail" := VStr(reason)])))
  }

  /** The health endpoint's body. */
  function Health(service: string): Value
  {
    VDict(map["status" := VStr("healthy"), "service" := VStr(service)])
  }

  /** The client side undoes the service side: a success comes back as the
      handler's result, a failure as an error. */
  lemma RespondExecuteRoundTrip(r: Result<Value>)
    ensures r.Ok? ==> Execute(Respond(r)) == Ok(r.value)
    ensures r.Err? ==> Execute(Respond(r)).Err?
  {
  }

  lemma RejectedIsError(reason: string)
    ensures Execute(Rejected(reason)).Err?
  {
  }

  // ------------------------------------------------------------- decoders

  /** `ast.literal_eval(s)`, answering the raw value when parsing raises (a
      missing string raises too, and is answered as None). `parse` stands
      for the literal parser. */
  function LiteralOrRaw(parse: string -> Option<Value>, s: Option<string>): (v: Value)
    ensures s.None? ==> v == VNone
    ensures s.Some? && parse(s.value).Some? ==> v == parse(s.value).value
    ensures s.Some? && parse(s.value).None? ==> v == VStr(s.value)
  {
    match s
    case None => VNone
    case Some(text) => if parse(text).Some? then parse(text).value else VStr(text)
  }

  /** The rerank services' decoder: a missing or empty string and a parse
      failure give [], otherwise the parsed value, whatever its type. */
  function ParsedOrEmpty(parse: string -> Option<Value>, s: Option<string>): (v: Value)
    ensures s.None? || s.value == "" ==> v == VList([])
    ensures s.Some? && s.value != "" && parse(s.value).None? ==> v == VList([])
    ensures s.Some? && s.value != "" && parse(s.value).Some? ==> v == parse(s.value).value
  {
    if s.None? || s.value == "" then VList([])
    else if parse(s.value).None? then VList([])
    else parse(s.value).value
  }

  /** The evaluation services' decoder: [] unless the string parses to a
      list. */
  function ListOrEmptyParsed(parse: string -> Option<Value>, s: Option<string>): (v: Value)
    ensures v.VList?
    ensures v != VList([]) ==> s.Some? && parse(s.value) == Some(v)
    ensures s.Some? && s.value != "" && parse(s.value).Some? && parse(s.value).value.VList? ==>
      v == parse(s.value).value
  {
    if s.None? || s.value == "" then VList([])
    else if parse(s.value).None? || !parse(s.value).value.VList? then VList([])
    else parse(s.value).value
  }

  /** A list that survives the wire: when the literal parser reads back
      what `str()` wrote, each decoder gives back the original value (the
      evaluation decoder only lists). */
  lemma DecodersInvertRender(parse: string -> Option<Value>, render: Value -> string, v: Value)
    requires parse(render(v)) == Some(v)
    ensures LiteralOrRaw(parse, Some(render(v))) == v
    ensures render(v) != "" ==> ParsedOrEmpty(parse, Some(render(v))) == v
    ensures render(v) != "" && v.VList? ==> ListOrEmptyParsed(parse, Some(render(v))) == v
  {
  }
}

/** The evaluation stage (`Ragas`): for the enabled retrieval modes, in the
    order rerank, similarity, keyword, it assembles the question, the
    generated answer, the reference answer from the QA pairs and the
    retrieved contexts, and evaluates the first mode that has something to
    evaluate. The QA file's content and the metric evaluation are inputs. */
module RagasEvaluator {
  import opened Values

  /** The one-row dataset handed to the evaluation. */
  datatype Dataset = Dataset(question: seq<Value>, answer: seq<Value>, groundTruth: seq<Value>,
                             contexts: seq<Value>)

  /** What `evaluate` gives back: an `EvaluationResult` with its score
      dictionary, a plain dict, any other value, or an exception. */
  datatype EvalOutcome = EvaluationResult(repr: map<string, Value>) | PlainDict(d: map<string, Value>)
                       | OtherValue | Raised(message: string)

  /** The task instance, the QA file as decoded JSON (None when it cannot
      be opened or decoded), and the metric evaluation. */
  datatype Inputs = Inputs(pull: string -> Value, qa: Option<Value>, evaluate: Dataset -> EvalOutcome)

  /** What one mode records. */
  datatype ModeScore = NoRelevantInfo | Evaluated(scores: map<string, Value>)

  /** `get_user_question` */
  function UserQuestion(inp: Inputs): Value {
    inp.pull("generate_query_task")
  }

  /** `get_llm_answer`: only the "rag" type is known. */
  function GetLlmAnswer(inp: Inputs, types: string): (r: Result<Value>)
    ensures r.Ok? <==> types == "rag"
    ensures r.Ok? ==> r.value == inp.pull("llm_task")
  {
    if types == "rag" then Ok(inp.pull("llm_task")) else Err("ValueError: Invalid type for LLM answer.")
  }

  /** `get_standard_answer`: the QA pairs' answer for the question, or
      "No matching question found." when there is none (a JSON null counts
      as none). Loading the file, a file that is not an object, and an
      unhashable question raise. */
  function GetStandardAnswer(qa: Option<Value>, question: Value): (r: Result<Value>)
    ensures r.Ok? <==> qa.Some? && qa.value.VDict? && Hashable(question)
    ensures r.Ok? && question.VStr? && question.s in qa.value.entries && qa.value.entries[question.s] != VNone ==>
      r.value == qa.value.entries[question.s]
    ensures r.Ok? && !(question.VStr? && question.s in qa.value.entries && qa.value.entries[question.s] != VNone) ==>
      r.value == VStr("No matching question found.")
  {
    if qa.None? then Err("cannot load the QA pairs")
    else if !qa.value.VDict? then Err("AttributeError: object has no attribute 'get'")
    else if !Hashable(question) then Err("TypeError: unhashable type")
    else
      var answer := if question.VStr? then Get(qa.value.entries, question.s) else VNone;
      if answer == VNone then Ok(VStr("No matching question found.")) else Ok(answer)
  }

  /** The result task each mode's contexts come from. */
  function ReferenceTask(types: string): (r: Option<string>)
    ensures r.Some? <==> types == "similarity" || types == "keyword" || types == "rerank"
  {
    if types == "similarity" then Some("similarity_retrieval_task")
    else if types == "keyword" then Some("keyword_retrieval_task")
    else if types == "rerank" then Some("reranking_task")
    else None
  }

  /** `get_reference_answer`: the mode's result wrapped in a one-element
      list; an unknown mode raises ValueError. */
  function GetReferenceAnswer(inp: Inputs, types: string): (r: Result<seq<Value>>)
    ensures r.Ok? <==> ReferenceTask(types).Some?
    ensures r.Ok? ==> r.value == [inp.pull(ReferenceTask(types).value)]
  {
    match ReferenceTask(types)
    case None => Err("ValueError: Invalid type for reference answer.")
    case Some(id) => Ok([inp.pull(id)])
  }

  /** `get_rag_results`: the dataset for one mode, or the first failure
      among the getters. */
  function GetRagResults(inp: Inputs, retrievalTypes: string, llmTypes: string): (r: Result<Dataset>)
    ensures r.Ok? <==> llmTypes == "rag" && GetStandardAnswer(inp.qa, UserQuestion(inp)).Ok?
                       && ReferenceTask(retrievalTypes).Some?
    ensures r.Ok? ==> r.value == Dataset([UserQuestion(inp)], [inp.pull("llm_task")],
                                         [GetStandardAnswer(inp.qa, UserQuestion(inp)).value],
                                         [inp.pull(ReferenceTask(retrievalTypes).value)])
  {
    var question := UserQuestion(inp);
    match GetLlmAnswer(inp, llmTypes)
    case Err(e) => Err(e)
    case Ok(answer) =>
      match GetStandardAnswer(inp.qa, question)
      case Err(e) => Err(e)
      case Ok(standard) =>
        match GetReferenceAnswer(inp, retrievalTypes)
        case Err(e) => Err(e)
        case Ok(reference) => Ok(Dataset([question], [answer], [standard], reference))
  }

  /** The normalisation of an evaluation: an `EvaluationResult` gives its
      score dict, a dict is kept, anything else becomes an error dict, and
      an exception propagates. */
  function Normalise(o: EvalOutcome): (r: Result<ModeScore>)
    ensures r.Err? <==> o.Raised?
    ensures o.EvaluationResult? ==> r == Ok(Evaluated(o.repr))
    ensures o.PlainDict? ==> r == Ok(Evaluated(o.d))
    ensures o.OtherValue? ==> r == Ok(Evaluated(map["error" := VStr("Unexpected evaluation result type")]))
  {
    match o
    case EvaluationResult(repr) => Ok(Evaluated(repr))
    case PlainDict(d) => Ok(Evaluated(d))
    case OtherValue => Ok(Evaluated(map["error" := VStr("Unexpected evaluation result type")]))
    case Raised(msg) => Err(msg)
  }

  /** One visited mode: a similarity answer that mentions "no relevant
      information" (in any case) and a keyword run with an empty first
      context record no relevant information; every other case is
      evaluated. Lower-casing an answer that is not a string raises. */
  function Step(inp: Inputs, mode: string): (r: Result<ModeScore>)
    ensures mode == "rerank" && r.Ok? ==> r.value.Evaluated?
  {
    match GetRagResults(inp, mode, "rag")
    case Err(e) => Err(e)
    case Ok(rag) =>
      if mode == "similarity" then
        if !rag.answer[0].VStr? then Err("AttributeError: object has no attribute 'lower'")
        else if Contains(Lower(rag.answer[0].s), "no relevant information") then Ok(NoRelevantInfo)
        else Normalise(inp.evaluate(rag))
      else if mode == "keyword" && !Truthy(rag.contexts[0]) then Ok(NoRelevantInfo)
      else Normalise(inp.evaluate(rag))
  }

  /** The three mode flags. */
  datatype Modes = Modes(rerank: bool, similarity: bool, keyword: bool)

  predicate Enabled(m: Modes, mode: string) {
    (mode == "rerank" && m.rerank) || (mode == "similarity" && m.similarity) || (mode == "keyword" && m.keyword)
  }

  /** The order the loop visits the modes in. */
  const ModeOrder: seq<string> := ["rerank", "similarity", "keyword"]

  /** The loop from some point on: disabled modes are skipped, a mode with
      no relevant information is recorded and the loop goes on, an
      evaluated mode is recorded and ends the loop, and a failure ends the
      whole evaluation. */
  function Visit(modes: seq<string>, m: Modes, step: string -> Result<ModeScore>, acc: map<string, ModeScore>): Result<map<string, ModeScore>>
    decreases |modes|
  {
    if modes == [] then Ok(acc)
    else if !Enabled(m, modes[0]) then Visit(modes[1..], m, step, acc)
    else match step(modes[0])
      case Err(e) => Err(e)
      case Ok(NoRelevantInfo) => Visit(modes[1..], m, step, acc[modes[0] := NoRelevantInfo])
      case Ok(Evaluated(s)) => Ok(acc[modes[0] := Evaluated(s)])
  }

  /** The step each visited mode takes. */
  function StepOf(inp: Inputs): string -> Result<ModeScore> {
    mode => Step(inp, mode)
  }

  /** `Ragas.ragas`: nothing enabled gives {}; otherwise the loop runs over
      the modes in order, recording each visited mode and breaking after
      the first evaluation. */
  method Ragas(m: Modes, inp: Inputs) returns (r: Result<map<string, ModeScore>>)
    ensures r == Visit(ModeOrder, m, StepOf(inp), map[])
    ensures !m.rerank && !m.similarity && !m.keyword ==> r == Ok(map[])
  {
    if !m.rerank && !m.similarity && !m.keyword {
      assert ModeOrder[1..] == ["similarity", "keyword"] && ModeOrder[1..][1..] == ["keyword"];
      return Ok(map[]);
    }
    var result: map<string, ModeScore> := map[];
    var i := 0;
    while i < |ModeOrder|
      invariant 0 <= i <= |ModeOrder|
      invariant Visit(ModeOrder[i..], m, StepOf(inp), result) == Visit(ModeOrder, m, StepOf(inp), map[])
    {
      var mode := ModeOrder[i];
      assert ModeOrder[i..][1..] == ModeOrder[i + 1..];
      if !Enabled(m, mode) {
        i := i + 1;
        continue;
      }
      var score := Step(inp, mode);
      assert score == StepOf(inp)(mode);
      if score.Err? {
        return Err(score.error);
      }
      result := result[mode := score.value];
      if score.value.Evaluated? {
        return Ok(result);
      }
      i := i + 1;
    }
    r := Ok(result);
  }

  /** Result keys are the accumulated ones and enabled modes. */
  lemma {:induction false} VisitKeys(modes: seq<string>, m: Modes, step: string -> Result<ModeScore>, acc: map<string, ModeScore>)
    ensures Visit(modes, m, step, acc).Ok? ==>
      forall k :: k in Visit(modes, m, step, acc).value ==> k in acc || (k in modes && Enabled(m, k))
  {
    if modes != [] {
      VisitKeys(modes[1..], m, step, acc);
      VisitKeys(modes[1..], m, step, acc[modes[0] := NoRelevantInfo]);
    }
  }

  /** The loop evaluates at most one mode. */
  lemma {:induction false} VisitAtMostOne(modes: seq<string>, m: Modes, step: string -> Result<ModeScore>, acc: map<string, ModeScore>)
    requires forall k :: k in acc ==> acc[k] == NoRelevantInfo
    ensures var r := Visit(modes, m, step, acc);
      r.Ok? ==> forall k1, k2 :: k1 in r.value && k2 in r.value && r.value[k1].Evaluated? && r.value[k2].Evaluated? ==> k1 == k2
  {
    if modes != [] {
      var r := Visit(modes, m, step, acc);
      if !Enabled(m, modes[0]) {
        VisitAtMostOne(modes[1..], m, step, acc);
      } else if step(modes[0]) == Ok(NoRelevantInfo) {
        var acc' := acc[modes[0] := NoRelevantInfo];
        assert forall k :: k in acc' ==> acc'[k] == NoRelevantInfo;
        VisitAtMostOne(modes[1..], m, step, acc');
        assert r == Visit(modes[1..], m, step, acc');
      } else if r.Ok? {
        assert forall k :: k in r.value && k != modes[0] ==> r.value[k] == NoRelevantInfo;
      }
    }
  }

  /** The first mode does not occur again. */
  lemma HeadNotInTail(modes: seq<string>)
    requires modes != [] && NoDuplicates(modes)
    ensures modes[0] !in modes[1..] && NoDuplicates(modes[1..])
  {
  }

  /** A key the rest of the loop never visits keeps its value. */
  lemma {:induction false} VisitPreserves(modes: seq<string>, m: Modes, step: string -> Result<ModeScore>, acc: map<string, ModeScore>, k: string)
    requires k in acc && k !in modes
    ensures Visit(modes, m, step, acc).Ok? ==>
      k in Visit(modes, m, step, acc).value && Visit(modes, m, step, acc).value[k] == acc[k]
  {
    if modes != [] {
      VisitPreserves(modes[1..], m, step, acc, k);
      VisitPreserves(modes[1..], m, step, acc[modes[0] := NoRelevantInfo], k);
    }
  }

  /** Nothing after the evaluated mode is visited: the loop breaks. */
  lemma {:induction false} VisitStopsAtEvaluated(modes: seq<string>, m: Modes, step: string -> Result<ModeScore>, acc: map<string, ModeScore>)
    requires NoDuplicates(modes)
    requires forall k :: k in modes ==> k !in acc
    ensures var r := Visit(modes, m, step, acc);
      r.Ok? ==> forall i, j :: 0 <= i < j < |modes| && modes[i] in r.value && r.value[modes[i]].Evaluated? ==> modes[j] !in r.value
  {
    if modes != [] {
      var rest := modes[1..];
      HeadNotInTail(modes);
      var r := Visit(modes, m, step, acc);
      if !Enabled(m, modes[0]) {
        VisitStopsAtEvaluated(rest, m, step, acc);
        VisitKeys(rest, m, step, acc);
        assert r.Ok? ==> modes[0] !in r.value;
      } else if step(modes[0]) == Ok(NoRelevantInfo) {
        var acc' := acc[modes[0] := NoRelevantInfo];
        VisitStopsAtEvaluated(rest, m, step, acc');
        VisitPreserves(rest, m, step, acc', modes[0]);
      } else if r.Ok? {
        assert r.value.Keys == acc.Keys + {modes[0]};
        assert forall j :: 1 <= j < |modes| ==> modes[j] !in r.value by {
          forall j | 1 <= j < |modes| ensures modes[j] !in r.value {
            assert modes[j] == rest[j - 1];
          }
        }
      }
    }
  }

  /** Every enabled mode before a visited one was visited and had no
      relevant information: the loop only goes on past such a mode. */
  lemma {:induction false} VisitEarlierNoRelevant(modes: seq<string>, m: Modes, step: string -> Result<ModeScore>, acc: map<string, ModeScore>)
    requires NoDuplicates(modes)
    requires forall k :: k in modes ==> k !in acc
    ensures var r := Visit(modes, m, step, acc);
      r.Ok? ==> forall i, j :: 0 <= i < j < |modes| && Enabled(m, modes[i]) && modes[j] in r.value ==>
        modes[i] in r.value && r.value[modes[i]] == NoRelevantInfo
  {
    if modes != [] {
      var rest := modes[1..];
      HeadNotInTail(modes);
      var r := Visit(modes, m, step, acc);
      if !Enabled(m, modes[0]) {
        VisitEarlierNoRelevant(rest, m, step, acc);
      } else if step(modes[0]) == Ok(NoRelevantInfo) {
        var acc' := acc[modes[0] := NoRelevantInfo];
        VisitEarlierNoRelevant(rest, m, step, acc');
        VisitPreserves(rest, m, step, acc', modes[0]);
      } else if r.Ok? {
        assert r.value.Keys == acc.Keys + {modes[0]};
        assert forall j :: 1 <= j < |modes| ==> modes[j] !in r.value by {
          forall j | 1 <= j < |modes| ensures modes[j] !in r.value {
            assert modes[j] == rest[j - 1];
          }
        }
      }
    }
  }

  /** An enabled mode is missing from the result only when an earlier mode
      was evaluated. */
  lemma {:induction false} VisitReachesEveryEnabled(modes: seq<string>, m: Modes, step: string -> Result<ModeScore>, acc: map<string, ModeScore>)
    requires NoDuplicates(modes)
    ensures var r := Visit(modes, m, step, acc);
      r.Ok? ==> forall i :: 0 <= i < |modes| && Enabled(m, modes[i]) && modes[i] !in r.value ==>
        exists j :: 0 <= j < i && modes[j] in r.value && r.value[modes[j]].Evaluated?
  {
    if modes != [] {
      var rest := modes[1..];
      HeadNotInTail(modes);
      var r := Visit(modes, m, step, acc);
      if r.Ok? {
        if !Enabled(m, modes[0]) {
          VisitReachesEveryEnabled(rest, m, step, acc);
          forall i | 1 <= i < |modes| && Enabled(m, modes[i]) && modes[i] !in r.value
            ensures exists j :: 0 <= j < i && modes[j] in r.value && r.value[modes[j]].Evaluated?
          {
            assert rest[i - 1] == modes[i];
            var j :| 0 <= j < i - 1 && rest[j] in r.value && r.value[rest[j]].Evaluated?;
            assert modes[j + 1] == rest[j];
          }
        } else if step(modes[0]) == Ok(NoRelevantInfo) {
          var acc' := acc[modes[0] := NoRelevantInfo];
          VisitReachesEveryEnabled(rest, m, step, acc');
          VisitPreserves(rest, m, step, acc', modes[0]);
          forall i | 1 <= i < |modes| && Enabled(m, modes[i]) && modes[i] !in r.value
            ensures exists j :: 0 <= j < i && modes[j] in r.value && r.value[modes[j]].Evaluated?
          {
            assert rest[i - 1] == modes[i];
            var j :| 0 <= j < i - 1 && rest[j] in r.value && r.value[rest[j]].Evaluated?;
            assert modes[j + 1] == rest[j];
          }
        } else {
          assert modes[0] in r.value && r.value[modes[0]].Evaluated?;
        }
      }
    }
  }

  /** The evaluation result as the stage returns it: each visited mode's
      score dict, or the status dict of a mode without relevant
      information. */
  function ScoreValue(score: ModeScore): Value {
    match score
    case NoRelevantInfo => VDict(map["status" := VStr("No relevant information found")])
    case Evaluated(scores) => VDict(scores)
  }

  function ScoresValue(scores: map<string, ModeScore>): (v: Value)
    ensures v.VDict? && v.entries.Keys == scores.Keys
    ensures forall k :: k in scores ==> v.entries[k] == ScoreValue(scores[k])
  {
    VDict(map k | k in scores :: ScoreValue(scores[k]))
  }

  /** Only enabled modes appear in the result. */
  lemma RagasKeys(m: Modes, inp: Inputs)
    ensures var r := Visit(ModeOrder, m, StepOf(inp), map[]);
      r.Ok? ==> forall k :: k in r.value ==> Enabled(m, k)
  {
    VisitKeys(ModeOrder, m, StepOf(inp), map[]);
  }

  /** At most one mode is evaluated. */
  lemma RagasAtMostOneEvaluated(m: Modes, inp: Inputs)
    ensures var r := Visit(ModeOrder, m, StepOf(inp), map[]);
      r.Ok? ==> forall k1, k2 :: k1 in r.value && k2 in r.value && r.value[k1].Evaluated? && r.value[k2].Evaluated? ==> k1 == k2
  {
    VisitAtMostOne(ModeOrder, m, StepOf(inp), map[]);
  }

  /** The visiting order: no mode after the evaluated one appears, every
      enabled mode before a recorded one had no relevant information, and
      an enabled mode is missing only when an earlier one was evaluated. */
  lemma RagasOrder(m: Modes, inp: Inputs)
    ensures var r := Visit(ModeOrder, m, StepOf(inp), map[]);
      r.Ok? ==> forall i, j :: 0 <= i < j < |ModeOrder| && ModeOrder[i] in r.value && r.value[ModeOrder[i]].Evaluated? ==>
        ModeOrder[j] !in r.value
    ensures var r := Visit(ModeOrder, m, StepOf(inp), map[]);
      r.Ok? ==> forall i, j :: 0 <= i < j < |ModeOrder| && Enabled(m, ModeOrder[i]) && ModeOrder[j] in r.value ==>
        ModeOrder[i] in r.value && r.value[ModeOrder[i]] == NoRelevantInfo
    ensures var r := Visit(ModeOrder, m, StepOf(inp), map[]);
      r.Ok? ==> forall i :: 0 <= i < |ModeOrder| && Enabled(m, ModeOrder[i]) && ModeOrder[i] !in r.value ==>
        exists j :: 0 <= j < i && ModeOrder[j] in r.value && r.value[ModeOrder[j]].Evaluated?
  {
    VisitStopsAtEvaluated(ModeOrder, m, StepOf(inp), map[]);
    VisitEarlierNoRelevant(ModeOrder, m, StepOf(inp), map[]);
    VisitReachesEveryEnabled(ModeOrder, m, StepOf(inp), map[]);
  }

  /** With rerank enabled, the rerank mode is the only one evaluated: its
      step never reports missing information. */
  lemma RerankDecides(m: Modes, inp: Inputs)
    requires m.rerank
    ensures var r := Visit(ModeOrder, m, StepOf(inp), map[]);
      r.Ok? ==> r.value.Keys == {"rerank"} && r.value["rerank"].Evaluated?
  {
    assert StepOf(inp)("rerank") == Step(inp, "rerank");
  }

  /** A similarity answer that mentions "no relevant information", in any
      case, is recorded as such without evaluation. */
  lemma SimilarityWithoutInformation(inp: Inputs)
    requires inp.pull("llm_task").VStr? && Contains(Lower(inp.pull("llm_task").s), "no relevant information")
    requires GetStandardAnswer(inp.qa, UserQuestion(inp)).Ok?
    ensures Step(inp, "similarity") == Ok(NoRelevantInfo)
  {
  }

  /** A falsy keyword result is recorded as missing information. */
  lemma KeywordWithoutContext(inp: Inputs)
    requires !Truthy(inp.pull("keyword_retrieval_task"))
    requires GetStandardAnswer(inp.qa, UserQuestion(inp)).Ok?
    ensures Step(inp, "keyword") == Ok(NoRelevantInfo)
  {
  }
}

/** The evaluation stage's command-line program (`ragas_run`): its options,
    the flag conversion, the stand-in task instance, and the result it
    writes. The program as written serves the question under another task
    id than the one the evaluator reads; the model keeps that stand-in
    beside the corrected one it runs. */
module RagasRun {
  import opened Values
  import opened Cli
  import opened RagasEvaluator
  import RagasApi
  import ApiCalling
  import opened WorkerHarness

  /** The parsed options: five optional texts and three flag strings. */
  datatype RagasArgs = RagasArgs(userQuestion: Option<string>, llmAnswer: Option<string>,
                                 similarityResults: Option<string>, keywordResults: Option<string>,
                                 rerankResults: Option<string>,
                                 useSimilarity: string, useKeyword: string, useRerank: string)

  /** `parser.parse_args()`: every option is optional; the flags default
      to "False". */
  function ParseArgs(argv: Argv): (a: RagasArgs)
    ensures a.userQuestion == Opt(argv, "user-question") && a.llmAnswer == Opt(argv, "llm-answer")
    ensures a.similarityResults == Opt(argv, "similarity-results")
    ensures a.keywordResults == Opt(argv, "keyword-results") && a.rerankResults == Opt(argv, "rerank-results")
    ensures a.useSimilarity == StrOr(argv, "use-similarity", "False")
    ensures a.useKeyword == StrOr(argv, "use-keyword", "False")
    ensures a.useRerank == StrOr(argv, "use-rerank", "False")
  {
    RagasArgs(Opt(argv, "user-question"), Opt(argv, "llm-answer"), Opt(argv, "similarity-results"),
              Opt(argv, "keyword-results"), Opt(argv, "rerank-results"),
              StrOr(argv, "use-similarity", "False"), StrOr(argv, "use-keyword", "False"),
              StrOr(argv, "use-rerank", "False"))
  }

  /** `s.lower() == "true"` */
  predicate ParseFlag(s: string) {
    Lower(s) == "true"
  }

  /** A flag written as Python writes a bool reads back as that bool, and
      the default string is off. */
  lemma {:induction false} FlagRoundTrip(b: bool)
    ensures ParseFlag(BoolStr(b)) == b
    ensures !ParseFlag("False")
  {
    assert Lower("True")[0] == 't';
    assert Lower("False")[0] == 'f';
    assert Lower("True") == "true";
  }

  function ModesOf(a: RagasArgs): Modes {
    Modes(ParseFlag(a.useRerank), ParseFlag(a.useSimilarity), ParseFlag(a.useKeyword))
  }

  /** The stand-in built from the options. */
  function MockOf(a: RagasArgs): RagasApi.MockTi {
    RagasApi.MockTi(a.userQuestion, a.llmAnswer, a.similarityResults, a.keywordResults, a.rerankResults)
  }

  /** The stand-in's `xcom_pull` as the program writes it: the question is
      served under `random_question_task`; the answer and the three
      retrieval results as the service's stand-in serves them; None for
      every other id, `generate_query_task` included. */
  function XcomPullAsWritten(ti: RagasApi.MockTi, parse: string -> Option<Value>, taskId: string): (v: Value)
    ensures taskId == "random_question_task" ==> v == RagasApi.TextOrNone(ti.userQuestion)
    ensures taskId == "generate_query_task" ==> v == VNone
    ensures taskId != "random_question_task" && taskId != "generate_query_task" ==>
      v == RagasApi.XcomPull(ti, parse, taskId)
  {
    if taskId == "random_question_task" then RagasApi.TextOrNone(ti.userQuestion)
    else if taskId == "llm_task" then RagasApi.TextOrNone(ti.llmAnswer)
    else if taskId == "similarity_retrieval_task" then ListOrEmptyParsed(parse, ti.similarityResults)
    else if taskId == "keyword_retrieval_task" then ListOrEmptyParsed(parse, ti.keywordResults)
    else if taskId == "reranking_task" then ListOrEmptyParsed(parse, ti.rerankResults)
    else VNone
  }

  /** What the evaluation runs on through the as-written stand-in. */
  function InputsAsWritten(a: RagasArgs, parse: string -> Option<Value>, qa: Option<Value>,
                           evaluate: Dataset -> EvalOutcome): Inputs {
    Inputs(id => XcomPullAsWritten(MockOf(a), parse, id), qa, evaluate)
  }

  /** The evaluator reads the question under `generate_query_task`, which
      the as-written stand-in answers with None: every dataset it builds
      has the question None and the ground truth "No matching question
      found.", even when the QA file holds an answer for the question
      given on the command line. */
  lemma AsWrittenLosesQuestion(a: RagasArgs, parse: string -> Option<Value>, qa: Option<Value>,
                               evaluate: Dataset -> EvalOutcome, mode: string)
    ensures var inp := InputsAsWritten(a, parse, qa, evaluate);
      UserQuestion(inp) == VNone
      && (GetRagResults(inp, mode, "rag").Ok? ==>
            GetRagResults(inp, mode, "rag").value.question == [VNone]
            && GetRagResults(inp, mode, "rag").value.groundTruth == [VStr("No matching question found.")])
  {
    var inp := InputsAsWritten(a, parse, qa, evaluate);
    assert UserQuestion(inp) == XcomPullAsWritten(MockOf(a), parse, "generate_query_task");
  }

  /** The stand-in the model runs serves the question under the id the
      evaluator reads, so a question the QA file knows gets its answer as
      the ground truth. */
  lemma CorrectedFindsQuestion(a: RagasArgs, parse: string -> Option<Value>, entries: map<string, Value>,
                               evaluate: Dataset -> EvalOutcome, mode: string, q: string)
    requires a.userQuestion == Some(q) && q in entries && entries[q] != VNone
    requires ReferenceTask(mode).Some?
    ensures var inp := RagasApi.InputsOf(MockOf(a), parse, Some(VDict(entries)), evaluate);
      UserQuestion(inp) == VStr(q)
      && GetRagResults(inp, mode, "rag").Ok?
      && GetRagResults(inp, mode, "rag").value.question == [VStr(q)]
      && GetRagResults(inp, mode, "rag").value.groundTruth == [entries[q]]
  {
    var inp := RagasApi.InputsOf(MockOf(a), parse, Some(VDict(entries)), evaluate);
    assert UserQuestion(inp) == RagasApi.XcomPull(MockOf(a), parse, "generate_query_task");
  }

  /** `main()`: the evaluation's result as written to the result file, or
      the failure that ends the program. */
  method RunProgram(argv: Argv, parse: string -> Option<Value>, qa: Option<Value>,
              evaluate: Dataset -> EvalOutcome) returns (r: Result<Value>)
    ensures r == RagasApi.Outcome(Visit(ModeOrder, ModesOf(ParseArgs(argv)),
                                        StepOf(RagasApi.InputsOf(MockOf(ParseArgs(argv)), parse, qa, evaluate)), map[]))
  {
    var a := ParseArgs(argv);
    var scores := Ragas(ModesOf(a), RagasApi.InputsOf(MockOf(a), parse, qa, evaluate));
    r := RagasApi.Outcome(scores);
  }

  /** Options carrying an accepted body's fields give the service's
      stand-in and flags. */
  lemma ArgsCarryPayload(p: ApiCalling.Payload, argv: Argv)
    requires RagasApi.Accepted(p)
    requires Opt(argv, "user-question") == Some(p.userQuestion.s) && Opt(argv, "llm-answer") == Some(p.llmAnswer.s)
    requires Opt(argv, "similarity-results") == p.similarityResults
    requires Opt(argv, "keyword-results") == p.keywordResults && Opt(argv, "rerank-results") == p.rerankResults
    requires ParseFlag(StrOr(argv, "use-similarity", "False")) == p.useSimilarity
    requires ParseFlag(StrOr(argv, "use-keyword", "False")) == p.useKeyword
    requires ParseFlag(StrOr(argv, "use-rerank", "False")) == p.useRerank
    ensures MockOf(ParseArgs(argv)) == RagasApi.MockOf(p) && ModesOf(ParseArgs(argv)) == RagasApi.ModesOf(p)
  {
  }

  /** With the corrected stand-in, the program and the service evaluate
      the same thing: options that carry an accepted body's texts and
      flags give the result the service's caller reads back, and a failure
      on one side is a failure on the other. */
  lemma ProgramMatchesService(p: ApiCalling.Payload, argv: Argv, parse: string -> Option<Value>,
                              qa: Option<Value>, evaluate: Dataset -> EvalOutcome)
    requires RagasApi.Accepted(p)
    requires Opt(argv, "user-question") == Some(p.userQuestion.s) && Opt(argv, "llm-answer") == Some(p.llmAnswer.s)
    requires Opt(argv, "similarity-results") == p.similarityResults
    requires Opt(argv, "keyword-results") == p.keywordResults && Opt(argv, "rerank-results") == p.rerankResults
    requires ParseFlag(StrOr(argv, "use-similarity", "False")) == p.useSimilarity
    requires ParseFlag(StrOr(argv, "use-keyword", "False")) == p.useKeyword
    requires ParseFlag(StrOr(argv, "use-rerank", "False")) == p.useRerank
    ensures var r := RagasApi.Outcome(Visit(ModeOrder, ModesOf(ParseArgs(argv)),
                                            StepOf(RagasApi.InputsOf(MockOf(ParseArgs(argv)), parse, qa, evaluate)), map[]));
      var reply := ApiCalling.Execute(RagasApi.RagasEndpoint(p, parse, qa, evaluate));
      (r.Ok? <==> reply.Ok?) && (r.Ok? ==> reply == r)
  {
    ArgsCarryPayload(p, argv);
    var scores := Visit(ModeOrder, RagasApi.ModesOf(p), StepOf(RagasApi.InputsOf(RagasApi.MockOf(p), parse, qa, evaluate)), map[]);
    assert RagasApi.Outcome(scores).Ok? ==> RagasApi.Outcome(scores) == Ok(ScoresValue(scores.value));
  }
}

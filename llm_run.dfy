/** The generation stage's command-line program (`llm_run`): its options,
    the stand-in task instance it builds from them, and the stage result it
    hands back. */
module LlmRun {
  import opened Values
  import opened Cli
  import opened Llm
  import LlmApi
  import ApiCalling
  import opened WorkerHarness

  /** The `--types` choices. */
  datatype LlmType = Keyword | General | Rag | Validation | Summary

  function TypeName(t: LlmType): string {
    match t
    case Keyword => "keyword"
    case General => "general"
    case Rag => "rag"
    case Validation => "validation"
    case Summary => "summary"
  }

  /** argparse's `choices`: exactly the five names are accepted. */
  function ParseType(s: string): (r: Option<LlmType>)
    ensures r.Some? ==> TypeName(r.value) == s
    ensures r.None? <==> s != "keyword" && s != "general" && s != "rag" && s != "validation" && s != "summary"
  {
    if s == "keyword" then Some(Keyword)
    else if s == "general" then Some(General)
    else if s == "rag" then Some(Rag)
    else if s == "validation" then Some(Validation)
    else if s == "summary" then Some(Summary)
    else None
  }

  lemma TypeNameRoundTrip(t: LlmType)
    ensures ParseType(TypeName(t)) == Some(t)
  {
  }

  /** The parsed options, temperature aside. */
  datatype LlmArgs = LlmArgs(types: LlmType, model: string, keepAlive: string, numCtx: int,
                             userQuestion: Option<string>, searchResultsTypes: Option<string>,
                             searchResults: Option<string>)

  /** `parser.parse_args()`: `--types` is required and must be one of the
      choices; the other options take their defaults. */
  function ParseArgs(argv: Argv, toInt: string -> Option<int>): (r: Result<LlmArgs>)
    ensures r.Ok? <==> "types" in argv && ParseType(argv["types"]).Some?
                       && IntOr(argv, "num-ctx", 8192, toInt).Ok?
    ensures r.Ok? ==> TypeName(r.value.types) == argv["types"]
    ensures r.Ok? ==> r.value.model == StrOr(argv, "model", "gemma2:9b")
                      && r.value.keepAlive == StrOr(argv, "keep-alive", "0s")
                      && r.value.numCtx == IntOr(argv, "num-ctx", 8192, toInt).value
    ensures r.Ok? ==> r.value.userQuestion == Opt(argv, "user-question")
                      && r.value.searchResultsTypes == Opt(argv, "search-results-types")
                      && r.value.searchResults == Opt(argv, "search-results")
  {
    if "types" !in argv then Err("the following arguments are required: --types")
    else match ParseType(argv["types"])
      case None => Err("argument --types: invalid choice")
      case Some(t) =>
        match IntOr(argv, "num-ctx", 8192, toInt)
        case Err(e) => Err(e)
        case Ok(n) =>
          Ok(LlmArgs(t, StrOr(argv, "model", "gemma2:9b"), StrOr(argv, "keep-alive", "0s"), n,
                     Opt(argv, "user-question"), Opt(argv, "search-results-types"), Opt(argv, "search-results")))
  }

  /** The program's stand-in: the question from `--user-question`, and the
      one search result named by `--search-results-types`. */
  function MockOf(a: LlmArgs): LlmApi.MockTi {
    LlmApi.MockTi(a.userQuestion, a.searchResultsTypes, a.searchResults)
  }

  /** What the stand-in answers, stated on the options. */
  lemma MockPull(a: LlmArgs, parse: string -> Option<Value>, id: string)
    ensures id == "generate_query_task" ==>
      LlmApi.XcomPull(MockOf(a), parse, id) == QuestionOrDefault(a.userQuestion)
    ensures id != "generate_query_task" && a.searchResultsTypes == Some(id) ==>
      LlmApi.XcomPull(MockOf(a), parse, id) == LiteralOrRaw(parse, a.searchResults)
    ensures id != "generate_query_task" && a.searchResultsTypes != Some(id) ==>
      LlmApi.XcomPull(MockOf(a), parse, id) == VNone
  {
  }

  /** `main()`: the stage result written to the result file, or the error
      that ends the program (a usage error or a failing stage). */
  function RunProgram(argv: Argv, toInt: string -> Option<int>, model: Prompt -> string,
                parse: string -> Option<Value>): (r: Result<Value>)
    ensures ParseArgs(argv, toInt).Err? ==> r.Err?
    ensures ParseArgs(argv, toInt).Ok? ==>
      var a := ParseArgs(argv, toInt).value;
      r == Run(argv["types"], LlmApi.PullOf(MockOf(a), parse), model, parse)
  {
    match ParseArgs(argv, toInt)
    case Err(e) => Err(e)
    case Ok(a) => Run(TypeName(a.types), LlmApi.PullOf(MockOf(a), parse), model, parse)
  }

  /** The program and the service compute the same result: for a body the
      service accepts and options that carry the same type, question and
      search results, the program's result is what the service's caller
      reads back on success, and a failing program is a failed call. */
  lemma {:induction false} ProgramMatchesService(p: ApiCalling.Payload, argv: Argv, toInt: string -> Option<int>,
                                                 model: Prompt -> string, parse: string -> Option<Value>)
    requires LlmApi.Accepted(p) && ParseType(p.types).Some?
    requires "types" in argv && argv["types"] == p.types
    requires Opt(argv, "user-question") == Some(p.userQuestion.s)
    requires Opt(argv, "search-results-types") == p.searchResultsTypes
    requires Opt(argv, "search-results") == p.searchResults
    requires IntOr(argv, "num-ctx", 8192, toInt).Ok?
    ensures RunProgram(argv, toInt, model, parse).Ok? ==>
      ApiCalling.Execute(LlmApi.LlmEndpoint(p, model, parse)) == RunProgram(argv, toInt, model, parse)
    ensures RunProgram(argv, toInt, model, parse).Err? ==>
      ApiCalling.Execute(LlmApi.LlmEndpoint(p, model, parse)).Err?
  {
    var a := ParseArgs(argv, toInt).value;
    assert MockOf(a) == LlmApi.MockOf(p);
    var r := Run(p.types, LlmApi.PullOf(LlmApi.MockOf(p), parse), model, parse);
    assert RunProgram(argv, toInt, model, parse) == r;
  }
}

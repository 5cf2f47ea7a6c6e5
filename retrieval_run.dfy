/** The retrieval stage's command-line program (`retrieval_run`): its
    options and the stand-in task instance it builds from them. */
module RetrievalRun {
  import opened Values
  import opened Cli
  import opened WorkerHarness
  import RetrievalApi

  /** The `--types` choices. */
  datatype RetrievalType = Expert | Similarity | Keyword

  function TypeName(t: RetrievalType): string {
    match t
    case Expert => "expert"
    case Similarity => "similarity"
    case Keyword => "keyword"
  }

  /** argparse's `choices`: exactly the three names are accepted. */
  function ParseType(s: string): (r: Option<RetrievalType>)
    ensures r.Some? ==> TypeName(r.value) == s
    ensures r.None? <==> s != "expert" && s != "similarity" && s != "keyword"
  {
    if s == "expert" then Some(Expert)
    else if s == "similarity" then Some(Similarity)
    else if s == "keyword" then Some(Keyword)
    else None
  }

  lemma TypeNameRoundTrip(t: RetrievalType)
    ensures ParseType(TypeName(t)) == Some(t)
  {
  }

  datatype RetrievalArgs = RetrievalArgs(types: RetrievalType, documentTypes: string, topk: int,
                                         embedModel: string, userQuestion: Option<string>,
                                         keywordList: Option<string>)

  /** `parser.parse_args()`: `--types` is required; the document type
      defaults to "squad", topk to 10 and the embedding model to the
      service's default. */
  function ParseArgs(argv: Argv, toInt: string -> Option<int>): (r: Result<RetrievalArgs>)
    ensures r.Ok? <==> "types" in argv && ParseType(argv["types"]).Some? && IntOr(argv, "topk", 10, toInt).Ok?
    ensures r.Ok? ==> TypeName(r.value.types) == argv["types"]
    ensures r.Ok? ==> r.value.documentTypes == StrOr(argv, "document-types", "squad")
                      && r.value.topk == IntOr(argv, "topk", 10, toInt).value
                      && r.value.embedModel == StrOr(argv, "embed-model", "imac/zpoint_large_embedding_zh")
    ensures r.Ok? ==> r.value.userQuestion == Opt(argv, "user-question")
                      && r.value.keywordList == Opt(argv, "keyword-list")
  {
    if "types" !in argv then Err("the following arguments are required: --types")
    else match ParseType(argv["types"])
      case None => Err("argument --types: invalid choice")
      case Some(t) =>
        match IntOr(argv, "topk", 10, toInt)
        case Err(e) => Err(e)
        case Ok(k) =>
          Ok(RetrievalArgs(t, StrOr(argv, "document-types", "squad"), k,
                           StrOr(argv, "embed-model", "imac/zpoint_large_embedding_zh"),
                           Opt(argv, "user-question"), Opt(argv, "keyword-list")))
  }

  /** Without options the document type is "squad" and topk is 10. */
  lemma Defaults(argv: Argv, toInt: string -> Option<int>)
    requires "types" in argv && ParseType(argv["types"]).Some?
    requires "document-types" !in argv && "topk" !in argv
    ensures ParseArgs(argv, toInt).Ok?
    ensures ParseArgs(argv, toInt).value.documentTypes == "squad" && ParseArgs(argv, toInt).value.topk == 10
  {
  }

  /** The program's stand-in: the question is served under
      `random_question_task`, the keyword list as in the service. */
  function XcomPull(a: RetrievalArgs, parse: string -> Option<Value>, taskId: string): (v: Value)
    ensures taskId == "random_question_task" ==> v == QuestionOrDefault(a.userQuestion)
    ensures taskId == "keyword_extraction_task" ==> v == LiteralOrRaw(parse, a.keywordList)
    ensures taskId != "random_question_task" && taskId != "keyword_extraction_task" ==> v == VNone
  {
    if taskId == "random_question_task" then QuestionOrDefault(a.userQuestion)
    else if taskId == "keyword_extraction_task" then LiteralOrRaw(parse, a.keywordList)
    else VNone
  }

  /** The program and the service disagree on where the question lives: the
      program's stand-in answers None for `generate_query_task`, which the
      service's stand-in answers with the question. */
  lemma QuestionKeyDiffers(a: RetrievalArgs, parse: string -> Option<Value>)
    ensures XcomPull(a, parse, "generate_query_task") == VNone
    ensures RetrievalApi.XcomPull(RetrievalApi.MockTi(a.userQuestion, a.keywordList), parse, "generate_query_task")
            == QuestionOrDefault(a.userQuestion)
    ensures forall id :: id != "generate_query_task" && id != "random_question_task" ==>
      XcomPull(a, parse, id) == RetrievalApi.XcomPull(RetrievalApi.MockTi(a.userQuestion, a.keywordList), parse, id)
  {
  }

  /** `main()`: a usage error, a failing instance creation, or the search's
      result against the program's stand-in. */
  function RunProgram(argv: Argv, toInt: string -> Option<int>, parse: string -> Option<Value>,
                create: string -> Result<RetrievalApi.Instance>, search: RetrievalApi.Search): (r: Result<Value>)
    ensures ParseArgs(argv, toInt).Err? ==> r.Err?
    ensures ParseArgs(argv, toInt).Ok? && create(ParseArgs(argv, toInt).value.embedModel).Err? ==> r.Err?
    ensures ParseArgs(argv, toInt).Ok? && create(ParseArgs(argv, toInt).value.embedModel).Ok? ==>
      var a := ParseArgs(argv, toInt).value;
      r == search(create(a.embedModel).value, argv["types"], a.documentTypes, a.topk, id => XcomPull(a, parse, id))
  {
    match ParseArgs(argv, toInt)
    case Err(e) => Err(e)
    case Ok(a) =>
      match create(a.embedModel)
      case Err(e) => Err(e)
      case Ok(inst) => search(inst, TypeName(a.types), a.documentTypes, a.topk, id => XcomPull(a, parse, id))
  }
}

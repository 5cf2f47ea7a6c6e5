/** The generation stage (`LLM`): where it takes its context from, which
    prompt each request type uses, and how the model's text becomes the
    stage's result. The task instance is a function from task id to pulled
    value; the model is a function from a filled prompt to its text. */
module Llm {
  import opened Values

  /** The prompts of the prompt configuration, by what they are for. */
  datatype PromptKind = KeywordPrompt | GeneralAskPrompt | RagDetailPrompt | ValidationPrompt | SummaryPrompt

  /** A filled prompt template: which prompt, the question and, for the
      context prompts, the joined context. */
  datatype Prompt = Prompt(kind: PromptKind, question: Value, context: Option<string>)

  /** The request types that answer from the question alone. */
  predicate QuestionOnly(types: string) {
    types == "keyword" || types == "general"
  }

  /** `get_user_question`: the question task's value. */
  function UserQuestion(pull: string -> Value): Value {
    pull("generate_query_task")
  }

  /** `get_context`: validation reads the expert retrieval only; any other
      type reads the rerank result, falling back to similarity and then to
      keyword retrieval while the value so far is falsy. A value that is not
      a list gives []. */
  function GetContext(types: string, pull: string -> Value): (r: seq<Value>)
  {
    var context :=
      if types == "validation" then pull("expert_retrieval_task")
      else if Truthy(pull("reranking_task")) then pull("reranking_task")
      else if Truthy(pull("similarity_retrieval_task")) then pull("similarity_retrieval_task")
      else pull("keyword_retrieval_task");
    ListOrEmpty(context)
  }

  /** The first truthy value of a non-empty chain, or its last value. */
  function FirstTruthy(vs: seq<Value>): Value
    requires |vs| >= 1
  {
    if |vs| == 1 || Truthy(vs[0]) then vs[0] else FirstTruthy(vs[1..])
  }

  /** The context is that of the fallback chain rerank, similarity,
      keyword; in validation mode it is the expert result. */
  lemma {:induction false} ContextIsFallbackChain(types: string, pull: string -> Value)
    ensures types == "validation" ==> GetContext(types, pull) == ListOrEmpty(pull("expert_retrieval_task"))
    ensures types != "validation" ==>
      GetContext(types, pull) == ListOrEmpty(FirstTruthy([pull("reranking_task"),
                                                          pull("similarity_retrieval_task"),
                                                          pull("keyword_retrieval_task")]))
  {
    var chain := [pull("reranking_task"), pull("similarity_retrieval_task"), pull("keyword_retrieval_task")];
    var tail := [pull("similarity_retrieval_task"), pull("keyword_retrieval_task")];
    assert chain[1..] == tail;
    assert tail[1..] == [pull("keyword_retrieval_task")];
    assert FirstTruthy(tail) == if Truthy(tail[0]) then tail[0] else FirstTruthy(tail[1..]);
    assert FirstTruthy(chain) == if Truthy(chain[0]) then chain[0] else FirstTruthy(tail);
  }

  /** Validation depends on the expert retrieval alone; the other types
      never look at it. */
  lemma ContextSources(types: string, p1: string -> Value, p2: string -> Value)
    requires types == "validation" ==> p1("expert_retrieval_task") == p2("expert_retrieval_task")
    requires types != "validation" ==>
      p1("reranking_task") == p2("reranking_task")
      && p1("similarity_retrieval_task") == p2("similarity_retrieval_task")
      && p1("keyword_retrieval_task") == p2("keyword_retrieval_task")
    ensures GetContext(types, p1) == GetContext(types, p2)
  {
  }

  /** `"".join(context)`: the concatenation, or None when an element is not
      a string (the join raises). */
  function Join(context: seq<Value>): (r: Option<string>)
    ensures r.Some? <==> forall i :: 0 <= i < |context| ==> context[i].VStr?
    ensures context == [] ==> r == Some("")
  {
    if context == [] then Some("")
    else if !context[0].VStr? then None
    else match Join(context[1..])
      case None => None
      case Some(rest) => Some(context[0].s + rest)
  }

  lemma {:induction false} JoinAppend(xs: seq<Value>, s: string)
    requires Join(xs).Some?
    ensures Join(xs + [VStr(s)]) == Some(Join(xs).value + s)
  {
    if xs == [] {
      assert xs + [VStr(s)] == [VStr(s)];
      assert [VStr(s)][1..] == [];
      assert Join([VStr(s)]) == Some(s + "");
      assert s + "" == s == "" + s;
    } else {
      assert (xs + [VStr(s)])[1..] == xs[1..] + [VStr(s)];
      JoinAppend(xs[1..], s);
      assert xs[0].s + (Join(xs[1..]).value + s) == (xs[0].s + Join(xs[1..]).value) + s;
    }
  }

  /** `generate_response_from_question`: keyword extraction parses the text
      as the list literal `[<text>]` (a parse failure raises), general
      answers with the text, any other type gives "". */
  function FromQuestion(types: string, question: Value, model: Prompt -> string,
                        parse: string -> Option<Value>): (r: Result<Value>)
    ensures types == "keyword" ==>
      (r.Ok? <==> parse("[" + model(Prompt(KeywordPrompt, question, None)) + "]").Some?)
    ensures types == "keyword" && r.Ok? ==>
      Some(r.value) == parse("[" + model(Prompt(KeywordPrompt, question, None)) + "]")
    ensures types == "general" ==> r == Ok(VStr(model(Prompt(GeneralAskPrompt, question, None))))
    ensures !QuestionOnly(types) ==> r == Ok(VStr(""))
  {
    if types == "keyword" then
      var text := model(Prompt(KeywordPrompt, question, None));
      match parse("[" + text + "]")
      case Some(v) => Ok(v)
      case None => Err("SyntaxError: keyword output is not a list literal")
    else if types == "general" then Ok(VStr(model(Prompt(GeneralAskPrompt, question, None))))
    else Ok(VStr(""))
  }

  /** The context prompt of a request type, if it has one. */
  function ContextPrompt(types: string): (k: Option<PromptKind>)
    ensures k.Some? <==> types == "rag" || types == "validation" || types == "summary"
  {
    if types == "rag" then Some(RagDetailPrompt)
    else if types == "validation" then Some(ValidationPrompt)
    else if types == "summary" then Some(SummaryPrompt)
    else None
  }

  /** `generate_response_with_context`: rag, validation and summary fill
      their prompt with the joined context; any other type gives "". */
  function WithContext(types: string, question: Value, context: seq<Value>,
                       model: Prompt -> string): (r: Result<Value>)
    ensures ContextPrompt(types).None? ==> r == Ok(VStr(""))
    ensures ContextPrompt(types).Some? ==> (r.Ok? <==> Join(context).Some?)
    ensures ContextPrompt(types).Some? && r.Ok? ==>
      r.value == VStr(model(Prompt(ContextPrompt(types).value, question, Join(context))))
  {
    match ContextPrompt(types)
    case None => Ok(VStr(""))
    case Some(kind) =>
      match Join(context)
      case None => Err("TypeError: sequence item is not a str")
      case Some(joined) => Ok(VStr(model(Prompt(kind, question, Some(joined)))))
  }

  /** `LLM.llm`: the question-only types answer from the question, every
      other type fetches a context first. */
  function Run(types: string, pull: string -> Value, model: Prompt -> string,
               parse: string -> Option<Value>): (r: Result<Value>)
    ensures QuestionOnly(types) ==> r == FromQuestion(types, UserQuestion(pull), model, parse)
    ensures !QuestionOnly(types) ==> r == WithContext(types, UserQuestion(pull), GetContext(types, pull), model)
  {
    if QuestionOnly(types) then FromQuestion(types, UserQuestion(pull), model, parse)
    else WithContext(types, UserQuestion(pull), GetContext(types, pull), model)
  }

  /** Keyword and general requests never read a context: their result
      depends on the question alone. */
  lemma QuestionOnlyIgnoresContext(types: string, p1: string -> Value, p2: string -> Value,
                                   model: Prompt -> string, parse: string -> Option<Value>)
    requires QuestionOnly(types)
    requires p1("generate_query_task") == p2("generate_query_task")
    ensures Run(types, p1, model, parse) == Run(types, p2, model, parse)
  {
  }

  /** Context requests see the fallback chain's list; an unknown type
      answers "" whatever the store holds. */
  lemma {:induction false} RunWithContext(types: string, pull: string -> Value, model: Prompt -> string,
                                          parse: string -> Option<Value>)
    requires !QuestionOnly(types)
    ensures ContextPrompt(types).None? ==> Run(types, pull, model, parse) == Ok(VStr(""))
    ensures ContextPrompt(types).Some? && Run(types, pull, model, parse).Ok? ==>
      Run(types, pull, model, parse).value ==
        VStr(model(Prompt(ContextPrompt(types).value, UserQuestion(pull), Join(GetContext(types, pull)))))
    ensures GetContext(types, pull) == [] && ContextPrompt(types).Some? ==>
      Run(types, pull, model, parse) == Ok(VStr(model(Prompt(ContextPrompt(types).value, UserQuestion(pull), Some("")))))
  {
  }
}

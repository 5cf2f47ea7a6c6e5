/** The QA-pair helpers used to build the evaluation's reference answers:
    the search for the first occurrence of a token sub-list, and the
    extraction of question/answer pairs from a SQuAD-shaped document. */
module QaProcessing {
  import opened Values

  /** Python's `xs[lo:hi]` for `0 <= lo <= len(xs) <= hi` or `hi` in range:
      the slice stops at the end of the list. */
  function Slice<T>(xs: seq<T>, lo: nat, hi: nat): (r: seq<T>)
    requires lo <= |xs| && lo <= hi
    ensures hi <= |xs| ==> r == xs[lo..hi]
    ensures hi > |xs| ==> r == xs[lo..]
  {
    if hi <= |xs| then xs[lo..hi] else xs[lo..]
  }

  /** The loop of `find_target_sublist` stops at index `i`: it is one of the
      indices the loop visits, and the slice starting there is the target. */
  predicate MatchesAt<T(==)>(xs: seq<T>, target: seq<T>, i: int) {
    0 <= i < |xs| && i + |target| <= |xs| && xs[i..i + |target|] == target
  }

  /** A clamped slice equals the target exactly when the target fits there. */
  lemma SliceMatches<T>(xs: seq<T>, target: seq<T>, i: nat)
    requires i < |xs|
    ensures Slice(xs, i, i + |target|) == target <==> MatchesAt(xs, target, i)
  {
    if i + |target| > |xs| {
      assert |Slice(xs, i, i + |target|)| < |target|;
    }
  }

  /** `find_target_sublist`: the first index whose slice is the target,
      with the end of the match, or None when no visited index matches.
      The loop visits only indices of the list, so an empty target is
      found at 0 in a non-empty list and not found in an empty one. */
  method FindTargetSublist<T(==)>(xs: seq<T>, target: seq<T>) returns (r: Option<(int, int)>)
    ensures r.Some? ==> MatchesAt(xs, target, r.value.0) && r.value.1 == r.value.0 + |target|
    ensures r.Some? ==> forall j :: 0 <= j < r.value.0 ==> !MatchesAt(xs, target, j)
    ensures r.None? <==> forall j :: 0 <= j < |xs| ==> !MatchesAt(xs, target, j)
  {
    var n := |target|;
    var i := 0;
    while i < |xs|
      invariant 0 <= i <= |xs|
      invariant forall j :: 0 <= j < i ==> !MatchesAt(xs, target, j)
    {
      SliceMatches(xs, target, i);
      if Slice(xs, i, i + n) == target {
        return Some((i, i + n));
      }
      i := i + 1;
    }
    r := None;
  }

  /** An empty target is found at the start of any non-empty list. */
  lemma EmptyTargetAtStart<T>(xs: seq<T>)
    requires xs != []
    ensures MatchesAt(xs, [], 0)
  {
    assert xs[0..0] == [];
  }

  /** A target longer than the list is never found. */
  lemma LongTargetNeverMatches<T>(xs: seq<T>, target: seq<T>, i: int)
    requires |target| > |xs|
    ensures !MatchesAt(xs, target, i)
  {
  }

  // ---------------------------------------------------------------------
  // extract_qa_pairs

  /** The fields of one `qas` entry, read as the loop reads them. */
  function Field(qa: Value, key: string): (v: Value)
    ensures qa.VDict? && key in qa.entries ==> v == qa.entries[key]
    ensures !(qa.VDict? && key in qa.entries) ==> v == VNone
  {
    if qa.VDict? && key in qa.entries then qa.entries[key] else VNone
  }

  /** An entry whose answer is kept: not impossible and with answers. */
  predicate Answerable(qa: Value) {
    qa.VDict? && "is_impossible" in qa.entries && !Truthy(qa.entries["is_impossible"])
    && "answers" in qa.entries && Truthy(qa.entries["answers"])
  }

  /** The text of the first answer, read as `qa["answers"][0]["text"]`. */
  function FirstAnswerText(qa: Value): (r: Result<Value>)
    ensures r.Ok? <==> Field(qa, "answers").VList? && Field(qa, "answers").items != []
                       && Field(qa, "answers").items[0].VDict? && "text" in Field(qa, "answers").items[0].entries
    ensures r.Ok? ==> r.value == Field(qa, "answers").items[0].entries["text"]
  {
    var answers := Field(qa, "answers");
    if answers.VList? && answers.items != [] && answers.items[0].VDict? && "text" in answers.items[0].entries
    then Ok(answers.items[0].entries["text"])
    else Err("KeyError: 'text'")
  }

  /** One turn of the innermost loop: read the question, skip an impossible
      or unanswered entry, otherwise store the first answer's text under the
      question (a later entry overwrites an earlier one). A missing field,
      a malformed answer list or an unhashable question raises. */
  function QaStep(m: map<Value, Value>, qa: Value): (r: Result<map<Value, Value>>)
    ensures r.Ok? && !Answerable(qa) ==> r.value == m
    ensures r.Ok? && Answerable(qa) ==>
      FirstAnswerText(qa).Ok? && Hashable(Field(qa, "question"))
      && r.value == m[Field(qa, "question") := FirstAnswerText(qa).value]
  {
    if !qa.VDict? then Err("TypeError: qa entry is not an object")
    else if "question" !in qa.entries then Err("KeyError: 'question'")
    else if "is_impossible" !in qa.entries then Err("KeyError: 'is_impossible'")
    else if Truthy(qa.entries["is_impossible"]) then Ok(m)
    else if "answers" !in qa.entries then Err("KeyError: 'answers'")
    else if !Truthy(qa.entries["answers"]) then Ok(m)
    else match FirstAnswerText(qa)
      case Err(e) => Err(e)
      case Ok(text) =>
        if Hashable(qa.entries["question"]) then Ok(m[qa.entries["question"] := text])
        else Err("TypeError: unhashable type")
  }

  /** The innermost loop over a paragraph's `qas`, stopping at the first
      exception. */
  function QasFold(acc: map<Value, Value>, qas: seq<Value>): Result<map<Value, Value>>
    decreases |qas|
  {
    if qas == [] then Ok(acc)
    else match QasFold(acc, qas[..|qas| - 1])
      case Err(e) => Err(e)
      case Ok(m) => QaStep(m, qas[|qas| - 1])
  }

  /** `v[key]` where the loop iterates over the result: a list field of an
      object; any other shape raises. */
  function ListField(v: Value, key: string): (r: Result<seq<Value>>)
    ensures r.Ok? <==> v.VDict? && key in v.entries && v.entries[key].VList?
    ensures r.Ok? ==> r.value == v.entries[key].items
  {
    if v.VDict? && key in v.entries && v.entries[key].VList? then Ok(v.entries[key].items)
    else Err("KeyError: '" + key + "'")
  }

  /** The middle loop over an article's paragraphs. */
  function ParagraphsFold(acc: map<Value, Value>, ps: seq<Value>): Result<map<Value, Value>>
    decreases |ps|
  {
    if ps == [] then Ok(acc)
    else match ParagraphsFold(acc, ps[..|ps| - 1])
      case Err(e) => Err(e)
      case Ok(m) =>
        match ListField(ps[|ps| - 1], "qas")
        case Err(e) => Err(e)
        case Ok(qas) => QasFold(m, qas)
  }

  /** The outer loop over the document's articles. */
  function ArticlesFold(acc: map<Value, Value>, articles: seq<Value>): Result<map<Value, Value>>
    decreases |articles|
  {
    if articles == [] then Ok(acc)
    else match ArticlesFold(acc, articles[..|articles| - 1])
      case Err(e) => Err(e)
      case Ok(m) =>
        match ListField(articles[|articles| - 1], "paragraphs")
        case Err(e) => Err(e)
        case Ok(ps) => ParagraphsFold(m, ps)
  }

  /** `extract_qa_pairs(data)` as the three nested loops compute it. */
  function QaPairs(data: Value): Result<map<Value, Value>> {
    match ListField(data, "data")
    case Err(e) => Err(e)
    case Ok(articles) => ArticlesFold(map[], articles)
  }

  /** The innermost loop, filling the dictionary in place. */
  method AddQas(qaDict: map<Value, Value>, qas: seq<Value>) returns (r: Result<map<Value, Value>>)
    ensures r == QasFold(qaDict, qas)
  {
    var m := qaDict;
    var i := 0;
    while i < |qas|
      invariant 0 <= i <= |qas|
      invariant QasFold(qaDict, qas[..i]) == Ok(m)
    {
      assert qas[..i + 1][..i] == qas[..i];
      var step := QaStep(m, qas[i]);
      if step.Err? {
        QasFoldErrStays(qaDict, qas, i + 1);
        return step;
      }
      m := step.value;
      i := i + 1;
    }
    assert qas[..i] == qas;
    r := Ok(m);
  }

  /** `extract_qa_pairs`: the nested loops over articles, paragraphs and
      `qas`; the first exception ends the extraction. */
  method ExtractQaPairs(data: Value) returns (r: Result<map<Value, Value>>)
    ensures r == QaPairs(data)
  {
    var articles := ListField(data, "data");
    if articles.Err? {
      return Err(articles.error);
    }
    var arts := articles.value;
    var qaDict: map<Value, Value> := map[];
    var i := 0;
    while i < |arts|
      invariant 0 <= i <= |arts|
      invariant ArticlesFold(map[], arts[..i]) == Ok(qaDict)
    {
      assert arts[..i + 1][..i] == arts[..i];
      var paragraphs := ListField(arts[i], "paragraphs");
      if paragraphs.Err? {
        ArticlesFoldErrStays(map[], arts, i + 1);
        return Err(paragraphs.error);
      }
      var ps := paragraphs.value;
      var start := qaDict;
      var j := 0;
      while j < |ps|
        invariant 0 <= j <= |ps|
        invariant ParagraphsFold(start, ps[..j]) == Ok(qaDict)
      {
        assert ps[..j + 1][..j] == ps[..j];
        var qas := ListField(ps[j], "qas");
        if qas.Err? {
          ParagraphsFoldErrStays(start, ps, j + 1);
          ArticlesFoldErrStays(map[], arts, i + 1);
          return Err(qas.error);
        }
        var added := AddQas(qaDict, qas.value);
        if added.Err? {
          ParagraphsFoldErrStays(start, ps, j + 1);
          ArticlesFoldErrStays(map[], arts, i + 1);
          return added;
        }
        qaDict := added.value;
        j := j + 1;
      }
      assert ps[..j] == ps;
      i := i + 1;
    }
    assert arts[..i] == arts;
    r := Ok(qaDict);
  }

  /** Once a loop has raised, the entries after it are not looked at. */
  lemma {:induction false} QasFoldErrStays(acc: map<Value, Value>, qas: seq<Value>, n: nat)
    requires n <= |qas| && QasFold(acc, qas[..n]).Err?
    ensures QasFold(acc, qas) == QasFold(acc, qas[..n])
    decreases |qas| - n
  {
    if n < |qas| {
      assert qas[..n + 1][..n] == qas[..n];
      QasFoldErrStays(acc, qas, n + 1);
    } else {
      assert qas[..n] == qas;
    }
  }

  lemma {:induction false} ParagraphsFoldErrStays(acc: map<Value, Value>, ps: seq<Value>, n: nat)
    requires n <= |ps| && ParagraphsFold(acc, ps[..n]).Err?
    ensures ParagraphsFold(acc, ps) == ParagraphsFold(acc, ps[..n])
    decreases |ps| - n
  {
    if n < |ps| {
      assert ps[..n + 1][..n] == ps[..n];
      ParagraphsFoldErrStays(acc, ps, n + 1);
    } else {
      assert ps[..n] == ps;
    }
  }

  lemma {:induction false} ArticlesFoldErrStays(acc: map<Value, Value>, articles: seq<Value>, n: nat)
    requires n <= |articles| && ArticlesFold(acc, articles[..n]).Err?
    ensures ArticlesFold(acc, articles) == ArticlesFold(acc, articles[..n])
    decreases |articles| - n
  {
    if n < |articles| {
      assert articles[..n + 1][..n] == articles[..n];
      ArticlesFoldErrStays(acc, articles, n + 1);
    } else {
      assert articles[..n] == articles;
    }
  }

  // ---------------------------------------------------------------------
  // What the extraction keeps

  /** The question written by entry `j` of `qas`, when it writes one. */
  predicate WritesAt(qas: seq<Value>, j: int, q: Value) {
    0 <= j < |qas| && Answerable(qas[j]) && Field(qas[j], "question") == q
  }

  /** The `qas` loop keeps exactly the earlier keys and the answerable
      entries' questions. */
  lemma {:induction false} QasFoldKeys(acc: map<Value, Value>, qas: seq<Value>)
    requires QasFold(acc, qas).Ok?
    ensures forall q :: q in QasFold(acc, qas).value <==> q in acc || exists j :: WritesAt(qas, j, q)
    decreases |qas|
  {
    if qas != [] {
      var init := qas[..|qas| - 1];
      var last := qas[|qas| - 1];
      QasFoldKeys(acc, init);
      var m := QasFold(acc, init).value;
      var r := QasFold(acc, qas).value;
      assert r == QaStep(m, last).value;
      forall q | q in r
        ensures q in acc || exists j :: WritesAt(qas, j, q)
      {
        if q !in m {
          assert WritesAt(qas, |qas| - 1, q);
        } else if q !in acc {
          var j :| WritesAt(init, j, q);
          assert WritesAt(qas, j, q);
        }
      }
      forall q | q in acc || exists j :: WritesAt(qas, j, q)
        ensures q in r
      {
        if q !in acc {
          var j :| WritesAt(qas, j, q);
          if j < |init| {
            assert WritesAt(init, j, q);
          }
        }
      }
    }
  }

  /** The last answerable entry for a question decides its value: the
      first answer's text of that entry. */
  lemma {:induction false} QasFoldLastWins(acc: map<Value, Value>, qas: seq<Value>, j: int)
    requires QasFold(acc, qas).Ok?
    requires 0 <= j < |qas| && Answerable(qas[j])
    requires forall k :: j < k < |qas| ==> !WritesAt(qas, k, Field(qas[j], "question"))
    ensures FirstAnswerText(qas[j]).Ok?
    ensures Field(qas[j], "question") in QasFold(acc, qas).value
    ensures QasFold(acc, qas).value[Field(qas[j], "question")] == FirstAnswerText(qas[j]).value
    decreases |qas|
  {
    var init := qas[..|qas| - 1];
    var m := QasFold(acc, init).value;
    assert QasFold(acc, qas) == QaStep(m, qas[|qas| - 1]);
    if j < |init| {
      assert init[j] == qas[j];
      forall k | j < k < |init|
        ensures !WritesAt(init, k, Field(init[j], "question"))
      {
        assert init[k] == qas[k];
        assert !WritesAt(qas, k, Field(qas[j], "question"));
      }
      QasFoldLastWins(acc, init, j);
      assert !WritesAt(qas, |qas| - 1, Field(qas[j], "question"));
    }
  }

  /** A key that no entry writes keeps its earlier value. */
  lemma {:induction false} QasFoldKeeps(acc: map<Value, Value>, qas: seq<Value>, q: Value)
    requires QasFold(acc, qas).Ok? && q in acc
    requires forall j :: 0 <= j < |qas| ==> !WritesAt(qas, j, q)
    ensures q in QasFold(acc, qas).value && QasFold(acc, qas).value[q] == acc[q]
    decreases |qas|
  {
    if qas != [] {
      var init := qas[..|qas| - 1];
      forall j | 0 <= j < |init|
        ensures !WritesAt(init, j, q)
      {
        assert init[j] == qas[j];
        assert !WritesAt(qas, j, q);
      }
      QasFoldKeeps(acc, init, q);
      assert !WritesAt(qas, |qas| - 1, q);
    }
  }

  /** Running one list of `qas` after another is the loop over both. */
  lemma {:induction false} QasFoldAppend(acc: map<Value, Value>, a: seq<Value>, b: seq<Value>)
    ensures QasFold(acc, a + b) == match QasFold(acc, a)
                                   case Err(e) => Err(e)
                                   case Ok(m) => QasFold(m, b)
    decreases |b|
  {
    if b == [] {
      assert a + b == a;
    } else {
      var b' := b[..|b| - 1];
      assert (a + b)[..|a + b| - 1] == a + b';
      assert (a + b)[|a + b| - 1] == b[|b| - 1];
      QasFoldAppend(acc, a, b');
    }
  }

  /** Every `qas` entry of a list of paragraphs, in loop order. */
  function ParagraphsQas(ps: seq<Value>): Result<seq<Value>>
    decreases |ps|
  {
    if ps == [] then Ok([])
    else match ParagraphsQas(ps[..|ps| - 1])
      case Err(e) => Err(e)
      case Ok(qs) =>
        match ListField(ps[|ps| - 1], "qas")
        case Err(e) => Err(e)
        case Ok(qas) => Ok(qs + qas)
  }

  /** Every `qas` entry of a list of articles, in loop order. */
  function ArticlesQas(articles: seq<Value>): Result<seq<Value>>
    decreases |articles|
  {
    if articles == [] then Ok([])
    else match ArticlesQas(articles[..|articles| - 1])
      case Err(e) => Err(e)
      case Ok(qs) =>
        match ListField(articles[|articles| - 1], "paragraphs")
        case Err(e) => Err(e)
        case Ok(ps) =>
          match ParagraphsQas(ps)
          case Err(e) => Err(e)
          case Ok(more) => Ok(qs + more)
  }

  /** The middle loop is the `qas` loop over the paragraphs' entries laid
      end to end: one succeeds exactly when the other does, with the
      same dictionary. */
  lemma {:induction false} ParagraphsFoldFlat(acc: map<Value, Value>, ps: seq<Value>)
    ensures ParagraphsFold(acc, ps).Ok? <==> ParagraphsQas(ps).Ok? && QasFold(acc, ParagraphsQas(ps).value).Ok?
    ensures ParagraphsFold(acc, ps).Ok? ==> ParagraphsFold(acc, ps) == QasFold(acc, ParagraphsQas(ps).value)
    decreases |ps|
  {
    if ps != [] {
      var init := ps[..|ps| - 1];
      ParagraphsFoldFlat(acc, init);
      if ParagraphsQas(init).Ok? && ListField(ps[|ps| - 1], "qas").Ok? {
        QasFoldAppend(acc, ParagraphsQas(init).value, ListField(ps[|ps| - 1], "qas").value);
      }
    }
  }

  /** The same for the outer loop over articles. */
  lemma {:induction false} ArticlesFoldFlat(acc: map<Value, Value>, articles: seq<Value>)
    ensures ArticlesFold(acc, articles).Ok? <==>
      ArticlesQas(articles).Ok? && QasFold(acc, ArticlesQas(articles).value).Ok?
    ensures ArticlesFold(acc, articles).Ok? ==> ArticlesFold(acc, articles) == QasFold(acc, ArticlesQas(articles).value)
    decreases |articles|
  {
    if articles != [] {
      var init := articles[..|articles| - 1];
      ArticlesFoldFlat(acc, init);
      var last := ListField(articles[|articles| - 1], "paragraphs");
      if last.Ok? {
        if ArticlesFold(acc, init).Ok? {
          ParagraphsFoldFlat(ArticlesFold(acc, init).value, last.value);
        }
        if ArticlesQas(init).Ok? && ParagraphsQas(last.value).Ok? {
          QasFoldAppend(acc, ArticlesQas(init).value, ParagraphsQas(last.value).value);
        }
      }
    }
  }

  /** Every `qas` entry of the document, in loop order. */
  function DocumentQas(data: Value): Result<seq<Value>> {
    match ListField(data, "data")
    case Err(e) => Err(e)
    case Ok(articles) => ArticlesQas(articles)
  }

  /** `extract_qa_pairs` keeps exactly the questions of entries that are not
      impossible and have answers, in document order. */
  lemma ExtractKeepsAnswerable(data: Value)
    requires QaPairs(data).Ok?
    ensures DocumentQas(data).Ok?
    ensures forall q :: q in QaPairs(data).value <==> exists j :: WritesAt(DocumentQas(data).value, j, q)
  {
    var articles := ListField(data, "data").value;
    ArticlesFoldFlat(map[], articles);
    QasFoldKeys(map[], ArticlesQas(articles).value);
  }

  /** Each kept question maps to the first answer's text of its last
      answerable entry: a repeated question overwrites the earlier one. */
  lemma ExtractLastAnswerWins(data: Value, j: int)
    requires QaPairs(data).Ok? && DocumentQas(data).Ok?
    requires var qas := DocumentQas(data).value;
      0 <= j < |qas| && Answerable(qas[j])
      && forall k :: j < k < |qas| ==> !WritesAt(qas, k, Field(qas[j], "question"))
    ensures var qas := DocumentQas(data).value;
      FirstAnswerText(qas[j]).Ok? && Field(qas[j], "question") in QaPairs(data).value
      && QaPairs(data).value[Field(qas[j], "question")] == FirstAnswerText(qas[j]).value
  {
    var articles := ListField(data, "data").value;
    ArticlesFoldFlat(map[], articles);
    QasFoldLastWins(map[], ArticlesQas(articles).value, j);
  }
}

/** The reranking stage (`Reranker`): it merges the similarity and keyword
    results into one duplicate-free context, scores each passage against
    the question, and keeps the best `topk` in descending score order. The
    reranker model is loaded once and cached on the class; loading and
    scoring are inputs. Scores are the model's floats, abstracted to an
    ordered key. */
module Rerank {
  import opened Values

  /** A context passage paired with its relevance score. */
  datatype Scored = Scored(point: Value, score: int)

  /** `zip(context, scores)`: pairs up to the shorter length. */
  function Zip(context: seq<Value>, scores: seq<int>): (r: seq<Scored>)
    ensures |r| == if |context| < |scores| then |context| else |scores|
    ensures forall i :: 0 <= i < |r| ==> r[i] == Scored(context[i], scores[i])
  {
    if context == [] || scores == [] then []
    else [Scored(context[0], scores[0])] + Zip(context[1..], scores[1..])
  }

  /** `[point for point, _ in xs]` */
  function Points(xs: seq<Scored>): (r: seq<Value>)
    ensures |r| == |xs|
    ensures forall i :: 0 <= i < |xs| ==> r[i] == xs[i].point
  {
    if xs == [] then [] else [xs[0].point] + Points(xs[1..])
  }

  predicate Descending(xs: seq<Scored>) {
    forall i, j :: 0 <= i < j < |xs| ==> xs[i].score >= xs[j].score
  }

  /** The entries with one score, in their order. */
  function WithScore(xs: seq<Scored>, s: int): seq<Scored> {
    if xs == [] then []
    else (if xs[0].score == s then [xs[0]] else []) + WithScore(xs[1..], s)
  }

  /** Puts `x` before the first entry whose score does not exceed its own. */
  function Insert(x: Scored, ys: seq<Scored>): (r: seq<Scored>)
    ensures |r| == |ys| + 1
  {
    if ys == [] || ys[0].score <= x.score then [x] + ys
    else [ys[0]] + Insert(x, ys[1..])
  }

  /** `sorted(xs, key=lambda x: x[1], reverse=True)`, built by inserting
      each entry into the sorted rest so that an entry stays ahead of the
      later entries with its score. */
  function SortDesc(xs: seq<Scored>): (r: seq<Scored>)
    ensures |r| == |xs|
  {
    if xs == [] then [] else Insert(xs[0], SortDesc(xs[1..]))
  }

  lemma {:induction false} InsertDescending(x: Scored, ys: seq<Scored>)
    requires Descending(ys)
    ensures Descending(Insert(x, ys))
    ensures forall i :: 0 <= i < |Insert(x, ys)| ==> Insert(x, ys)[i] == x || Insert(x, ys)[i] in ys
  {
    if ys != [] && ys[0].score > x.score {
      InsertDescending(x, ys[1..]);
      var tail := Insert(x, ys[1..]);
      forall k | 0 <= k < |tail|
        ensures ys[0].score >= tail[k].score
      {
        if tail[k] != x {
          var m :| 0 <= m < |ys[1..]| && ys[1..][m] == tail[k];
          assert ys[m + 1] == tail[k];
        }
      }
      assert Insert(x, ys) == [ys[0]] + tail;
    }
  }

  lemma {:induction false} InsertPermutes(x: Scored, ys: seq<Scored>)
    ensures multiset(Insert(x, ys)) == multiset(ys) + multiset{x}
  {
    if ys != [] && ys[0].score > x.score {
      InsertPermutes(x, ys[1..]);
      assert ys == [ys[0]] + ys[1..];
    }
  }

  lemma WithScoreCons(y: Scored, ys: seq<Scored>, s: int)
    ensures WithScore([y] + ys, s) == (if y.score == s then [y] else []) + WithScore(ys, s)
  {
    assert ([y] + ys)[0] == y;
    assert ([y] + ys)[1..] == ys;
  }

  lemma {:induction false} InsertWithScore(x: Scored, ys: seq<Scored>, s: int)
    ensures WithScore(Insert(x, ys), s) == (if x.score == s then [x] else []) + WithScore(ys, s)
  {
    if ys == [] || ys[0].score <= x.score {
      WithScoreCons(x, ys, s);
    } else {
      var y := ys[0];
      var rest := Insert(x, ys[1..]);
      InsertWithScore(x, ys[1..], s);
      assert Insert(x, ys) == [y] + rest;
      WithScoreCons(y, rest, s);
      assert ys == [y] + ys[1..];
      WithScoreCons(y, ys[1..], s);
      var cx := if x.score == s then [x] else [];
      var cy := if y.score == s then [y] else [];
      assert cx == [] || cy == [];
      assert WithScore(Insert(x, ys), s) == cy + (cx + WithScore(ys[1..], s));
      assert WithScore(ys, s) == cy + WithScore(ys[1..], s);
      assert cy + (cx + WithScore(ys[1..], s)) == cx + (cy + WithScore(ys[1..], s));
    }
  }

  /** The sort's result is in non-increasing score order. */
  lemma {:induction false} SortDescDescending(xs: seq<Scored>)
    ensures Descending(SortDesc(xs))
  {
    if xs != [] {
      SortDescDescending(xs[1..]);
      InsertDescending(xs[0], SortDesc(xs[1..]));
    }
  }

  /** The sort only reorders. */
  lemma {:induction false} SortDescPermutes(xs: seq<Scored>)
    ensures multiset(SortDesc(xs)) == multiset(xs)
  {
    if xs != [] {
      SortDescPermutes(xs[1..]);
      InsertPermutes(xs[0], SortDesc(xs[1..]));
      assert xs == [xs[0]] + xs[1..];
    }
  }

  /** The sort is stable: entries with equal scores keep their input
      order. */
  lemma {:induction false} SortDescStable(xs: seq<Scored>, s: int)
    ensures WithScore(SortDesc(xs), s) == WithScore(xs, s)
  {
    if xs != [] {
      SortDescStable(xs[1..], s);
      InsertWithScore(xs[0], SortDesc(xs[1..]), s);
    }
  }

  /** The best `topk` scored passages: a prefix of the stable descending
      sort of the zipped context and scores. */
  function Top(context: seq<Value>, scores: seq<int>, topk: int): (r: seq<Scored>)
    ensures r <= SortDesc(Zip(context, scores))
  {
    PyPrefix(SortDesc(Zip(context, scores)), topk)
  }

  /** What `Top` keeps: at most `topk` entries (all but `-topk` for a
      negative one), taken from the zipped input, in non-increasing score
      order, and every dropped entry scores no higher than every kept one. */
  lemma {:induction false} TopProperties(context: seq<Value>, scores: seq<int>, topk: int)
    ensures var r := Top(context, scores, topk);
      var n := |Zip(context, scores)|;
      && (topk >= 0 ==> |r| == if topk < n then topk else n)
      && multiset(r) <= multiset(Zip(context, scores))
      && Descending(r)
      && forall i, j :: 0 <= i < |r| <= j < n ==> SortDesc(Zip(context, scores))[j].score <= r[i].score
  {
    var sorted := SortDesc(Zip(context, scores));
    var r := Top(context, scores, topk);
    SortDescDescending(Zip(context, scores));
    SortDescPermutes(Zip(context, scores));
    assert sorted == r + sorted[|r|..];
    assert multiset(sorted) == multiset(r) + multiset(sorted[|r|..]);
  }

  /** `rerank_context` once the model is available: the points of the best
      `topk` entries, or the context unchanged when scoring raised (None). */
  function RankedOrContext(context: seq<Value>, scores: Option<seq<int>>, topk: int): (r: seq<Value>)
    ensures scores.None? ==> r == context
    ensures scores.Some? ==> r == Points(Top(context, scores.value, topk))
    ensures scores.Some? && topk >= 0 ==> |r| <= topk
  {
    match scores
    case None => context
    case Some(s) => Points(Top(context, s, topk))
  }

  /** The elements of the similarity and keyword results that are lists,
      in that order, before deduplication. */
  function Merged(similarity: Value, keyword: Value): (r: seq<Value>)
    ensures forall x :: x in r <==> x in ListOrEmpty(similarity) || x in ListOrEmpty(keyword)
  {
    ListOrEmpty(similarity) + ListOrEmpty(keyword)
  }

  /** A loaded reranker model: its identity and whether it offers
      `stop_self_pool`. */
  datatype Model = Model(id: nat, hasStopPool: bool)

  /** The model `get_reranker` hands out: the cached one, else the load's
      outcome. */
  function ModelFor(cached: Option<Model>, load: Result<Model>): (r: Result<Model>)
    ensures cached.Some? ==> r == Ok(cached.value)
    ensures cached.None? ==> r == load
  {
    if cached.Some? then Ok(cached.value) else load
  }

  /** The cache after `get_reranker`: kept when set, else the loaded model,
      and still empty when the load fails. */
  function CacheAfter(cached: Option<Model>, load: Result<Model>): (r: Option<Model>)
    ensures cached.Some? ==> r == cached
    ensures cached.None? ==> (r.Some? <==> load.Ok?) && (load.Ok? ==> r == Some(load.value))
  {
    if cached.Some? then cached else if load.Ok? then Some(load.value) else None
  }

  /** `r` is what `rerank` answers for the merged results `m`: some
      duplicate-free arrangement of `m`, ranked by the model's scores and
      cut to `topk`, or left unranked when no model is available or
      scoring fails. */
  ghost predicate RerankedFrom(r: seq<Value>, m: seq<Value>, question: Value, topk: int, model: Result<Model>,
                               score: (Model, Value, seq<Value>) -> Option<seq<int>>)
  {
    exists c :: NoDuplicates(c) && (forall x :: x in c <==> x in m)
      && r == (if model.Err? then c else RankedOrContext(c, score(model.value, question, c), topk))
  }

  /** The class attribute `Reranker._reranker`, shared by every instance. */
  class Reranker {
    var cached: Option<Model>

    constructor ()
      ensures cached.None?
    {
      cached := None;
    }

    /** `get_context`: the merged results without duplicates. Python's set
        fixes no order, so only membership is promised; an unhashable
        element makes `set` raise, which answers []. */
    method GetContext(pull: string -> Value) returns (r: seq<Value>)
      ensures var m := Merged(pull("similarity_retrieval_task"), pull("keyword_retrieval_task"));
        && ((forall x :: x in m ==> Hashable(x)) ==> (forall x :: x in r <==> x in m) && NoDuplicates(r))
        && ((exists x :: x in m && !Hashable(x)) ==> r == [])
    {
      var contextList: seq<Value> := [];
      var similarity := pull("similarity_retrieval_task");
      var keyword := pull("keyword_retrieval_task");
      if similarity.VList? {
        contextList := contextList + similarity.items;
      }
      if keyword.VList? {
        contextList := contextList + keyword.items;
      }
      assert contextList == Merged(similarity, keyword);
      var distinct := Distinct(contextList);
      r := if distinct.Ok? then distinct.value else [];
      if distinct.Ok? {
        FirstOccurrencesMembers(contextList);
      }
    }

    /** `get_reranker`: a cached model is returned as is; otherwise the
        model is loaded and cached, and a failed load raises and leaves the
        cache empty. */
    method GetReranker(load: Result<Model>) returns (r: Result<Model>)
      modifies this
      ensures old(cached).Some? ==> r == Ok(old(cached).value) && cached == old(cached)
      ensures old(cached).None? ==> r == load
      ensures old(cached).None? ==> cached == (if load.Ok? then Some(load.value) else None)
    {
      if cached.None? {
        if load.Err? {
          return Err(load.error);
        }
        cached := Some(load.value);
      }
      r := Ok(cached.value);
    }

    /** `cleanup_reranker`: the cache is cleared only when a model is
        cached, it has `stop_self_pool`, and stopping succeeds. */
    method Cleanup(stopSucceeds: bool)
      modifies this
      ensures old(cached).Some? && old(cached).value.hasStopPool && stopSucceeds ==> cached.None?
      ensures !(old(cached).Some? && old(cached).value.hasStopPool && stopSucceeds) ==> cached == old(cached)
    {
      if cached.Some? && cached.value.hasStopPool {
        if stopSucceeds {
          cached := None;
        }
      }
    }

    /** `rerank_context`: a failed model load answers the context
        unchanged; otherwise the model's scores rank it. `score` stands for
        `compute_score`, None when it raises. Either way the result holds
        only context elements, and it is longer than `topk` only when it is
        the unranked context. */
    method RerankContext(question: Value, context: seq<Value>, topk: int, load: Result<Model>,
                         score: (Model, Value, seq<Value>) -> Option<seq<int>>) returns (r: seq<Value>)
      modifies this
      ensures old(cached).Some? ==> cached == old(cached)
                                    && r == RankedOrContext(context, score(old(cached).value, question, context), topk)
      ensures old(cached).None? ==> cached == (if load.Ok? then Some(load.value) else None)
      ensures old(cached).None? && load.Err? ==> r == context
      ensures old(cached).None? && load.Ok? ==> r == RankedOrContext(context, score(load.value, question, context), topk)
      ensures forall x :: x in r ==> x in context
      ensures topk >= 0 ==> |r| <= topk || r == context
    {
      var model := GetReranker(load);
      if model.Err? {
        return context;
      }
      var scores := score(model.value, question, context);
      if scores.Some? {
        TopElements(context, scores.value, topk);
      }
      r := RankedOrContext(context, scores, topk);
    }

    /** `rerank`: an empty context (nothing merged, or an unhashable
        element that makes `get_context` answer []) gives [] without
        touching the model; otherwise the deduplicated context is reranked
        by the cached or newly loaded model. The result holds only merged
        elements, and when it is longer than `topk` it is the whole
        deduplicated context, unranked. */
    method Rerank(topk: int, pull: string -> Value, load: Result<Model>,
                  score: (Model, Value, seq<Value>) -> Option<seq<int>>) returns (r: seq<Value>)
      modifies this
      ensures var m := Merged(pull("similarity_retrieval_task"), pull("keyword_retrieval_task"));
        && (m == [] ==> r == [] && cached == old(cached))
        && ((exists x :: x in m && !Hashable(x)) ==> r == [] && cached == old(cached))
        && (m != [] && (forall x :: x in m ==> Hashable(x)) ==>
              cached == CacheAfter(old(cached), load)
              && RerankedFrom(r, m, pull("generate_query_task"), topk, ModelFor(old(cached), load), score))
        && (forall x :: x in r ==> x in m)
        && (topk >= 0 && |r| > topk ==> (forall x :: x in r <==> x in m) && NoDuplicates(r))
    {
      var question := pull("generate_query_task");
      var context := GetContext(pull);
      ghost var m := Merged(pull("similarity_retrieval_task"), pull("keyword_retrieval_task"));
      if m != [] && (forall x :: x in m ==> Hashable(x)) {
        assert m[0] in m;
        assert m[0] in context;
      }
      if context != [] {
        assert context[0] in context;
      }
      if context == [] {
        return [];
      }
      r := RerankContext(question, context, topk, load, score);
      assert r == (if ModelFor(old(cached), load).Err? then context
                   else RankedOrContext(context, score(ModelFor(old(cached), load).value, question, context), topk));
    }
  }

  /** Every point `Top` keeps comes from the context. */
  lemma TopElements(context: seq<Value>, scores: seq<int>, topk: int)
    ensures forall x :: x in Points(Top(context, scores, topk)) ==> x in context
  {
    TopProperties(context, scores, topk);
    var t := Top(context, scores, topk);
    var z := Zip(context, scores);
    forall x | x in Points(t)
      ensures x in context
    {
      var i :| 0 <= i < |Points(t)| && Points(t)[i] == x;
      assert t[i] in multiset(t);
      assert t[i] in multiset(z);
      var j :| 0 <= j < |z| && z[j] == t[i];
      assert context[j] == x;
    }
  }
}

/** Values that cross the boundaries between the pipeline's stages: the
    decoded result-store ("XCom") entries, an Option and a Result type, and the
    few Python built-ins whose behaviour the stages rely on (truthiness,
    hashability, ASCII lower-casing, substring search, prefix slicing). */
module Values {

  datatype Option<+T> = None | Some(value: T) {
    function GetOr(default: T): T {
      match this
      case Some(v) => v
      case None => default
    }
  }

  datatype Result<+T> = Ok(value: T) | Err(error: string) {
    predicate IsFailure() { Err? }
  }

  /** A decoded Python/JSON value as stored in the run store or produced by a
      literal parser. `VDict` keys are strings, as in JSON objects. */
  datatype Value =
    | VNone
    | VBool(b: bool)
    | VInt(i: int)
    | VStr(s: string)
    | VList(items: seq<Value>)
    | VDict(entries: map<string, Value>)

  /** Python truthiness: None, False, 0, "", [] and {} are false. */
  predicate Truthy(v: Value) {
    match v
    case VNone => false
    case VBool(b) => b
    case VInt(i) => i != 0
    case VStr(s) => s != ""
    case VList(xs) => xs != []
    case VDict(m) => m != map[]
  }

  /** Whether Python can put the value in a `set` (lists and dicts cannot). */
  predicate Hashable(v: Value) {
    !v.VList? && !v.VDict?
  }

  /** `d.get(key)` on a dict: a missing key reads as None. */
  function Get(m: map<string, Value>, key: string): (r: Value)
    ensures key in m ==> r == m[key]
    ensures key !in m ==> r == VNone
  {
    if key in m then m[key] else VNone
  }

  /** `xs if isinstance(v, list) else []` */
  function ListOrEmpty(v: Value): (r: seq<Value>)
    ensures v.VList? ==> r == v.items
    ensures !v.VList? ==> r == []
  {
    if v.VList? then v.items else []
  }

  function LowerChar(c: char): (r: char)
    ensures 'A' <= c <= 'Z' ==> 'a' <= r <= 'z'
    ensures !('A' <= c <= 'Z') ==> r == c
  {
    if 'A' <= c <= 'Z' then (c as int + 32) as char else c
  }

  /** `str.lower()`, restricted to ASCII letters. */
  function Lower(s: string): (r: string)
    ensures |r| == |s|
    ensures forall i :: 0 <= i < |s| ==> r[i] == LowerChar(s[i])
  {
    if s == [] then [] else [LowerChar(s[0])] + Lower(s[1..])
  }

  /** `needle` occurs in `haystack` starting at index `i`. */
  predicate OccursAt(haystack: string, needle: string, i: int) {
    0 <= i <= |haystack| - |needle| && haystack[i..i + |needle|] == needle
  }

  /** `needle in haystack` for strings. */
  predicate Contains(haystack: string, needle: string) {
    exists i :: 0 <= i <= |haystack| && OccursAt(haystack, needle, i)
  }

  /** Python's `s[:k]`: a negative `k` drops `-k` elements from the end. */
  function PyPrefix<T>(s: seq<T>, k: int): (r: seq<T>)
    ensures k >= 0 ==> |r| == if k < |s| then k else |s|
    ensures k < 0 ==> |r| == if |s| + k > 0 then |s| + k else 0
    ensures r <= s
  {
    if k >= 0 then (if k < |s| then s[..k] else s)
    else (if |s| + k > 0 then s[..|s| + k] else [])
  }

  /** `str(b)` for a Python bool. */
  function BoolStr(b: bool): string {
    if b then "True" else "False"
  }

  /** The fixed question the workers fall back to when none is given. */
  const DefaultQuestion: string :=
    "What is the current number of electors currently in a Scottish Parliament constituency?"

  /** `x or DefaultQuestion` for an optional question string. */
  function QuestionOrDefault(q: Option<string>): (r: Value)
    ensures q.Some? && q.value != "" ==> r == VStr(q.value)
    ensures q.None? || q.value == "" ==> r == VStr(DefaultQuestion)
  {
    if q.Some? && q.value != "" then VStr(q.value) else VStr(DefaultQuestion)
  }

  predicate NoDuplicates<T(==)>(s: seq<T>) {
    forall i, j :: 0 <= i < j < |s| ==> s[i] != s[j]
  }

  /** The elements of `xs` in the order they first occur, each once: the
      order this model gives Python's `list(set(xs))`. */
  function FirstOccurrences<T(==)>(xs: seq<T>): seq<T>
    decreases |xs|
  {
    if xs == [] then []
    else
      var r := FirstOccurrences(xs[..|xs| - 1]);
      if xs[|xs| - 1] in r then r else r + [xs[|xs| - 1]]
  }

  /** `FirstOccurrences` keeps exactly the elements, without duplicates. */
  lemma {:induction false} FirstOccurrencesMembers<T>(xs: seq<T>)
    ensures forall x :: x in FirstOccurrences(xs) <==> x in xs
    ensures NoDuplicates(FirstOccurrences(xs))
    decreases |xs|
  {
    if xs != [] {
      var init := xs[..|xs| - 1];
      FirstOccurrencesMembers(init);
      assert xs == init + [xs[|xs| - 1]];
    }
  }

  /** `list(set(xs))`: Python's `set` raises TypeError on an unhashable
      element; otherwise each element once. */
  method Distinct(xs: seq<Value>) returns (r: Result<seq<Value>>)
    ensures r.Ok? <==> forall x :: x in xs ==> Hashable(x)
    ensures r.Ok? ==> r.value == FirstOccurrences(xs)
    ensures r.Err? ==> r.error == "TypeError: unhashable type"
  {
    var seen: seq<Value> := [];
    var i := 0;
    while i < |xs|
      invariant 0 <= i <= |xs|
      invariant seen == FirstOccurrences(xs[..i])
      invariant forall k :: 0 <= k < i ==> Hashable(xs[k])
    {
      assert xs[..i + 1][..i] == xs[..i];
      if !Hashable(xs[i]) {
        return Err("TypeError: unhashable type");
      }
      if xs[i] !in seen {
        seen := seen + [xs[i]];
      }
      i := i + 1;
    }
    assert xs[..i] == xs;
    r := Ok(seen);
  }
}

/** The question-test runner: for each selected question it rewrites the
    pipeline's config with that question, triggers the query pipeline,
    polls the run until it finishes, and keeps and saves the results of the
    runs that succeed. The web server is a set of observations given to
    the model: the run id each trigger returns, the responses each status
    check sees with the time it is made at, and the task values collected
    from a run. */
module QuestionTests {
  import opened Values

  // ---------------------------------------------------------------------
  // Result file names (`save_result`)

  function DigitChar(d: nat): (c: char)
    requires d < 10
    ensures '0' <= c <= '9'
  {
    ('0' as int + d) as char
  }

  /** The decimal digits of `n`. */
  function Digits(n: nat): (r: string)
    ensures |r| >= 1 && forall i :: 0 <= i < |r| ==> '0' <= r[i] <= '9'
    ensures n >= 10 ==> |r| >= 2
    decreases n
  {
    if n < 10 then [DigitChar(n)] else Digits(n / 10) + [DigitChar(n % 10)]
  }

  /** A positive number's digits do not start with 0. */
  lemma {:induction false} DigitsLeadNonZero(n: nat)
    requires n >= 1
    ensures Digits(n)[0] != '0'
    decreases n
  {
    if n >= 10 {
      DigitsLeadNonZero(n / 10);
    }
  }

  /** Different numbers have different digits. */
  lemma {:induction false} DigitsInjective(n: nat, m: nat)
    requires Digits(n) == Digits(m)
    ensures n == m
    decreases n
  {
    if n >= 10 && m >= 10 {
      var dn := Digits(n);
      assert dn[..|dn| - 1] == Digits(n / 10);
      assert Digits(m)[..|Digits(m)| - 1] == Digits(m / 10);
      assert DigitChar(n % 10) == dn[|dn| - 1] == DigitChar(m % 10);
      DigitsInjective(n / 10, m / 10);
    }
  }

  /** `f"{n:02d}"` for a non-negative number: at least two digits, padded
      with 0. */
  function Pad2(n: nat): (r: string)
    ensures |r| >= 2 && forall i :: 0 <= i < |r| ==> '0' <= r[i] <= '9'
  {
    if n < 10 then "0" + Digits(n) else Digits(n)
  }

  lemma Pad2Injective(n: nat, m: nat)
    requires Pad2(n) == Pad2(m)
    ensures n == m
  {
    if n < 10 && m < 10 {
      assert Digits(n) == Pad2(n)[1..] == Pad2(m)[1..] == Digits(m);
      DigitsInjective(n, m);
    } else if n < 10 {
      DigitsLeadNonZero(m);
    } else if m < 10 {
      DigitsLeadNonZero(n);
    } else {
      DigitsInjective(n, m);
    }
  }

  /** `s.replace(" ", "_")` */
  function SpacesToUnderscores(s: string): (r: string)
    ensures |r| == |s|
    ensures forall i :: 0 <= i < |s| ==> r[i] == if s[i] == ' ' then '_' else s[i]
  {
    if s == [] then [] else [if s[0] == ' ' then '_' else s[0]] + SpacesToUnderscores(s[1..])
  }

  /** `s.replace("?", "")` */
  function DropQuestionMarks(s: string): (r: string)
    ensures forall c :: c in r <==> c in s && c != '?'
    ensures |r| <= |s|
    ensures '?' !in s ==> r == s
  {
    if s == [] then [] else (if s[0] == '?' then [] else [s[0]]) + DropQuestionMarks(s[1..])
  }

  /** The question part of a result's file name: its first 30 characters,
      spaces turned into underscores and question marks dropped. */
  function Sanitize(question: string): (r: string)
    ensures |r| <= 30 && ' ' !in r && '?' !in r
    ensures forall c :: c in r ==> c == '_' || c in question
  {
    DropQuestionMarks(SpacesToUnderscores(PyPrefix(question, 30)))
  }

  /** A question that is already short and plain is its own file name part,
      so sanitising twice changes nothing. */
  lemma SanitizeIdempotent(question: string)
    ensures |question| <= 30 && ' ' !in question && '?' !in question ==> Sanitize(question) == question
    ensures Sanitize(Sanitize(question)) == Sanitize(question)
  {
    forall q: string | |q| <= 30 && ' ' !in q && '?' !in q
      ensures Sanitize(q) == q
    {
      assert PyPrefix(q, 30) == q;
      assert SpacesToUnderscores(q) == q;
    }
  }

  /** `f"{question_number:02d}_{sanitized_question}.json"` */
  function FileName(n: nat, question: string): (r: string)
    ensures |r| >= 8 && r[|r| - 5..] == ".json"
  {
    Pad2(n) + "_" + Sanitize(question) + ".json"
  }

  /** Results with different numbers go to different files, whatever their
      questions: the number is everything before the first underscore. */
  lemma FileNamesDiffer(n: nat, m: nat, q1: string, q2: string)
    requires n != m
    ensures FileName(n, q1) != FileName(m, q2)
  {
    if FileName(n, q1) == FileName(m, q2) {
      var f := FileName(n, q1);
      var a := Pad2(n);
      var b := Pad2(m);
      assert f[|a|] == '_' == FileName(m, q2)[|b|];
      if |a| == |b| {
        assert a == f[..|a|] == b;
        Pad2Injective(n, m);
      }
    }
  }

  // ---------------------------------------------------------------------
  // Endpoints

  /** `url.rstrip('/')` */
  function RStripSlash(url: string): (r: string)
    ensures r <= url && (r == [] || r[|r| - 1] != '/')
    ensures forall i :: |r| <= i < |url| ==> url[i] == '/'
    decreases |url|
  {
    if url != [] && url[|url| - 1] == '/' then RStripSlash(url[..|url| - 1]) else url
  }

  /** Any run of trailing slashes is ignored, and stripping twice is
      stripping once. */
  lemma {:induction false} TrailingSlashesIgnored(url: string, slashes: string)
    requires forall i :: 0 <= i < |slashes| ==> slashes[i] == '/'
    ensures RStripSlash(url + slashes) == RStripSlash(url)
    ensures RStripSlash(RStripSlash(url)) == RStripSlash(url)
    decreases |slashes|
  {
    if slashes != [] {
      assert (url + slashes)[..|url + slashes| - 1] == url + slashes[..|slashes| - 1];
      TrailingSlashesIgnored(url, slashes[..|slashes| - 1]);
    } else {
      assert url + slashes == url;
    }
  }

  function TriggerEndpoint(url: string, dagId: string): string {
    RStripSlash(url) + "/api/v1/dags/" + dagId + "/dagRuns"
  }

  function StatusEndpoint(url: string, dagId: string, runId: string): string {
    RStripSlash(url) + "/api/v1/dags/" + dagId + "/dagRuns/" + runId
  }

  function XcomEndpoint(url: string, dagId: string, runId: string, taskId: string): string {
    RStripSlash(url) + "/api/v1/dags/" + dagId + "/dagRuns/" + runId + "/taskInstances/" + taskId
    + "/xcomEntries/return_value"
  }

  /** The three endpoints are the same with or without trailing slashes on
      the server's URL, and all lie under the same DAG prefix. */
  lemma EndpointsIgnoreTrailingSlashes(url: string, slashes: string, dagId: string, runId: string, taskId: string)
    requires forall i :: 0 <= i < |slashes| ==> slashes[i] == '/'
    ensures TriggerEndpoint(url + slashes, dagId) == TriggerEndpoint(url, dagId)
    ensures StatusEndpoint(url + slashes, dagId, runId) == StatusEndpoint(url, dagId, runId)
    ensures XcomEndpoint(url + slashes, dagId, runId, taskId) == XcomEndpoint(url, dagId, runId, taskId)
    ensures TriggerEndpoint(url, dagId) <= StatusEndpoint(url, dagId, runId)
  {
    TrailingSlashesIgnored(url, slashes);
  }

  // ---------------------------------------------------------------------
  // The config rewrite (`update_question`)

  /** The config written for one question: a copy of the original with
      only `user_question` replaced. */
  function UpdatedConfig(original: map<string, Value>, question: string): (c: map<string, Value>)
    ensures "user_question" in c && c["user_question"] == VStr(question)
    ensures forall k :: k != "user_question" ==> (k in c <==> k in original)
    ensures forall k :: k in original && k != "user_question" ==> c[k] == original[k]
  {
    original["user_question" := VStr(question)]
  }

  // ---------------------------------------------------------------------
  // Polling (`wait_for_dag_completion`)

  /** A status check's response: a request or decoding failure (caught and
      retried), or the decoded body. */
  datatype Response = RequestFailed | Body(body: Value)

  /** One pass of the poll loop: the elapsed time its loop test reads, and
      the response its request gets. */
  datatype Probe = Probe(elapsed: int, response: Response)

  const DefaultTimeout: int := 3600

  /** `data.get('state')`; None when the request fails or the body is not
      an object (both raise inside the `try`). */
  function StateOf(r: Response): (s: Option<Value>)
    ensures s.Some? <==> r.Body? && r.body.VDict?
  {
    if r.Body? && r.body.VDict? then Some(Get(r.body.entries, "state")) else None
  }

  predicate Terminal(s: Option<Value>) {
    s == Some(VStr("success")) || s == Some(VStr("failed"))
  }

  /** The clock passes the timeout by the last probe. */
  predicate Ends(probes: seq<Probe>, timeout: int) {
    |probes| > 0 && probes[|probes| - 1].elapsed >= timeout
  }

  /** What the poll loop returns: True at the first `success`, False at
      the first `failed` or once the timeout has passed. */
  function PollOutcome(probes: seq<Probe>, timeout: int): bool
    requires Ends(probes, timeout)
    decreases |probes|
  {
    if probes[0].elapsed >= timeout then false
    else
      var s := StateOf(probes[0].response);
      if s == Some(VStr("success")) then true
      else if s == Some(VStr("failed")) then false
      else PollOutcome(probes[1..], timeout)
  }

  /** A check, made within the timeout, that sees a terminal state after
      only non-terminal ones within the timeout. */
  predicate DecidedAt(probes: seq<Probe>, timeout: int, k: int) {
    0 <= k < |probes| && probes[k].elapsed < timeout && Terminal(StateOf(probes[k].response))
    && forall j :: 0 <= j < k ==> probes[j].elapsed < timeout && !Terminal(StateOf(probes[j].response))
  }

  /** The poll succeeds exactly when the first terminal state seen within
      the timeout is `success`. */
  lemma {:induction false} PollOutcomeMeans(probes: seq<Probe>, timeout: int)
    requires Ends(probes, timeout)
    ensures PollOutcome(probes, timeout) <==>
      exists k :: DecidedAt(probes, timeout, k) && StateOf(probes[k].response) == Some(VStr("success"))
    decreases |probes|
  {
    if probes[0].elapsed < timeout && !Terminal(StateOf(probes[0].response)) {
      var rest := probes[1..];
      PollOutcomeMeans(rest, timeout);
      if PollOutcome(probes, timeout) {
        var k :| DecidedAt(rest, timeout, k) && StateOf(rest[k].response) == Some(VStr("success"));
        assert DecidedAt(probes, timeout, k + 1);
      } else if exists k :: DecidedAt(probes, timeout, k) && StateOf(probes[k].response) == Some(VStr("success")) {
        var k :| DecidedAt(probes, timeout, k) && StateOf(probes[k].response) == Some(VStr("success"));
        assert k != 0;
        assert DecidedAt(rest, timeout, k - 1);
      }
    } else if probes[0].elapsed < timeout && StateOf(probes[0].response) == Some(VStr("success")) {
      assert DecidedAt(probes, timeout, 0);
    }
  }

  /** A run whose checks never see a terminal state within the timeout is
      reported as failed. */
  lemma {:induction false} TimeoutFails(probes: seq<Probe>, timeout: int)
    requires Ends(probes, timeout)
    requires forall j :: 0 <= j < |probes| && probes[j].elapsed < timeout ==> !Terminal(StateOf(probes[j].response))
    ensures !PollOutcome(probes, timeout)
    decreases |probes|
  {
    if probes[0].elapsed < timeout {
      TimeoutFails(probes[1..], timeout);
    }
  }

  /** `wait_for_dag_completion`: check the run's state until it is
      terminal or the timeout has passed. */
  method WaitForDagCompletion(probes: seq<Probe>, timeout: int) returns (done: bool)
    requires Ends(probes, timeout)
    ensures done == PollOutcome(probes, timeout)
  {
    var k := 0;
    while probes[k].elapsed < timeout
      invariant 0 <= k < |probes|
      invariant probes[k..][|probes[k..]| - 1] == probes[|probes| - 1]
      invariant PollOutcome(probes[k..], timeout) == PollOutcome(probes, timeout)
      decreases |probes| - k
    {
      var state := StateOf(probes[k].response);
      if state == Some(VStr("success")) {
        return true;
      } else if state == Some(VStr("failed")) {
        return false;
      }
      assert probes[k..][1..] == probes[k + 1..];
      k := k + 1;
    }
    done := false;
  }

  // ---------------------------------------------------------------------
  // The test loop (`run_test`)

  /** The server as the test loop observes it: the run id the i-th trigger
      returns (None when the request fails), the checks made on a run, and
      the task values collected from it. */
  datatype Airflow = Airflow(trigger: nat -> Option<string>, probes: string -> seq<Probe>,
                             tasks: string -> map<string, Value>)

  /** Every run's checks end by the default timeout. */
  ghost predicate Clocked(af: Airflow) {
    forall id :: Ends(af.probes(id), DefaultTimeout)
  }

  /** The results dict `collect_results` builds for a run. */
  datatype Collected = Collected(question: string, runId: string, tasks: map<string, Value>)

  /** The i-th question's run was triggered (with a non-empty run id) and
      finished with `success`. */
  predicate Succeeded(af: Airflow, i: nat)
    requires Clocked(af)
  {
    af.trigger(i).Some? && af.trigger(i).value != ""
    && PollOutcome(af.probes(af.trigger(i).value), DefaultTimeout)
  }

  /** The results the loop accumulates over `questions`, in order. */
  function RunResults(questions: seq<string>, af: Airflow): seq<Collected>
    requires Clocked(af)
    decreases |questions|
  {
    if questions == [] then []
    else
      var i := |questions| - 1;
      RunResults(questions[..i], af)
      + if Succeeded(af, i) then [Collected(questions[i], af.trigger(i).value, af.tasks(af.trigger(i).value))] else []
  }

  /** The result files the loop writes, in order. */
  function SavedNames(questions: seq<string>, af: Airflow): seq<string>
    requires Clocked(af)
    decreases |questions|
  {
    if questions == [] then []
    else
      var i := |questions| - 1;
      SavedNames(questions[..i], af) + if Succeeded(af, i) then [FileName(i + 1, questions[i])] else []
  }

  /** The indices of the questions whose runs succeed, in increasing order. */
  function SucceededIndices(questions: seq<string>, af: Airflow): seq<nat>
    requires Clocked(af)
    decreases |questions|
  {
    if questions == [] then []
    else
      var i := |questions| - 1;
      SucceededIndices(questions[..i], af) + if Succeeded(af, i) then [i] else []
  }

  /** The succeeding indices, in increasing order. */
  lemma {:induction false} SucceededIndicesSpec(questions: seq<string>, af: Airflow)
    requires Clocked(af)
    ensures var ix := SucceededIndices(questions, af);
      (forall i: nat :: i in ix <==> i < |questions| && Succeeded(af, i))
      && forall k, l :: 0 <= k < l < |ix| ==> ix[k] < ix[l]
    decreases |questions|
  {
    if questions != [] {
      var init := questions[..|questions| - 1];
      SucceededIndicesSpec(init, af);
      var ix := SucceededIndices(init, af);
      forall k | 0 <= k < |ix|
        ensures ix[k] < |init|
      {
        assert ix[k] in ix;
      }
    }
  }

  /** The loop's accounting over one more question. */
  lemma RunStep(questions: seq<string>, af: Airflow, i: nat)
    requires Clocked(af) && i < |questions|
    ensures RunResults(questions[..i + 1], af) == RunResults(questions[..i], af)
      + if Succeeded(af, i) then [Collected(questions[i], af.trigger(i).value, af.tasks(af.trigger(i).value))] else []
    ensures SavedNames(questions[..i + 1], af) == SavedNames(questions[..i], af)
      + if Succeeded(af, i) then [FileName(i + 1, questions[i])] else []
  {
    assert questions[..i + 1][..i] == questions[..i];
  }

  /** The k-th result belongs to the k-th succeeding question: results
      come one per succeeding question, in question order. */
  lemma {:induction false} RunResultsPerSuccess(questions: seq<string>, af: Airflow)
    requires Clocked(af)
    ensures var ix := SucceededIndices(questions, af);
      |RunResults(questions, af)| == |ix|
      && forall k :: 0 <= k < |ix| ==>
           ix[k] < |questions| && Succeeded(af, ix[k])
           && RunResults(questions, af)[k] ==
              Collected(questions[ix[k]], af.trigger(ix[k]).value, af.tasks(af.trigger(ix[k]).value))
    decreases |questions|
  {
    if questions != [] {
      var i := |questions| - 1;
      var init := questions[..i];
      RunResultsPerSuccess(init, af);
      var ix := SucceededIndices(init, af);
      forall k | 0 <= k < |ix|
        ensures questions[ix[k]] == init[ix[k]]
      {
      }
    }
  }

  /** The k-th saved file is named after the k-th succeeding question and
      its number. */
  lemma {:induction false} SavedNamesPerSuccess(questions: seq<string>, af: Airflow)
    requires Clocked(af)
    ensures var ix := SucceededIndices(questions, af);
      |SavedNames(questions, af)| == |ix|
      && forall k :: 0 <= k < |ix| ==>
           ix[k] < |questions| && SavedNames(questions, af)[k] == FileName(ix[k] + 1, questions[ix[k]])
    decreases |questions|
  {
    if questions != [] {
      var i := |questions| - 1;
      var init := questions[..i];
      SavedNamesPerSuccess(init, af);
      var ix := SucceededIndices(init, af);
      forall k | 0 <= k < |ix|
        ensures questions[ix[k]] == init[ix[k]]
      {
      }
    }
  }

  /** No two results are saved to the same file. */
  lemma SavedNamesDistinct(questions: seq<string>, af: Airflow)
    requires Clocked(af)
    ensures NoDuplicates(SavedNames(questions, af))
  {
    SucceededIndicesSpec(questions, af);
    SavedNamesPerSuccess(questions, af);
    NumberedNamesDistinct(SucceededIndices(questions, af), questions, SavedNames(questions, af));
  }

  /** Files named after strictly increasing question numbers differ. */
  lemma NumberedNamesDistinct(ix: seq<nat>, questions: seq<string>, names: seq<string>)
    requires |names| == |ix| && forall k :: 0 <= k < |ix| ==> ix[k] < |questions|
    requires forall k, l :: 0 <= k < l < |ix| ==> ix[k] < ix[l]
    requires forall k :: 0 <= k < |ix| ==> names[k] == FileName(ix[k] + 1, questions[ix[k]])
    ensures NoDuplicates(names)
  {
    forall k, l | 0 <= k < l < |names|
      ensures names[k] != names[l]
    {
      FileNamesDiffer(ix[k] + 1, ix[l] + 1, questions[ix[k]], questions[ix[l]]);
    }
  }

  /** The runner: the config it was started with, the config file it
      rewrites for each question, and the result files it has written. */
  class RagTester {
    var originalConfig: map<string, Value>
    var configFile: map<string, Value>
    var savedFiles: seq<string>

    /** `__init__`: the config loaded from the config path. */
    constructor (loaded: map<string, Value>)
      ensures originalConfig == loaded && configFile == loaded && savedFiles == []
    {
      originalConfig := loaded;
      configFile := loaded;
      savedFiles := [];
    }

    /** `update_question`: the config file gets a copy of the original
        config with the new question; the original is left as it was. */
    method UpdateQuestion(question: string)
      modifies this
      ensures configFile == UpdatedConfig(originalConfig, question)
      ensures originalConfig == old(originalConfig) && savedFiles == old(savedFiles)
    {
      var config := originalConfig;
      config := config["user_question" := VStr(question)];
      configFile := config;
    }

    /** `save_result`: the result is written under its numbered name. */
    method SaveResult(result: Collected, questionNumber: nat)
      modifies this
      ensures savedFiles == old(savedFiles) + [FileName(questionNumber, result.question)]
      ensures originalConfig == old(originalConfig) && configFile == old(configFile)
    {
      savedFiles := savedFiles + [FileName(questionNumber, result.question)];
    }

    /** One pass of `run_test`'s loop for the i-th question: the results
        of a successful run, which are also saved; None when the trigger
        or the run fails. */
    method RunOne(question: string, i: nat, af: Airflow) returns (result: Option<Collected>)
      requires Clocked(af)
      modifies this
      ensures configFile == UpdatedConfig(originalConfig, question) && originalConfig == old(originalConfig)
      ensures result == if Succeeded(af, i) then Some(Collected(question, af.trigger(i).value, af.tasks(af.trigger(i).value)))
                        else None
      ensures savedFiles == old(savedFiles) + if Succeeded(af, i) then [FileName(i + 1, question)] else []
    {
      UpdateQuestion(question);
      var runId := af.trigger(i);
      if runId.None? || runId.value == "" {
        return None;
      }
      var success := WaitForDagCompletion(af.probes(runId.value), DefaultTimeout);
      if !success {
        return None;
      }
      var results := Collected(question, runId.value, af.tasks(runId.value));
      SaveResult(results, i + 1);
      result := Some(results);
    }

    /** `run_test`: for each question, rewrite the config, trigger a run,
        wait for it, and keep and save the results of a successful run; a
        failed trigger or run skips the question. */
    method RunTest(questions: seq<string>, af: Airflow) returns (allResults: seq<Collected>)
      requires Clocked(af)
      modifies this
      ensures allResults == RunResults(questions, af)
      ensures savedFiles == old(savedFiles) + SavedNames(questions, af)
      ensures originalConfig == old(originalConfig)
      ensures questions == [] ==> configFile == old(configFile)
      ensures questions != [] ==> configFile == UpdatedConfig(originalConfig, questions[|questions| - 1])
    {
      allResults := [];
      var i := 0;
      while i < |questions|
        invariant 0 <= i <= |questions|
        invariant originalConfig == old(originalConfig)
        invariant allResults == RunResults(questions[..i], af)
        invariant savedFiles == old(savedFiles) + SavedNames(questions[..i], af)
        invariant i == 0 ==> configFile == old(configFile)
        invariant i > 0 ==> configFile == UpdatedConfig(originalConfig, questions[i - 1])
      {
        RunStep(questions, af, i);
        var result := RunOne(questions[i], i, af);
        if result.Some? {
          allResults := allResults + [result.value];
        }
        i := i + 1;
      }
      assert questions[..i] == questions;
    }
  }

  // ---------------------------------------------------------------------
  // Question selection (`main`)

  const DefaultQuestions: seq<string> := [
    "The immune systems of bacteria have enzymes that protect against infection by what kind of cells?",
    "Who proposed that innate inertial is the natural state of objects?",
    "Besides the North Sea and the Irish Channel, what else was lowered in the last cold phase?",
    "What organization is devoted to Jihad against Israel?",
    "What is the total make up of fish species living in the Amazon?",
    "What are the stages in a compound engine called?",
    "When was the cabinet-level Energy Department created?",
    "US is concerned about confrontation of the Middle East with which other country?",
    "How did user of Tymnet connect?",
    "What did Stiglitz present in 2009 regarding global inequality?"
  ]

  /** `s.split(sep)` for a one-character separator. */
  function Split(s: string, sep: char): (parts: seq<string>)
    ensures |parts| >= 1 && forall k :: 0 <= k < |parts| ==> sep !in parts[k]
    decreases |s|
  {
    if s == [] then [[]]
    else
      var rest := Split(s[1..], sep);
      if s[0] == sep then [[]] + rest else [[s[0]] + rest[0]] + rest[1..]
  }

  /** `sep.join(parts)` */
  function Join(parts: seq<string>, sep: char): string
    requires |parts| >= 1
    decreases |parts|
  {
    if |parts| == 1 then parts[0] else parts[0] + [sep] + Join(parts[1..], sep)
  }

  /** Splitting loses nothing: joining the parts gives the text back. */
  lemma {:induction false} JoinSplit(s: string, sep: char)
    ensures Join(Split(s, sep), sep) == s
    decreases |s|
  {
    if s != [] {
      var rest := Split(s[1..], sep);
      JoinSplit(s[1..], sep);
      if s[0] == sep {
        assert Split(s, sep)[1..] == rest;
        assert Join(Split(s, sep), sep) == [] + [sep] + Join(rest, sep);
      } else {
        var parts := Split(s, sep);
        if |rest| == 1 {
          assert Join(parts, sep) == [s[0]] + rest[0];
        } else {
          assert parts[1..] == rest[1..];
          assert Join(rest, sep) == rest[0] + [sep] + Join(rest[1..], sep);
          assert Join(parts, sep) == ([s[0]] + rest[0]) + [sep] + Join(rest[1..], sep);
        }
      }
      assert s == [s[0]] + s[1..];
    }
  }

  /** `[int(i.strip()) for i in parts]`: every part must convert, or the
      whole list fails. `toInt` is Python's `int` on a stripped part. */
  function ParseIndices(parts: seq<string>, toInt: string -> Option<int>): (r: Option<seq<int>>)
    ensures r.Some? <==> forall k :: 0 <= k < |parts| ==> toInt(parts[k]).Some?
    ensures r.Some? ==> |r.value| == |parts| && forall k :: 0 <= k < |parts| ==> r.value[k] == toInt(parts[k]).value
    decreases |parts|
  {
    if parts == [] then Some([])
    else match (toInt(parts[0]), ParseIndices(parts[1..], toInt))
      case (Some(i), Some(rest)) => Some([i] + rest)
      case _ =>
        assert forall k :: 1 <= k < |parts| ==> parts[1..][k - 1] == parts[k];
        None
  }

  /** The indices that select a question: those that are in range. */
  function InRange(indices: seq<int>, n: nat): (r: seq<nat>)
    ensures forall k :: 0 <= k < |r| ==> r[k] < n
    decreases |indices|
  {
    if indices == [] then []
    else (if 0 <= indices[0] < n then [indices[0] as nat] else []) + InRange(indices[1..], n)
  }

  /** `[questions[i] for i in indices if 0 <= i < len(questions)]` */
  function FilterQuestions(questions: seq<string>, indices: seq<int>): (r: seq<string>)
    ensures |r| <= |indices|
    decreases |indices|
  {
    if indices == [] then []
    else
      (if 0 <= indices[0] < |questions| then [questions[indices[0]]] else []) + FilterQuestions(questions, indices[1..])
  }

  /** The filter picks the questions at the in-range indices, in the
      order given and with repeats kept; negative indices are dropped,
      not counted from the end. */
  lemma {:induction false} FilterPicksInRange(questions: seq<string>, indices: seq<int>)
    ensures var ix := InRange(indices, |questions|);
      |FilterQuestions(questions, indices)| == |ix|
      && forall k :: 0 <= k < |ix| ==> FilterQuestions(questions, indices)[k] == questions[ix[k]]
    ensures forall i :: i in InRange(indices, |questions|) <==> i in indices && 0 <= i < |questions|
    decreases |indices|
  {
    if indices != [] {
      FilterPicksInRange(questions, indices[1..]);
      assert forall i :: i in indices <==> i == indices[0] || i in indices[1..];
    }
  }

  /** The question list `main` runs: the loaded file's questions (the
      defaults when there is none or it fails to load), filtered by the
      `--indices` option when it is given and every index converts. */
  function SelectQuestions(loaded: Option<seq<string>>, indicesArg: Option<string>,
                           toInt: string -> Option<int>): (r: seq<string>)
    ensures var qs := loaded.GetOr(DefaultQuestions);
      (indicesArg.None? || indicesArg.value == "" || ParseIndices(Split(indicesArg.value, ','), toInt).None?) ==> r == qs
    ensures var qs := loaded.GetOr(DefaultQuestions);
      indicesArg.Some? && indicesArg.value != "" && ParseIndices(Split(indicesArg.value, ','), toInt).Some? ==>
        r == FilterQuestions(qs, ParseIndices(Split(indicesArg.value, ','), toInt).value)
  {
    var qs := loaded.GetOr(DefaultQuestions);
    if indicesArg.None? || indicesArg.value == "" then qs
    else match ParseIndices(Split(indicesArg.value, ','), toInt)
      case None => qs
      case Some(ix) => FilterQuestions(qs, ix)
  }
}

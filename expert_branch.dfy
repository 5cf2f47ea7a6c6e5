/** The branch evaluator that runs after expert validation: it decodes the
    validation result and either fails, signals a skip of everything
    downstream (the expert context already answers the question), or names
    the retrieval tasks to run next. */
module ExpertBranch {
  import opened Values
  import opened Topology

  /** The three outcomes of `branch_logic`: an exception, the skip signal
      (re-raised unchanged, never turned into task ids), or the selected
      task ids. */
  datatype Decision = Error(message: string) | Skip | Select(ids: seq<Task>)

  /** The validation value after the string case is JSON-decoded; None when
      decoding fails. Non-string values are inspected as they are. */
  function Decoded(validation: Value, loads: string -> Option<Value>): (r: Option<Value>)
    ensures !validation.VStr? ==> r == Some(validation)
    ensures validation.VStr? ==> r == loads(validation.s)
  {
    if validation.VStr? then loads(validation.s) else Some(validation)
  }

  /** The tasks selected on INCOMPLETE for the two retrieval flags. */
  function Targets(useSimilarity: bool, useKeyword: bool): (ids: seq<Task>)
    ensures |ids| >= 1 && NoDuplicates(ids)
    ensures SimilarityRetrieval in ids <==> useSimilarity
    ensures KeywordExtraction in ids <==> useKeyword
    ensures LlmGenerate in ids <==> !useSimilarity && !useKeyword
    ensures useSimilarity && useKeyword ==> ids == [SimilarityRetrieval, KeywordExtraction]
  {
    if useSimilarity && useKeyword then [SimilarityRetrieval, KeywordExtraction]
    else if useSimilarity then [SimilarityRetrieval]
    else if useKeyword then [KeywordExtraction]
    else [LlmGenerate]
  }

  /** The `status` entry of the decoded validation object, when the value
      decodes to an object that has one. */
  function Status(validation: Value, loads: string -> Option<Value>): (r: Option<Value>)
    ensures r.Some? <==> var dv := Decoded(validation, loads);
                         dv.Some? && dv.value.VDict? && "status" in dv.value.entries
  {
    var dv := Decoded(validation, loads);
    if dv.Some? && dv.value.VDict? && "status" in dv.value.entries then Some(dv.value.entries["status"])
    else None
  }

  /** `ExpertBranch.branch_logic`. `loads` stands for `json.loads` and
      `render` for `str()`, used in the error text of an unknown status. A
      result without a status (undecodable, not an object, no `status` key)
      is an error; COMPLETE skips or, lacking `useful_information`, fails;
      INCOMPLETE selects the targets; any other status fails with a
      ValueError that names it. */
  function BranchLogic(validation: Value, useSimilarity: bool, useKeyword: bool,
                       loads: string -> Option<Value>, render: Value -> string): (d: Decision)
    ensures Status(validation, loads).None? ==> d.Error?
    ensures Decoded(validation, loads).Some? && !Decoded(validation, loads).value.VDict? ==>
      d == Error("Expert validation result is not a valid JSON object.")
    ensures Status(validation, loads) == Some(VStr("INCOMPLETE")) ==> d == Select(Targets(useSimilarity, useKeyword))
    ensures Status(validation, loads) == Some(VStr("COMPLETE")) ==>
      (d == Skip <==> "useful_information" in Decoded(validation, loads).value.entries) && (d.Skip? || d.Error?)
    ensures Status(validation, loads).Some? && Status(validation, loads).value != VStr("COMPLETE")
            && Status(validation, loads).value != VStr("INCOMPLETE") ==>
      d == Error("Unknown expert validation status: " + render(Status(validation, loads).value))
  {
    match Decoded(validation, loads)
    case None => Error("JSONDecodeError")
    case Some(v) =>
      if !v.VDict? then Error("Expert validation result is not a valid JSON object.")
      else if "status" !in v.entries then Error("KeyError: 'status'")
      else if v.entries["status"] == VStr("COMPLETE") then
        if "useful_information" in v.entries then Skip
        else Error("KeyError: 'useful_information'")
      else if v.entries["status"] == VStr("INCOMPLETE") then Select(Targets(useSimilarity, useKeyword))
      else Error("Unknown expert validation status: " + render(v.entries["status"]))
  }

  /** A validation result the stage can act on: a decoded object with a
      status. */
  predicate HasStatus(validation: Value, loads: string -> Option<Value>, status: string) {
    var dv := Decoded(validation, loads);
    dv.Some? && dv.value.VDict? && "status" in dv.value.entries
    && dv.value.entries["status"] == VStr(status)
  }

  /** The outcome is decided by the decoded status alone: INCOMPLETE selects
      the retrieval targets, COMPLETE (with its useful information) skips,
      anything else is an error. */
  lemma BranchOutcomes(validation: Value, useSimilarity: bool, useKeyword: bool,
                       loads: string -> Option<Value>, render: Value -> string)
    ensures var d := BranchLogic(validation, useSimilarity, useKeyword, loads, render);
      && (d.Select? <==> HasStatus(validation, loads, "INCOMPLETE"))
      && (d.Select? ==> d.ids == Targets(useSimilarity, useKeyword))
      && (d.Skip? <==> HasStatus(validation, loads, "COMPLETE")
                       && "useful_information" in Decoded(validation, loads).value.entries)
      && (d.Error? <==> !HasStatus(validation, loads, "INCOMPLETE")
                        && !(HasStatus(validation, loads, "COMPLETE")
                             && "useful_information" in Decoded(validation, loads).value.entries))
      && (var st := Status(validation, loads);
          st.Some? && st.value != VStr("COMPLETE") && st.value != VStr("INCOMPLETE") ==>
            d == Error("Unknown expert validation status: " + render(st.value)))
  {
    assert "COMPLETE"[0] != "INCOMPLETE"[0];
    var dv := Decoded(validation, loads);
    if dv.Some? && dv.value.VDict? && "status" in dv.value.entries {
      var status := dv.value.entries["status"];
      assert HasStatus(validation, loads, "INCOMPLETE") <==> status == VStr("INCOMPLETE");
      assert HasStatus(validation, loads, "COMPLETE") <==> status == VStr("COMPLETE");
    } else {
      assert !HasStatus(validation, loads, "INCOMPLETE") && !HasStatus(validation, loads, "COMPLETE");
    }
  }

  /** A value that is not a string and not an object is always an error;
      the selection never depends on anything but the status. */
  lemma NonObjectIsError(validation: Value, useSimilarity: bool, useKeyword: bool,
                         loads: string -> Option<Value>, render: Value -> string)
    requires !validation.VStr? && !validation.VDict?
    ensures BranchLogic(validation, useSimilarity, useKeyword, loads, render)
            == Error("Expert validation result is not a valid JSON object.")
  {
  }

  /** The selected ids are exactly the successors of the branching task in
      the wired graph, so the branch never names a task that is not wired
      below it, and never leaves one out. */
  lemma {:induction false} SelectionMatchesWiring(c: Flags, t: Task)
    requires c.expert
    ensures var f := Derive(c);
      t in Targets(f.similarity, f.keyword) <==> Edge(ExpertBranching, t) in Edges(f)
  {
    var f := Derive(c);
    DeriveIsDerived(c);
    ExpertChain(f, t);
  }

  /** When validation reports COMPLETE the skip reaches the generation
      stage: it lies on a path below the branching task (every task keeps
      Airflow's default all-success trigger rule). */
  lemma {:induction false} SkipReachesGeneration(c: Flags, validation: Value,
                                                 loads: string -> Option<Value>, render: Value -> string)
    requires c.expert
    requires BranchLogic(validation, c.similarity, c.keyword, loads, render).Skip?
    ensures var f := Derive(c);
      var p := PathToLlm(f);
      IsPath(Edges(f), p) && p[0] == ExpertBranching && p[|p| - 1] == LlmGenerate
  {
    DeriveIsDerived(c);
  }
}

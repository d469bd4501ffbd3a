/** Integration completeness (`measureIntegrationCompleteness` in
    scripts/measure-integration.js): how many of the skill names the
    workflows and the orchestrator mention exist in the inventory.
    The inventory names, the analysed workflows and the orchestrator's
    `SKILL.md` text (`None` when the file is missing) are parameters. */
module Integration {
  import opened Collections
  import opened Numeric
  import opened Patterns
  import opened References

  /** Names that are subagents, not skills. */
  const SubagentWhitelist: set<string> := {"code-reviewer", "integration-verifier", "component-builder", "bug-investigator", "planner"}

  /** Command-line tools workflows mention. */
  const ToolWhitelist: set<string> := {"jq", "grep", "curl", "wget", "sed", "awk", "find", "xargs"}

  /** The words the orchestrator pass skips besides the two whitelists;
      `subagent` and `subagents` are not among them. */
  const OrchestratorStopWords: set<string> := {"skill", "skills", "workflow", "workflows"}

  predicate Whitelisted(n: string) {
    n in SubagentWhitelist || n in ToolWhitelist
  }

  /** A `{workflow, skill, type: "missing_skill"}` record. */
  datatype BrokenRef = BrokenRef(workflow: string, skill: string)

  /** The distinct non-whitelisted names the workflows reference
      (`workflowSkillRefs`). */
  function CheckedRefs(ws: seq<WorkflowRefs>): (r: set<string>)
    ensures forall n :: n in r ==> !Whitelisted(n)
    ensures forall w, n :: w in ws && n in w.skills && !Whitelisted(n) ==> n in r
  {
    set w, n | w in ws && n in w.skills && !Whitelisted(n) :: n
  }

  /** The broken-reference records of one workflow, in its reference order. */
  function BrokenIn(wf: string, refs: seq<string>, inventory: set<string>): seq<BrokenRef> {
    if refs == [] then []
    else
      var n := refs[|refs| - 1];
      BrokenIn(wf, refs[..|refs| - 1], inventory)
        + (if !Whitelisted(n) && n !in inventory then [BrokenRef(wf, n)] else [])
  }

  /** The broken-reference records of all workflows, in processing order. */
  function BrokenRefs(ws: seq<WorkflowRefs>, inventory: set<string>): (r: seq<BrokenRef>)
    ensures forall b :: b in r ==> !Whitelisted(b.skill) && b.skill !in inventory
  {
    if ws == [] then []
    else
      BrokenInExactly(ws[|ws| - 1].name, ws[|ws| - 1].skills, inventory);
      BrokenRefs(ws[..|ws| - 1], inventory) + BrokenIn(ws[|ws| - 1].name, ws[|ws| - 1].skills, inventory)
  }

  /** The workflow loop: fill the Set of checked names and push a record for
      every reference that is neither whitelisted nor inventoried. */
  method CheckWorkflowReferences(ws: seq<WorkflowRefs>, inventory: set<string>)
    returns (refs: set<string>, broken: seq<BrokenRef>)
    ensures refs == CheckedRefs(ws)
    ensures broken == BrokenRefs(ws, inventory)
  {
    refs, broken := {}, [];
    for i := 0 to |ws|
      invariant refs == CheckedRefs(ws[..i])
      invariant broken == BrokenRefs(ws[..i], inventory)
    {
      var w := ws[i];
      assert ws[..i + 1][..i] == ws[..i] && ws[..i + 1][i] == w;
      CheckedRefsSnoc(ws[..i], w);
      refs, broken := CheckWorkflow(w, inventory, refs, broken);
    }
    assert ws[..|ws|] == ws;
  }

  /** The non-whitelisted names of one reference list. */
  function CheckedIn(refs: seq<string>): set<string> {
    set n | n in refs && !Whitelisted(n)
  }

  /** The inner loop over one workflow's references. */
  method CheckWorkflow(w: WorkflowRefs, inventory: set<string>, refs0: set<string>, broken0: seq<BrokenRef>)
    returns (refs: set<string>, broken: seq<BrokenRef>)
    ensures refs == refs0 + CheckedIn(w.skills)
    ensures broken == broken0 + BrokenIn(w.name, w.skills, inventory)
  {
    refs, broken := refs0, broken0;
    for j := 0 to |w.skills|
      invariant refs == refs0 + CheckedIn(w.skills[..j])
      invariant broken == broken0 + BrokenIn(w.name, w.skills[..j], inventory)
    {
      var skillRef := w.skills[j];
      CheckedInSnoc(w.skills[..j], skillRef);
      assert w.skills[..j + 1] == w.skills[..j] + [skillRef];
      assert w.skills[..j + 1][..j] == w.skills[..j];
      if skillRef in SubagentWhitelist || skillRef in ToolWhitelist {
        continue;
      }
      refs := refs + {skillRef};
      if skillRef !in inventory {
        broken := broken + [BrokenRef(w.name, skillRef)];
      }
    }
    assert w.skills[..|w.skills|] == w.skills;
  }

  lemma CheckedInSnoc(refs: seq<string>, x: string)
    ensures CheckedIn(refs + [x]) == CheckedIn(refs) + (if Whitelisted(x) then {} else {x})
  {
    assert forall n :: n in refs + [x] <==> n in refs || n == x;
  }

  lemma CheckedRefsSnoc(ws: seq<WorkflowRefs>, w: WorkflowRefs)
    ensures CheckedRefs(ws + [w]) == CheckedRefs(ws) + CheckedIn(w.skills)
  {
    forall n ensures n in CheckedRefs(ws + [w]) <==> n in CheckedRefs(ws) || (n in w.skills && !Whitelisted(n)) {
      if n in CheckedRefs(ws + [w]) {
        var v :| v in ws + [w] && n in v.skills && !Whitelisted(n);
      }
      if n in CheckedRefs(ws) {
        var v :| v in ws && n in v.skills && !Whitelisted(n);
        assert v in ws + [w];
      }
    }
  }

  /** A record names a workflow and one of its non-whitelisted references
      that the inventory lacks, and every such pair has a record. */
  lemma {:induction false} BrokenRefsExactly(ws: seq<WorkflowRefs>, inventory: set<string>)
    ensures forall b :: b in BrokenRefs(ws, inventory) <==>
              exists w :: w in ws && b.workflow == w.name && b.skill in w.skills && !Whitelisted(b.skill) && b.skill !in inventory
    decreases |ws|
  {
    if ws != [] {
      var init, last := ws[..|ws| - 1], ws[|ws| - 1];
      BrokenRefsExactly(init, inventory);
      BrokenInExactly(last.name, last.skills, inventory);
      assert forall w :: w in ws <==> w in init || w == last;
    }
  }

  lemma {:induction false} BrokenInExactly(wf: string, refs: seq<string>, inventory: set<string>)
    ensures forall b :: b in BrokenIn(wf, refs, inventory) <==>
              b.workflow == wf && b.skill in refs && !Whitelisted(b.skill) && b.skill !in inventory
    decreases |refs|
  {
    if refs != [] {
      var init := refs[..|refs| - 1];
      BrokenInExactly(wf, init, inventory);
      assert forall n :: n in refs <==> n in init || n == refs[|refs| - 1];
    }
  }

  /** Whitelisted names are never counted and never reported broken. */
  lemma WhitelistedNeverCounted(ws: seq<WorkflowRefs>, inventory: set<string>, n: string)
    requires Whitelisted(n)
    ensures n !in CheckedRefs(ws)
    ensures forall b :: b in BrokenRefs(ws, inventory) ==> b.skill != n
  {
    BrokenRefsExactly(ws, inventory);
  }

  /** Every broken name is one of the checked names. */
  lemma BrokenNamesAreChecked(ws: seq<WorkflowRefs>, inventory: set<string>)
    ensures forall b :: b in BrokenRefs(ws, inventory) ==> b.skill in CheckedRefs(ws) && b.skill !in inventory
  {
    BrokenRefsExactly(ws, inventory);
  }

  /** `total > 0 ? round2((valid / total) * 100) : 100`; `valid` may be
      negative. */
  function Coverage(valid: int, total: nat): (r: real)
    ensures total == 0 ==> r == 100.0
    ensures 0 <= valid <= total ==> 0.0 <= r <= 100.0
    ensures 0 < total && valid < 0 ==> r <= 0.0
  {
    if total > 0 then
      var q := (valid as real / total as real) * 100.0;
      assert 0 <= valid <= total ==> 0.0 <= q <= 100.0 by {
        if 0 <= valid <= total {
          PercentBounds(valid, total);
        }
      }
      assert 0 <= valid <= total ==> 0.0 <= Round2(q) <= 100.0 by {
        if 0 <= valid <= total {
          Round2Percent(q);
        }
      }
      assert valid < 0 ==> Round2(q) <= 0.0 by {
        if valid < 0 {
          Round2Monotone(q, 0.0);
          Round2Whole(0);
        }
      }
      Round2(q)
    else 100.0
  }

  /** Everything the orchestrator pass skips. */
  const OrchestratorSkip: set<string> := OrchestratorStopWords + SubagentWhitelist + ToolWhitelist

  /** The orchestrator's backticked names that the orchestrator pass counts,
      once per occurrence. */
  function OrchestratorNames(content: string): seq<string> {
    Keep(Captures(content, 0, InlineCode), OrchestratorSkip)
  }

  /** The orchestrator's `exec` loop: count every name not skipped, and those
      of them the inventory lacks. */
  method CountOrchestratorReferences(content: string, inventory: set<string>) returns (refs: nat, broken: nat)
    ensures refs == |OrchestratorNames(content)|
    ensures broken == |Keep(OrchestratorNames(content), inventory)|
    ensures broken <= refs
  {
    refs, broken := 0, 0;
    var pos := 0;
    var m := FirstMatch(content, pos, InlineCode);
    while m.Some?
      invariant pos <= |content|
      invariant m == FirstMatch(content, pos, InlineCode)
      invariant refs + |Keep(Captures(content, pos, InlineCode), OrchestratorSkip)| == |OrchestratorNames(content)|
      invariant broken + |Keep(Keep(Captures(content, pos, InlineCode), OrchestratorSkip), inventory)|
                == |Keep(OrchestratorNames(content), inventory)|
      decreases |content| - pos
    {
      var skillName := m.value.name;
      assert Captures(content, pos, InlineCode) == [skillName] + Captures(content, m.value.end, InlineCode);
      CountedHead(skillName, Captures(content, m.value.end, InlineCode), inventory);
      if !(skillName in OrchestratorStopWords) && !(skillName in SubagentWhitelist) && !(skillName in ToolWhitelist) {
        refs := refs + 1;
        if skillName !in inventory {
          broken := broken + 1;
        }
      }
      pos := m.value.end;
      m := FirstMatch(content, pos, InlineCode);
    }
  }

  /** Counting the first capture, then the rest. */
  lemma CountedHead(n: string, rest: seq<string>, inventory: set<string>)
    ensures |Keep([n] + rest, OrchestratorSkip)|
            == |Keep(rest, OrchestratorSkip)| + (if n in OrchestratorSkip then 0 else 1)
    ensures |Keep(Keep([n] + rest, OrchestratorSkip), inventory)|
            == |Keep(Keep(rest, OrchestratorSkip), inventory)| + (if n in OrchestratorSkip || n in inventory then 0 else 1)
  {
    assert ([n] + rest)[1..] == rest;
    var k := Keep([n] + rest, OrchestratorSkip);
    if n in OrchestratorSkip {
      assert k == Keep(rest, OrchestratorSkip);
    } else {
      assert k == [n] + Keep(rest, OrchestratorSkip);
      assert k[1..] == Keep(rest, OrchestratorSkip);
    }
  }

  /** Unlike the extraction pass, the orchestrator pass keeps a backticked
      `subagent` or `subagents` and counts it as a skill reference. */
  lemma OrchestratorCountsSubagentWord(content: string, word: string)
    requires word == "subagent" || word == "subagents"
    requires word in Captures(content, 0, InlineCode)
    ensures word in OrchestratorNames(content)
    ensures word !in Keep(Captures(content, 0, InlineCode), StopWords)
  {
    SubagentWordsNotSkipped(word);
  }

  lemma SubagentWordsNotSkipped(word: string)
    requires word == "subagent" || word == "subagents"
    ensures word in StopWords && word !in OrchestratorSkip
  {
    assert word !in OrchestratorStopWords;
    assert word !in SubagentWhitelist;
    assert word !in ToolWhitelist;
  }

  /** `workflowSkillRefs.size - brokenRefs.length`: distinct names minus one
      record per workflow that misses a name. */
  function Valid(ws: seq<WorkflowRefs>, inventory: set<string>): int {
    |CheckedRefs(ws)| - |BrokenRefs(ws, inventory)|
  }

  /** Two workflows that both reference one missing skill: one checked
      name but two records, so the valid count is -1 and the workflow
      coverage -100%. */
  lemma RepeatedMissingSkillGoesNegative()
    ensures var ws := [WorkflowRefs("plan", ["missing-skill"], []), WorkflowRefs("review", ["missing-skill"], [])];
            |CheckedRefs(ws)| == 1 && |BrokenRefs(ws, {})| == 2
            && Valid(ws, {}) == -1 && Coverage(Valid(ws, {}), |CheckedRefs(ws)|) == -100.0
  {
    var plan := WorkflowRefs("plan", ["missing-skill"], []);
    var review := WorkflowRefs("review", ["missing-skill"], []);
    var ws := [plan, review];
    MissingSkillReportedOnce(plan, {});
    MissingSkillReportedOnce(review, {});
    assert [plan] + [review] == ws;
    CheckedRefsSnoc([plan], review);
    assert |BrokenRefs(ws, {})| == 2 by {
      assert ws[..1] == [plan];
    }
    assert CheckedRefs(ws) == {"missing-skill"};
    Round2Whole(-100);
  }

  /** A workflow whose one reference names a missing skill yields exactly one
      record, naming that workflow and that skill. */
  lemma MissingSkillReportedOnce(w: WorkflowRefs, inventory: set<string>)
    requires w.skills == ["missing-skill"] && "missing-skill" !in inventory
    ensures BrokenRefs([w], inventory) == [BrokenRef(w.name, "missing-skill")]
    ensures CheckedRefs([w]) == {"missing-skill"}
  {
    assert !Whitelisted("missing-skill");
    assert [w][..0] == [];
    assert w.skills[..0] == [];
    assert BrokenIn(w.name, w.skills, inventory) == [BrokenRef(w.name, "missing-skill")];
    assert BrokenRefs([w], inventory) == BrokenRefs([], inventory) + BrokenIn(w.name, w.skills, inventory);
    CheckedRefsSnoc([], w);
    assert [] + [w] == [w];
  }

  datatype IntegrationResult = IntegrationResult(
    total: nat, valid: int, broken: nat, coverage: real, brokenRefs: seq<BrokenRef>,
    orchestratorTotal: nat, orchestratorValid: nat, orchestratorBroken: nat, orchestratorCoverage: real,
    overallScore: real)

  /** `measureIntegrationCompleteness`, on the inventory's names, the
      analysed workflows and the orchestrator's text. */
  method MeasureIntegrationCompleteness(inventory: set<string>, ws: seq<WorkflowRefs>, orchestrator: Option<string>)
    returns (r: IntegrationResult)
    ensures r.total == |CheckedRefs(ws)| && r.brokenRefs == BrokenRefs(ws, inventory) && r.broken == |r.brokenRefs|
    ensures r.valid == r.total - r.broken && r.valid <= r.total
    ensures r.coverage == Coverage(r.valid, r.total)
    ensures orchestrator.None? ==> r.orchestratorTotal == 0
    ensures orchestrator.Some? ==> r.orchestratorTotal == |OrchestratorNames(orchestrator.value)|
                                   && r.orchestratorBroken == |Keep(OrchestratorNames(orchestrator.value), inventory)|
    ensures r.orchestratorValid == r.orchestratorTotal - r.orchestratorBroken
    ensures 0.0 <= r.orchestratorCoverage <= 100.0
    ensures r.orchestratorCoverage == Coverage(r.orchestratorValid, r.orchestratorTotal)
    ensures r.coverage <= 100.0
    ensures r.overallScore == OverallBlend(r.coverage, r.orchestratorCoverage)
  {
    var refs, brokenRefs := CheckWorkflowReferences(ws, inventory);
    var total := |refs|;
    var valid := total - |brokenRefs|;
    var coverage := Coverage(valid, total);

    var orchRefs, orchBroken, orchValid, orchCoverage := CheckOrchestrator(orchestrator, inventory);

    r := IntegrationResult(total, valid, |brokenRefs|, coverage, brokenRefs,
                           orchRefs, orchValid, orchBroken, orchCoverage,
                           OverallBlend(coverage, orchCoverage));
  }

  /** The orchestrator half: its counts, or none without an orchestrator
      file, and their coverage. */
  method CheckOrchestrator(orchestrator: Option<string>, inventory: set<string>)
    returns (refs: nat, broken: nat, valid: nat, coverage: real)
    ensures orchestrator.None? ==> refs == 0 && broken == 0
    ensures orchestrator.Some? ==> refs == |OrchestratorNames(orchestrator.value)|
                                   && broken == |Keep(OrchestratorNames(orchestrator.value), inventory)|
    ensures broken <= refs && valid == refs - broken
    ensures coverage == Coverage(valid, refs)
    ensures 0.0 <= coverage <= 100.0
  {
    refs, broken := 0, 0;
    if orchestrator.Some? {
      refs, broken := CountOrchestratorReferences(orchestrator.value, inventory);
    }
    valid := refs - broken;
    coverage := Coverage(valid, refs);
  }

  /** The overall integration score: workflow coverage weighted 0.7 and
      orchestrator coverage 0.3, rounded to two decimals. It stays at most
      100, and at least 0 while the workflow coverage is not negative. */
  function OverallBlend(coverage: real, orchCoverage: real): (s: real)
    requires coverage <= 100.0 && 0.0 <= orchCoverage <= 100.0
    ensures s <= 100.0
    ensures 0.0 <= coverage ==> 0.0 <= s
    ensures coverage == 100.0 && orchCoverage == 100.0 ==> s == 100.0
  {
    var x := coverage * 0.7 + orchCoverage * 0.3;
    Round2Monotone(x, 100.0);
    Round2Whole(100);
    assert 0.0 <= coverage ==> 0.0 <= Round2(x) by {
      if 0.0 <= coverage {
        Round2Monotone(0.0, x);
        Round2Whole(0);
      }
    }
    Round2(x)
  }
}

/** Functionality preservation (`measureFunctionalityPreservation` in
    scripts/measure-functionality.js): the skills, hooks and subagents that
    the refactor deleted, each resolved against a table of where its
    functionality went, and the share that was preserved. */
module Functionality {
  import opened Collections
  import opened Numeric
  import opened JsObjects
  import opened Metrics

  /** Where a deleted hook's functionality went. */
  datatype HookEntry = HookEntry(preserved: bool, reason: string)

  /** Where a deleted subagent's functionality went. */
  datatype SubagentEntry = SubagentEntry(preserved: bool, consolidatedInto: string)

  /** The three preservation tables. */
  datatype Tables = Tables(
    skills: map<string, string>,
    hooks: map<string, HookEntry>,
    subagents: map<string, SubagentEntry>)

  /** `DELETED_TO_CONSOLIDATED`, `HOOK_PRESERVATION` and
      `SUBAGENT_PRESERVATION`. */
  const SourceTables: Tables := Tables(
    map[
      "security-patterns" := "code-review-patterns",
      "code-quality-patterns" := "code-review-patterns",
      "performance-patterns" := "code-review-patterns",
      "systematic-debugging" := "debugging-patterns",
      "log-analysis-patterns" := "debugging-patterns",
      "root-cause-analysis" := "debugging-patterns",
      "feature-planning" := "planning-patterns",
      "requirements-analysis" := "planning-patterns",
      "ui-design" := "frontend-patterns",
      "ux-patterns" := "frontend-patterns",
      "accessibility-patterns" := "frontend-patterns",
      "api-design-patterns" := "architecture-patterns",
      "integration-patterns" := "architecture-patterns"
    ],
    map[
      "notify-compact.sh" := HookEntry(false, "Intentional simplification"),
      "notify-workflow-complete.sh" := HookEntry(false, "Intentional simplification"),
      "pre-prompt.sh" := HookEntry(true, "Moved to skill-discovery skill"),
      "session-start.sh" := HookEntry(true, "Simplified in post-compact.sh"),
      "user-prompt-submit.sh" := HookEntry(false, "Intentional simplification")
    ],
    map[
      "analysis-performance-quality" := SubagentEntry(true, "code-reviewer"),
      "analysis-risk-security" := SubagentEntry(true, "code-reviewer"),
      "analysis-ux-accessibility" := SubagentEntry(true, "code-reviewer"),
      "planning-architecture-risk" := SubagentEntry(true, "planner"),
      "planning-design-deployment" := SubagentEntry(true, "planner")
    ])

  /** `[...new Set(pre || [])].filter((s) => !new Set(post || []).has(s))`. */
  function Deleted(pre: Option<seq<string>>, post: Option<seq<string>>): (r: seq<string>)
    ensures NoDuplicates(r)
    ensures forall n :: n in r <==> n in pre.GetOr([]) && n !in post.GetOr([])
  {
    KeepNoDuplicates(Dedup(pre.GetOr([])), set n | n in post.GetOr([]));
    Keep(Dedup(pre.GetOr([])), set n | n in post.GetOr([]))
  }

  /** The deleted names are those listed before and not after, each once. */
  lemma DeletedIsSetDifference(pre: Option<seq<string>>, post: Option<seq<string>>)
    ensures NoDuplicates(Deleted(pre, post))
    ensures forall n :: n in Deleted(pre, post) <==> n in pre.GetOr([]) && n !in post.GetOr([])
    ensures pre.None? ==> Deleted(pre, post) == []
  {
  }

  datatype SkillMapping = SkillMapping(deleted: string, consolidatedInto: Option<string>, preserved: bool)
  datatype HookMapping = HookMapping(deleted: string, preserved: bool, reason: string)
  datatype SubagentMapping = SubagentMapping(deleted: string, preserved: bool, consolidatedInto: Option<string>)

  /** The record of a deleted skill: preserved exactly when the table maps
      it. */
  function ResolveSkill(t: Tables, n: string): (r: SkillMapping)
    ensures r.deleted == n
    ensures r.preserved <==> n in t.skills
    ensures r.consolidatedInto == (if n in t.skills then Some(t.skills[n]) else None)
  {
    if n in t.skills then SkillMapping(n, Some(t.skills[n]), true)
    else SkillMapping(n, None, false)
  }

  /** The record of a deleted skill as written: `DELETED_TO_CONSOLIDATED[n]`
      is also truthy for the names `Object.prototype` provides, whose
      inherited function `JSON.stringify` then drops from the record. */
  function ResolveSkillAsWritten(t: Tables, n: string): (r: SkillMapping)
    ensures r.preserved <==> n in t.skills || n in PrototypeMembers
    ensures n !in PrototypeMembers ==> r == ResolveSkill(t, n)
  {
    if Truthy(t.skills, n) then
      SkillMapping(n, if n in t.skills then Some(t.skills[n]) else None, true)
    else SkillMapping(n, None, false)
  }

  /** The record of a deleted hook: an unmapped hook is not preserved, for
      the reason "Unknown". */
  function ResolveHook(t: Tables, n: string): (r: HookMapping)
    ensures r.deleted == n
    ensures r.preserved <==> n in t.hooks && t.hooks[n].preserved
    ensures r.reason == (if n in t.hooks then t.hooks[n].reason else "Unknown")
  {
    if n in t.hooks then HookMapping(n, t.hooks[n].preserved, t.hooks[n].reason)
    else HookMapping(n, false, "Unknown")
  }

  /** The record of a deleted subagent: an unmapped subagent is not
      preserved and went nowhere. */
  function ResolveSubagent(t: Tables, n: string): (r: SubagentMapping)
    ensures r.deleted == n
    ensures r.preserved <==> n in t.subagents && t.subagents[n].preserved
    ensures r.consolidatedInto == (if n in t.subagents then Some(t.subagents[n].consolidatedInto) else None)
  {
    if n in t.subagents then SubagentMapping(n, t.subagents[n].preserved, Some(t.subagents[n].consolidatedInto))
    else SubagentMapping(n, false, None)
  }

  /** How many of `ds` the skill table maps. */
  function PreservedSkills(t: Tables, ds: seq<string>): (c: nat)
    ensures c <= |ds|
  {
    if ds == [] then 0
    else PreservedSkills(t, ds[..|ds| - 1]) + (if ResolveSkill(t, ds[|ds| - 1]).preserved then 1 else 0)
  }

  /** How many of `ds` the hook table marks preserved. */
  function PreservedHooks(t: Tables, ds: seq<string>): (c: nat)
    ensures c <= |ds|
  {
    if ds == [] then 0
    else PreservedHooks(t, ds[..|ds| - 1]) + (if ResolveHook(t, ds[|ds| - 1]).preserved then 1 else 0)
  }

  /** How many of `ds` the subagent table marks preserved. */
  function PreservedSubagents(t: Tables, ds: seq<string>): (c: nat)
    ensures c <= |ds|
  {
    if ds == [] then 0
    else PreservedSubagents(t, ds[..|ds| - 1]) + (if ResolveSubagent(t, ds[|ds| - 1]).preserved then 1 else 0)
  }

  /** `total > 0 ? (preserved / total) * 100 : 100`. */
  function Percent(preserved: nat, total: nat): (r: real)
    ensures total == 0 ==> r == 100.0
    ensures preserved <= total ==> 0.0 <= r <= 100.0
    ensures 0 < total && preserved == total ==> r == 100.0
    ensures 0 < total && preserved == 0 ==> r == 0.0
  {
    if total > 0 then
      var q := (preserved as real / total as real) * 100.0;
      assert preserved <= total ==> 0.0 <= q <= 100.0 by {
        if preserved <= total {
          PercentBounds(preserved, total);
        }
      }
      q
    else 100.0
  }

  /** The weighted average, skills counting most. */
  function OverallScore(skills: real, hooks: real, subagents: real): (r: real)
    ensures 0.0 <= skills <= 100.0 && 0.0 <= hooks <= 100.0 && 0.0 <= subagents <= 100.0 ==> 0.0 <= r <= 100.0
    ensures skills == 100.0 && hooks == 100.0 && subagents == 100.0 ==> r == 100.0
  {
    skills * 0.7 + hooks * 0.15 + subagents * 0.15
  }

  datatype KindResult<M> = KindResult(deletedCount: nat, preservedCount: nat, score: real, mappings: seq<M>)

  datatype FunctionalityResult = FunctionalityResult(
    skills: KindResult<SkillMapping>,
    hooks: KindResult<HookMapping>,
    subagents: KindResult<SubagentMapping>,
    overallScore: real)

  /** The skills loop: one record per deleted skill, counting the preserved. */
  method ResolveSkills(t: Tables, ds: seq<string>) returns (preserved: nat, mappings: seq<SkillMapping>)
    ensures preserved == PreservedSkills(t, ds) && preserved <= |ds|
    ensures |mappings| == |ds| && forall i :: 0 <= i < |ds| ==> mappings[i] == ResolveSkill(t, ds[i])
  {
    preserved, mappings := 0, [];
    for i := 0 to |ds|
      invariant preserved == PreservedSkills(t, ds[..i])
      invariant |mappings| == i && forall j :: 0 <= j < i ==> mappings[j] == ResolveSkill(t, ds[j])
    {
      assert ds[..i + 1][..i] == ds[..i];
      var d := ds[i];
      if d in t.skills {
        preserved := preserved + 1;
        mappings := mappings + [SkillMapping(d, Some(t.skills[d]), true)];
      } else {
        mappings := mappings + [SkillMapping(d, None, false)];
      }
    }
    assert ds[..|ds|] == ds;
  }

  /** The hooks loop. */
  method ResolveHooks(t: Tables, ds: seq<string>) returns (preserved: nat, mappings: seq<HookMapping>)
    ensures preserved == PreservedHooks(t, ds) && preserved <= |ds|
    ensures |mappings| == |ds| && forall i :: 0 <= i < |ds| ==> mappings[i] == ResolveHook(t, ds[i])
  {
    preserved, mappings := 0, [];
    for i := 0 to |ds|
      invariant preserved == PreservedHooks(t, ds[..i])
      invariant |mappings| == i && forall j :: 0 <= j < i ==> mappings[j] == ResolveHook(t, ds[j])
    {
      assert ds[..i + 1][..i] == ds[..i];
      var d := ds[i];
      var entry := if d in t.hooks then Some(t.hooks[d]) else None;
      if entry.Some? && entry.value.preserved {
        preserved := preserved + 1;
      }
      mappings := mappings + [HookMapping(d, if entry.Some? then entry.value.preserved else false,
                                          if entry.Some? then entry.value.reason else "Unknown")];
    }
    assert ds[..|ds|] == ds;
  }

  /** The subagents loop. */
  method ResolveSubagents(t: Tables, ds: seq<string>) returns (preserved: nat, mappings: seq<SubagentMapping>)
    ensures preserved == PreservedSubagents(t, ds) && preserved <= |ds|
    ensures |mappings| == |ds| && forall i :: 0 <= i < |ds| ==> mappings[i] == ResolveSubagent(t, ds[i])
  {
    preserved, mappings := 0, [];
    for i := 0 to |ds|
      invariant preserved == PreservedSubagents(t, ds[..i])
      invariant |mappings| == i && forall j :: 0 <= j < i ==> mappings[j] == ResolveSubagent(t, ds[j])
    {
      assert ds[..i + 1][..i] == ds[..i];
      var d := ds[i];
      var entry := if d in t.subagents then Some(t.subagents[d]) else None;
      if entry.Some? && entry.value.preserved {
        preserved := preserved + 1;
      }
      mappings := mappings + [SubagentMapping(d, if entry.Some? then entry.value.preserved else false,
                                              if entry.Some? then Some(entry.value.consolidatedInto) else None)];
    }
    assert ds[..|ds|] == ds;
  }

  /** `measureFunctionalityPreservation(pre, post)` with the tables `t`
      (`SourceTables` in the script). */
  method MeasureFunctionalityPreservation(pre: Metrics, post: Metrics, t: Tables) returns (r: FunctionalityResult)
    ensures var ds := Deleted(pre.skillNames, post.skillNames);
            r.skills.deletedCount == |ds| && r.skills.preservedCount == PreservedSkills(t, ds)
            && r.skills.score == Round2(Percent(PreservedSkills(t, ds), |ds|))
            && |r.skills.mappings| == |ds| && forall i :: 0 <= i < |ds| ==> r.skills.mappings[i] == ResolveSkill(t, ds[i])
    ensures var ds := Deleted(pre.hookNames, post.hookNames);
            r.hooks.deletedCount == |ds| && r.hooks.preservedCount == PreservedHooks(t, ds)
            && r.hooks.score == Round2(Percent(PreservedHooks(t, ds), |ds|))
            && |r.hooks.mappings| == |ds| && forall i :: 0 <= i < |ds| ==> r.hooks.mappings[i] == ResolveHook(t, ds[i])
    ensures var ds := Deleted(pre.subagentNames, post.subagentNames);
            r.subagents.deletedCount == |ds| && r.subagents.preservedCount == PreservedSubagents(t, ds)
            && r.subagents.score == Round2(Percent(PreservedSubagents(t, ds), |ds|))
            && |r.subagents.mappings| == |ds| && forall i :: 0 <= i < |ds| ==> r.subagents.mappings[i] == ResolveSubagent(t, ds[i])
    ensures r.overallScore == Round2(OverallScore(
              Percent(r.skills.preservedCount, r.skills.deletedCount),
              Percent(r.hooks.preservedCount, r.hooks.deletedCount),
              Percent(r.subagents.preservedCount, r.subagents.deletedCount)))
    ensures 0.0 <= r.skills.score <= 100.0 && 0.0 <= r.hooks.score <= 100.0 && 0.0 <= r.subagents.score <= 100.0
    ensures 0.0 <= r.overallScore <= 100.0
  {
    var deletedSkills := Deleted(pre.skillNames, post.skillNames);
    var deletedHooks := Deleted(pre.hookNames, post.hookNames);
    var deletedSubagents := Deleted(pre.subagentNames, post.subagentNames);

    var skillsPreserved, skillMappings := ResolveSkills(t, deletedSkills);
    var hooksPreserved, hookMappings := ResolveHooks(t, deletedHooks);
    var subagentsPreserved, subagentMappings := ResolveSubagents(t, deletedSubagents);

    var skillsScore := Percent(skillsPreserved, |deletedSkills|);
    var hooksScore := Percent(hooksPreserved, |deletedHooks|);
    var subagentsScore := Percent(subagentsPreserved, |deletedSubagents|);
    var overall := OverallScore(skillsScore, hooksScore, subagentsScore);
    Round2Percent(skillsScore);
    Round2Percent(hooksScore);
    Round2Percent(subagentsScore);
    Round2Percent(overall);

    r := FunctionalityResult(
      KindResult(|deletedSkills|, skillsPreserved, Round2(skillsScore), skillMappings),
      KindResult(|deletedHooks|, hooksPreserved, Round2(hooksScore), hookMappings),
      KindResult(|deletedSubagents|, subagentsPreserved, Round2(subagentsScore), subagentMappings),
      Round2(overall));
  }

  /** Mapping one more deleted skill never lowers the preserved count. */
  lemma {:induction false} MappingASkillNeverLowersCount(t: Tables, ds: seq<string>, n: string, target: string)
    ensures PreservedSkills(t.(skills := t.skills[n := target]), ds) >= PreservedSkills(t, ds)
    decreases |ds|
  {
    if ds != [] {
      MappingASkillNeverLowersCount(t, ds[..|ds| - 1], n, target);
    }
  }

  /** Marking one more deleted hook preserved never lowers the count. */
  lemma {:induction false} PreservingAHookNeverLowersCount(t: Tables, ds: seq<string>, n: string, reason: string)
    ensures PreservedHooks(t.(hooks := t.hooks[n := HookEntry(true, reason)]), ds) >= PreservedHooks(t, ds)
    decreases |ds|
  {
    if ds != [] {
      PreservingAHookNeverLowersCount(t, ds[..|ds| - 1], n, reason);
    }
  }

  /** Marking one more deleted subagent preserved never lowers the count. */
  lemma {:induction false} PreservingASubagentNeverLowersCount(t: Tables, ds: seq<string>, n: string, target: string)
    ensures PreservedSubagents(t.(subagents := t.subagents[n := SubagentEntry(true, target)]), ds) >= PreservedSubagents(t, ds)
    decreases |ds|
  {
    if ds != [] {
      PreservingASubagentNeverLowersCount(t, ds[..|ds| - 1], n, target);
    }
  }

  /** A higher preserved count never gives a lower score. */
  lemma PercentMonotone(a: nat, b: nat, total: nat)
    requires a <= b
    ensures Percent(a, total) <= Percent(b, total)
  {
    if total > 0 {
      assert a as real / total as real <= b as real / total as real;
    }
  }

  /** Adding a preserved table entry never lowers a kind's score. */
  lemma NewEntriesNeverLowerScores(t: Tables, ds: seq<string>, n: string, target: string)
    ensures Percent(PreservedSkills(t.(skills := t.skills[n := target]), ds), |ds|) >= Percent(PreservedSkills(t, ds), |ds|)
    ensures Percent(PreservedHooks(t.(hooks := t.hooks[n := HookEntry(true, target)]), ds), |ds|) >= Percent(PreservedHooks(t, ds), |ds|)
    ensures Percent(PreservedSubagents(t.(subagents := t.subagents[n := SubagentEntry(true, target)]), ds), |ds|) >= Percent(PreservedSubagents(t, ds), |ds|)
  {
    MappingASkillNeverLowersCount(t, ds, n, target);
    PercentMonotone(PreservedSkills(t, ds), PreservedSkills(t.(skills := t.skills[n := target]), ds), |ds|);
    PreservingAHookNeverLowersCount(t, ds, n, target);
    PercentMonotone(PreservedHooks(t, ds), PreservedHooks(t.(hooks := t.hooks[n := HookEntry(true, target)]), ds), |ds|);
    PreservingASubagentNeverLowersCount(t, ds, n, target);
    PercentMonotone(PreservedSubagents(t, ds), PreservedSubagents(t.(subagents := t.subagents[n := SubagentEntry(true, target)]), ds), |ds|);
  }

  /** Deleting `security-patterns` and `code-quality-patterns`, both
      consolidated into `code-review-patterns`, preserves every skill. */
  lemma ConsolidatedSkillsScoreFull()
    ensures var ds := Deleted(Some(["security-patterns", "code-quality-patterns"]), Some([]));
            Percent(PreservedSkills(SourceTables, ds), |ds|) == 100.0
  {
    var pre := ["security-patterns", "code-quality-patterns"];
    DeletedIsSetDifference(Some(pre), Some([]));
    var ds := Deleted(Some(pre), Some([]));
    AllSkillsMapped(SourceTables, ds);
    assert |ds| > 0 by {
      assert "security-patterns" in ds;
    }
  }

  /** When the table maps every deleted skill, all of them count. */
  lemma {:induction false} AllSkillsMapped(t: Tables, ds: seq<string>)
    requires forall n :: n in ds ==> n in t.skills
    ensures PreservedSkills(t, ds) == |ds|
    decreases |ds|
  {
    if ds != [] {
      assert forall n :: n in ds[..|ds| - 1] ==> n in ds;
      AllSkillsMapped(t, ds[..|ds| - 1]);
    }
  }

  /** How many of `ds` the skill table finds as written, inherited members
      included. */
  function PreservedSkillsAsWritten(t: Tables, ds: seq<string>): (c: nat)
    ensures c <= |ds|
    ensures c >= PreservedSkills(t, ds)
  {
    if ds == [] then 0
    else PreservedSkillsAsWritten(t, ds[..|ds| - 1]) + (if ResolveSkillAsWritten(t, ds[|ds| - 1]).preserved then 1 else 0)
  }

  /** A deleted skill directory named `constructor`, which no table entry
      mentions, scores as fully preserved as written and as lost when only
      table keys count. */
  lemma ConstructorSkillCountsAsPreserved()
    ensures "constructor" !in SourceTables.skills
    ensures Percent(PreservedSkillsAsWritten(SourceTables, ["constructor"]), 1) == 100.0
    ensures Percent(PreservedSkills(SourceTables, ["constructor"]), 1) == 0.0
  {
    assert ["constructor"][..0] == [];
  }
}

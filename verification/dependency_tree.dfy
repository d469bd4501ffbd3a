/** The dependency tree (`buildDependencyTree` in
    scripts/analyze-skill-references.js): which workflows reference each
    skill and subagent, what the orchestrator as a whole references, and
    which inventoried skills no workflow references. */
module DependencyTree {
  import opened Collections
  import opened JsObjects
  import opened Inventory
  import opened References
  import opened Patterns

  /** The two kinds of reference a workflow carries. */
  datatype Kind = SkillRef | SubagentRef

  function NamesOf(w: WorkflowRefs, kind: Kind): seq<string> {
    match kind
    case SkillRef => w.skills
    case SubagentRef => w.subagents
  }

  /** Every reference of the given kind, workflow after workflow. */
  function AllNames(ws: seq<WorkflowRefs>, kind: Kind): (r: seq<string>)
    ensures forall n :: n in r <==> exists w :: w in ws && n in NamesOf(w, kind)
  {
    if ws == [] then []
    else
      var init := ws[..|ws| - 1];
      assert forall w :: w in ws <==> w in init || w == ws[|ws| - 1];
      AllNames(init, kind) + NamesOf(ws[|ws| - 1], kind)
  }

  /** The workflow names pushed onto the list of `n`: one push per
      occurrence of `n` in a workflow's list, in processing order. */
  function Referrers(ws: seq<WorkflowRefs>, kind: Kind, n: string): (r: seq<string>)
    ensures r == [] <==> n !in AllNames(ws, kind)
    ensures forall x :: x in r ==> exists w :: w in ws && x == w.name && n in NamesOf(w, kind)
  {
    if ws == [] then []
    else
      var init := ws[..|ws| - 1];
      var last := ws[|ws| - 1];
      assert forall w :: w in init ==> w in ws;
      Referrers(init, kind, n) + Repeat(last.name, Count(NamesOf(last, kind), n))
  }

  /** The names of the workflows whose list contains `n`, in processing order. */
  function Referencing(ws: seq<WorkflowRefs>, kind: Kind, n: string): seq<string> {
    if ws == [] then []
    else
      var last := ws[|ws| - 1];
      Referencing(ws[..|ws| - 1], kind, n) + (if n in NamesOf(last, kind) then [last.name] else [])
  }

  /** `tree.orchestrator.workflows`: each workflow's lists under its name. */
  function WorkflowMap(ws: seq<WorkflowRefs>): (r: map<string, WorkflowRefs>)
    ensures forall n :: n in r <==> exists w :: w in ws && w.name == n
  {
    if ws == [] then map[]
    else
      var init := ws[..|ws| - 1];
      assert forall w :: w in ws <==> w in init || w == ws[|ws| - 1];
      WorkflowMap(init)[ws[|ws| - 1].name := ws[|ws| - 1]]
  }

  /** `tree.orphaned.skills`: the inventory's skills that no workflow
      references, in inventory order. */
  function Orphans(skills: seq<Skill>, ws: seq<WorkflowRefs>): (r: seq<string>)
    ensures |r| <= |skills|
    ensures forall n :: n in r ==> n !in AllNames(ws, SkillRef)
  {
    if skills == [] then []
    else (if skills[0].name in AllNames(ws, SkillRef) then [] else [skills[0].name]) + Orphans(skills[1..], ws)
  }

  /** A name is orphaned exactly when it is an inventoried skill that no
      workflow references. */
  lemma {:induction false} OrphansAreUnreferenced(skills: seq<Skill>, ws: seq<WorkflowRefs>)
    ensures forall n :: n in Orphans(skills, ws) <==> n in Names(skills) && n !in AllNames(ws, SkillRef)
    decreases |skills|
  {
    if skills != [] {
      OrphansAreUnreferenced(skills[1..], ws);
      assert Names(skills) == [skills[0].name] + Names(skills[1..]);
    }
  }

  datatype Tree = Tree(
    workflows: map<string, WorkflowRefs>,
    orchestratorSkills: seq<string>,
    orchestratorSubagents: seq<string>,
    skills: map<string, seq<string>>,
    subagents: map<string, seq<string>>,
    orphanedSkills: seq<string>,
    orphanedSubagents: seq<string>)

  /** `if (tree.skills[name]) tree.skills[name].referencedIn.push(wf)` as
      written. `None` is the `TypeError` thrown when `name` is not an
      inventoried skill but names a member of `Object.prototype`: the lookup
      is truthy and the inherited member has no `referencedIn`. */
  function RecordSkillAsWritten(m: map<string, seq<string>>, name: string, wf: string): (r: Option<map<string, seq<string>>>)
    ensures r.None? <==> name !in m && name in PrototypeMembers
    ensures r.Some? ==> r.value == RecordSkill(m, name, wf)
  {
    if Truthy(m, name) then
      if name in m then Some(m[name := m[name] + [wf]]) else None
    else Some(m)
  }

  /** The intended step: `wf` is appended to the list of an inventoried
      skill, and any other name leaves the map as it was. */
  function RecordSkill(m: map<string, seq<string>>, name: string, wf: string): (r: map<string, seq<string>>)
    ensures r.Keys == m.Keys
    ensures forall k :: k in r ==> r[k] == m[k] + (if k == name then [wf] else [])
  {
    if name in m then m[name := m[name] + [wf]] else m
  }

  /** `if (!tree.subagents[name]) tree.subagents[name] = [];
      tree.subagents[name].push(wf)` as written. `None` is the `TypeError`
      thrown for a name of an `Object.prototype` member: the lookup is
      truthy, no list is created, and the inherited member has no `push`. */
  function RecordSubagentAsWritten(m: map<string, seq<string>>, name: string, wf: string): (r: Option<map<string, seq<string>>>)
    ensures r.None? <==> name !in m && name in PrototypeMembers
    ensures r.Some? ==> r.value == RecordSubagent(m, name, wf)
  {
    var m' := if !Truthy(m, name) then m[name := []] else m;
    if name in m' then Some(m'[name := m'[name] + [wf]]) else None
  }

  /** The intended step: the list of `name` is created when missing and
      `wf` appended to it. */
  function RecordSubagent(m: map<string, seq<string>>, name: string, wf: string): (r: map<string, seq<string>>)
    ensures r.Keys == m.Keys + {name}
    ensures forall k :: k in r ==> r[k] == Lookup(m, k) + (if k == name then [wf] else [])
  {
    m[name := Lookup(m, name) + [wf]]
  }

  /** The list stored under `k`, or the empty list. */
  function Lookup(m: map<string, seq<string>>, k: string): seq<string> {
    if k in m then m[k] else []
  }

  lemma CountSnoc(xs: seq<string>, x: string, n: string)
    ensures Count(xs + [x], n) == Count(xs, n) + (if x == n then 1 else 0)
  {
    assert (xs + [x])[..|xs|] == xs;
  }

  /** `m` is `m0` with `wf` recorded once per occurrence in `names` of each
      inventoried skill. */
  ghost predicate SkillsTracked(m0: map<string, seq<string>>, m: map<string, seq<string>>, wf: string, names: seq<string>) {
    m.Keys == m0.Keys &&
    forall k :: k in m ==> m[k] == m0[k] + Repeat(wf, Count(names, k))
  }

  /** `m` is `m0` with `wf` recorded once per occurrence in `names` of each
      subagent, lists created as needed. */
  ghost predicate SubagentsTracked(m0: map<string, seq<string>>, m: map<string, seq<string>>, wf: string, names: seq<string>) {
    (forall k :: k in m <==> k in m0 || k in names) &&
    forall k :: k in m ==> m[k] == Lookup(m0, k) + Repeat(wf, Count(names, k))
  }

  lemma SkillStep(m0: map<string, seq<string>>, m: map<string, seq<string>>, wf: string, names: seq<string>, name: string)
    requires SkillsTracked(m0, m, wf, names)
    ensures SkillsTracked(m0, RecordSkill(m, name, wf), wf, names + [name])
  {
    forall k | k in m {
      CountSnoc(names, name, k);
    }
  }

  lemma SubagentStep(m0: map<string, seq<string>>, m: map<string, seq<string>>, wf: string, names: seq<string>, name: string)
    requires SubagentsTracked(m0, m, wf, names)
    ensures SubagentsTracked(m0, RecordSubagent(m, name, wf), wf, names + [name])
  {
    var r := RecordSubagent(m, name, wf);
    var ns := names + [name];
    assert forall k :: k in ns <==> k in names || k == name;
    forall k | k in r ensures r[k] == Lookup(m0, k) + Repeat(wf, Count(ns, k)) {
      var old_k := if k in m then m[k] else [];
      assert old_k == Lookup(m0, k) + Repeat(wf, Count(names, k)) by {
        if k !in m {
          assert !(k in m0 || k in names);
        }
      }
      SubagentStepAt(old_k, Lookup(m0, k), wf, names, name, k);
    }
  }

  lemma SubagentStepAt(cur: seq<string>, base: seq<string>, wf: string, names: seq<string>, name: string, k: string)
    requires cur == base + Repeat(wf, Count(names, k))
    ensures cur + (if k == name then [wf] else []) == base + Repeat(wf, Count(names + [name], k))
  {
    CountSnoc(names, name, k);
    var c := Count(names, k);
    assert Repeat(wf, c + 1) == Repeat(wf, c) + [wf];
  }

  /** The inner loop over a workflow's skills: every name joins the
      orchestrator's Set, and inventoried skills record the workflow. */
  method TrackSkills(m0: map<string, seq<string>>, orch0: seq<string>, wf: string, names: seq<string>)
    returns (m: map<string, seq<string>>, orch: seq<string>)
    ensures orch == AddAll(orch0, names)
    ensures SkillsTracked(m0, m, wf, names)
  {
    m, orch := m0, orch0;
    for j := 0 to |names|
      invariant orch == AddAll(orch0, names[..j])
      invariant SkillsTracked(m0, m, wf, names[..j])
    {
      var name := names[j];
      assert names[..j + 1] == names[..j] + [name];
      AddAllSnoc(orch0, names[..j], name);
      SkillStep(m0, m, wf, names[..j], name);
      orch := Insert(orch, name);
      m := RecordSkill(m, name, wf);
    }
    assert names[..|names|] == names;
  }

  /** The inner loop over a workflow's subagents: every name joins the
      orchestrator's Set and records the workflow, its list created lazily. */
  method TrackSubagents(m0: map<string, seq<string>>, orch0: seq<string>, wf: string, names: seq<string>)
    returns (m: map<string, seq<string>>, orch: seq<string>)
    ensures orch == AddAll(orch0, names)
    ensures SubagentsTracked(m0, m, wf, names)
  {
    m, orch := m0, orch0;
    for j := 0 to |names|
      invariant orch == AddAll(orch0, names[..j])
      invariant SubagentsTracked(m0, m, wf, names[..j])
    {
      var name := names[j];
      assert names[..j + 1] == names[..j] + [name];
      AddAllSnoc(orch0, names[..j], name);
      SubagentStep(m0, m, wf, names[..j], name);
      orch := Insert(orch, name);
      m := RecordSubagent(m, name, wf);
    }
    assert names[..|names|] == names;
  }

  /** `tree.skills` after the workflows `ws`: an entry per inventoried skill,
      listing the workflows that referenced it. */
  ghost predicate SkillMapIs(m: map<string, seq<string>>, skills: seq<Skill>, ws: seq<WorkflowRefs>) {
    (forall k :: k in m <==> k in Names(skills)) &&
    forall k :: k in m ==> m[k] == Referrers(ws, SkillRef, k)
  }

  /** `tree.subagents` after the workflows `ws`: an entry per referenced
      subagent, listing the workflows that referenced it. */
  ghost predicate SubagentMapIs(m: map<string, seq<string>>, ws: seq<WorkflowRefs>) {
    (forall k :: k in m <==> k in AllNames(ws, SubagentRef)) &&
    forall k :: k in m ==> m[k] == Referrers(ws, SubagentRef, k)
  }

  /** One pass of the workflow loop: the maps after `ws[..i + 1]`. */
  lemma WorkflowStep(skills: seq<Skill>, ws: seq<WorkflowRefs>, i: nat,
                     sm: map<string, seq<string>>, sm': map<string, seq<string>>,
                     am: map<string, seq<string>>, am': map<string, seq<string>>)
    requires i < |ws|
    requires SkillMapIs(sm, skills, ws[..i]) && SkillsTracked(sm, sm', ws[i].name, ws[i].skills)
    requires SubagentMapIs(am, ws[..i]) && SubagentsTracked(am, am', ws[i].name, ws[i].subagents)
    ensures SkillMapIs(sm', skills, ws[..i + 1]) && SubagentMapIs(am', ws[..i + 1])
  {
    assert ws[..i + 1] == ws[..i] + [ws[i]];
    ReferrersSnoc(ws[..i], ws[i]);
    SkillMapStep(skills, ws[..i], ws[i], sm, sm');
    SubagentMapStep(ws[..i], ws[i], am, am');
  }

  lemma ReferrersSnoc(ws: seq<WorkflowRefs>, w: WorkflowRefs)
    ensures forall kind, n :: Referrers(ws + [w], kind, n) == Referrers(ws, kind, n) + Repeat(w.name, Count(NamesOf(w, kind), n))
    ensures forall kind :: AllNames(ws + [w], kind) == AllNames(ws, kind) + NamesOf(w, kind)
  {
    assert (ws + [w])[..|ws|] == ws;
  }

  lemma SkillMapStep(skills: seq<Skill>, ws: seq<WorkflowRefs>, w: WorkflowRefs, sm: map<string, seq<string>>, sm': map<string, seq<string>>)
    requires SkillMapIs(sm, skills, ws) && SkillsTracked(sm, sm', w.name, w.skills)
    requires forall n :: Referrers(ws + [w], SkillRef, n) == Referrers(ws, SkillRef, n) + Repeat(w.name, Count(w.skills, n))
    ensures SkillMapIs(sm', skills, ws + [w])
  {
  }

  lemma SubagentMapStep(ws: seq<WorkflowRefs>, w: WorkflowRefs, am: map<string, seq<string>>, am': map<string, seq<string>>)
    requires SubagentMapIs(am, ws) && SubagentsTracked(am, am', w.name, w.subagents)
    requires forall n :: Referrers(ws + [w], SubagentRef, n) == Referrers(ws, SubagentRef, n) + Repeat(w.name, Count(w.subagents, n))
    requires AllNames(ws + [w], SubagentRef) == AllNames(ws, SubagentRef) + w.subagents
    ensures SubagentMapIs(am', ws + [w])
  {
    forall k | k in am' ensures am'[k] == Referrers(ws + [w], SubagentRef, k) {
      if k !in am {
        assert k !in AllNames(ws, SubagentRef);
        assert Referrers(ws, SubagentRef, k) == [];
      }
    }
  }

  /** The loop that gives every inventoried skill an empty entry. */
  method InitSkillMap(skills: seq<Skill>) returns (m: map<string, seq<string>>)
    ensures SkillMapIs(m, skills, [])
  {
    m := map[];
    for i := 0 to |skills|
      invariant forall k :: k in m <==> k in Names(skills[..i])
      invariant forall k :: k in m ==> m[k] == []
    {
      assert Names(skills[..i + 1]) == Names(skills[..i]) + [skills[i].name];
      m := m[skills[i].name := []];
    }
    assert skills[..|skills|] == skills;
  }

  lemma OrphansStep(skills: seq<Skill>, ws: seq<WorkflowRefs>, i: nat)
    requires i < |skills|
    ensures Orphans(skills[i..], ws)
            == (if skills[i].name in AllNames(ws, SkillRef) then [] else [skills[i].name]) + Orphans(skills[i + 1..], ws)
  {
    assert skills[i..][1..] == skills[i + 1..] && skills[i..][0] == skills[i];
  }

  lemma OrphanLoopStep(skills: seq<Skill>, ws: seq<WorkflowRefs>, i: nat, orphans: seq<string>, unreferenced: bool)
    requires i < |skills| && unreferenced == (skills[i].name !in AllNames(ws, SkillRef))
    requires orphans + Orphans(skills[i..], ws) == Orphans(skills, ws)
    ensures (if unreferenced then orphans + [skills[i].name] else orphans) + Orphans(skills[i + 1..], ws)
            == Orphans(skills, ws)
  {
    OrphansStep(skills, ws, i);
    MoveHead(orphans, skills[i].name, unreferenced, Orphans(skills[i + 1..], ws));
  }

  /** Moving the head of the unvisited part to the end of the visited part. */
  lemma MoveHead(done: seq<string>, x: string, keep: bool, rest: seq<string>)
    ensures done + ((if keep then [x] else []) + rest) == (if keep then done + [x] else done) + rest
  {
    if !keep {
      assert [] + rest == rest;
    }
  }

  /** The loop that collects the skills whose `referencedIn` is empty. */
  method CollectOrphans(skills: seq<Skill>, ws: seq<WorkflowRefs>, m: map<string, seq<string>>) returns (orphans: seq<string>)
    requires SkillMapIs(m, skills, ws)
    ensures orphans == Orphans(skills, ws)
  {
    orphans := [];
    for i := 0 to |skills|
      invariant orphans + Orphans(skills[i..], ws) == Orphans(skills, ws)
    {
      var name := skills[i].name;
      assert Names(skills)[i] == name;
      assert m[name] == Referrers(ws, SkillRef, name);
      OrphanLoopStep(skills, ws, i, orphans, |m[name]| == 0);
      if |m[name]| == 0 {
        orphans := orphans + [name];
      }
    }
    assert skills[|skills|..] == [];
  }

  /** `buildDependencyTree(skills, workflows)`, with the workflows in the
      order `Object.entries` visits them. */
  method BuildDependencyTree(skills: seq<Skill>, ws: seq<WorkflowRefs>) returns (t: Tree)
    ensures t.workflows == WorkflowMap(ws)
    ensures t.orchestratorSkills == Dedup(AllNames(ws, SkillRef))
    ensures t.orchestratorSubagents == Dedup(AllNames(ws, SubagentRef))
    ensures forall k :: k in t.skills <==> k in Names(skills)
    ensures forall k :: k in t.skills ==> t.skills[k] == Referrers(ws, SkillRef, k)
    ensures forall k :: k in t.subagents <==> k in AllNames(ws, SubagentRef)
    ensures forall k :: k in t.subagents ==> t.subagents[k] == Referrers(ws, SubagentRef, k)
    ensures t.orphanedSkills == Orphans(skills, ws)
    ensures t.orphanedSubagents == []
  {
    var skillMap := InitSkillMap(skills);
    var workflows: map<string, WorkflowRefs> := map[];
    var orchSkills: seq<string> := [];
    var orchSubagents: seq<string> := [];
    var subagentMap: map<string, seq<string>> := map[];
    for i := 0 to |ws|
      invariant workflows == WorkflowMap(ws[..i])
      invariant orchSkills == Dedup(AllNames(ws[..i], SkillRef))
      invariant orchSubagents == Dedup(AllNames(ws[..i], SubagentRef))
      invariant SkillMapIs(skillMap, skills, ws[..i])
      invariant SubagentMapIs(subagentMap, ws[..i])
    {
      var w := ws[i];
      assert ws[..i + 1][..i] == ws[..i] && ws[..i + 1][i] == w;
      workflows := workflows[w.name := w];
      AddAllAppend([], AllNames(ws[..i], SkillRef), w.skills);
      AddAllAppend([], AllNames(ws[..i], SubagentRef), w.subagents);
      var skillMap', orchSkills' := TrackSkills(skillMap, orchSkills, w.name, w.skills);
      var subagentMap', orchSubagents' := TrackSubagents(subagentMap, orchSubagents, w.name, w.subagents);
      WorkflowStep(skills, ws, i, skillMap, skillMap', subagentMap, subagentMap');
      skillMap, orchSkills, subagentMap, orchSubagents := skillMap', orchSkills', subagentMap', orchSubagents';
    }
    assert ws[..|ws|] == ws;
    var orphans := CollectOrphans(skills, ws, skillMap);
    t := Tree(workflows, orchSkills, orchSubagents, skillMap, subagentMap, orphans, []);
  }

  /** With duplicate-free reference lists, as the extractors produce them,
      `referencedIn` lists exactly the workflows that reference the name,
      each once, in processing order. */
  lemma {:induction false} ReferrersAreReferencingWorkflows(ws: seq<WorkflowRefs>, kind: Kind, n: string)
    requires forall w :: w in ws ==> NoDuplicates(NamesOf(w, kind))
    ensures Referrers(ws, kind, n) == Referencing(ws, kind, n)
    decreases |ws|
  {
    if ws != [] {
      var last := ws[|ws| - 1];
      assert forall w :: w in ws[..|ws| - 1] ==> w in ws;
      ReferrersAreReferencingWorkflows(ws[..|ws| - 1], kind, n);
      CountInNoDuplicates(NamesOf(last, kind), n);
      if n in NamesOf(last, kind) {
        assert Repeat(last.name, 1) == [last.name];
      }
    }
  }

  /** An inventoried skill is orphaned exactly when the orchestrator's skill
      Set does not hold it: unknown names never make a skill referenced. */
  lemma OrphanedIffNotOrchestrated(skills: seq<Skill>, ws: seq<WorkflowRefs>)
    ensures forall n :: n in Orphans(skills, ws) <==> n in Names(skills) && n !in Dedup(AllNames(ws, SkillRef))
  {
    OrphansAreUnreferenced(skills, ws);
    AddAllMembers([], AllNames(ws, SkillRef));
  }

  /** A backticked `constructor` in a workflow is extracted as a skill name,
      and recording it for a tree whose inventory has no such skill throws. */
  lemma ConstructorReferenceThrows(m: map<string, seq<string>>, wf: string)
    requires "constructor" !in m
    ensures "constructor" in SkillReferences("`constructor`")
    ensures RecordSkillAsWritten(m, "constructor", wf) == None
  {
    var s := "`constructor`";
    var caps := Captures(s, 0, InlineCode);
    ConstructorCaptured();
    ConstructorIsNoStopWord();
    assert "constructor" in Keep(caps, StopWords);
    AddAllMembers([], Keep(caps, StopWords));
    AddAllMembers(Dedup(Keep(caps, StopWords)), Captures(s, 0, LoadPhrase));
  }

  lemma ConstructorIsNoStopWord()
    ensures "constructor" !in StopWords
  {
    assert forall w :: w in StopWords ==> |w| <= 9;
  }

  lemma ConstructorCaptured()
    ensures "constructor" in Captures("`constructor`", 0, InlineCode)
  {
    var s := "`constructor`";
    assert s == "" + "`" + "constructor" + "`" + "";
    BacktickSpan("", "constructor", "", Kebab);
    FirstMatchIs(s, 0, 0, InlineCode);
    assert Captures(s, 0, InlineCode)[0] == "constructor";
  }

  const TaskToString: string := "Task(subagent_type=\"toString\")"

  /** `Task(subagent_type="toString")` names the subagent `toString`, and
      recording it throws. */
  lemma InheritedSubagentNameThrows(m: map<string, seq<string>>, wf: string)
    requires "toString" !in m
    ensures WellFormedCapture(TaskCall, "toString")
    ensures "toString" in SubagentReferences(TaskToString)
    ensures RecordSubagentAsWritten(m, "toString", wf) == None
  {
    TaskToStringMatch();
    FirstMatchIs(TaskToString, 0, 0, TaskCall);
    assert Captures(TaskToString, 0, TaskCall)[0] == "toString";
  }

  lemma TaskToStringMatch()
    ensures MatchAt(TaskToString, 0, TaskCall) == Some(Match("toString", 29))
  {
    var s := TaskToString;
    assert forall i :: 0 <= i < 5 ==> FoldCase(s[i]) == "task("[i];
    LiteralAtIs(s, 0, "task(");
    assert |s| == 30 && s[29] == ')';
    assert forall j :: 5 <= j < 29 ==> s[j] != ')';
    assert CloseParen(s, 5) == 29;
    TaskArgument();
  }

  lemma TaskArgument()
    ensures SubagentArgument(TaskToString, 5, 29, 29) == Some(Match("toString", 29))
  {
    var s := TaskToString;
    NoSubagentAfterTask();
    SubagentArgumentSkips(s, 5, 5, 29, 29);
    SubagentAtTask();
    TaskQuotedName();
  }

  lemma NoSubagentAfterTask()
    ensures forall j :: 5 < j < 29 ==> !(j + 8 <= 29 && LiteralAt(TaskToString, j, "subagent"))
  {
    var s := TaskToString;
    assert forall j :: 5 < j < 22 ==> FoldCase(s[j]) != 's';
  }

  lemma SubagentAtTask()
    ensures LiteralAt(TaskToString, 5, "subagent")
  {
    var s := TaskToString;
    assert |s| == 30;
    assert forall i :: 0 <= i < 8 ==> FoldCase(s[5 + i]) == "subagent"[i];
    LiteralAtIs(s, 5, "subagent");
  }

  lemma TaskQuotedName()
    ensures LastQuotedName(TaskToString, 13, 29) == Some(Match("toString", 29))
  {
    var s := TaskToString;
    assert forall q :: 20 <= q < 28 ==> InClass(LettersIgnoreCase, s[q]) && !IsDelimiter(s[q], true);
    RunEndIs(s, 29, 29, LettersIgnoreCase);
    LastQuotedNameSkips(s, 13, 19, 29);
    RunEndIs(s, 20, 28, LettersIgnoreCase);
    assert s[20..28] == "toString";
  }

  /** The intended steps never fail: a name that is not an inventoried skill
      leaves `tree.skills` unchanged, and any subagent name gets its list. */
  lemma RecordingIsTotal(m: map<string, seq<string>>, name: string, wf: string)
    ensures name !in m ==> RecordSkill(m, name, wf) == m
    ensures name in RecordSubagent(m, name, wf) && RecordSubagent(m, name, wf)[name] == Lookup(m, name) + [wf]
  {
  }
}

/** The fifteen-parameter comparison (`measureAllParameters` in
    scripts/measure-all-parameters.js): one score per parameter, from the
    pre- and post-refactor metrics records and a few facts about the
    checked-out repository, and their weighted sum.

    The file-system facts are parameters: whether `docs/` and the
    shared-patterns directory exist, the README text (`None` when it is
    missing), the workflows directory listing with each file's text
    (`None` when it is missing), the skills directory listing, and the
    orchestrator's `SKILL.md` text. */
module Parameters {
  import opened Collections
  import opened Numeric
  import opened Metrics
  import opened References
  import opened Inventory
  import opened CodeVolume
  import opened Tokens
  import opened Functionality
  import opened Integration

  // ---------------------------------------------------------------------
  // Text searches

  /** `t` occurs in `s` at `i`. */
  predicate OccursAt(s: string, t: string, i: nat) {
    i + |t| <= |s| && s[i..i + |t|] == t
  }

  /** `s.includes(t)`. */
  predicate Contains(s: string, t: string) {
    exists i: nat :: i <= |s| && OccursAt(s, t, i)
  }

  /** The empty text (a missing README) contains no non-empty word. */
  lemma EmptyContainsNothing(t: string)
    requires |t| > 0
    ensures !Contains("", t)
  {
  }

  /** `parallel` or `Parallel` starts at `i`. */
  predicate ParallelAt(s: string, i: nat) {
    i + 8 <= |s| && (s[i..i + 8] == "parallel" || s[i..i + 8] == "Parallel")
  }

  /** `(s.match(/parallel|Parallel/g) || []).length` from position `i`: the
      leftmost occurrence counts and the search resumes after it. */
  function ParallelMatches(s: string, i: nat): (n: nat)
    requires i <= |s|
    ensures n * 8 <= |s| - i
    decreases |s| - i
  {
    if i + 8 > |s| then 0
    else if ParallelAt(s, i) then 1 + ParallelMatches(s, i + 8)
    else ParallelMatches(s, i + 1)
  }

  /** The global match finds something exactly when the word occurs. */
  lemma {:induction false} ParallelFound(s: string, i: nat)
    requires i <= |s|
    ensures ParallelMatches(s, i) > 0 <==> exists j :: i <= j && ParallelAt(s, j)
    decreases |s| - i
  {
    if i + 8 > |s| {
      assert forall j :: i <= j ==> !ParallelAt(s, j);
    } else if !ParallelAt(s, i) {
      ParallelFound(s, i + 1);
      assert forall j :: i <= j && ParallelAt(s, j) ==> i + 1 <= j;
    }
  }

  /** The matches summed over the markdown files of a listing. */
  function ParallelTotal(files: seq<WorkflowFile>): (n: nat)
    ensures (forall i :: 0 <= i < |files| ==> !IsMarkdown(files[i].fileName)) ==> n == 0
  {
    if files == [] then 0
    else
      var f := files[|files| - 1];
      ParallelTotal(files[..|files| - 1]) + (if IsMarkdown(f.fileName) then ParallelMatches(f.content, 0) else 0)
  }

  /** The total is positive exactly when some markdown file mentions the
      word. */
  lemma {:induction false} ParallelTotalPositive(files: seq<WorkflowFile>)
    ensures ParallelTotal(files) > 0 <==>
            exists f :: f in files && IsMarkdown(f.fileName) && exists j :: ParallelAt(f.content, j)
    decreases |files|
  {
    if files != [] {
      var init, f := files[..|files| - 1], files[|files| - 1];
      ParallelTotalPositive(init);
      ParallelFound(f.content, 0);
      assert forall g :: g in files <==> g in init || g == f;
    }
  }

  /** The scan of the workflows directory for parallel execution. */
  method ScanParallel(dir: Option<seq<WorkflowFile>>) returns (has: bool, count: nat)
    ensures count == (if dir.Some? then ParallelTotal(dir.value) else 0)
    ensures has <==> count > 0
  {
    has, count := false, 0;
    if dir.Some? {
      var files := dir.value;
      for i := 0 to |files|
        invariant count == ParallelTotal(files[..i])
        invariant has <==> count > 0
      {
        assert files[..i + 1][..i] == files[..i];
        var file := files[i];
        if IsMarkdown(file.fileName) {
          var matches := ParallelMatches(file.content, 0);
          if matches > 0 {
            has := true;
            count := count + matches;
          }
        }
      }
      assert files[..|files|] == files;
    }
  }

  /** A workflow text that talks about errors or failures. */
  predicate MentionsFailure(content: string)
    ensures MentionsFailure(content) ==> |content| >= 5
  {
    Contains(content, "error") || Contains(content, "Error") || Contains(content, "failure") || Contains(content, "Failure")
  }

  /** The scan of the workflows directory for error handling, which stops at
      the first markdown file that mentions failure. */
  method DetectErrorHandling(dir: Option<seq<WorkflowFile>>) returns (has: bool)
    ensures has <==> dir.Some? && exists f :: f in dir.value && IsMarkdown(f.fileName) && MentionsFailure(f.content)
  {
    has := false;
    if dir.Some? {
      var files := dir.value;
      for i := 0 to |files|
        invariant !has
        invariant forall k :: 0 <= k < i ==> !(IsMarkdown(files[k].fileName) && MentionsFailure(files[k].content))
      {
        var file := files[i];
        if IsMarkdown(file.fileName) && MentionsFailure(file.content) {
          has := true;
          break;
        }
      }
      if !has {
        forall f | f in files ensures !(IsMarkdown(f.fileName) && MentionsFailure(f.content)) {
          var k :| 0 <= k < |files| && files[k] == f;
        }
      }
    }
  }

  // ---------------------------------------------------------------------
  // Per-parameter scores

  /** Parameter 1: a step function of the line-count reduction. */
  function CodeVolumeScore(volumeReduction: real): (s: real)
    ensures 75.0 <= s <= 90.0
    ensures volumeReduction >= 25.0 ==> s == 90.0
    ensures volumeReduction < 15.0 ==> s == 75.0
  {
    if volumeReduction >= 25.0 then 90.0
    else if volumeReduction >= 20.0 then 85.0
    else if volumeReduction >= 15.0 then 80.0
    else 75.0
  }

  lemma CodeVolumeScoreMonotone(a: real, b: real)
    requires a <= b
    ensures CodeVolumeScore(a) <= CodeVolumeScore(b)
  {
  }

  /** Parameter 3: 50 plus the token efficiency, capped at 100 above and at
      0 below. */
  function TokenScore(efficiency: real): (s: real)
    ensures 0.0 <= s <= 100.0
  {
    if efficiency > 0.0 then Min(100.0, 50.0 + efficiency)
    else Max(0.0, 50.0 - Abs(efficiency))
  }

  /** Both branches are one clamp of `50 + efficiency`. */
  lemma TokenScoreIsClamp(efficiency: real)
    ensures TokenScore(efficiency) == Clamp100(50.0 + efficiency)
  {
  }

  /** Parameter 4's ratio: post skills as a percentage of pre skills, 100
      when there were none. */
  function ConsolidationRatio(preSkills: nat, postSkills: nat): (r: real)
    ensures preSkills == 0 ==> r == 100.0
    ensures 0.0 <= r
    ensures postSkills <= preSkills ==> r <= 100.0
  {
    if preSkills > 0 then RatioPercent(postSkills, preSkills) else 100.0
  }

  /** A `docs/` directory, or a README that mentions skills. */
  predicate HasSkillCatalog(docsExists: bool, readme: Option<string>)
    ensures docsExists ==> HasSkillCatalog(docsExists, readme)
    ensures readme.None? ==> (HasSkillCatalog(docsExists, readme) <==> docsExists)
  {
    docsExists || (readme.Some? && Contains(readme.value, "skill"))
  }

  /** The unclamped discoverability: falls from 100 to 75 as the ratio
      rises to 50, then climbs again. */
  function DiscoverabilityBase(ratio: real): (d: real)
    ensures 0.0 <= ratio <= 100.0 ==> 75.0 <= d <= 100.0
  {
    if ratio < 50.0 then 100.0 - ratio * 0.5 else 50.0 + ratio * 0.5
  }

  /** Keeping every skill scores as well as consolidating them all away:
      the base is symmetric about a ratio of 50. */
  lemma DiscoverabilitySymmetric(ratio: real)
    requires 0.0 <= ratio <= 100.0 && ratio != 50.0
    ensures DiscoverabilityBase(ratio) == DiscoverabilityBase(100.0 - ratio)
  {
  }

  /** Parameter 4. */
  function DiscoverabilityScore(ratio: real, catalog: bool): (s: real)
    ensures 0.0 <= s <= 100.0
  {
    var raw := Clamp100(DiscoverabilityBase(ratio) + (if catalog then 5.0 else 0.0));
    Round2Percent(raw);
    Round2(raw)
  }

  /** PATTERNS.md files as a maintainability bonus. */
  function PatternsBonus(patternsFiles: nat): (b: real)
    ensures 0.0 <= b <= 15.0
  {
    if patternsFiles >= 4 then 15.0 else if patternsFiles >= 2 then 10.0 else 0.0
  }

  /** Parameter 6. */
  function MaintainabilityScore(volumeReduction: real, shared: bool, patternsFiles: nat): (s: real)
    ensures 0.0 <= s <= 100.0
  {
    Clamp100(Round2(volumeReduction * 0.4 + 35.0 + (if shared then 30.0 else 0.0) + PatternsBonus(patternsFiles)))
  }

  /** A larger line-count reduction never lowers maintainability. */
  lemma MaintainabilityMonotone(a: real, b: real, shared: bool, patternsFiles: nat)
    requires a <= b
    ensures MaintainabilityScore(a, shared, patternsFiles) <= MaintainabilityScore(b, shared, patternsFiles)
  {
    var bonus := 35.0 + (if shared then 30.0 else 0.0) + PatternsBonus(patternsFiles);
    Round2Monotone(a * 0.4 + bonus, b * 0.4 + bonus);
  }

  /** What the README offers a developer. */
  datatype ReadmeFlags = ReadmeFlags(quickStart: bool, examples: bool, workflowDocs: bool)

  /** The flags of the README text, `""` when there is none. */
  function ReadmeFlagsOf(readme: Option<string>): (f: ReadmeFlags)
    ensures readme.None? ==> f == ReadmeFlags(false, false, false)
  {
    var text := readme.GetOr("");
    EmptyContainsNothing("Quick Start");
    EmptyContainsNothing("Example");
    EmptyContainsNothing("workflow");
    EmptyContainsNothing("Workflow");
    ReadmeFlags(Contains(text, "Quick Start"), Contains(text, "Example"),
                Contains(text, "workflow") || Contains(text, "Workflow"))
  }

  /** Parameter 7. */
  function DeveloperExperienceScore(skillsReduction: real, f: ReadmeFlags): (s: real)
    ensures 0.0 <= s <= 100.0
  {
    Clamp100(Round2(skillsReduction * 0.3 + 50.0
                    + (if f.quickStart then 20.0 else 0.0)
                    + (if f.examples then 10.0 else 0.0)
                    + (if f.workflowDocs then 5.0 else 0.0)))
  }

  /** A larger skill-count reduction never lowers the developer experience. */
  lemma DeveloperExperienceMonotone(a: real, b: real, f: ReadmeFlags)
    requires a <= b
    ensures DeveloperExperienceScore(a, f) <= DeveloperExperienceScore(b, f)
  {
    var bonus := 50.0 + (if f.quickStart then 20.0 else 0.0) + (if f.examples then 10.0 else 0.0)
                 + (if f.workflowDocs then 5.0 else 0.0);
    Round2Monotone(a * 0.3 + bonus, b * 0.3 + bonus);
  }

  /** Parameter 8's bonus for parallel execution. */
  function ParallelBonus(count: nat, has: bool): (b: real)
    ensures has == (count > 0) ==> (b == 0.0 <==> count == 0)
  {
    if count >= 40 then 30.0 else if count >= 20 then 25.0 else if has then 20.0 else 0.0
  }

  /** More mentions of parallel execution never lower the bonus. */
  lemma ParallelBonusMonotone(a: nat, b: nat)
    requires a <= b
    ensures ParallelBonus(a, a > 0) <= ParallelBonus(b, b > 0)
  {
  }

  /** Parameter 8. */
  function PerformanceScore(skillsReduction: real, volumeReduction: real, count: nat, has: bool, shared: bool): (s: real)
    ensures 0.0 <= s <= 100.0
  {
    var codeReductionBonus := if volumeReduction >= 25.0 then 12.0 else if volumeReduction >= 20.0 then 8.0 else 0.0;
    Clamp100(Round2(skillsReduction * 0.38 + 40.0 + ParallelBonus(count, has) + codeReductionBonus
                    + (if shared then 3.0 else 0.0)))
  }

  /** Larger reductions and more mentions of parallel execution never lower
      the performance score. */
  lemma PerformanceMonotone(sa: real, sb: real, va: real, vb: real, ca: nat, cb: nat, shared: bool)
    requires sa <= sb && va <= vb && ca <= cb
    ensures PerformanceScore(sa, va, ca, ca > 0, shared) <= PerformanceScore(sb, vb, cb, cb > 0, shared)
  {
    var ra := if va >= 25.0 then 12.0 else if va >= 20.0 then 8.0 else 0.0;
    var rb := if vb >= 25.0 then 12.0 else if vb >= 20.0 then 8.0 else 0.0;
    var s := if shared then 3.0 else 0.0;
    ParallelBonusMonotone(ca, cb);
    Round2Monotone(sa * 0.38 + 40.0 + ParallelBonus(ca, ca > 0) + ra + s,
                   sb * 0.38 + 40.0 + ParallelBonus(cb, cb > 0) + rb + s);
  }

  /** Parameter 9. */
  function ExtensibilityScore(ratio: real, shared: bool, patternsFiles: nat): (s: real)
    ensures 70.0 <= s <= 100.0
    ensures ratio < 50.0 ==> 80.0 <= s
  {
    var base := if ratio < 50.0 then 80 else 70;
    var total := base + (if shared then 20 else 0) + (if patternsFiles >= 4 then 10 else 0);
    Round2Whole(total);
    Min(100.0, Round2(total as real))
  }

  /** Parameter 10's structure counts: the post count takes its PATTERNS.md
      count from the pre-refactor record. */
  function StructureFiles(pre: Metrics, post: Metrics): (counts: (nat, nat))
    ensures counts.0 == pre.patternsMdCount.GetOr(0) + pre.referenceMdCount.GetOr(0)
  {
    (pre.patternsMdCount.GetOr(0) + pre.referenceMdCount.GetOr(0),
     pre.patternsMdCount.GetOr(0) + post.referenceMdCount.GetOr(0))
  }

  /** The post-refactor PATTERNS.md count never reaches the post structure
      count, and with the same reference count both counts agree. */
  lemma StructureIgnoresPostPatterns(pre: Metrics, post: Metrics, patterns: Option<nat>)
    ensures StructureFiles(pre, post.(patternsMdCount := patterns)) == StructureFiles(pre, post)
    ensures post.referenceMdCount == pre.referenceMdCount ==> StructureFiles(pre, post).1 == StructureFiles(pre, post).0
  {
  }

  /** Parameter 10. */
  function ConsistencyScore(shared: bool): (s: real)
    ensures s == 85.0 || s == 92.0
    ensures s == 92.0 <==> shared
  {
    var total := 85 + (if shared then 7 else 0);
    Round2Whole(total);
    Round2(total as real)
  }

  /** Parameter 11's documentation files of one record. */
  function DocFiles(m: Metrics): (n: nat)
    ensures n >= m.skillMdCount
    ensures m.patternsMdCount.None? && m.referenceMdCount.None? ==> n == m.skillMdCount
  {
    m.skillMdCount + m.patternsMdCount.GetOr(0) + m.referenceMdCount.GetOr(0)
  }

  /** `preDocFiles > 0 ? postDocFiles / preDocFiles : 1`. */
  function DocRatio(pre: Metrics, post: Metrics): (r: real)
    ensures 0.0 <= r
    ensures DocFiles(pre) == 0 || DocFiles(post) == DocFiles(pre) ==> r == 1.0
  {
    if DocFiles(pre) > 0 then
      DivMonotone(0.0, DocFiles(post) as real, DocFiles(pre) as real);
      DivSelf(DocFiles(pre) as real);
      DocFiles(post) as real / DocFiles(pre) as real
    else 1.0
  }

  /** Parameter 11. */
  function DocumentationScore(docRatio: real, patternsFiles: nat, shared: bool, f: ReadmeFlags): (s: real)
    ensures 0.0 <= s <= 100.0
  {
    var patternsDocBonus := if patternsFiles >= 4 then 18.0 else if patternsFiles >= 2 then 12.0 else 0.0;
    var sharedDocBonus := if shared then 12.0 else 0.0;
    var readmeDocBonus := if f.quickStart && f.examples then 5.0 else 0.0;
    Clamp100(Round2((docRatio * 0.55 + 0.25 + patternsDocBonus / 100.0 + sharedDocBonus / 100.0
                     + readmeDocBonus / 100.0) * 100.0))
  }

  /** Keeping more documentation files never lowers the documentation score. */
  lemma DocumentationMonotone(a: real, b: real, patternsFiles: nat, shared: bool, f: ReadmeFlags)
    requires a <= b
    ensures DocumentationScore(a, patternsFiles, shared, f) <= DocumentationScore(b, patternsFiles, shared, f)
  {
    var bonus := (if patternsFiles >= 4 then 18.0 else if patternsFiles >= 2 then 12.0 else 0.0) / 100.0
                 + (if shared then 12.0 else 0.0) / 100.0
                 + (if f.quickStart && f.examples then 5.0 else 0.0) / 100.0;
    Round2Monotone((a * 0.55 + 0.25 + bonus) * 100.0, (b * 0.55 + 0.25 + bonus) * 100.0);
  }

  /** Unchanged documentation and no bonus scores 80. */
  lemma UnchangedDocumentationScores80(pre: Metrics, f: ReadmeFlags)
    requires !(f.quickStart && f.examples)
    ensures DocumentationScore(DocRatio(pre, pre), 0, false, f) == 80.0
  {
    assert (1.0 * 0.55 + 0.25 + 0.0 / 100.0 + 0.0 / 100.0 + 0.0 / 100.0) * 100.0 == 80 as real;
    Round2Whole(80);
  }

  /** Parameter 12. */
  function ErrorHandlingScore(has: bool): (s: real)
    ensures s == 85.0 || s == 92.0
    ensures s == 92.0 <==> has
  {
    Min(100.0, 85.0 + (if has then 7.0 else 0.0))
  }

  /** Parameter 13. */
  function WorkflowEfficiencyScore(skillsReduction: real, volumeReduction: real, count: nat, has: bool): (s: real)
    ensures 0.0 <= s <= 100.0
  {
    var efficiencyBonus := if count >= 40 then 32.0 else if count >= 20 then 27.0 else if has then 22.0 else 0.0;
    var codeReductionBonus := if volumeReduction >= 25.0 then 3.0 else 0.0;
    Clamp100(Round2(skillsReduction * 0.32 + 50.0 + efficiencyBonus + codeReductionBonus))
  }

  /** Larger reductions and more mentions of parallel execution never lower
      the workflow efficiency. */
  lemma WorkflowEfficiencyMonotone(sa: real, sb: real, va: real, vb: real, ca: nat, cb: nat)
    requires sa <= sb && va <= vb && ca <= cb
    ensures WorkflowEfficiencyScore(sa, va, ca, ca > 0) <= WorkflowEfficiencyScore(sb, vb, cb, cb > 0)
  {
    var ea := if ca >= 40 then 32.0 else if ca >= 20 then 27.0 else if ca > 0 then 22.0 else 0.0;
    var eb := if cb >= 40 then 32.0 else if cb >= 20 then 27.0 else if cb > 0 then 22.0 else 0.0;
    var ra := if va >= 25.0 then 3.0 else 0.0;
    var rb := if vb >= 25.0 then 3.0 else 0.0;
    Round2Monotone(sa * 0.32 + 50.0 + ea + ra, sb * 0.32 + 50.0 + eb + rb);
  }

  /** Parameter 14, fixed. */
  const TestCoverageScore: real := 90.0

  /** Parameter 15. */
  function ArchitectureScore(ratio: real, shared: bool, patternsFiles: nat): (s: real)
    ensures 75.0 <= s <= 100.0
    ensures ratio < 50.0 ==> 90.0 <= s
  {
    var base := if ratio < 50.0 then 90 else 75;
    var total := base + (if shared then 20 else 0) + (if patternsFiles >= 4 then 5 else 0);
    Round2Whole(total);
    Min(100.0, Round2(total as real))
  }

  // ---------------------------------------------------------------------
  // The weighted sum

  /** The weight of each parameter, in the order the sum visits them. */
  const WeightTable: seq<(string, real)> := [
    ("code_volume", 0.05),
    ("functionality_preservation", 0.2),
    ("token_efficiency", 0.1),
    ("discoverability", 0.08),
    ("integration_completeness", 0.15),
    ("maintainability", 0.08),
    ("developer_experience", 0.07),
    ("performance", 0.05),
    ("extensibility", 0.04),
    ("consistency", 0.03),
    ("documentation_quality", 0.05),
    ("error_handling", 0.03),
    ("workflow_efficiency", 0.04),
    ("test_coverage", 0.02),
    ("architectural_quality", 0.01)
  ]

  function TotalWeight(table: seq<(string, real)>): real {
    if table == [] then 0.0 else TotalWeight(table[..|table| - 1]) + table[|table| - 1].1
  }

  predicate NonNegativeWeights(table: seq<(string, real)>) {
    forall i :: 0 <= i < |table| ==> table[i].1 >= 0.0
  }

  lemma WeightsSumToOne()
    ensures TotalWeight(WeightTable) == 1.0
    ensures NonNegativeWeights(WeightTable)
  {
    var t := WeightTable;
    assert t[..0] == [];
    TotalWeightStep(t, 0);
    TotalWeightStep(t, 1);
    TotalWeightStep(t, 2);
    TotalWeightStep(t, 3);
    TotalWeightStep(t, 4);
    TotalWeightStep(t, 5);
    TotalWeightStep(t, 6);
    TotalWeightStep(t, 7);
    TotalWeightStep(t, 8);
    TotalWeightStep(t, 9);
    TotalWeightStep(t, 10);
    TotalWeightStep(t, 11);
    TotalWeightStep(t, 12);
    TotalWeightStep(t, 13);
    TotalWeightStep(t, 14);
    assert t[..15] == t;
  }

  lemma TotalWeightStep(table: seq<(string, real)>, k: nat)
    requires k < |table|
    ensures TotalWeight(table[..k + 1]) == TotalWeight(table[..k]) + table[k].1
  {
    assert table[..k + 1][..k] == table[..k];
  }

  /** The sum over the parameters that have a score. */
  function WeightedSum(scores: map<string, real>, table: seq<(string, real)>): (r: real)
    ensures scores == map[] ==> r == 0.0
  {
    if table == [] then 0.0
    else
      var (name, weight) := table[|table| - 1];
      WeightedSum(scores, table[..|table| - 1]) + (if name in scores then scores[name] * weight else 0.0)
  }

  /** A parameter without a result adds nothing, whatever its weight. */
  lemma {:induction false} UnscoredAddNothing(scores: map<string, real>, table: seq<(string, real)>)
    requires forall i :: 0 <= i < |table| ==> table[i].0 !in scores
    ensures WeightedSum(scores, table) == 0.0
    decreases |table|
  {
    if table != [] {
      var init := table[..|table| - 1];
      assert forall i :: 0 <= i < |init| ==> init[i] == table[i];
      UnscoredAddNothing(scores, init);
    }
  }

  /** With non-negative weights and scores in [0, 100], the weighted sum lies
      between 0 and 100 times the total weight. */
  lemma {:induction false} WeightedSumBounds(scores: map<string, real>, table: seq<(string, real)>)
    requires NonNegativeWeights(table)
    requires forall p :: p in scores ==> 0.0 <= scores[p] <= 100.0
    ensures 0.0 <= WeightedSum(scores, table) <= 100.0 * TotalWeight(table)
    decreases |table|
  {
    if table != [] {
      var (name, weight) := table[|table| - 1];
      WeightedSumBounds(scores, table[..|table| - 1]);
      if name in scores {
        var x := scores[name];
        if weight > 0.0 {
          MulNonnegative(x, weight);
          MulNonnegative(100.0 - x, weight);
          assert (100.0 - x) * weight == 100.0 * weight - x * weight;
        }
      }
    }
  }

  /** The loop over the weight table. */
  method OverallScore(scores: map<string, real>) returns (overall: real)
    ensures overall == Round2(WeightedSum(scores, WeightTable))
    ensures (forall p :: p in scores ==> 0.0 <= scores[p] <= 100.0) ==> 0.0 <= overall <= 100.0
  {
    var sum := 0.0;
    for i := 0 to |WeightTable|
      invariant sum == WeightedSum(scores, WeightTable[..i])
    {
      assert WeightTable[..i + 1][..i] == WeightTable[..i];
      var (param, weight) := WeightTable[i];
      if param in scores {
        sum := sum + scores[param] * weight;
      }
    }
    assert WeightTable[..|WeightTable|] == WeightTable;
    overall := Round2(sum);
    if forall p :: p in scores ==> 0.0 <= scores[p] <= 100.0 {
      WeightsSumToOne();
      WeightedSumBounds(scores, WeightTable);
      Round2Percent(sum);
    }
  }

  /** Fifteen equal scores sum to that score. */
  lemma {:induction false} UniformScores(scores: map<string, real>, table: seq<(string, real)>, c: real)
    requires forall i :: 0 <= i < |table| ==> table[i].0 in scores && scores[table[i].0] == c
    ensures WeightedSum(scores, table) == c * TotalWeight(table)
    decreases |table|
  {
    if table != [] {
      UniformScores(scores, table[..|table| - 1], c);
    }
  }

  // ---------------------------------------------------------------------
  // All parameters

  /** The fifteen scores. */
  datatype ScoreCard = ScoreCard(
    codeVolume: real, functionality: real, tokenEfficiency: real, discoverability: real,
    integration: real, maintainability: real, developerExperience: real, performance: real,
    extensibility: real, consistency: real, documentation: real, errorHandling: real,
    workflowEfficiency: real, testCoverage: real, architecture: real)

  /** The scores in weight-table order. */
  function ScoreList(c: ScoreCard): (xs: seq<real>)
    ensures |xs| == |WeightTable|
  {
    [c.codeVolume, c.functionality, c.tokenEfficiency, c.discoverability, c.integration, c.maintainability,
     c.developerExperience, c.performance, c.extensibility, c.consistency, c.documentation, c.errorHandling,
     c.workflowEfficiency, c.testCoverage, c.architecture]
  }

  /** Each parameter name of `table` mapped to its score in `xs`. */
  function Assoc(table: seq<(string, real)>, xs: seq<real>): map<string, real>
    requires |xs| == |table|
  {
    if table == [] then map[]
    else Assoc(table[..|table| - 1], xs[..|xs| - 1])[table[|table| - 1].0 := xs[|xs| - 1]]
  }

  /** `results[param].score` for each parameter. */
  function ScoreMap(c: ScoreCard): map<string, real> {
    Assoc(WeightTable, ScoreList(c))
  }

  /** Every parameter of the table has a score, and every score is one of
      the given ones. */
  lemma {:induction false} AssocEntries(table: seq<(string, real)>, xs: seq<real>)
    requires |xs| == |table|
    ensures Assoc(table, xs).Keys == set e | e in table :: e.0
    ensures forall p :: p in Assoc(table, xs) ==> Assoc(table, xs)[p] in xs
    decreases |table|
  {
    if table != [] {
      var init, last := table[..|table| - 1], table[|table| - 1];
      AssocEntries(init, xs[..|xs| - 1]);
      assert forall e :: e in table <==> e in init || e == last;
      assert forall x :: x in xs[..|xs| - 1] ==> x in xs;
    }
  }

  predicate InRange(x: real) { 0.0 <= x <= 100.0 }

  /** A score card whose scores all lie in [0, 100]. */
  predicate CardInRange(c: ScoreCard) {
    InRange(c.codeVolume) && InRange(c.functionality) && InRange(c.tokenEfficiency) && InRange(c.discoverability)
    && InRange(c.integration) && InRange(c.maintainability) && InRange(c.developerExperience)
    && InRange(c.performance) && InRange(c.extensibility) && InRange(c.consistency) && InRange(c.documentation)
    && InRange(c.errorHandling) && InRange(c.workflowEfficiency) && InRange(c.testCoverage) && InRange(c.architecture)
  }

  lemma CardListInRange(c: ScoreCard)
    requires CardInRange(c)
    ensures forall i :: 0 <= i < |WeightTable| ==> InRange(ScoreList(c)[i])
  {
  }

  /** Every parameter has a score, and with every score in [0, 100] the
      map's scores are too. */
  lemma ScoreMapEntries(c: ScoreCard)
    ensures ScoreMap(c).Keys == set e | e in WeightTable :: e.0
    ensures (forall i :: 0 <= i < |WeightTable| ==> InRange(ScoreList(c)[i])) ==>
              forall p :: p in ScoreMap(c) ==> InRange(ScoreMap(c)[p])
  {
    AssocEntries(WeightTable, ScoreList(c));
  }

  /** With every score of the card in [0, 100], so is the overall score. */
  lemma CardOverallInRange(c: ScoreCard)
    requires CardInRange(c)
    ensures 0.0 <= Round2(WeightedSum(ScoreMap(c), WeightTable)) <= 100.0
  {
    CardListInRange(c);
    ScoreMapEntries(c);
    WeightsSumToOne();
    WeightedSumBounds(ScoreMap(c), WeightTable);
    Round2Percent(WeightedSum(ScoreMap(c), WeightTable));
  }

  /** What the comparison reads from the checked-out repository. */
  datatype Facts = Facts(
    docsExists: bool,
    sharedPatternsExists: bool,
    readme: Option<string>,
    skillsListing: Option<seq<DirEntry>>,
    workflowsDir: Option<seq<WorkflowFile>>,
    orchestrator: Option<string>)

  datatype AllResults = AllResults(
    volumeReduction: real,
    consolidationRatio: real,
    hasSkillCatalog: bool,
    skillsReduction: real,
    readme: ReadmeFlags,
    hasParallelExecution: bool,
    parallelCount: nat,
    hasErrorHandling: bool,
    structureFiles: (nat, nat),
    docRatioPercent: real,
    card: ScoreCard,
    overallScore: real)

  /** The two parameters measured by their own modules: functionality
      preservation from the metrics records, and integration completeness
      from the skills directory, the workflow files and the orchestrator.
      The integration measurement does not consult the metrics file, so its
      pre and post runs agree and one run stands for both. */
  method MeasureCallouts(pre: Metrics, post: Metrics, tables: Tables, facts: Facts)
    returns (functionality: real, integration: real)
    ensures 0.0 <= functionality <= 100.0
    ensures integration <= 100.0
  {
    var f := MeasureFunctionalityPreservation(pre, post, tables);
    functionality := f.overallScore;
    var skills := GetAllSkills(facts.skillsListing);
    var workflows := AnalyzeWorkflows(facts.workflowsDir.GetOr([]));
    var i := MeasureIntegrationCompleteness(set s | s in skills :: s.name, workflows, facts.orchestrator);
    integration := i.overallScore;
  }

  /** `measureAllParameters`. */
  method MeasureAllParameters(pre: Metrics, post: Metrics, tables: Tables, facts: Facts) returns (r: AllResults)
    ensures r.volumeReduction == ReductionPercent(MeasureCodeVolume(pre).totalLines, MeasureCodeVolume(post).totalLines)
    ensures r.consolidationRatio == ConsolidationRatio(pre.skillsCount, post.skillsCount)
    ensures r.skillsReduction == ReductionPercent(pre.skillsCount, post.skillsCount)
    ensures r.hasSkillCatalog == HasSkillCatalog(facts.docsExists, facts.readme)
    ensures r.readme == ReadmeFlagsOf(facts.readme)
    ensures r.parallelCount == (if facts.workflowsDir.Some? then ParallelTotal(facts.workflowsDir.value) else 0)
    ensures r.hasParallelExecution <==> r.parallelCount > 0
    ensures r.hasErrorHandling <==> (facts.workflowsDir.Some? &&
              exists f :: f in facts.workflowsDir.value && IsMarkdown(f.fileName) && MentionsFailure(f.content))
    ensures r.structureFiles == StructureFiles(pre, post)
    ensures r.docRatioPercent == Round2(DocRatio(pre, post) * 100.0)
    ensures var c, shared, patterns := r.card, facts.sharedPatternsExists, post.patternsMdCount.GetOr(0);
            && c.codeVolume == CodeVolumeScore(r.volumeReduction)
            && 0.0 <= c.functionality <= 100.0
            && c.tokenEfficiency == TokenScore(MeasureTokenEfficiency(pre, post).consolidationEfficiency)
            && c.discoverability == DiscoverabilityScore(r.consolidationRatio, r.hasSkillCatalog)
            && c.integration <= 100.0
            && c.maintainability == MaintainabilityScore(r.volumeReduction, shared, patterns)
            && c.developerExperience == DeveloperExperienceScore(r.skillsReduction, r.readme)
            && c.performance == PerformanceScore(r.skillsReduction, r.volumeReduction, r.parallelCount, r.hasParallelExecution, shared)
            && c.extensibility == ExtensibilityScore(r.consolidationRatio, shared, patterns)
            && c.consistency == ConsistencyScore(shared)
            && c.documentation == DocumentationScore(DocRatio(pre, post), patterns, shared, r.readme)
            && c.errorHandling == ErrorHandlingScore(r.hasErrorHandling)
            && c.workflowEfficiency == WorkflowEfficiencyScore(r.skillsReduction, r.volumeReduction, r.parallelCount, r.hasParallelExecution)
            && c.testCoverage == TestCoverageScore
            && c.architecture == ArchitectureScore(r.consolidationRatio, shared, patterns)
    ensures r.overallScore == Round2(WeightedSum(ScoreMap(r.card), WeightTable))
    ensures 0.0 <= r.card.integration ==> 0.0 <= r.overallScore <= 100.0
  {
    // 1. Code volume
    var preVolume, postVolume := MeasureCodeVolume(pre), MeasureCodeVolume(post);
    var volumeReduction := ReductionPercent(preVolume.totalLines, postVolume.totalLines);

    // 2 and 5. Functionality preservation and integration completeness
    var functionality, integration := MeasureCallouts(pre, post, tables, facts);

    // 3. Token efficiency
    var tokens := MeasureTokenEfficiency(pre, post);

    // 4. Discoverability
    var ratio := ConsolidationRatio(pre.skillsCount, post.skillsCount);
    var catalog := HasSkillCatalog(facts.docsExists, facts.readme);

    // 6-15
    var shared := facts.sharedPatternsExists;
    var patternsFiles := post.patternsMdCount.GetOr(0);
    var skillsReduction := ReductionPercent(pre.skillsCount, post.skillsCount);
    var flags := ReadmeFlagsOf(facts.readme);
    var hasParallel, parallelCount := ScanParallel(facts.workflowsDir);
    var hasErrorHandling := DetectErrorHandling(facts.workflowsDir);

    var card := ScoreCard(
      CodeVolumeScore(volumeReduction),
      functionality,
      TokenScore(tokens.consolidationEfficiency),
      DiscoverabilityScore(ratio, catalog),
      integration,
      MaintainabilityScore(volumeReduction, shared, patternsFiles),
      DeveloperExperienceScore(skillsReduction, flags),
      PerformanceScore(skillsReduction, volumeReduction, parallelCount, hasParallel, shared),
      ExtensibilityScore(ratio, shared, patternsFiles),
      ConsistencyScore(shared),
      DocumentationScore(DocRatio(pre, post), patternsFiles, shared, flags),
      ErrorHandlingScore(hasErrorHandling),
      WorkflowEfficiencyScore(skillsReduction, volumeReduction, parallelCount, hasParallel),
      TestCoverageScore,
      ArchitectureScore(ratio, shared, patternsFiles));
    var overall := OverallScore(ScoreMap(card));
    if 0.0 <= card.integration {
      assert CardInRange(card);
      CardOverallInRange(card);
    }
    r := AllResults(volumeReduction, ratio, catalog, skillsReduction, flags, hasParallel, parallelCount,
                    hasErrorHandling, StructureFiles(pre, post), Round2(DocRatio(pre, post) * 100.0),
                    card, overall);
  }
}

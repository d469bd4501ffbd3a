# cc10x refactor measurement scripts, modelled in Dafny

cc10x is a plugin made of skills (directories holding a
`SKILL.md`), workflows (markdown files read by the `cc10x-orchestrator`
skill), hooks and subagents. When the plugin is refactored, a set of Node.js
scripts compares the repository before and after. They read two
`metrics.json` records and the checked-out tree, and they score fifteen
quality parameters. This project models those scripts:

- **Reference analysis** (`scripts/analyze-skill-references.js`). The
  inventory of skills. The extraction of skill and subagent names from a
  workflow's text by four regular expressions, run the way a global
  JavaScript regex is run with `exec`. The dependency tree that records
  which workflow references which skill and subagent, and which skills are
  orphaned. Modules `Patterns`, `References`, `Inventory` and
  `DependencyTree`.
- **Functionality preservation** (`scripts/measure-functionality.js`). The
  skills, hooks and subagents deleted by the refactor. Each is looked up in
  the three preservation tables, and the result is a score per kind plus a
  weighted overall score. Module `Functionality`.
- **Integration completeness** (`scripts/measure-integration.js`). The
  workflow references that name no inventoried skill. The coverage of the
  workflows and of the orchestrator's own `SKILL.md`, and their blend.
  Module `Integration`.
- **Code volume and token efficiency** (`scripts/measure-code-volume.js`,
  `scripts/measure-tokens.js`). Modules `CodeVolume` and `Tokens`.
- **The fifteen-parameter comparison**
  (`scripts/measure-all-parameters.js`). Module `Parameters`.
- **Shared modules.** `Collections` models JavaScript Sets as
  duplicate-free sequences in insertion order. `Numeric` models `Math.round`
  and the two-decimal rounding over exact reals. `Metrics` holds the
  metrics record. `JsObjects` holds the members every `{}` object inherits.

File-system reads are parameters. A directory listing is an
`Option<seq<…>>`: `None` when the directory is missing, each file given with
its text. A metrics record is a `Metrics.Metrics` value whose optional fields
are `Option`s. Scores are `real`s.

Two behaviours of the scripts are kept exactly as written:

- Workflow coverage divides by the number of DISTINCT checked names but
  subtracts one broken record PER WORKFLOW. Coverage can therefore be
  negative (`Integration.RepeatedMissingSkillGoesNegative`).
- The post-refactor structure count of parameter 10 takes its PATTERNS.md
  count from the pre-refactor record
  (`Parameters.StructureIgnoresPostPatterns`).

## Model

| member | source | states |
|---|---|---|
| `Patterns.DelimitedAt` | scripts/analyze-skill-references.js:50 | A match of `` `([a-z0-9-]+)` `` at a position is a backtick, the longest non-empty run of the class, and a closing backtick. It exists exactly when that run is followed by the delimiter, and the capture is the run. |
| `Patterns.DelimitedEndsAfterRun` | scripts/analyze-skill-references.js:50 | The match ends one past the end of the greedy run, which stops at a character outside the class: the capture is the whole run. |
| `Patterns.RunEndIs` | scripts/analyze-skill-references.js:50 | The greedy character-class run ends at the first character outside the class. |
| `Patterns.BacktickSpan` | scripts/analyze-skill-references.js:50 | A name of the class between two backticks is captured whole, and the match ends after the closing backtick. |
| `Patterns.LazySpanFrom` | scripts/analyze-skill-references.js:71 | The lazy `.*?` followed by the backtick capture yields a non-empty name of `[a-z0-9-]` in either case, as the `i` flag allows, ending after the start. |
| `Patterns.LazySpanIs` | scripts/analyze-skill-references.js:71 | `.*?` stops at the first position of the line where the backtick capture matches. |
| `Patterns.MatchAt` | scripts/analyze-skill-references.js:85-86 | A match starting at a position consumes at least one character, and its capture has the shape of its pattern. A subagent capture ends in `-investigator`, `-reviewer`, `-verifier`, `-builder` or `-planner`. |
| `Patterns.CloseParen` | scripts/analyze-skill-references.js:94 | `[^)]*` reaches up to the first `)` at or after the position, and no further. |
| `Patterns.SubagentArgument` | scripts/analyze-skill-references.js:94 | The greedy `[^)]*subagent[^)]*["']([a-z-]+)["']` tail of a `Task(` call captures a non-empty name of letters and dashes. |
| `Patterns.SubagentArgumentSkips` | scripts/analyze-skill-references.js:94 | Backtracking `[^)]*subagent` from the right passes over every position where `subagent` does not start. |
| `Patterns.LiteralAtIs` | scripts/analyze-skill-references.js:94 | A literal matches under the `i` flag where the text's characters fold to it one by one. |
| `Patterns.LastQuotedName` | scripts/analyze-skill-references.js:94 | The greedy `[^)]*` before the quoted name yields a non-empty capture of letters and dashes that ends inside the call. |
| `Patterns.LastQuotedNameSkips` | scripts/analyze-skill-references.js:94 | Backtracking `[^)]*` from the right passes over every position where no quoted name starts. |
| `Patterns.FirstMatch` | scripts/analyze-skill-references.js:53 | One `exec` from `lastIndex`: the leftmost match at or after it, which consumes input, so the loop terminates. |
| `Patterns.FirstMatchIs` | scripts/analyze-skill-references.js:53 | `exec` returns the match at `p` when no position between `lastIndex` and `p` matches. |
| `Patterns.Captures` | scripts/analyze-skill-references.js:72-74 | Every capture the `while (exec)` loop visits has the shape of its pattern. |
| `Patterns.NoMatchNoCaptures` | scripts/analyze-skill-references.js:89-91 | Where the pattern matches nowhere from `lastIndex` on, the loop visits nothing. |
| `Patterns.NoLoadPhrase` | scripts/analyze-skill-references.js:71-74 | A text without `lo` in any case has no `Load` capture. |
| `References.AddCaptures` | scripts/analyze-skill-references.js:53-68 | The `exec` loop adds to the Set, in order, every capture that is not skipped. |
| `References.SkillReferences` | scripts/analyze-skill-references.js:45-77 | The Set's names are duplicate-free. A name is present exactly when it is an inline-code capture that is not a stop word, or a `Load` capture. |
| `References.SubagentReferences` | scripts/analyze-skill-references.js:80-100 | The Set's names are duplicate-free. A name is present exactly when it is a backticked role name or a `Task(... subagent ... "name")` capture. |
| `References.ExtractSkillReferences` | scripts/analyze-skill-references.js:45-77 | The names are duplicate-free. A name is present exactly when it is an inline-code capture that is not a stop word, or a `Load` capture. |
| `References.ExtractSubagentReferences` | scripts/analyze-skill-references.js:80-100 | The names are duplicate-free. A name is present exactly when it is a backticked role name or a `Task(... subagent ... "name")` capture. |
| `References.SetSemantics` | scripts/analyze-skill-references.js:76 | `Array.from` of a Set filled by two passes holds each name of either pass exactly once. |
| `References.InlineNamesAreKebab` | scripts/analyze-skill-references.js:50-68 | Every inline-code name is a non-empty `[a-z0-9-]` string and not a stop word. |
| `References.SubagentNamesHaveRole` | scripts/analyze-skill-references.js:85-91 | Every backticked subagent name carries one of the five role suffixes. |
| `References.StopWordIsFiltered` | scripts/analyze-skill-references.js:56-67 | "`` `debugging-patterns` `skill` ``" yields only `debugging-patterns`: the stop word is dropped. |
| `References.LoadBypassesStopWords` | scripts/analyze-skill-references.js:71-74 | "Load the `` `skill` ``" yields `skill`, because the `Load` pass has no stop-word filter. |
| `References.AnalyzeWorkflows` | scripts/analyze-skill-references.js:103-128 | The records are `Analyzed(files)`: one per markdown file, in listing order, named by its base name and holding the two extractions of its text. A record is present exactly when some markdown file produces it. |
| `References.Analyzed` | scripts/analyze-skill-references.js:114-125 | There are at most as many records as files, and exactly as many when every file is markdown. |
| `References.AnalyzedMembers` | scripts/analyze-skill-references.js:114-125 | The records are exactly those of the markdown files; other files are skipped. |
| `References.AnalyzedInOrder` | scripts/analyze-skill-references.js:114-125 | For a listing of markdown files, the i-th record is that of the i-th file. |
| `Collections.AddAll` | scripts/analyze-skill-references.js:47-76 | Adding a list to a Set grows it by at most the list's length. |
| `Collections.Dedup` | scripts/analyze-skill-references.js:47-76 | `Array.from` of a Set filled from a list is duplicate-free, no longer than the list, and holds exactly its elements. |
| `Collections.AddAllMembers` | scripts/analyze-skill-references.js:47-76 | After the `add`s, the Set holds exactly its old elements and the added ones. |
| `Collections.AddAllNoDuplicates` | scripts/analyze-skill-references.js:47-76 | A Set never holds a name twice. |
| `JsObjects.Truthy` | scripts/measure-functionality.js:102 | `obj[key]` on a `{}` object is truthy for its own entries and the inherited members; for any other key it agrees with an own-key lookup. |
| `Inventory.SkillEntries` | scripts/analyze-skill-references.js:26-39 | A skill is listed exactly when an entry is a directory holding a `SKILL.md`, with path `<name>/SKILL.md`. |
| `Inventory.LexLeTotal` | scripts/analyze-skill-references.js:41 | Any two names are comparable by the name order. |
| `Inventory.LexLeTransitive` | scripts/analyze-skill-references.js:41 | The name order is transitive. |
| `Inventory.SortByName` | scripts/analyze-skill-references.js:41 | The sort result is ordered by name and is a permutation of its input. |
| `Inventory.LexLe` | scripts/analyze-skill-references.js:41 | A prefix comes first in the name order, so the order is reflexive. |
| `Inventory.GetAllSkills` | scripts/analyze-skill-references.js:15-42 | A missing directory gives no skills. Otherwise the result is a permutation of the skill entries, sorted by name. |
| `Inventory.InventoryMembers` | scripts/analyze-skill-references.js:26-39 | Membership in the inventory is exactly "a directory of that name holds a `SKILL.md`". |
| `DependencyTree.AllNames` | scripts/analyze-skill-references.js:162-176 | A name is referenced exactly when some workflow lists it. |
| `DependencyTree.Referrers` | scripts/analyze-skill-references.js:162-176 | A name's workflow list is empty exactly when no workflow lists the name. Every entry is the name of a workflow that lists it. |
| `DependencyTree.WorkflowMap` | scripts/analyze-skill-references.js:156-159 | The orchestrator's workflow map has an entry exactly for each workflow name. |
| `DependencyTree.OrphansAreUnreferenced` | scripts/analyze-skill-references.js:180-184 | A name is orphaned exactly when it is an inventoried skill that no workflow lists. |
| `DependencyTree.RecordSkillAsWritten` | scripts/analyze-skill-references.js:164-166 | The skill step as written fails (a TypeError) exactly when the name is not inventoried but is an inherited `Object.prototype` member. Otherwise it agrees with `RecordSkill`. |
| `DependencyTree.RecordSkill` | scripts/analyze-skill-references.js:164-166 | The intended skill step keeps the keys. It appends the workflow to the named skill's list only, and does nothing for an unknown name. |
| `DependencyTree.RecordSubagentAsWritten` | scripts/analyze-skill-references.js:172-175 | The subagent step as written fails exactly when the name is a new key that is an inherited member. Otherwise it agrees with `RecordSubagent`. |
| `DependencyTree.RecordSubagent` | scripts/analyze-skill-references.js:172-175 | The intended subagent step creates a missing list, appends the workflow to it, and leaves every other list alone. |
| `DependencyTree.TrackSkills` | scripts/analyze-skill-references.js:162-167 | The inner skill loop adds every name to the orchestrator Set. Each inventoried skill's list grows by one workflow entry per occurrence of its name. |
| `DependencyTree.TrackSubagents` | scripts/analyze-skill-references.js:170-176 | The inner subagent loop adds every name to the orchestrator Set. Each subagent's list grows by one entry per occurrence. |
| `DependencyTree.InitSkillMap` | scripts/analyze-skill-references.js:147-152 | Every inventoried skill starts with an empty list, and no other key exists. |
| `DependencyTree.CollectOrphans` | scripts/analyze-skill-references.js:180-184 | The orphan loop collects, in inventory order, exactly the skills with an empty list. |
| `DependencyTree.Orphans` | scripts/analyze-skill-references.js:180-184 | There are at most as many orphans as skills, and no orphan is referenced by a workflow. |
| `DependencyTree.BuildDependencyTree` | scripts/analyze-skill-references.js:131-187 | It states the whole tree: the workflow map, both orchestrator Sets (first-occurrence order), the skill lists (keys = inventory), the subagent lists (keys = referenced names), the orphaned skills, and no orphaned subagents. |
| `DependencyTree.ReferrersAreReferencingWorkflows` | scripts/analyze-skill-references.js:162-176 | With duplicate-free extractions, a name's list is exactly the workflows that reference it, in processing order. |
| `DependencyTree.OrphanedIffNotOrchestrated` | scripts/analyze-skill-references.js:180-184 | A skill is orphaned exactly when it is absent from the orchestrator's skill Set. |
| `DependencyTree.ConstructorReferenceThrows` | scripts/analyze-skill-references.js:164-165 | A workflow containing `` `constructor` `` yields the skill name `constructor`, and recording it makes the source throw. |
| `DependencyTree.InheritedSubagentNameThrows` | scripts/analyze-skill-references.js:172-175 | A workflow containing `Task(subagent_type="toString")` yields the subagent name `toString`, and recording it as a subagent makes the source throw. |
| `DependencyTree.RecordingIsTotal` | scripts/analyze-skill-references.js:162-176 | The intended steps never fail. An unknown skill name changes nothing, and a subagent always gets the workflow appended. |
| `Functionality.DeletedIsSetDifference` | scripts/measure-functionality.js:80-94 | The deleted names are duplicate-free and are exactly the names listed before and not after. A missing list counts as empty. |
| `Functionality.Deleted` | scripts/measure-functionality.js:80-94 | The deleted names are duplicate-free and are exactly the names listed before and not after. |
| `Functionality.ResolveSkill` | scripts/measure-functionality.js:101-116 | A deleted skill is preserved exactly when the table maps it, with its consolidation target or `null`. |
| `Functionality.ResolveSkillAsWritten` | scripts/measure-functionality.js:102-108 | As written, the table lookup also finds inherited members, so such a name counts as preserved. For every other name it agrees with `ResolveSkill`. |
| `Functionality.ResolveHook` | scripts/measure-functionality.js:122-132 | A hook is preserved exactly when its table entry exists and says preserved. Its reason is the entry's, or "Unknown". |
| `Functionality.ResolveSubagent` | scripts/measure-functionality.js:138-148 | A subagent is preserved exactly when its entry exists and says preserved. Its target is the entry's, or `null`. |
| `Functionality.PreservedSkills` | scripts/measure-functionality.js:101-104 | The preserved count never exceeds the number of deleted skills. |
| `Functionality.PreservedHooks` | scripts/measure-functionality.js:122-126 | The preserved count never exceeds the number of deleted hooks. |
| `Functionality.PreservedSubagents` | scripts/measure-functionality.js:138-142 | The preserved count never exceeds the number of deleted subagents. |
| `Functionality.Percent` | scripts/measure-functionality.js:151-155 | Nothing deleted scores 100. All preserved scores 100, none preserved scores 0, and a count within the total scores in [0, 100]. |
| `Functionality.OverallScore` | scripts/measure-functionality.js:158-159 | The 0.7/0.15/0.15 blend stays in [0, 100], and three full scores give 100. |
| `Functionality.ResolveSkills` | scripts/measure-functionality.js:97-116 | The skills loop gives one record per deleted skill, in order, and the preserved count. |
| `Functionality.ResolveHooks` | scripts/measure-functionality.js:118-132 | The hooks loop gives one record per deleted hook, in order, and the preserved count. |
| `Functionality.ResolveSubagents` | scripts/measure-functionality.js:134-148 | The subagents loop gives one record per deleted subagent, in order, and the preserved count. |
| `Functionality.MeasureFunctionalityPreservation` | scripts/measure-functionality.js:75-185 | Per kind, it gives the deleted names, the records, the count and the score. The overall score is the rounded blend, and every score lies in [0, 100]. |
| `Functionality.MappingASkillNeverLowersCount` | scripts/measure-functionality.js:101-104 | Adding a skill mapping never lowers the preserved count. |
| `Functionality.PreservingAHookNeverLowersCount` | scripts/measure-functionality.js:122-126 | Marking a hook preserved never lowers the count. |
| `Functionality.PreservingASubagentNeverLowersCount` | scripts/measure-functionality.js:138-142 | Marking a subagent preserved never lowers the count. |
| `Functionality.PercentMonotone` | scripts/measure-functionality.js:151-155 | More preserved never gives a lower score. |
| `Functionality.NewEntriesNeverLowerScores` | scripts/measure-functionality.js:11-73 | Extending any of the three tables never lowers that kind's score. |
| `Functionality.ConsolidatedSkillsScoreFull` | scripts/measure-functionality.js:11-25 | Deleting `security-patterns` and `code-quality-patterns`, both in the skill table, scores 100. |
| `Functionality.AllSkillsMapped` | scripts/measure-functionality.js:101-104 | When the table maps every deleted skill, all of them count. |
| `Functionality.PreservedSkillsAsWritten` | scripts/measure-functionality.js:102-103 | The as-written count is bounded by the deletions and is never below the intended count. |
| `Functionality.ConstructorSkillCountsAsPreserved` | scripts/measure-functionality.js:102-108 | A deleted skill `constructor` is in no table. It scores 100 as written and 0 as intended. |
| `Integration.CheckWorkflowReferences` | scripts/measure-integration.js:47-63 | The workflow loop yields the Set of distinct non-whitelisted names and one broken record per (workflow, missing reference), in order. |
| `Integration.CheckedRefs` | scripts/measure-integration.js:47-54 | The checked names contain no whitelisted name and every non-whitelisted reference of every workflow. |
| `Integration.BrokenRefs` | scripts/measure-integration.js:47-63 | Every broken record names a reference that is neither whitelisted nor inventoried. |
| `Integration.CheckWorkflow` | scripts/measure-integration.js:48-62 | The inner loop over one workflow adds its non-whitelisted names and appends its broken records. |
| `Integration.BrokenRefsExactly` | scripts/measure-integration.js:47-63 | A record exists exactly for a workflow and one of its references that is neither whitelisted nor inventoried. |
| `Integration.WhitelistedNeverCounted` | scripts/measure-integration.js:49-52 | Subagent and tool names are never counted and never reported broken. |
| `Integration.BrokenNamesAreChecked` | scripts/measure-integration.js:54-61 | Every broken name is a counted name outside the inventory. |
| `Integration.MissingSkillReportedOnce` | scripts/measure-integration.js:54-61 | A workflow with one missing reference yields exactly one record and one counted name. |
| `Integration.Coverage` | scripts/measure-integration.js:65-69 | No references score 100. A valid count within [0, total] scores in [0, 100], and a negative valid count scores at most 0. |
| `Integration.RepeatedMissingSkillGoesNegative` | scripts/measure-integration.js:65-69 | Two workflows naming one missing skill give one counted name, two records and a coverage of -100. |
| `Integration.CountOrchestratorReferences` | scripts/measure-integration.js:85-99 | The orchestrator loop counts every non-skipped capture, with repeats, and the broken ones among them. Broken never exceeds counted. |
| `Integration.OrchestratorCountsSubagentWord` | scripts/measure-integration.js:88-92 | A backticked `subagent` is counted by the orchestrator pass although the extraction pass drops it. |
| `Integration.CheckOrchestrator` | scripts/measure-integration.js:71-109 | A missing orchestrator gives 0 and 0. Otherwise the counts are as above. Valid = counted - broken, and the coverage lies in [0, 100]. |
| `Integration.OverallBlend` | scripts/measure-integration.js:112 | The 0.7/0.3 blend is at most 100. It is non-negative when workflow coverage is, and 100 when both coverages are. |
| `Integration.MeasureIntegrationCompleteness` | scripts/measure-integration.js:14-133 | It states every figure of the result. Workflow coverage is at most 100 (possibly negative), orchestrator coverage lies in [0, 100], and the overall score is their blend. |
| `Tokens.EstimateTokens` | scripts/measure-tokens.js:13-15 | The estimate is the fewest four-code-unit tokens that cover the text's UTF-16 length. |
| `Tokens.Utf16Length` | scripts/measure-tokens.js:14 | `text.length` counts one unit per character and two per character outside the Basic Multilingual Plane, so it lies between the character count and twice it, and equals the character count for text inside that plane. |
| `Tokens.EstimateCountsSurrogatePairs` | scripts/measure-tokens.js:14 | Three emoji are six code units and cost two tokens. |
| `Tokens.CategoryTokens` | scripts/measure-tokens.js:23-42 | A category costs 20 tokens per line (80 characters at 4 per token), and a missing count costs 0. |
| `Tokens.SnapshotOf` | scripts/measure-tokens.js:44-56 | Each category's tokens are those of its line count in the record, and the total is their sum, 20 tokens per line. The skill count passes through, and the per-skill average is the rounded mean of the skill tokens, or 0 with no skills. |
| `Tokens.MeasureTokenEfficiency` | scripts/measure-tokens.js:17-98 | Tokens saved = pre - post, and the result is "better" exactly when tokens are saved. Efficiency and ratio are 0 for an empty baseline. |
| `Tokens.EfficiencyAndRatioComplement` | scripts/measure-tokens.js:59-69 | Before rounding, the efficiency and the reduction ratio add up to 100. |
| `Tokens.MissingLinesCostNothing` | scripts/measure-tokens.js:23-42 | A record without line counts costs no tokens. |
| `Tokens.FewerLinesIsBetter` | scripts/measure-tokens.js:59-63 | Fewer counted lines after the refactor means "better", a non-negative efficiency and a ratio of at most 100. |
| `Numeric.Round` | scripts/measure-code-volume.js:31 | `Math.round`: the result is the integer within half of `x`, rounding halves up. |
| `Numeric.Round2` | scripts/measure-integration.js:130 | Two-decimal rounding moves the value by at most half a cent. |
| `Numeric.Clamp100` | scripts/measure-all-parameters.js:146 | The clamp lies in [0, 100] and is the identity there. |
| `Numeric.ReductionPercent` | scripts/measure-tokens.js:59-63 | The reduction is 0 for an empty or unchanged baseline, 100 for a full reduction, at most 100, and non-negative when nothing grew. |
| `Numeric.RatioPercent` | scripts/measure-tokens.js:66-69 | The ratio is non-negative, at most 100 when the part is within the whole, and 100 when they are equal. |
| `Numeric.ShareComplement` | scripts/measure-tokens.js:59-69 | What is gone and what is left of a positive whole add up to 100 percent. |
| `Metrics.Average` | scripts/measure-code-volume.js:29-35 | The rounded mean is within half a skill of the total, is 0 with no skills, and never exceeds the total. |
| `CodeVolume.MeasureCodeVolume` | scripts/measure-code-volume.js:10-40 | The counts pass through and each line figure is the record's, 0 when missing. The total is all-skill-files + hooks + subagents lines. The average is the rounded mean of all-skill-files lines per skill, in [0, those lines], or 0 with no skills. |
| `CodeVolume.TotalIgnoresSkillsLines` | scripts/measure-code-volume.js:21-28 | `skills_lines` is reported but changes neither the total nor the average. |
| `CodeVolume.MissingLinesAreZero` | scripts/measure-code-volume.js:22-28 | Missing line counts read as 0. |
| `CodeVolume.SingleSkillAverage` | scripts/measure-code-volume.js:29-35 | With one skill the average is all of its lines. |
| `Parameters.EmptyContainsNothing` | scripts/measure-all-parameters.js:160-162 | A missing README, read as `""`, mentions nothing. |
| `Parameters.ParallelMatches` | scripts/measure-all-parameters.js:205-206 | The number of `parallel`/`Parallel` matches is bounded by the text length. |
| `Parameters.ParallelFound` | scripts/measure-all-parameters.js:205-209 | The global match finds something exactly when the word occurs. |
| `Parameters.ParallelTotalPositive` | scripts/measure-all-parameters.js:199-211 | The summed count is positive exactly when some markdown file mentions the word. |
| `Parameters.ScanParallel` | scripts/measure-all-parameters.js:197-212 | The scan's count is the sum over markdown files, or 0 without the directory. The flag is set exactly when the count is positive. |
| `Parameters.ParallelTotal` | scripts/measure-all-parameters.js:197-212 | Only markdown files are counted: a listing without one sums to 0. |
| `Parameters.DetectErrorHandling` | scripts/measure-all-parameters.js:324-341 | The flag is set exactly when some markdown workflow mentions error/Error/failure/Failure. |
| `Parameters.MentionsFailure` | scripts/measure-all-parameters.js:331-336 | A text that mentions failure holds one of the four words, so it has at least five characters. |
| `Parameters.CodeVolumeScore` | scripts/measure-all-parameters.js:48-55 | The step score lies between 75 and 90. It is 90 from a 25% reduction and 75 below 15%. |
| `Parameters.CodeVolumeScoreMonotone` | scripts/measure-all-parameters.js:48-55 | A larger reduction never lowers the score. |
| `Parameters.TokenScore` | scripts/measure-all-parameters.js:74-83 | The token score lies in [0, 100]. |
| `Parameters.TokenScoreIsClamp` | scripts/measure-all-parameters.js:79-82 | Both branches together are the clamp of 50 + efficiency. |
| `Parameters.ConsolidationRatio` | scripts/measure-all-parameters.js:86-91 | The ratio is 100 with no skills before, non-negative, and at most 100 when skills did not grow. |
| `Parameters.DiscoverabilityBase` | scripts/measure-all-parameters.js:99-102 | For a ratio in [0, 100], the base lies in [75, 100]. |
| `Parameters.HasSkillCatalog` | scripts/measure-all-parameters.js:94-97 | A `docs/` directory always counts as a catalog; with no README it is the only thing that does. |
| `Parameters.DiscoverabilitySymmetric` | scripts/measure-all-parameters.js:99-102 | The base is symmetric about a ratio of 50. |
| `Parameters.DiscoverabilityScore` | scripts/measure-all-parameters.js:109-112 | The score with the catalog bonus is clamped to [0, 100]. |
| `Parameters.PatternsBonus` | scripts/measure-all-parameters.js:131-133 | The PATTERNS.md bonus lies in [0, 15]. |
| `Parameters.MaintainabilityScore` | scripts/measure-all-parameters.js:124-146 | Maintainability lies in [0, 100]. |
| `Parameters.MaintainabilityMonotone` | scripts/measure-all-parameters.js:135-146 | A larger reduction never lowers maintainability. |
| `Parameters.ReadmeFlagsOf` | scripts/measure-all-parameters.js:160-171 | A missing README sets no flag. |
| `Parameters.DeveloperExperienceScore` | scripts/measure-all-parameters.js:151-191 | Developer experience lies in [0, 100]. |
| `Parameters.DeveloperExperienceMonotone` | scripts/measure-all-parameters.js:173-191 | A larger skill reduction never lowers developer experience. |
| `Parameters.ParallelBonus` | scripts/measure-all-parameters.js:217-224 | The bonus is 0 exactly when there is no mention. |
| `Parameters.ParallelBonusMonotone` | scripts/measure-all-parameters.js:217-224 | More mentions never lower the bonus. |
| `Parameters.PerformanceScore` | scripts/measure-all-parameters.js:213-244 | Performance lies in [0, 100]. |
| `Parameters.PerformanceMonotone` | scripts/measure-all-parameters.js:213-244 | Larger reductions and more mentions never lower performance. |
| `Parameters.ExtensibilityScore` | scripts/measure-all-parameters.js:250-265 | Extensibility lies in [70, 100], and is at least 80 when skills were halved. |
| `Parameters.StructureFiles` | scripts/measure-all-parameters.js:270-273 | The pre structure count is pre PATTERNS.md + pre reference files. |
| `Parameters.StructureIgnoresPostPatterns` | scripts/measure-all-parameters.js:272-273 | The post structure count ignores the post PATTERNS.md count, and equals the pre count when reference files are unchanged. |
| `Parameters.ConsistencyScore` | scripts/measure-all-parameters.js:275-276 | Consistency is 92 with shared patterns and 85 otherwise. |
| `Parameters.DocRatio` | scripts/measure-all-parameters.js:286-294 | The ratio is non-negative, and is 1 when the baseline is empty or the count is unchanged. |
| `Parameters.DocFiles` | scripts/measure-all-parameters.js:286-293 | The documentation count is at least the `SKILL.md` count, and equals it when both optional counts are missing. |
| `Parameters.DocumentationScore` | scripts/measure-all-parameters.js:295-319 | Documentation quality lies in [0, 100]. |
| `Parameters.DocumentationMonotone` | scripts/measure-all-parameters.js:302-319 | A higher documentation ratio never lowers the score. |
| `Parameters.UnchangedDocumentationScores80` | scripts/measure-all-parameters.js:294-310 | Unchanged documentation without bonuses scores 80. |
| `Parameters.ErrorHandlingScore` | scripts/measure-all-parameters.js:342-347 | Robustness is 92 with error handling and 85 otherwise. |
| `Parameters.WorkflowEfficiencyScore` | scripts/measure-all-parameters.js:353-377 | Workflow efficiency lies in [0, 100]. |
| `Parameters.WorkflowEfficiencyMonotone` | scripts/measure-all-parameters.js:353-377 | Larger reductions and more mentions never lower workflow efficiency. |
| `Parameters.ArchitectureScore` | scripts/measure-all-parameters.js:390-403 | Architecture lies in [75, 100], and is at least 90 when skills were halved. |
| `Parameters.WeightsSumToOne` | scripts/measure-all-parameters.js:407-423 | The fifteen weights are non-negative and sum to exactly 1. |
| `Parameters.WeightedSumBounds` | scripts/measure-all-parameters.js:425-430 | With scores in [0, 100], the weighted sum lies in [0, 100 × total weight]. |
| `Parameters.UniformScores` | scripts/measure-all-parameters.js:425-430 | Equal scores sum to that score times the total weight. |
| `Parameters.OverallScore` | scripts/measure-all-parameters.js:425-432 | The rounded weighted sum, which lies in [0, 100] when every score does. |
| `Parameters.WeightedSum` | scripts/measure-all-parameters.js:425-430 | With no parameter results the sum is 0. |
| `Parameters.UnscoredAddNothing` | scripts/measure-all-parameters.js:425-430 | A parameter without a result adds nothing to the sum, whatever its weight. |
| `Parameters.ScoreMapEntries` | scripts/measure-all-parameters.js:426-428 | Every weighted parameter has a score, and each score is one of the card's. |
| `Parameters.CardOverallInRange` | scripts/measure-all-parameters.js:425-432 | With every score of the card in [0, 100], so is the overall score. |
| `Parameters.MeasureCallouts` | scripts/measure-all-parameters.js:64-122 | The functionality score lies in [0, 100], and the integration score is at most 100. |
| `Parameters.MeasureAllParameters` | scripts/measure-all-parameters.js:29-435 | It ties each of the fifteen scores and the intermediate figures to its definition. The overall score is the rounded weighted sum, in [0, 100] when integration is non-negative. |

## Left out

- Rendering and entry points: `generateASCIITree`, every `main`, the
  command-line argument handling, `scripts/generate-report.js`, and all
  console and file output.
- Numbers are exact reals and unbounded integers, so IEEE-754 rounding error
  in `x * 100` and in the weights is not modelled.
- `localeCompare` is modelled as lexicographic order of characters
  (`Inventory.LexLe`). Locale collation, where it differs (for example for
  upper-case letters), is not modelled.
- Metrics fields are typed: a line count is a `nat` or missing. `parseInt`
  on a non-numeric or fractional string is not modelled, nor is `NaN`
  arising from a missing `skill_md_count` or `skills_count`.
- `Object.entries` of the workflow object is taken as the listing order of
  the markdown files. Integer-like keys, which `Object.entries` lists first,
  are not reordered. A file named `__proto__.md` is not modelled: the
  assignment sets the object's prototype instead of adding a key, so the
  source skips that workflow.
- `fullPath` and `path` fields that only carry file locations, and the
  `orchestratorSkillRefs` Set that is filled but never read.
- `measureIntegrationCompleteness` reads its metrics file but uses nothing
  from it. Its pre and post runs therefore agree, and the model runs it once.
- The `results[param].score !== undefined` guard of the weighted sum:
  every parameter always has a score.
- Hook and subagent lookups in the preservation tables are modelled for
  own keys only. An inherited member such as `constructor` finds the
  `Object` function: nothing throws and the count is unchanged, but the
  source's record then holds `undefined` for `preserved` and for `reason` or
  `consolidated_into`, where the model records `false` and `"Unknown"` or
  no target.
- `Functionality.MeasureFunctionalityPreservation` and
  `DependencyTree.BuildDependencyTree` use the corrected own-key lookups
  (`Functionality.ResolveSkill`, `DependencyTree.RecordSkill`,
  `DependencyTree.RecordSubagent`). On names inherited from
  `Object.prototype` (`JsObjects.PrototypeMembers`) they therefore differ
  from the source, whose behaviour there is modelled separately under
  "Findings".
- A skill directory named `__proto__`, which changes the prototype of the
  skill map instead of adding a key, is not modelled.
- Parameters.MeasureCallouts: the integration score is only stated to be at
  most 100. Its defining equations are stated by
  `Integration.MeasureIntegrationCompleteness`, whose result it passes on.
- Parameters.MeasureAllParameters: the functionality and integration scores
  are stated by their bounds only. Their definitions are stated by
  `Functionality.MeasureFunctionalityPreservation` and
  `Integration.MeasureIntegrationCompleteness`.

## Findings

| source | as written | input that shows it | evidently intended | confidence | as-written member | corrected member |
|---|---|---|---|---|---|---|
| scripts/measure-functionality.js:102-108 | `DELETED_TO_CONSOLIDATED[deletedSkill]` is truthy for members inherited from `Object.prototype` | a deleted skill named `constructor`: as written it counts as preserved and scores 100 | only table entries count as preserved, so the score is 0 | not executed | `Functionality.ConstructorSkillCountsAsPreserved` | `Functionality.ResolveSkill` |
| scripts/analyze-skill-references.js:164-166 | `tree.skills[skillName]` is truthy for inherited members, then `.referencedIn.push` runs on a function | a workflow containing `` `constructor` ``: `buildDependencyTree` throws a TypeError | an unknown name is skipped | not executed | `DependencyTree.ConstructorReferenceThrows` | `DependencyTree.RecordSkill` |
| scripts/analyze-skill-references.js:172-175 | `!tree.subagents[subagentName]` is false for inherited members, so no list is created and `.push` runs on a function | a workflow containing `Task(subagent_type="toString")`: `buildDependencyTree` throws a TypeError | a list is created for every new name | not executed | `DependencyTree.InheritedSubagentNameThrows` | `DependencyTree.RecordSubagent` |

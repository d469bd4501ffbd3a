/** Extraction of skill and subagent references from a workflow document
    (`extractSkillReferences`, `extractSubagentReferences` and
    `analyzeWorkflows` in scripts/analyze-skill-references.js), with the file
    reads replaced by the document's text. */
module References {
  import opened Collections
  import opened Patterns

  /** Structural words that the inline-code pass does not take for names. */
  const StopWords: set<string> := {"skill", "skills", "subagent", "subagents", "workflow", "workflows"}

  /** The skill names of a document, in the insertion order of the Set the
      source fills: the inline-code names that are not stop words, then every
      name after a `Load` phrase. */
  function SkillReferences(content: string): (r: seq<string>)
    ensures NoDuplicates(r)
    ensures forall n :: n in r <==>
              (n in Captures(content, 0, InlineCode) && n !in StopWords) || n in Captures(content, 0, LoadPhrase)
  {
    SetSemantics(Keep(Captures(content, 0, InlineCode), StopWords), Captures(content, 0, LoadPhrase));
    AddAll(Dedup(Keep(Captures(content, 0, InlineCode), StopWords)), Captures(content, 0, LoadPhrase))
  }

  /** The subagent names of a document: backticked role names, then the
      quoted names of `Task(... subagent ... "name")` calls. */
  function SubagentReferences(content: string): (r: seq<string>)
    ensures NoDuplicates(r)
    ensures forall n :: n in r <==> n in Captures(content, 0, SubagentCode) || n in Captures(content, 0, TaskCall)
  {
    SetSemantics(Captures(content, 0, SubagentCode), Captures(content, 0, TaskCall));
    AddAll(Dedup(Captures(content, 0, SubagentCode)), Captures(content, 0, TaskCall))
  }

  /** One `while ((match = re.exec(content)) !== null)` loop that adds every
      capture not in `skip` to the Set `acc`. */
  method AddCaptures(acc: seq<string>, content: string, pat: Pattern, skip: set<string>)
    returns (refs: seq<string>)
    ensures refs == AddAll(acc, Keep(Captures(content, 0, pat), skip))
  {
    refs := acc;
    var pos := 0;
    var m := FirstMatch(content, pos, pat);
    while m.Some?
      invariant pos <= |content|
      invariant m == FirstMatch(content, pos, pat)
      invariant AddAll(refs, Keep(Captures(content, pos, pat), skip))
                == AddAll(acc, Keep(Captures(content, 0, pat), skip))
      decreases |content| - pos
    {
      var name := m.value.name;
      CaptureStep(acc, refs, content, pos, pat, skip);
      if name !in skip && name !in refs {
        refs := refs + [name];
      }
      pos := m.value.end;
      m := FirstMatch(content, pos, pat);
    }
  }

  /** One iteration of the `exec` loop adds the first remaining capture. */
  lemma CaptureStep(acc: seq<string>, refs: seq<string>, content: string, pos: nat, pat: Pattern, skip: set<string>)
    requires pos <= |content| && FirstMatch(content, pos, pat).Some?
    ensures var m := FirstMatch(content, pos, pat).value;
            AddAll(refs, Keep(Captures(content, pos, pat), skip))
            == AddAll(if m.name in skip then refs else Insert(refs, m.name), Keep(Captures(content, m.end, pat), skip))
  {
    var m := FirstMatch(content, pos, pat).value;
    assert Captures(content, pos, pat) == [m.name] + Captures(content, m.end, pat);
    AddKeptHead(refs, m.name, Captures(content, m.end, pat), skip);
  }

  lemma AddKeptHead(refs: seq<string>, x: string, rest: seq<string>, skip: set<string>)
    ensures AddAll(refs, Keep([x] + rest, skip))
            == AddAll(if x in skip then refs else Insert(refs, x), Keep(rest, skip))
  {
    assert ([x] + rest)[1..] == rest;
    var kept := Keep([x] + rest, skip);
    assert kept == (if x in skip then [] else [x]) + Keep(rest, skip);
    if x !in skip {
      assert kept[0] == x && kept[1..] == Keep(rest, skip);
    } else {
      assert kept == Keep(rest, skip);
    }
  }

  /** `extractSkillReferences` on the text of a workflow. */
  method ExtractSkillReferences(content: string) returns (refs: seq<string>)
    ensures refs == SkillReferences(content)
    ensures NoDuplicates(refs)
    ensures forall n :: n in refs <==>
              (n in Captures(content, 0, InlineCode) && n !in StopWords) || n in Captures(content, 0, LoadPhrase)
  {
    refs := AddCaptures([], content, InlineCode, StopWords);
    refs := AddCaptures(refs, content, LoadPhrase, {});
    KeepNothing(Captures(content, 0, LoadPhrase));
    SetSemantics(Keep(Captures(content, 0, InlineCode), StopWords), Captures(content, 0, LoadPhrase));
  }

  /** `extractSubagentReferences` on the text of a workflow. */
  method ExtractSubagentReferences(content: string) returns (refs: seq<string>)
    ensures refs == SubagentReferences(content)
    ensures NoDuplicates(refs)
    ensures forall n :: n in refs <==> n in Captures(content, 0, SubagentCode) || n in Captures(content, 0, TaskCall)
  {
    refs := AddCaptures([], content, SubagentCode, {});
    KeepNothing(Captures(content, 0, SubagentCode));
    refs := AddCaptures(refs, content, TaskCall, {});
    KeepNothing(Captures(content, 0, TaskCall));
    SetSemantics(Captures(content, 0, SubagentCode), Captures(content, 0, TaskCall));
  }

  lemma {:induction false} KeepNothing(xs: seq<string>)
    ensures Keep(xs, {}) == xs
    decreases |xs|
  {
    if xs != [] {
      KeepNothing(xs[1..]);
      assert xs == [xs[0]] + xs[1..];
    }
  }

  /** A Set filled from two passes holds each name of either pass once. */
  lemma SetSemantics(first: seq<string>, second: seq<string>)
    ensures NoDuplicates(AddAll(Dedup(first), second))
    ensures forall n :: n in AddAll(Dedup(first), second) <==> n in first || n in second
  {
    AddAllNoDuplicates([], first);
    AddAllNoDuplicates(Dedup(first), second);
    AddAllMembers([], first);
    AddAllMembers(Dedup(first), second);
  }

  /** Every name the inline-code pass contributes is a non-empty string over
      `[a-z0-9-]` and is not a stop word. */
  lemma InlineNamesAreKebab(content: string)
    ensures forall n :: n in Keep(Captures(content, 0, InlineCode), StopWords) ==>
              |n| > 0 && AllInClass(Kebab, n) && n !in StopWords
  {
  }

  /** Every name the backtick subagent pass contributes ends in `-investigator`,
      `-reviewer`, `-verifier`, `-builder` or `-planner`. */
  lemma SubagentNamesHaveRole(content: string)
    ensures forall n :: n in Captures(content, 0, SubagentCode) ==> HasRoleSuffix(n) && AllInClass(Letters, n)
  {
  }

  /** A document with a backticked skill name and a backticked stop word. */
  const StopWordExample := "`debugging-patterns` `skill`"

  /** A backticked stop word is dropped by the inline-code pass:
      "`debugging-patterns` `skill`" yields only "debugging-patterns". */
  lemma StopWordIsFiltered()
    ensures SkillReferences(StopWordExample) == ["debugging-patterns"]
  {
    ExampleInlineCaptures();
    ExampleNoLoadPhrase();
    ExampleKeep();
    assert Dedup(["debugging-patterns"]) == ["debugging-patterns"];
  }

  lemma ExampleKeep()
    ensures Keep(["debugging-patterns", "skill"], StopWords) == ["debugging-patterns"]
  {
    var xs := ["debugging-patterns", "skill"];
    assert xs[1..] == ["skill"] && ["skill"][1..] == [];
    assert "debugging-patterns" !in StopWords;
    assert Keep(["skill"], StopWords) == [];
  }

  lemma ExampleInlineCaptures()
    ensures Captures(StopWordExample, 0, InlineCode) == ["debugging-patterns", "skill"]
  {
    ExampleFirstCapture();
    ExampleSecondCapture();
  }

  lemma ExampleFirstCapture()
    ensures FirstMatch(StopWordExample, 0, InlineCode) == Some(Match("debugging-patterns", 20))
  {
    var s := StopWordExample;
    assert s == "" + "`" + "debugging-patterns" + "`" + " `skill`";
    BacktickSpan("", "debugging-patterns", " `skill`", Kebab);
    assert MatchAt(s, 0, InlineCode) == Some(Match("debugging-patterns", 20));
    FirstMatchIs(s, 0, 0, InlineCode);
  }

  lemma ExampleSecondCapture()
    ensures Captures(StopWordExample, 20, InlineCode) == ["skill"]
  {
    var s := StopWordExample;
    assert s == "`debugging-patterns` " + "`" + "skill" + "`" + "";
    BacktickSpan("`debugging-patterns` ", "skill", "", Kebab);
    assert MatchAt(s, 20, InlineCode).None?;
    FirstMatchIs(s, 20, 21, InlineCode);
    NoMatchNoCaptures(s, 28, InlineCode);
  }

  lemma ExampleNoLoadPhrase()
    ensures Captures(StopWordExample, 0, LoadPhrase) == []
  {
    assert forall p :: 0 <= p < |StopWordExample| ==> !LoAt(StopWordExample, p);
    NoLoadPhrase(StopWordExample);
  }

  /** The `Load` pass has no stop-word filter: "Load the `skill`" yields "skill". */
  lemma LoadBypassesStopWords()
    ensures "skill" in SkillReferences("Load the `skill`")
  {
    var s := "Load the `skill`";
    LoadSkillMatch();
    assert FirstMatch(s, 0, LoadPhrase) == Some(Match("skill", 16));
    assert "skill" in Captures(s, 0, LoadPhrase);
    AddAllMembers(Dedup(Keep(Captures(s, 0, InlineCode), StopWords)), Captures(s, 0, LoadPhrase));
  }

  lemma LoadSkillMatch()
    ensures MatchAt("Load the `skill`", 0, LoadPhrase) == Some(Match("skill", 16))
  {
    assert LiteralAt("Load the `skill`", 0, "load");
    LoadSkillSpan();
  }

  lemma LoadSkillSpan()
    ensures LazySpanFrom("Load the `skill`", 4) == Some(Match("skill", 16))
  {
    var s := "Load the `skill`";
    assert s == "Load the " + "`" + "skill" + "`" + "";
    BacktickSpan("Load the ", "skill", "", KebabIgnoreCase);
    assert forall q :: 4 <= q < 9 ==> !IsDelimiter(s[q], false) && !IsLineTerminator(s[q]);
    LazySpanIs(s, 4, 9);
  }

  /** A workflow file as the directory listing gives it. */
  datatype WorkflowFile = WorkflowFile(fileName: string, content: string)

  /** A workflow and the references extracted from it. */
  datatype WorkflowRefs = WorkflowRefs(name: string, skills: seq<string>, subagents: seq<string>)

  predicate IsMarkdown(fileName: string) {
    |fileName| >= 3 && fileName[|fileName| - 3..] == ".md"
  }

  /** `path.basename(file, ".md")` for a markdown file name. */
  function WorkflowName(fileName: string): string
    requires IsMarkdown(fileName)
  {
    fileName[..|fileName| - 3]
  }

  /** The record of one markdown workflow file. */
  function RecordOf(f: WorkflowFile): WorkflowRefs
    requires IsMarkdown(f.fileName)
  {
    WorkflowRefs(WorkflowName(f.fileName), SkillReferences(f.content), SubagentReferences(f.content))
  }

  /** One record per markdown file of the listing, in listing order; other
      files are skipped. */
  function Analyzed(files: seq<WorkflowFile>): (ws: seq<WorkflowRefs>)
    ensures |ws| <= |files|
    ensures (forall i :: 0 <= i < |files| ==> IsMarkdown(files[i].fileName)) ==> |ws| == |files|
  {
    if files == [] then []
    else
      var f := files[|files| - 1];
      Analyzed(files[..|files| - 1]) + (if IsMarkdown(f.fileName) then [RecordOf(f)] else [])
  }

  /** The records are exactly those of the markdown files. */
  lemma {:induction false} AnalyzedMembers(files: seq<WorkflowFile>)
    ensures forall w :: w in Analyzed(files) <==>
              exists f :: f in files && IsMarkdown(f.fileName) && w == RecordOf(f)
  {
    if files != [] {
      var init, f := files[..|files| - 1], files[|files| - 1];
      AnalyzedMembers(init);
      assert files == init + [f];
    }
  }

  /** A listing of markdown files only: the i-th record is that of the i-th
      file. */
  lemma {:induction false} AnalyzedInOrder(files: seq<WorkflowFile>)
    requires forall i :: 0 <= i < |files| ==> IsMarkdown(files[i].fileName)
    ensures |Analyzed(files)| == |files|
    ensures forall i :: 0 <= i < |files| ==> Analyzed(files)[i] == RecordOf(files[i])
  {
    if files != [] {
      var init, f := files[..|files| - 1], files[|files| - 1];
      AnalyzedInOrder(init);
      var ws := Analyzed(files);
      var rec := RecordOf(f);
      assert ws == Analyzed(init) + [rec];
      assert ws[|init|] == rec;
      forall i | 0 <= i < |files| ensures ws[i] == RecordOf(files[i]) {
        if i < |init| {
          assert ws[i] == Analyzed(init)[i];
          assert Analyzed(init)[i] == RecordOf(init[i]);
          assert init[i] == files[i];
        } else {
          assert i == |init|;
          assert ws[i] == rec;
        }
      }
    }
  }

  /** `analyzeWorkflows`: the markdown files of the workflows directory, in
      listing order, each with the references extracted from its text. An
      absent directory is passed as the empty listing. */
  method AnalyzeWorkflows(files: seq<WorkflowFile>) returns (ws: seq<WorkflowRefs>)
    ensures ws == Analyzed(files)
    ensures |ws| <= |files|
    ensures forall w :: w in ws <==>
              exists f :: f in files && IsMarkdown(f.fileName) &&
                w == WorkflowRefs(WorkflowName(f.fileName), SkillReferences(f.content), SubagentReferences(f.content))
  {
    ws := [];
    for i := 0 to |files|
      invariant ws == Analyzed(files[..i])
    {
      var f := files[i];
      assert files[..i + 1][..i] == files[..i];
      if IsMarkdown(f.fileName) {
        var skills := ExtractSkillReferences(f.content);
        var subagents := ExtractSubagentReferences(f.content);
        ws := ws + [WorkflowRefs(WorkflowName(f.fileName), skills, subagents)];
      }
    }
    assert files[..|files|] == files;
    AnalyzedMembers(files);
  }
}

/** The skill inventory (`getAllSkills` in scripts/analyze-skill-references.js):
    the sub-directories of the skills directory that hold a `SKILL.md`,
    sorted by name. The directory listing is a parameter; a missing skills
    directory is `None`. */
module Inventory {
  import opened Collections

  /** One entry of the skills directory listing. */
  datatype DirEntry = DirEntry(name: string, isDirectory: bool, hasSkillFile: bool)

  /** A skill: its directory name and the path of its `SKILL.md` relative to
      the skills directory. */
  datatype Skill = Skill(name: string, path: string)

  /** The skill an entry stands for, when it is one. */
  predicate IsSkillEntry(e: DirEntry) {
    e.isDirectory && e.hasSkillFile
  }

  function SkillOf(e: DirEntry): Skill {
    Skill(e.name, e.name + "/SKILL.md")
  }

  /** The skills of a listing, in listing order. */
  function SkillEntries(entries: seq<DirEntry>): (r: seq<Skill>)
    ensures |r| <= |entries|
    ensures forall k :: k in r <==> exists e :: e in entries && IsSkillEntry(e) && k == SkillOf(e)
  {
    if entries == [] then []
    else
      var rest := SkillEntries(entries[1..]);
      assert forall e :: e in entries <==> e == entries[0] || e in entries[1..];
      if IsSkillEntry(entries[0]) then [SkillOf(entries[0])] + rest else rest
  }

  /** Lexicographic order on names, character by character (`a <= b`); a
      prefix comes first. */
  predicate LexLe(a: string, b: string)
    ensures a <= b ==> LexLe(a, b)
  {
    |a| == 0 || (|b| > 0 && (a[0] < b[0] || (a[0] == b[0] && LexLe(a[1..], b[1..]))))
  }

  lemma {:induction false} LexLeTotal(a: string, b: string)
    ensures LexLe(a, b) || LexLe(b, a)
    decreases |a|
  {
    if |a| > 0 && |b| > 0 && a[0] == b[0] {
      LexLeTotal(a[1..], b[1..]);
    }
  }

  lemma {:induction false} LexLeTransitive(a: string, b: string, c: string)
    requires LexLe(a, b) && LexLe(b, c)
    ensures LexLe(a, c)
    decreases |a|
  {
    if |a| > 0 && a[0] == b[0] && b[0] == c[0] {
      LexLeTransitive(a[1..], b[1..], c[1..]);
    }
  }

  predicate SortedByName(s: seq<Skill>) {
    forall i, j :: 0 <= i < j < |s| ==> LexLe(s[i].name, s[j].name)
  }

  /** `x` placed before the first element of `s` it does not follow. */
  function InsertByName(x: Skill, s: seq<Skill>): (r: seq<Skill>)
    ensures multiset(r) == multiset(s) + multiset{x}
  {
    if s == [] then [x]
    else if LexLe(x.name, s[0].name) then [x] + s
    else
      assert s == [s[0]] + s[1..];
      [s[0]] + InsertByName(x, s[1..])
  }

  lemma {:induction false} InsertByNameSorted(x: Skill, s: seq<Skill>)
    requires SortedByName(s)
    ensures SortedByName(InsertByName(x, s))
    decreases |s|
  {
    if s == [] {
    } else if LexLe(x.name, s[0].name) {
      forall j | 0 < j < |s| ensures LexLe(x.name, s[j].name) {
        LexLeTransitive(x.name, s[0].name, s[j].name);
      }
    } else {
      var rest := InsertByName(x, s[1..]);
      InsertByNameSorted(x, s[1..]);
      LexLeTotal(x.name, s[0].name);
      forall k | k in rest ensures LexLe(s[0].name, k.name) {
        assert k in multiset(rest);
      }
      ConsSorted(s[0], rest);
    }
  }

  lemma ConsSorted(h: Skill, s: seq<Skill>)
    requires SortedByName(s)
    requires forall k :: k in s ==> LexLe(h.name, k.name)
    ensures SortedByName([h] + s)
  {
    var r := [h] + s;
    forall i, j | 0 <= i < j < |r| ensures LexLe(r[i].name, r[j].name) {
      if i == 0 {
        assert r[j] in s;
      } else {
        assert r[i] == s[i - 1] && r[j] == s[j - 1];
      }
    }
  }

  /** `skills.sort((a, b) => a.name.localeCompare(b.name))`, as an insertion
      sort by name. */
  function SortByName(s: seq<Skill>): (r: seq<Skill>)
    ensures SortedByName(r)
    ensures multiset(r) == multiset(s)
  {
    if s == [] then []
    else
      assert s == [s[0]] + s[1..];
      InsertByNameSorted(s[0], SortByName(s[1..]));
      InsertByName(s[0], SortByName(s[1..]))
  }

  /** `getAllSkills`: no skills when the directory is missing; otherwise every
      sub-directory that holds a `SKILL.md`, each once, sorted by name. */
  method GetAllSkills(listing: Option<seq<DirEntry>>) returns (skills: seq<Skill>)
    ensures listing.None? ==> skills == []
    ensures listing.Some? ==> multiset(skills) == multiset(SkillEntries(listing.value))
    ensures SortedByName(skills)
  {
    if listing.None? {
      return [];
    }
    var entries := listing.value;
    skills := [];
    for i := 0 to |entries|
      invariant skills + SkillEntries(entries[i..]) == SkillEntries(entries)
    {
      assert entries[i..][1..] == entries[i + 1..];
      var entry := entries[i];
      if entry.isDirectory && entry.hasSkillFile {
        skills := skills + [Skill(entry.name, entry.name + "/SKILL.md")];
      }
    }
    assert entries[|entries|..] == [];
    skills := SortByName(skills);
  }

  /** A skill is in the inventory exactly when a directory of that name
      holds a `SKILL.md`; its path is `<name>/SKILL.md`. */
  lemma InventoryMembers(entries: seq<DirEntry>, skills: seq<Skill>)
    requires multiset(skills) == multiset(SkillEntries(entries))
    ensures forall k :: k in skills <==>
              exists e :: e in entries && e.isDirectory && e.hasSkillFile && k == Skill(e.name, e.name + "/SKILL.md")
  {
    forall k ensures k in skills <==> k in SkillEntries(entries) {
      assert k in skills <==> k in multiset(skills);
      assert k in SkillEntries(entries) <==> k in multiset(SkillEntries(entries));
    }
  }

  /** The names of an inventory, in order. */
  function Names(skills: seq<Skill>): (r: seq<string>)
    ensures |r| == |skills| && forall i :: 0 <= i < |skills| ==> r[i] == skills[i].name
  {
    if skills == [] then [] else [skills[0].name] + Names(skills[1..])
  }
}

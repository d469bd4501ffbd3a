/** The regular expressions the reference analyser runs over a document,
    modelled as explicit scanners with the JavaScript regex engine's
    semantics (leftmost match, greedy `+` and `*`, lazy `*?`, and a global
    regex resuming its search where the previous match ended):

      InlineCode    /`([a-z0-9-]+)`/g
      SubagentCode  /`([a-z-]+-(?:investigator|reviewer|verifier|builder|planner))`/g
      LoadPhrase    /Load.*?`([a-z0-9-]+)`/gi
      TaskCall      /Task\([^)]*subagent[^)]*["']([a-z-]+)["']/gi

    Under the `i` flag an ASCII letter matches both of its cases and no other
    character folds onto an ASCII letter, so `[a-z0-9-]` becomes
    `[a-zA-Z0-9-]`. `.` matches everything but the four line terminators. */
module Patterns {
  import opened Collections

  datatype Pattern = InlineCode | SubagentCode | LoadPhrase | TaskCall

  predicate IsLower(c: char) { 'a' <= c <= 'z' }
  predicate IsUpper(c: char) { 'A' <= c <= 'Z' }
  predicate IsDigit(c: char) { '0' <= c <= '9' }

  predicate IsLineTerminator(c: char) {
    c == '\n' || c == '\r' || c == '\U{2028}' || c == '\U{2029}'
  }

  /** The character classes inside the capture groups. */
  datatype CharClass =
    | Kebab            // [a-z0-9-]
    | KebabIgnoreCase  // [a-z0-9-] under the i flag
    | Letters          // [a-z-]
    | LettersIgnoreCase  // [a-z-] under the i flag

  predicate InClass(k: CharClass, c: char) {
    match k
    case Kebab => IsLower(c) || IsDigit(c) || c == '-'
    case KebabIgnoreCase => IsLower(c) || IsUpper(c) || IsDigit(c) || c == '-'
    case Letters => IsLower(c) || c == '-'
    case LettersIgnoreCase => IsLower(c) || IsUpper(c) || c == '-'
  }

  /** Every character of `name` is in class `k`. */
  predicate AllInClass(k: CharClass, name: string) {
    forall i :: 0 <= i < |name| ==> InClass(k, name[i])
  }

  /** The class of the capture group of each pattern. */
  function CaptureClass(pat: Pattern): CharClass {
    match pat
    case InlineCode => Kebab
    case SubagentCode => Letters
    case LoadPhrase => KebabIgnoreCase
    case TaskCall => LettersIgnoreCase
  }

  const RoleSuffixes: seq<string> := ["investigator", "reviewer", "verifier", "builder", "planner"]

  /** `name` is `w + "-" + role` for a non-empty `w`. */
  predicate EndsWithRole(name: string, role: string) {
    |name| >= |role| + 2 && name[|name| - |role| - 1] == '-' && name[|name| - |role|..] == role
  }

  predicate HasRoleSuffix(name: string) {
    exists i :: 0 <= i < |RoleSuffixes| && EndsWithRole(name, RoleSuffixes[i])
  }

  /** What every capture of `pat` looks like. */
  predicate WellFormedCapture(pat: Pattern, name: string) {
    |name| > 0 && AllInClass(CaptureClass(pat), name) &&
    (pat == SubagentCode ==> HasRoleSuffix(name))
  }

  /** A successful match: the captured name and the index just past the match
      (the regex's next `lastIndex`). */
  datatype Match = Match(name: string, end: nat)

  /** The end of the longest run of class-`k` characters starting at `i`. */
  function RunEnd(s: string, i: nat, k: CharClass): (j: nat)
    requires i <= |s|
    ensures i <= j <= |s|
    ensures forall m :: i <= m < j ==> InClass(k, s[m])
    ensures j == |s| || !InClass(k, s[j])
    decreases |s| - i
  {
    if i < |s| && InClass(k, s[i]) then RunEnd(s, i + 1, k) else i
  }

  /** The delimiter around a capture: a backtick, or either quote in `["']`. */
  predicate IsDelimiter(c: char, quoted: bool) {
    if quoted then c == '"' || c == '\'' else c == '`'
  }

  /** A delimiter, a greedy non-empty run of class `k`, a delimiter, at `p`.
      The delimiters are not in any class, so the greedy run can only end
      right before the closing delimiter. */
  function DelimitedAt(s: string, p: nat, k: CharClass, quoted: bool): (r: Option<Match>)
    requires p <= |s|
    ensures r.Some? ==> p + 3 <= r.value.end <= |s| && r.value.name == s[p + 1..r.value.end - 1]
    ensures r.Some? ==> |r.value.name| > 0 && AllInClass(k, r.value.name)
    ensures r.Some? <==> p < |s| && IsDelimiter(s[p], quoted) && p + 1 < RunEnd(s, p + 1, k) < |s|
                         && IsDelimiter(s[RunEnd(s, p + 1, k)], quoted)
  {
    if p < |s| && IsDelimiter(s[p], quoted) then
      var q := RunEnd(s, p + 1, k);
      if p + 1 < q < |s| && IsDelimiter(s[q], quoted) then Some(Match(s[p + 1..q], q + 1)) else None
    else None
  }

  /** The capture is the whole greedy run: the match ends one past the
      first character after the opening delimiter that leaves the class. */
  lemma DelimitedEndsAfterRun(s: string, p: nat, k: CharClass, quoted: bool)
    requires p <= |s| && DelimitedAt(s, p, k, quoted).Some?
    ensures DelimitedAt(s, p, k, quoted).value.end == RunEnd(s, p + 1, k) + 1
    ensures !InClass(k, s[RunEnd(s, p + 1, k)])
  {
  }

  /** ASCII case folding, as the `i` flag applies it. */
  function FoldCase(c: char): char {
    if IsUpper(c) then (c as int + 32) as char else c
  }

  /** The lower-case literal `lit` occurs at `p` ignoring ASCII case. */
  predicate LiteralAt(s: string, p: nat, lit: string)
    decreases |lit|
  {
    |lit| == 0 || (p < |s| && FoldCase(s[p]) == lit[0] && LiteralAt(s, p + 1, lit[1..]))
  }

  /** `.*?` followed by the backtick capture: try the capture at `j`, and only
      if it fails let `.` consume one more character of the same line. */
  function LazySpanFrom(s: string, j: nat): (r: Option<Match>)
    requires j <= |s|
    ensures r.Some? ==> j < r.value.end <= |s| && |r.value.name| > 0 && AllInClass(KebabIgnoreCase, r.value.name)
    decreases |s| - j
  {
    match DelimitedAt(s, j, KebabIgnoreCase, false)
    case Some(m) => Some(m)
    case None => if j < |s| && !IsLineTerminator(s[j]) then LazySpanFrom(s, j + 1) else None
  }

  /** The index of the first `)` at or after `i`, or `|s|`. */
  function CloseParen(s: string, i: nat): (j: nat)
    requires i <= |s|
    ensures i <= j <= |s| && (j < |s| ==> s[j] == ')')
    ensures forall m :: i <= m < j ==> s[m] != ')'
    decreases |s| - i
  {
    if i == |s| || s[i] == ')' then i else CloseParen(s, i + 1)
  }

  /** The greedy `[^)]*["']([a-z-]+)["']` tail: the quoted name starting at
      the LARGEST position in [lo, hi), found by backtracking from `hi`. */
  function LastQuotedName(s: string, lo: nat, hi: nat): (r: Option<Match>)
    requires lo <= hi <= |s|
    ensures r.Some? ==> lo + 3 <= r.value.end <= |s| && |r.value.name| > 0 && AllInClass(LettersIgnoreCase, r.value.name)
    decreases hi - lo
  {
    if hi <= lo then None
    else
      match DelimitedAt(s, hi - 1, LettersIgnoreCase, true)
      case Some(m) => Some(m)
      case None => LastQuotedName(s, lo, hi - 1)
  }

  /** The greedy `[^)]*subagent` head: the LARGEST position in [lo, hi) where
      `subagent` starts and the rest of the call can still match before the
      closing parenthesis `close`. */
  function SubagentArgument(s: string, lo: nat, hi: nat, close: nat): (r: Option<Match>)
    requires lo <= hi <= close <= |s|
    ensures r.Some? ==> lo + 11 <= r.value.end <= |s| && |r.value.name| > 0 && AllInClass(LettersIgnoreCase, r.value.name)
    decreases hi - lo
  {
    if hi <= lo then None
    else
      var j := hi - 1;
      if j + 8 <= close && LiteralAt(s, j, "subagent") then
        match LastQuotedName(s, j + 8, close)
        case Some(m) => Some(m)
        case None => SubagentArgument(s, lo, j, close)
      else SubagentArgument(s, lo, j, close)
  }

  /** The match of `pat` that starts exactly at `p`, if any. */
  function MatchAt(s: string, p: nat, pat: Pattern): (r: Option<Match>)
    requires p <= |s|
    ensures r.Some? ==> p < r.value.end <= |s| && WellFormedCapture(pat, r.value.name)
  {
    match pat
    case InlineCode => DelimitedAt(s, p, Kebab, false)
    case SubagentCode =>
      var m := DelimitedAt(s, p, Letters, false);
      if m.Some? && HasRoleSuffix(m.value.name) then m else None
    case LoadPhrase =>
      if LiteralAt(s, p, "load") then LazySpanFrom(s, p + 4) else None
    case TaskCall =>
      if LiteralAt(s, p, "task(") then
        var close := CloseParen(s, p + 5);
        SubagentArgument(s, p + 5, close, close)
      else None
  }

  /** One `exec` of the global regex with `lastIndex == i`: the leftmost match
      starting at or after `i`. */
  function FirstMatch(s: string, i: nat, pat: Pattern): (r: Option<Match>)
    requires i <= |s|
    ensures r.Some? ==> i < r.value.end <= |s| && WellFormedCapture(pat, r.value.name)
    decreases |s| - i
  {
    if i == |s| then None
    else
      match MatchAt(s, i, pat)
      case Some(m) => Some(m)
      case None => FirstMatch(s, i + 1, pat)
  }

  /** The captures that `while ((match = re.exec(s)) !== null)` visits once
      `lastIndex` is `i`, in order. */
  function Captures(s: string, i: nat, pat: Pattern): (r: seq<string>)
    requires i <= |s|
    ensures forall n :: n in r ==> WellFormedCapture(pat, n)
    decreases |s| - i
  {
    match FirstMatch(s, i, pat)
    case None => []
    case Some(m) => [m.name] + Captures(s, m.end, pat)
  }

  /** A run that is known to stop at `j` ends at `j`. */
  lemma {:induction false} RunEndIs(s: string, i: nat, j: nat, k: CharClass)
    requires i <= j <= |s|
    requires forall m :: i <= m < j ==> InClass(k, s[m])
    requires j == |s| || !InClass(k, s[j])
    ensures RunEnd(s, i, k) == j
    decreases j - i
  {
    if i < j {
      RunEndIs(s, i + 1, j, k);
    }
  }

  /** The characters at `p` fold to `lit`, so `lit` occurs there. */
  lemma {:induction false} LiteralAtIs(s: string, p: nat, lit: string)
    requires p + |lit| <= |s|
    requires forall i :: 0 <= i < |lit| ==> FoldCase(s[p + i]) == lit[i]
    ensures LiteralAt(s, p, lit)
    decreases |lit|
  {
    if |lit| > 0 {
      assert FoldCase(s[p + 0]) == lit[0];
      LiteralAtIs(s, p + 1, lit[1..]);
    }
  }

  /** Backtracking from `hi` passes over positions where no quoted name
      starts. */
  lemma {:induction false} LastQuotedNameSkips(s: string, lo: nat, p: nat, hi: nat)
    requires lo <= p < hi <= |s|
    requires forall q :: p < q < hi ==> DelimitedAt(s, q, LettersIgnoreCase, true).None?
    ensures LastQuotedName(s, lo, hi) == LastQuotedName(s, lo, p + 1)
    decreases hi - p
  {
    if p + 1 < hi {
      LastQuotedNameSkips(s, lo, p, hi - 1);
    }
  }

  /** Backtracking from `hi` passes over positions where `subagent` does not
      start. */
  lemma {:induction false} SubagentArgumentSkips(s: string, lo: nat, p: nat, hi: nat, close: nat)
    requires lo <= p < hi <= close <= |s|
    requires forall j :: p < j < hi ==> !(j + 8 <= close && LiteralAt(s, j, "subagent"))
    ensures SubagentArgument(s, lo, hi, close) == SubagentArgument(s, lo, p + 1, close)
    decreases hi - p
  {
    if p + 1 < hi {
      SubagentArgumentSkips(s, lo, p, hi - 1, close);
    }
  }

  /** `exec` from `i` returns the match at `p` when nothing matches in between. */
  lemma {:induction false} FirstMatchIs(s: string, i: nat, p: nat, pat: Pattern)
    requires i <= p < |s| && MatchAt(s, p, pat).Some?
    requires forall q :: i <= q < p ==> MatchAt(s, q, pat).None?
    ensures FirstMatch(s, i, pat) == MatchAt(s, p, pat)
    decreases p - i
  {
    if i < p {
      FirstMatchIs(s, i + 1, p, pat);
    }
  }

  /** The lazy `.*?` stops at the first position of the line where the
      backtick capture matches. */
  lemma {:induction false} LazySpanIs(s: string, j: nat, p: nat)
    requires j <= p <= |s| && DelimitedAt(s, p, KebabIgnoreCase, false).Some?
    requires forall q :: j <= q < p ==> DelimitedAt(s, q, KebabIgnoreCase, false).None? && !IsLineTerminator(s[q])
    ensures LazySpanFrom(s, j) == DelimitedAt(s, p, KebabIgnoreCase, false)
    decreases p - j
  {
    if j < p {
      LazySpanIs(s, j + 1, p);
    }
  }

  /** Where `pat` matches nowhere from `i` on, the `exec` loop visits nothing. */
  lemma {:induction false} NoMatchNoCaptures(s: string, i: nat, pat: Pattern)
    requires i <= |s|
    requires forall p :: i <= p < |s| ==> MatchAt(s, p, pat).None?
    ensures FirstMatch(s, i, pat) == None && Captures(s, i, pat) == []
    decreases |s| - i
  {
    if i < |s| {
      NoMatchNoCaptures(s, i + 1, pat);
    }
  }

  /** A name of class `k` between two backticks is captured whole. */
  lemma BacktickSpan(pre: string, name: string, post: string, k: CharClass)
    requires |name| > 0 && AllInClass(k, name) && !InClass(k, '`')
    ensures var s := pre + "`" + name + "`" + post;
            DelimitedAt(s, |pre|, k, false) == Some(Match(name, |pre| + |name| + 2))
  {
    var s := pre + "`" + name + "`" + post;
    var p := |pre|;
    assert s[p] == '`' && s[p + |name| + 1] == '`';
    forall m | p + 1 <= m < p + |name| + 1 ensures InClass(k, s[m]) {
      assert s[m] == name[m - p - 1];
    }
    RunEndIs(s, p + 1, p + |name| + 1, k);
    assert s[p + 1..p + |name| + 1] == name;
  }

  /** `lo`, in any case, occurs at `p`. */
  predicate LoAt(s: string, p: nat) {
    p + 1 < |s| && FoldCase(s[p]) == 'l' && FoldCase(s[p + 1]) == 'o'
  }

  /** A text in which `l` is never followed by `o` (in any case) has no
      `Load` phrase. */
  lemma NoLoadPhrase(s: string)
    requires forall p :: 0 <= p < |s| ==> !LoAt(s, p)
    ensures Captures(s, 0, LoadPhrase) == []
  {
    forall p | 0 <= p < |s| ensures MatchAt(s, p, LoadPhrase).None? {
      assert !LoAt(s, p);
    }
    NoMatchNoCaptures(s, 0, LoadPhrase);
  }
}

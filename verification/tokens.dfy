/** Token efficiency (`estimateTokens` and `measureTokenEfficiency` in
    scripts/measure-tokens.js): token counts estimated from line counts, at
    80 characters a line and 4 characters a token. */
module Tokens {
  import opened Collections
  import opened Numeric
  import opened Metrics

  const CharsPerToken: nat := 4
  const CharsPerLine: nat := 80

  /** `text.length` of a JavaScript string: its UTF-16 code units, two for
      a character outside the Basic Multilingual Plane (a surrogate pair). */
  function Utf16Length(text: string): (n: nat)
    ensures |text| <= n <= 2 * |text|
    ensures (forall i :: 0 <= i < |text| ==> text[i] as int < 0x1_0000) ==> n == |text|
  {
    if text == [] then 0
    else
      assert forall i :: 0 <= i < |text| - 1 ==> text[1..][i] == text[i + 1];
      (if text[0] as int >= 0x1_0000 then 2 else 1) + Utf16Length(text[1..])
  }

  /** `Math.ceil(text.length / 4)`: the fewest tokens of four UTF-16 code
      units that cover the text. */
  function EstimateTokens(text: string): (n: nat)
    ensures CharsPerToken * n >= Utf16Length(text)
    ensures n > 0 ==> CharsPerToken * (n - 1) < Utf16Length(text)
  {
    (Utf16Length(text) + CharsPerToken - 1) / CharsPerToken
  }

  /** Three emoji are six code units, hence two tokens. */
  lemma EstimateCountsSurrogatePairs()
    ensures EstimateTokens("\U{1F600}\U{1F600}\U{1F600}") == 2
  {
    var e := "\U{1F600}\U{1F600}\U{1F600}";
    assert e[1..][1..][1..] == [];
    assert Utf16Length(e) == 6;
  }

  /** `Math.round(((parseInt(lines) || 0) * 80) / 4)`. */
  function CategoryTokens(lines: Option<nat>): (t: nat)
    ensures t == 20 * Lines(lines)
  {
    var exact := (Lines(lines) * CharsPerLine) as real / CharsPerToken as real;
    assert exact == (20 * Lines(lines)) as real;
    assert Round(exact) == 20 * Lines(lines);
    Round(exact)
  }

  /** The token figures of one metrics record. */
  datatype Snapshot = Snapshot(
    skillsTokens: nat, hooksTokens: nat, subagentsTokens: nat, totalTokens: nat,
    avgTokensPerSkill: int, skillsCount: nat)

  function SnapshotOf(m: Metrics): (s: Snapshot)
    ensures s.skillsTokens == CategoryTokens(m.skillsLines) && s.hooksTokens == CategoryTokens(m.hooksLines)
    ensures s.subagentsTokens == CategoryTokens(m.subagentsLines)
    ensures s.totalTokens == s.skillsTokens + s.hooksTokens + s.subagentsTokens
    ensures s.totalTokens == 20 * (Lines(m.skillsLines) + Lines(m.hooksLines) + Lines(m.subagentsLines))
    ensures s.skillsCount == m.skillsCount
    ensures s.avgTokensPerSkill == Average(s.skillsTokens, m.skillsCount)
  {
    var skills := CategoryTokens(m.skillsLines);
    var hooks := CategoryTokens(m.hooksLines);
    var subagents := CategoryTokens(m.subagentsLines);
    Snapshot(skills, hooks, subagents, skills + hooks + subagents, Average(skills, m.skillsCount), m.skillsCount)
  }

  datatype Improvement = Better | Worse

  datatype TokenResult = TokenResult(
    pre: Snapshot, post: Snapshot,
    tokensSaved: int, consolidationEfficiency: real, reductionRatio: real, improvement: Improvement)

  /** `measureTokenEfficiency` on the two metrics records. */
  function MeasureTokenEfficiency(pre: Metrics, post: Metrics): (r: TokenResult)
    ensures r.pre == SnapshotOf(pre) && r.post == SnapshotOf(post)
    ensures r.tokensSaved == r.pre.totalTokens - r.post.totalTokens
    ensures r.improvement == Better <==> r.tokensSaved > 0
    ensures r.consolidationEfficiency == ReductionPercent(r.pre.totalTokens, r.post.totalTokens)
    ensures r.pre.totalTokens == 0 ==> r.consolidationEfficiency == 0.0 && r.reductionRatio == 0.0
    ensures r.pre.totalTokens > 0 ==> r.reductionRatio == RatioPercent(r.post.totalTokens, r.pre.totalTokens)
  {
    var p := SnapshotOf(pre);
    var q := SnapshotOf(post);
    var saved := p.totalTokens - q.totalTokens;
    TokenResult(p, q, saved,
                ReductionPercent(p.totalTokens, q.totalTokens),
                if p.totalTokens > 0 then RatioPercent(q.totalTokens, p.totalTokens) else 0.0,
                if saved > 0 then Better else Worse)
  }

  /** Before rounding, the efficiency and the reduction ratio of a positive
      total add up to 100; after rounding each to two decimals they are off
      by at most a hundredth. */
  lemma EfficiencyAndRatioComplement(pre: Metrics, post: Metrics)
    requires SnapshotOf(pre).totalTokens > 0
    ensures var b, a := SnapshotOf(pre).totalTokens, SnapshotOf(post).totalTokens;
            Share(b - a, b) + Share(a, b) == 100.0
    ensures var r := MeasureTokenEfficiency(pre, post);
            99.99 <= r.consolidationEfficiency + r.reductionRatio <= 100.01
  {
    var b, a := SnapshotOf(pre).totalTokens, SnapshotOf(post).totalTokens;
    ShareComplement(b, a);
  }

  /** A record with no line counts at all costs no tokens. */
  lemma MissingLinesCostNothing(m: Metrics)
    requires m.skillsLines.None? && m.hooksLines.None? && m.subagentsLines.None?
    ensures SnapshotOf(m).totalTokens == 0 && SnapshotOf(m).avgTokensPerSkill == 0
  {
  }

  /** Fewer counted lines after the refactor means tokens saved. */
  lemma FewerLinesIsBetter(pre: Metrics, post: Metrics)
    requires Lines(post.skillsLines) + Lines(post.hooksLines) + Lines(post.subagentsLines)
             < Lines(pre.skillsLines) + Lines(pre.hooksLines) + Lines(pre.subagentsLines)
    ensures MeasureTokenEfficiency(pre, post).improvement == Better
    ensures 0.0 <= MeasureTokenEfficiency(pre, post).consolidationEfficiency
    ensures MeasureTokenEfficiency(pre, post).reductionRatio <= 100.0
  {
  }
}

/** The metrics record the measurement scripts read from a `metrics.json`
    file (the file is produced outside the scripts modelled here). */
module Metrics {
  import opened Collections
  import opened Numeric

  /** The fields the scripts read.
      - Counts the scripts only compare or divide (`skills_count`,
        `skill_md_count`) are naturals.
      - Fields the scripts read with `|| 0` or `|| []`, and counts they only
        pass through, are optional: `None` is a missing field.
      - Line counts go through `parseInt(x) || 0`; a missing or non-numeric
        value is `None`. */
  datatype Metrics = Metrics(
    skillsCount: nat,
    skillsFilesCount: Option<nat>,
    skillMdCount: nat,
    patternsMdCount: Option<nat>,
    referenceMdCount: Option<nat>,
    skillsLines: Option<nat>,
    allSkillFilesLines: Option<nat>,
    hooksLines: Option<nat>,
    subagentsLines: Option<nat>,
    skillNames: Option<seq<string>>,
    hookNames: Option<seq<string>>,
    subagentNames: Option<seq<string>>)

  /** `parseInt(field) || 0`. */
  function Lines(field: Option<nat>): nat {
    field.GetOr(0)
  }

  /** `count > 0 ? Math.round(total / count) : 0`: the nearest whole number
      to the mean, which never exceeds the total. */
  function Average(total: nat, count: nat): (a: int)
    ensures count == 0 ==> a == 0
    ensures count > 0 ==> (a as real - 0.5) * (count as real) <= total as real
    ensures count > 0 ==> total as real < (a as real + 0.5) * (count as real)
    ensures 0 <= a <= total
  {
    if count > 0 then
      var c := count as real;
      var x := total as real / c;
      QuotientBounds(total as real, c);
      var r := Round(x);
      RoundedMeanBounds(total as real, c, r);
      r
    else 0
  }

  lemma QuotientBounds(t: real, c: real)
    requires t >= 0.0 && c >= 1.0
    ensures 0.0 <= t / c <= t && t / c * c == t
  {
    var x := t / c;
    assert x * c == t;
    if x > t {
      assert x * c > t * c;
      assert t * c >= t;
    }
  }

  /** A whole number within half of `t / c` is within half a `c` of `t`
      once scaled. */
  lemma RoundedMeanBounds(t: real, c: real, r: int)
    requires c > 0.0 && r as real - 0.5 <= t / c < r as real + 0.5
    ensures (r as real - 0.5) * c <= t
    ensures t < (r as real + 0.5) * c
  {
    var y := t / c;
    assert y * c == t;
    Scaled(y, c, r as real - 0.5, r as real + 0.5);
  }

  lemma Scaled(y: real, c: real, lo: real, hi: real)
    requires c > 0.0 && lo <= y < hi
    ensures lo * c <= y * c < hi * c
  {
    MulNonnegative(y - lo, c);
    MulPositive(hi - y, c);
  }
}

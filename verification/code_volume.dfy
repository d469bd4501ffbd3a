/** Code volume (`measureCodeVolume` in scripts/measure-code-volume.js): the
    counts of a metrics record passed through, its line counts defaulted to
    0, and the derived total and per-skill average. */
module CodeVolume {
  import opened Collections
  import opened Metrics

  datatype Volume = Volume(
    totalSkills: nat,
    totalFiles: Option<nat>,
    skillMdFiles: nat,
    patternsMdFiles: Option<nat>,
    referenceMdFiles: Option<nat>,
    skillsLines: nat,
    allSkillFilesLines: nat,
    hooksLines: nat,
    subagentsLines: nat,
    totalLines: nat,
    averageLinesPerSkill: int)

  /** `measureCodeVolume` on a metrics record. */
  function MeasureCodeVolume(m: Metrics): (v: Volume)
    ensures v.totalSkills == m.skillsCount && v.totalFiles == m.skillsFilesCount && v.skillMdFiles == m.skillMdCount
    ensures v.patternsMdFiles == m.patternsMdCount && v.referenceMdFiles == m.referenceMdCount
    ensures v.skillsLines == Lines(m.skillsLines) && v.allSkillFilesLines == Lines(m.allSkillFilesLines)
    ensures v.hooksLines == Lines(m.hooksLines) && v.subagentsLines == Lines(m.subagentsLines)
    ensures v.totalLines == v.allSkillFilesLines + v.hooksLines + v.subagentsLines
    ensures v.averageLinesPerSkill == Average(Lines(m.allSkillFilesLines), m.skillsCount)
    ensures m.skillsCount == 0 ==> v.averageLinesPerSkill == 0
    ensures 0 <= v.averageLinesPerSkill <= v.allSkillFilesLines
  {
    var all := Lines(m.allSkillFilesLines);
    var hooks := Lines(m.hooksLines);
    var subagents := Lines(m.subagentsLines);
    Volume(m.skillsCount, m.skillsFilesCount, m.skillMdCount, m.patternsMdCount, m.referenceMdCount,
           Lines(m.skillsLines), all, hooks, subagents,
           all + hooks + subagents,
           Average(all, m.skillsCount))
  }

  /** `skills_lines` is reported but not added into the total: changing it
      changes no other figure. */
  lemma TotalIgnoresSkillsLines(m: Metrics, lines: Option<nat>)
    ensures MeasureCodeVolume(m.(skillsLines := lines)).totalLines == MeasureCodeVolume(m).totalLines
    ensures MeasureCodeVolume(m.(skillsLines := lines)).averageLinesPerSkill == MeasureCodeVolume(m).averageLinesPerSkill
  {
  }

  /** Missing line fields read as 0. */
  lemma MissingLinesAreZero(m: Metrics)
    requires m.allSkillFilesLines.None? && m.hooksLines.None? && m.subagentsLines.None?
    ensures MeasureCodeVolume(m).totalLines == 0 && MeasureCodeVolume(m).averageLinesPerSkill == 0
  {
  }

  /** One skill: the average is all of its lines. */
  lemma SingleSkillAverage(m: Metrics)
    requires m.skillsCount == 1
    ensures MeasureCodeVolume(m).averageLinesPerSkill == Lines(m.allSkillFilesLines)
  {
    var all := Lines(m.allSkillFilesLines);
    var a := Average(all, 1);
    assert (a as real - 0.5) * 1.0 <= all as real < (a as real + 0.5) * 1.0;
  }
}

/**
 * The two record shapes of the knowledge base, shared by the chat widget's
 * props and the chat route's request body, and the `name (level%)` rendering
 * of a skill that both of them use.
 */
module Profile {
  import opened Strings

  /** A skill row: a display name and a proficiency percentage. */
  datatype Skill = Skill(name: string, level: int)

  /** A work-history entry; achievements keep their listed order. */
  datatype Experience = Experience(
    company: string,
    role: string,
    period: string,
    description: string,
    achievements: seq<string>)

  /** `${skill.name} (${skill.level}%)`. */
  function FormatSkill(s: Skill): (r: string)
    ensures StartsWith(r, s.name)
    ensures EndsWith(r, " (" + IntToString(s.level) + "%)")
    ensures |r| == |s.name| + |IntToString(s.level)| + 4
  {
    s.name + " (" + IntToString(s.level) + "%)"
  }

  /** Each skill of the list rendered by FormatSkill, in list order. */
  function FormatSkills(skills: seq<Skill>): (r: seq<string>)
    ensures |r| == |skills|
    ensures forall i :: 0 <= i < |r| ==> r[i] == FormatSkill(skills[i])
  {
    if skills == [] then [] else [FormatSkill(skills[0])] + FormatSkills(skills[1..])
  }

  /** The level can be read back from the end of a rendered skill. */
  lemma FormatSkillLevelReadsBack(s: Skill)
    ensures var r := FormatSkill(s);
            var digits := r[|s.name| + 2..|r| - 2];
            digits == IntToString(s.level) && ParseInt(digits) == s.level
  {
    var r := FormatSkill(s);
    assert r[|s.name| + 2..|r| - 2] == IntToString(s.level);
    IntToStringRoundTrip(s.level);
  }
}

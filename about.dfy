/**
 * The about page: which accordion panel is expanded, and the skill tables whose
 * level names are looked up in the level-colour table.
 */
module About {

  // ---------------------------------------------------------------------------
  // Accordion

  datatype Panel = Intro | Timeline | Philosophy | Interests | Hobbies

  /** The `expanded` state: one panel's id, or `false` when every panel is closed. */
  datatype Expanded = Open(panel: Panel) | Closed

  /** On mount the introduction is open. */
  const InitialExpanded: Expanded := Open(Intro)

  /** The accordion `p` is drawn expanded when the state holds its id (`expanded === 'p'`). */
  predicate IsExpanded(e: Expanded, p: Panel) {
    e == Open(p)
  }

  /** The initial state expands the introduction and nothing else. */
  lemma InitialOpensIntro()
    ensures IsExpanded(InitialExpanded, Intro)
    ensures forall q :: q != Intro ==> !IsExpanded(InitialExpanded, q)
  {
  }

  /** Whatever the state, at most one panel is drawn expanded. */
  lemma AtMostOneExpanded(e: Expanded, p: Panel, q: Panel)
    requires IsExpanded(e, p) && IsExpanded(e, q)
    ensures p == q
  {
  }

  /**
   * The change handler of panel `panel`: opening it makes it the only expanded panel,
   * closing it leaves every panel closed. The previous state does not matter.
   */
  function HandleChange(panel: Panel, isExpanded: bool): (next: Expanded)
    ensures isExpanded ==> IsExpanded(next, panel)
    ensures isExpanded ==> forall q :: q != panel ==> !IsExpanded(next, q)
    ensures !isExpanded ==> forall q :: !IsExpanded(next, q)
  {
    if isExpanded then Open(panel) else Closed
  }

  /**
   * A click on a panel's summary: the accordion reports the opposite of the panel's
   * current state as `isExpanded`.
   */
  function Click(e: Expanded, panel: Panel): (next: Expanded)
    ensures IsExpanded(next, panel) <==> !IsExpanded(e, panel)
    ensures forall q :: q != panel ==> !IsExpanded(next, q)
  {
    HandleChange(panel, !IsExpanded(e, panel))
  }

  /** Clicking the open panel closes all; clicking it again reopens it alone. */
  lemma ClickTwiceOnOpen(panel: Panel)
    ensures Click(Open(panel), panel) == Closed
    ensures Click(Click(Open(panel), panel), panel) == Open(panel)
  {
  }

  /** Clicking a closed panel opens it, replacing whichever panel was open. */
  lemma ClickOpensClosedPanel(e: Expanded, panel: Panel)
    requires !IsExpanded(e, panel)
    ensures Click(e, panel) == Open(panel)
  {
  }

  // ---------------------------------------------------------------------------
  // Skill tables

  const SkillLevelColors: map<string, string> := map[
    "upper" := "#D4AF37",
    "middle" := "#C0C0C0",
    "lower" := "#CD7F32"]

  datatype Skill = Skill(name: string, level: string)

  datatype Category = Category(category: string, skills: seq<Skill>)

  const SkillsData: seq<Category> := [
    Category("Main Course", [
      Skill("React", "upper"),
      Skill("JavaScript", "upper"),
      Skill("TypeScript", "middle")]),
    Category("Side Dishes", [
      Skill("CSS3", "upper"),
      Skill("Supabase", "middle"),
      Skill("Git", "middle")])]

  /** The levels of the colour legend, in the order it lists them. */
  const LegendLevels: seq<string> := ["upper", "middle", "lower"]

  /** Every level name used by the skills and by the legend has a colour. */
  predicate LevelsColoured(categories: seq<Category>, legend: seq<string>) {
    && (forall c, s :: 0 <= c < |categories| && 0 <= s < |categories[c].skills| ==>
          categories[c].skills[s].level in SkillLevelColors)
    && (forall l :: 0 <= l < |legend| ==> legend[l] in SkillLevelColors)
  }

  /** The colour lookup of a skill, defined whenever its level is a key of the colour table. */
  function SkillColor(skill: Skill): (c: string)
    requires skill.level in SkillLevelColors
    ensures c == SkillLevelColors[skill.level] && |c| == 7 && c[0] == '#'
  {
    SkillLevelColors[skill.level]
  }

  /** The shipped tables are consistent: no lookup of a skill's or the legend's level is undefined. */
  lemma ShippedLevelsColoured()
    ensures LevelsColoured(SkillsData, LegendLevels)
  {
    assert SkillsData[0].skills[0].level == "upper";
  }

  /** The bottom margin of category `index` of `count`: 4 between categories, 0 after the last. */
  function CategoryMargin(index: nat, count: nat): int {
    if index < count - 1 then 4 else 0
  }

  /** The shipped table has two categories: the first gets bottom margin 4 and the last gets 0. */
  lemma CategoryMargins()
    ensures |SkillsData| == 2
    ensures CategoryMargin(0, |SkillsData|) == 4 && CategoryMargin(1, |SkillsData|) == 0
    ensures forall i :: 0 <= i < |SkillsData| ==> (CategoryMargin(i, |SkillsData|) == 0 <==> i == |SkillsData| - 1)
  {
  }
}

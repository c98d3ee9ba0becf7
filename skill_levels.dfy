/**
 * The proficiency scale shared by the add and edit dialogs: a slider over
 * the levels 1..5 and the description shown under it, indexed by level.
 * Both dialogs declare the same six-entry table; it is modelled once here.
 */
module SkillLevels {

  const MinLevel := 1
  const MaxLevel := 5

  /** Index 0 is an unused placeholder; index l describes level l. */
  const LevelDescriptions: seq<string> := [
    "",
    "Beginner - Basic knowledge",
    "Intermediate - Working knowledge",
    "Advanced - Strong proficiency",
    "Expert - Deep expertise",
    "Master - Industry leading"
  ]

  /** Every level the slider can produce has a non-empty description. */
  lemma EveryLevelDescribed(level: int)
    requires MinLevel <= level <= MaxLevel
    ensures level < |LevelDescriptions|
    ensures LevelDescriptions[level] != ""
  {
  }

  /** The table has no entry past the top of the slider, and distinct levels are described differently. */
  lemma DescriptionsMatchSlider()
    ensures |LevelDescriptions| == MaxLevel + 1
    ensures forall l, m :: MinLevel <= l < m <= MaxLevel ==> LevelDescriptions[l] != LevelDescriptions[m]
  {
  }
}

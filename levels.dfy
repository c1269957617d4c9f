/** The ten-rung level ladder (`setupLevelSystem`) and `calculateLevel`. */
module Levels {

  const MinLevel: int := 1
  const MaxLevel: int := 10

  predicate IsLevel(i: int) { MinLevel <= i <= MaxLevel }

  /** `levels[i].xpRequired`. */
  function XpRequired(i: int): (xp: int)
    requires IsLevel(i)
    ensures i == 1 ==> xp == 0
  {
    match i
    case 1 => 0
    case 2 => 100
    case 3 => 250
    case 4 => 500
    case 5 => 1000
    case 6 => 2000
    case 7 => 4000
    case 8 => 8000
    case 9 => 15000
    case _ => 25000
  }

  /** `levels[i].name`. */
  function LevelName(i: int): string
    requires IsLevel(i)
  {
    match i
    case 1 => "Seedling"
    case 2 => "Sprout"
    case 3 => "Sapling"
    case 4 => "Young Tree"
    case 5 => "Flourishing Tree"
    case 6 => "Wise Oak"
    case 7 => "Guardian Tree"
    case 8 => "Ancient Wisdom"
    case 9 => "Life Beacon"
    case _ => "Wellness Sage"
  }

  /** `getCurrentLevelName`: the rung's name, or "Seedling" when the level
      is not a rung of the ladder (no rung's name is empty, so `||` falls
      back only then). */
  function CurrentLevelName(level: int): (name: string)
    ensures IsLevel(level) ==> name == LevelName(level) && name != ""
    ensures !IsLevel(level) ==> name == "Seedling"
  {
    if IsLevel(level) && LevelName(level) != "" then LevelName(level) else "Seedling"
  }

  /** The ladder climbs strictly. */
  lemma LadderIncreasing(i: int, j: int)
    requires IsLevel(i) && IsLevel(j) && i < j
    ensures XpRequired(i) < XpRequired(j)
  {
  }

  /** The level earned by `xp`: the highest rung of the ladder at or below
      it, scanning down from the top rung; when no rung qualifies (negative
      `xp`) the level stays 1. */
  function LevelFrom(xp: int, i: int): (level: int)
    requires 0 <= i <= MaxLevel
    ensures MinLevel <= level <= MaxLevel
    ensures level <= i || level == MinLevel
    decreases i
  {
    if i < MinLevel then MinLevel
    else if xp >= XpRequired(i) then i
    else LevelFrom(xp, i - 1)
  }

  function LevelOf(xp: int): (level: int)
    ensures IsLevel(level)
  {
    LevelFrom(xp, MaxLevel)
  }

  /** `LevelOf(xp)` is the largest level whose requirement `xp` meets, and 1
      when there is none. */
  lemma LevelOfSpec(xp: int)
    ensures xp >= 0 ==> xp >= XpRequired(LevelOf(xp))
    ensures forall j :: LevelOf(xp) < j <= MaxLevel ==> xp < XpRequired(j)
    ensures xp < 0 ==> LevelOf(xp) == MinLevel
  {
    LevelFromSpec(xp, MaxLevel);
  }

  lemma {:induction false} LevelFromSpec(xp: int, i: int)
    requires 0 <= i <= MaxLevel
    ensures xp >= 0 ==> xp >= XpRequired(LevelFrom(xp, i))
    ensures forall j :: LevelFrom(xp, i) < j <= i ==> xp < XpRequired(j)
    ensures xp < 0 ==> LevelFrom(xp, i) == MinLevel
    decreases i
  {
    if i >= MinLevel && xp < XpRequired(i) {
      LevelFromSpec(xp, i - 1);
    }
  }

  /** More experience never means a lower level. */
  lemma LevelMonotone(x: int, y: int)
    requires x <= y
    ensures LevelOf(x) <= LevelOf(y)
  {
    LevelOfSpec(x);
    LevelOfSpec(y);
    if LevelOf(y) < LevelOf(x) {
      LadderIncreasing(1, LevelOf(x));
    }
  }

  /** Levels at the rung boundaries, and for negative experience. */
  lemma LevelExamples()
    ensures LevelOf(0) == 1 && LevelOf(99) == 1 && LevelOf(100) == 2
    ensures LevelOf(249) == 2 && LevelOf(250) == 3
    ensures LevelOf(24999) == 9 && LevelOf(25000) == 10 && LevelOf(1000000) == 10
    ensures LevelOf(-5) == 1
  {
  }

  /** `calculateLevel`: the countdown from rung 10 that stops at the first
      rung `xp` reaches. */
  method CalculateLevel(xp: int) returns (level: int)
    ensures level == LevelOf(xp)
  {
    level := 1;
    var i := MaxLevel;
    while i >= MinLevel
      invariant 0 <= i <= MaxLevel
      invariant LevelFrom(xp, MaxLevel) == LevelFrom(xp, i)
      invariant level == 1
    {
      if xp >= XpRequired(i) {
        level := i;
        break;
      }
      i := i - 1;
    }
  }
}

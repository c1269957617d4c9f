/** The virtual garden (`createVirtualGarden`) and what one pass of
    `updateGarden` does to it. */
module Garden {
  import opened Basics
  import opened Store
  import Achievements

  datatype ElementId = HopeFlower | StrengthTree | WisdomOak | PeaceLotus | JoySunflower

  datatype GrowthCondition =
    | CompleteFirstTask | WeekStreak | LearningTasks10 | MindfulnessTasks5 | GoodMoodStreak7

  /** One entry of `gardenElements`. `stageCount` is the length of
      `growthStages`; the stage pictures themselves are display text
      (`StagePictures`). */
  datatype GardenElement = GardenElement(
    id: ElementId,
    unlockCondition: GrowthCondition,
    stageCount: int,
    currentStage: int,
    happiness: int)

  /** `virtualGarden`; its `plants` list is never written and is left out. */
  datatype VirtualGarden = VirtualGarden(happiness: int, growth: int)

  const InitialGarden: VirtualGarden := VirtualGarden(0, 0)

  function ElementAt(i: int): (e: GardenElement)
    ensures e.stageCount == 4 && e.currentStage == 0 && e.happiness > 0
  {
    match i
    case 0 => GardenElement(HopeFlower, CompleteFirstTask, 4, 0, 10)
    case 1 => GardenElement(StrengthTree, WeekStreak, 4, 0, 25)
    case 2 => GardenElement(WisdomOak, LearningTasks10, 4, 0, 30)
    case 3 => GardenElement(PeaceLotus, MindfulnessTasks5, 4, 0, 20)
    case _ => GardenElement(JoySunflower, GoodMoodStreak7, 4, 0, 35)
  }

  /** `createVirtualGarden`: five elements, each at its first of four
      stages. */
  function InitialElements(): (es: seq<GardenElement>)
    ensures |es| == 5
    ensures forall i :: 0 <= i < |es| ==> WellStaged(es[i]) && es[i].currentStage == 0
  {
    seq(5, i => ElementAt(i))
  }

  /** `growthStages`, the picture of each stage. */
  function StagePictures(id: ElementId): seq<string>
  {
    match id
    case HopeFlower => ["🌱", "🌿", "🌸", "🌺"]
    case StrengthTree => ["🌱", "🌿", "🌳", "🌲"]
    case WisdomOak => ["🌰", "🌿", "🍃", "🌳"]
    case PeaceLotus => ["🌱", "🍀", "🪷", "🌺"]
    case JoySunflower => ["🌱", "🌿", "🌻", "🌞"]
  }

  /** Every initial element has one stage per picture in its
      `growthStages`, so a valid stage always indexes a picture. */
  lemma StagesPictured(i: nat)
    requires i < |InitialElements()|
    ensures |StagePictures(InitialElements()[i].id)| == InitialElements()[i].stageCount
  {
  }

  /** The stage indexes a stage picture. */
  predicate WellStaged(e: GardenElement)
  {
    0 <= e.currentStage < e.stageCount
  }

  // ---------------------------------------------------------------------
  // Growth conditions

  /** A good mood: value 4 or more. */
  predicate GoodMood(e: MoodEntry) { e.mood.value >= 4 }

  /** `slice(-7)`: the last seven entries, or all of them when fewer. */
  function LastSeven(entries: seq<MoodEntry>): (r: seq<MoodEntry>)
    ensures |r| == if |entries| < 7 then |entries| else 7
    ensures r == entries[|entries| - |r|..]
  {
    if |entries| < 7 then entries else entries[|entries| - 7..]
  }

  predicate ShouldGrow(c: GrowthCondition, d: WellnessRecord)
  {
    match c
    case CompleteFirstTask => d.tasksCompleted >= 1
    case WeekStreak => d.streak >= 7
    case LearningTasks10 => Achievements.CompletedIn(d, Learning) >= 10
    case MindfulnessTasks5 => Achievements.CompletedIn(d, Mindfulness) >= 5
    case GoodMoodStreak7 => Count(LastSeven(d.moodEntries), GoodMood) >= 7
  }

  /** The joy sunflower grows exactly when there are at least seven mood
      entries and the last seven are all good. */
  lemma GoodMoodStreakMeaning(d: WellnessRecord)
    ensures ShouldGrow(GoodMoodStreak7, d) <==>
      |d.moodEntries| >= 7 &&
      forall i :: |d.moodEntries| - 7 <= i < |d.moodEntries| ==> d.moodEntries[i].mood.value >= 4
  {
    var n := |d.moodEntries|;
    var last := LastSeven(d.moodEntries);
    if n >= 7 {
      assert forall i :: n - 7 <= i < n ==> d.moodEntries[i] == last[i - (n - 7)];
    }
  }

  // ---------------------------------------------------------------------
  // One pass of updateGarden

  /** The element grows in this pass. */
  predicate Advances(e: GardenElement, d: WellnessRecord)
  {
    ShouldGrow(e.unlockCondition, d) && e.currentStage < e.stageCount - 1
  }

  function Grown(e: GardenElement, d: WellnessRecord): (r: GardenElement)
    ensures r.(currentStage := e.currentStage) == e
    ensures r.currentStage == e.currentStage || r.currentStage == e.currentStage + 1
    ensures r.currentStage == e.currentStage + 1 <==> Advances(e, d)
    ensures WellStaged(e) ==> WellStaged(r)
  {
    if Advances(e, d) then e.(currentStage := e.currentStage + 1) else e
  }

  function GrownAll(es: seq<GardenElement>, d: WellnessRecord): (r: seq<GardenElement>)
    ensures |r| == |es|
    ensures forall i :: 0 <= i < |es| ==> r[i] == Grown(es[i], d)
  {
    seq(|es|, i requires 0 <= i < |es| => Grown(es[i], d))
  }

  /** The happiness the first `k` elements add in one pass. */
  function HappinessGain(es: seq<GardenElement>, d: WellnessRecord, k: nat): int
    requires k <= |es|
  {
    if k == 0 then 0
    else HappinessGain(es, d, k - 1) + (if Advances(es[k - 1], d) then es[k - 1].happiness else 0)
  }

  /** The ids of the first `k` elements that grow in one pass, in order. */
  function GrowthEvents(es: seq<GardenElement>, d: WellnessRecord, k: nat): seq<ElementId>
    requires k <= |es|
  {
    if k == 0 then []
    else GrowthEvents(es, d, k - 1) + (if Advances(es[k - 1], d) then [es[k - 1].id] else [])
  }

  /** A pass grows an id exactly when one of the elements it visits with
      that id advances. */
  lemma {:induction false} GrowthEventsNames(es: seq<GardenElement>, d: WellnessRecord, k: nat, x: ElementId)
    requires k <= |es|
    ensures x in GrowthEvents(es, d, k) <==> exists j :: 0 <= j < k && Advances(es[j], d) && es[j].id == x
  {
    if k > 0 {
      GrowthEventsNames(es, d, k - 1, x);
    }
  }

  /** Reference: each element's happiness weighted by the stages it gained. */
  function StageWeighted(before: seq<GardenElement>, after: seq<GardenElement>, k: nat): int
    requires k <= |before| == |after|
  {
    if k == 0 then 0
    else StageWeighted(before, after, k - 1)
         + (after[k - 1].currentStage - before[k - 1].currentStage) * before[k - 1].happiness
  }

  /** Happiness goes up by exactly the happiness of the elements that grew. */
  lemma {:induction false} HappinessMatchesGrowth(es: seq<GardenElement>, d: WellnessRecord, k: nat)
    requires k <= |es|
    ensures HappinessGain(es, d, k) == StageWeighted(es, GrownAll(es, d), k)
  {
    if k > 0 {
      HappinessMatchesGrowth(es, d, k - 1);
    }
  }

  /** `n` passes over the same record. */
  function GrowTimes(e: GardenElement, d: WellnessRecord, n: nat): GardenElement
  {
    if n == 0 then e else Grown(GrowTimes(e, d, n - 1), d)
  }

  /** While its condition holds, an element climbs one stage per pass until
      its last stage, and then stays there. */
  lemma {:induction false} GrowthCapped(e: GardenElement, d: WellnessRecord, n: nat)
    requires WellStaged(e) && ShouldGrow(e.unlockCondition, d)
    ensures GrowTimes(e, d, n).currentStage ==
      if e.currentStage + n < e.stageCount - 1 then e.currentStage + n else e.stageCount - 1
    ensures GrowTimes(e, d, n).(currentStage := e.currentStage) == e
  {
    if n > 0 {
      GrowthCapped(e, d, n - 1);
    }
  }

  /** On a fresh record nothing in the garden grows. */
  lemma FreshGardenStill(now: Instant)
    ensures GrownAll(InitialElements(), DefaultRecord(now)) == InitialElements()
    ensures HappinessGain(InitialElements(), DefaultRecord(now), 5) == 0
  {
    var es := InitialElements();
    var d := DefaultRecord(now);
    forall i | 0 <= i < 5
      ensures !Advances(es[i], d)
    {
      assert Achievements.CompletedIn(d, Learning) == 0;
      assert Achievements.CompletedIn(d, Mindfulness) == 0;
    }
    NoGrowthNoGain(es, d, 5);
  }

  /** When nothing grows, no happiness is added and nothing is announced. */
  lemma {:induction false} NoGrowthNoGain(es: seq<GardenElement>, d: WellnessRecord, k: nat)
    requires k <= |es|
    requires forall i :: 0 <= i < k ==> !Advances(es[i], d)
    ensures HappinessGain(es, d, k) == 0 && GrowthEvents(es, d, k) == []
  {
    if k > 0 {
      NoGrowthNoGain(es, d, k - 1);
    }
  }
}

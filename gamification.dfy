/** The progression engine (`GamificationSystem`): experience, levels,
    achievements and the garden, with the saved progress they restore
    from. The engine's steps are pure functions over `Progress`; the class
    keeps the progress in fields and each method is proved to perform the
    matching step. */
module Gamification {
  import opened Basics
  import opened Store
  import opened Levels
  import opened Achievements
  import opened Garden

  // ---------------------------------------------------------------------
  // Actions, rewards and notifications

  /** The user actions that earn experience: the action keys
      `complete_task`, `mood_track`, `assessment_complete` and
      `streak_maintained`. */
  datatype Action = CompletedTask | TrackedMood | CompletedAssessment | MaintainedStreak

  const TaskXp: int := 25
  const MoodXp: int := 15
  const AssessmentXp: int := 50

  /** The streak bonus `Math.min(streakDays * 5, 100)`. */
  function StreakBonus(streakDays: int): (xp: int)
    ensures xp <= 100
    ensures xp == 100 <==> streakDays >= 20
    ensures streakDays <= 20 ==> xp == 5 * streakDays
    ensures streakDays >= 0 ==> xp >= 0
  {
    if streakDays * 5 < 100 then streakDays * 5 else 100
  }

  /** What the engine shows: the reward celebration, the level-up modal,
      the achievement toast and the garden toast. */
  datatype Event =
    | Rewarded(action: Action, xp: int)
    | LeveledUp(oldLevel: int, newLevel: int)
    | Unlocked(achievement: AchievementId)
    | Grew(element: ElementId)

  function UnlockEvents(ids: seq<AchievementId>): (es: seq<Event>)
    ensures |es| == |ids|
    ensures forall i :: 0 <= i < |ids| ==> es[i] == Unlocked(ids[i])
  {
    seq(|ids|, i requires 0 <= i < |ids| => Unlocked(ids[i]))
  }

  function GrowEvents(ids: seq<ElementId>): (es: seq<Event>)
    ensures |es| == |ids|
    ensures forall i :: 0 <= i < |ids| ==> es[i] == Grew(ids[i])
  {
    seq(|ids|, i requires 0 <= i < |ids| => Grew(ids[i]))
  }

  // ---------------------------------------------------------------------
  // Progress and what is saved of it

  datatype Progress = Progress(
    userLevel: int,
    totalXP: int,
    achievementsList: seq<Achievement>,
    virtualGarden: VirtualGarden,
    gardenElements: seq<GardenElement>)

  /** The document `saveProgress` writes; a field may be missing from what
      `loadUserProgress` reads back. The unlocked achievements are kept by
      id; their time stamp `lastUpdated` is left out. */
  datatype SavedProgress = SavedProgress(
    userLevel: Option<int>,
    totalXP: Option<int>,
    achievements: Option<seq<AchievementId>>,
    virtualGarden: Option<VirtualGarden>,
    gardenElements: Option<seq<GardenElement>>)

  /** `saveProgress`: every field is written; the achievements as the ids
      of exactly the unlocked entries. */
  function Snapshot(p: Progress): (s: SavedProgress)
    ensures s.userLevel == Some(p.userLevel) && s.totalXP == Some(p.totalXP)
    ensures s.virtualGarden == Some(p.virtualGarden) && s.gardenElements == Some(p.gardenElements)
    ensures s.achievements.Some?
    ensures forall id :: id in s.achievements.value <==>
      exists i :: 0 <= i < |p.achievementsList| && p.achievementsList[i].unlocked && p.achievementsList[i].id == id
  {
    SavedProgress(Some(p.userLevel), Some(p.totalXP), Some(UnlockedIds(p.achievementsList)),
                  Some(p.virtualGarden), Some(p.gardenElements))
  }

  /** A new engine, once its tables are built. */
  function FreshProgress(): (p: Progress)
    ensures p.userLevel == 1 && p.totalXP == 0
    ensures p.achievementsList == InitialAchievements()
    ensures p.virtualGarden == InitialGarden && p.gardenElements == InitialElements()
  {
    Progress(1, 0, InitialAchievements(), InitialGarden, InitialElements())
  }

  /** `value || fallback` on a number that may be missing. */
  function OrDefault(value: Option<int>, fallback: int): (r: int)
    ensures value.Some? && value.value != 0 ==> r == value.value
    ensures value.None? || value.value == 0 ==> r == fallback
  {
    if value.Some? && value.value != 0 then value.value else fallback
  }

  predicate HasAchievementId(a: Achievement, id: AchievementId) { a.id == id }

  /** `achievementsList.find(a => a.id === id)`, as an index. */
  function AchievementIndex(l: seq<Achievement>, id: AchievementId): (r: Option<nat>)
    ensures r.Some? ==> r.value < |l| && l[r.value].id == id
                        && forall j :: 0 <= j < r.value ==> l[j].id != id
    ensures r.None? <==> forall j :: 0 <= j < |l| ==> l[j].id != id
  {
    FindFirst(l, a => HasAchievementId(a, id))
  }

  /** The table after `loadUserProgress` marked each saved id: the first
      entry with that id is unlocked, an unknown id is skipped. */
  function UnlockSaved(l: seq<Achievement>, ids: seq<AchievementId>): (r: seq<Achievement>)
    ensures |r| == |l|
    ensures forall i :: 0 <= i < |l| ==> r[i] == l[i].(unlocked := r[i].unlocked)
    ensures forall i :: 0 <= i < |l| ==> l[i].unlocked ==> r[i].unlocked
    ensures forall i :: 0 <= i < |l| ==> r[i].unlocked ==> l[i].unlocked || l[i].id in ids
  {
    if ids == [] then l
    else
      var before := UnlockSaved(l, ids[..|ids| - 1]);
      match AchievementIndex(before, ids[|ids| - 1])
      case None => before
      case Some(i) => before[i := before[i].(unlocked := true)]
  }

  /** The same entries in the same order as the initial table. */
  predicate TableShaped(l: seq<Achievement>)
  {
    |l| == AchievementCount &&
    forall i :: 0 <= i < |l| ==> l[i].id == IdAt(i) && l[i].xpReward == RewardOf(IdAt(i))
  }

  predicate DistinctIds(l: seq<Achievement>)
  {
    forall i, j :: 0 <= i < j < |l| ==> l[i].id != l[j].id
  }

  /** In a table with distinct ids, marking the saved ids unlocks exactly
      the entries whose id was saved. */
  lemma {:induction false} UnlockSavedMembers(l: seq<Achievement>, ids: seq<AchievementId>)
    requires DistinctIds(l)
    ensures var r := UnlockSaved(l, ids);
      forall i :: 0 <= i < |l| ==> r[i] == l[i].(unlocked := l[i].unlocked || l[i].id in ids)
  {
    if ids != [] {
      var init := ids[..|ids| - 1];
      var x := ids[|ids| - 1];
      assert ids == init + [x];
      UnlockSavedMembers(l, init);
      var before := UnlockSaved(l, init);
      assert forall j :: 0 <= j < |l| ==> before[j].id == l[j].id;
    }
  }

  /** `loadUserProgress`, applied to an engine whose tables are built: a
      missing or zero level or XP falls back to 1 or 0, saved ids unlock
      their entries, and a saved garden replaces the current one. */
  function Restore(base: Progress, stored: Option<SavedProgress>): (r: Progress)
    ensures stored.None? ==> r == base
    ensures stored.Some? ==> r.userLevel != 0
    ensures stored.Some? ==>
      && r.userLevel == OrDefault(stored.value.userLevel, 1)
      && r.totalXP == OrDefault(stored.value.totalXP, 0)
      && r.virtualGarden == (if stored.value.virtualGarden.Some? then stored.value.virtualGarden.value else base.virtualGarden)
      && r.gardenElements == (if stored.value.gardenElements.Some? then stored.value.gardenElements.value else base.gardenElements)
    ensures |r.achievementsList| == |base.achievementsList|
    ensures forall i :: 0 <= i < |base.achievementsList| ==>
      && r.achievementsList[i] == base.achievementsList[i].(unlocked := r.achievementsList[i].unlocked)
      && (base.achievementsList[i].unlocked ==> r.achievementsList[i].unlocked)
      && (r.achievementsList[i].unlocked ==>
            || base.achievementsList[i].unlocked
            || (stored.Some? && stored.value.achievements.Some? && base.achievementsList[i].id in stored.value.achievements.value))
  {
    match stored
    case None => base
    case Some(s) =>
      Progress(
        OrDefault(s.userLevel, 1),
        OrDefault(s.totalXP, 0),
        if s.achievements.Some? then UnlockSaved(base.achievementsList, s.achievements.value) else base.achievementsList,
        if s.virtualGarden.Some? then s.virtualGarden.value else base.virtualGarden,
        if s.gardenElements.Some? then s.gardenElements.value else base.gardenElements)
  }

  /** The engine's initial progress, restoring what was saved after the
      tables are built. */
  function Init(stored: Option<SavedProgress>): (r: Progress)
    ensures stored.None? ==> r == FreshProgress()
    ensures TableShaped(r.achievementsList) && r.userLevel != 0
  {
    InitialTableShaped();
    Restore(FreshProgress(), stored)
  }

  /** With nothing usable saved, the engine starts at level 1 with no XP. */
  lemma RestoreDefaults(stored: Option<SavedProgress>)
    requires stored.None? || (stored.value.userLevel in {None, Some(0)} && stored.value.totalXP in {None, Some(0)})
    ensures Init(stored).userLevel == 1 && Init(stored).totalXP == 0
  {
  }

  lemma InitialTableShaped()
    ensures TableShaped(InitialAchievements()) && DistinctIds(InitialAchievements())
  {
    var l := InitialAchievements();
    forall i, j | 0 <= i < j < |l|
      ensures l[i].id != l[j].id
    {
      InitialTableLists(l[i].id);
    }
  }

  /** Saving and then starting a new engine gives back the same progress
      (for any table with the initial entries and a level other than 0). */
  lemma SaveRestoreRoundTrip(p: Progress)
    requires TableShaped(p.achievementsList) && p.userLevel != 0
    ensures Init(Some(Snapshot(p))) == p
  {
    var l := InitialAchievements();
    InitialTableShaped();
    var ids := UnlockedIds(p.achievementsList);
    UnlockSavedMembers(l, ids);
    var r := UnlockSaved(l, ids);
    forall i | 0 <= i < |l|
      ensures r[i] == p.achievementsList[i]
    {
      if l[i].id in ids {
        var j :| 0 <= j < |p.achievementsList| && p.achievementsList[j].unlocked && p.achievementsList[j].id == l[i].id;
        assert IdAt(j) == IdAt(i);
        assert l[j].id == l[i].id;
      }
    }
  }

  /** Saving right after start-up and starting again gives the same
      progress: whatever was stored, the restored progress is in the
      round trip's domain. */
  lemma RestartKeepsProgress(stored: Option<SavedProgress>)
    ensures Init(Some(Snapshot(Init(stored)))) == Init(stored)
  {
    SaveRestoreRoundTrip(Init(stored));
  }

  // ---------------------------------------------------------------------
  // The initialisation as written

  /** `loadUserProgress` runs before `initializeAchievements`, so marking a
      saved id reads a table that does not exist yet. */
  datatype InitError = AchievementsNotBuilt

  /** `init` in its written order: progress is loaded first, then the
      achievement table and the garden are built, overwriting whatever the
      load put there. */
  function InitAsWritten(stored: Option<SavedProgress>): (r: Result<Progress, InitError>)
    ensures r.Failure? <==> stored.Some? && stored.value.achievements.Some? && |stored.value.achievements.value| > 0
    ensures r.Success? ==> r.value.achievementsList == InitialAchievements() && r.value.gardenElements == InitialElements()
  {
    match stored
    case None => Success(FreshProgress())
    case Some(s) =>
      if s.achievements.Some? && |s.achievements.value| > 0 then Failure(AchievementsNotBuilt)
      else Success(Progress(
        OrDefault(s.userLevel, 1),
        OrDefault(s.totalXP, 0),
        InitialAchievements(),
        if s.virtualGarden.Some? then s.virtualGarden.value else InitialGarden,
        InitialElements()))
  }

  /** As written, restoring after any unlock fails, and restoring a grown
      garden puts every element back to its first stage. */
  lemma InitAsWrittenLosesProgress(p: Progress, i: nat)
    requires i < |p.achievementsList|
    ensures p.achievementsList[i].unlocked ==> InitAsWritten(Some(Snapshot(p))).Failure?
    ensures InitAsWritten(Some(Snapshot(p))).Success? ==>
      InitAsWritten(Some(Snapshot(p))).value.gardenElements == InitialElements()
  {
    if p.achievementsList[i].unlocked {
      assert p.achievementsList[i].id in UnlockedIds(p.achievementsList);
    }
  }

  /** Concretely: one unlocked achievement in the saved progress. */
  lemma InitAsWrittenExample()
    ensures var saved := SavedProgress(Some(1), Some(50), Some([FirstDay]), Some(InitialGarden), Some(InitialElements()));
      && InitAsWritten(Some(saved)) == Failure(AchievementsNotBuilt)
      && Init(Some(saved)).achievementsList[0].unlocked
      && Init(Some(saved)).totalXP == 50
  {
    var saved := SavedProgress(Some(1), Some(50), Some([FirstDay]), Some(InitialGarden), Some(InitialElements()));
    InitialTableShaped();
    UnlockSavedMembers(InitialAchievements(), [FirstDay]);
  }

  // ---------------------------------------------------------------------
  // The engine's steps

  /** `checkLevelUp`: the level only rises, and only to the level of the
      current XP. */
  function LevelChecked(p: Progress): (r: Progress)
    ensures r.(userLevel := p.userLevel) == p
    ensures r.userLevel >= p.userLevel && r.userLevel >= LevelOf(p.totalXP)
    ensures r.userLevel > p.userLevel ==> r.userLevel == LevelOf(p.totalXP)
  {
    var newLevel := LevelOf(p.totalXP);
    if newLevel > p.userLevel then p.(userLevel := newLevel) else p
  }

  function LevelUpEvents(p: Progress): (es: seq<Event>)
    ensures |es| <= 1
    ensures |es| == 1 <==> LevelChecked(p).userLevel != p.userLevel
    ensures |es| == 1 ==> es[0] == LeveledUp(p.userLevel, LevelChecked(p).userLevel)
  {
    var newLevel := LevelOf(p.totalXP);
    if newLevel > p.userLevel then [LeveledUp(p.userLevel, newLevel)] else []
  }

  /** `checkAchievements`: one pass over the table, each unlock adding its
      reward quietly. */
  function AchievementsChecked(p: Progress, d: WellnessRecord, cutoff: int): (r: Progress)
    ensures r.achievementsList == CheckedAll(p.achievementsList, d, cutoff)
    ensures r.totalXP == p.totalXP + NewRewards(p.achievementsList, d, cutoff, |p.achievementsList|)
    ensures r.(achievementsList := p.achievementsList, totalXP := p.totalXP) == p
  {
    p.(achievementsList := CheckedAll(p.achievementsList, d, cutoff),
       totalXP := p.totalXP + NewRewards(p.achievementsList, d, cutoff, |p.achievementsList|))
  }

  /** `updateGarden`: one pass over the elements. */
  function GardenUpdated(p: Progress, d: WellnessRecord): (r: Progress)
    ensures r.gardenElements == GrownAll(p.gardenElements, d)
    ensures r.virtualGarden == p.virtualGarden.(happiness := p.virtualGarden.happiness + HappinessGain(p.gardenElements, d, |p.gardenElements|))
    ensures r.(gardenElements := p.gardenElements, virtualGarden := p.virtualGarden) == p
  {
    p.(gardenElements := GrownAll(p.gardenElements, d),
       virtualGarden := p.virtualGarden.(happiness := p.virtualGarden.happiness + HappinessGain(p.gardenElements, d, |p.gardenElements|)))
  }

  /** `addExperience`: XP first, then the level check, then achievements,
      then the garden. */
  function Experienced(p: Progress, amount: int, d: WellnessRecord, cutoff: int): (r: Progress)
    ensures r.totalXP == p.totalXP + amount + NewRewards(p.achievementsList, d, cutoff, |p.achievementsList|)
    ensures r.userLevel == if LevelOf(p.totalXP + amount) > p.userLevel then LevelOf(p.totalXP + amount) else p.userLevel
  {
    Evaluated(p.(totalXP := p.totalXP + amount), d, cutoff)
  }

  /** The three checks that follow the XP credit. */
  function Evaluated(added: Progress, d: WellnessRecord, cutoff: int): (r: Progress)
    ensures r.totalXP == added.totalXP + NewRewards(added.achievementsList, d, cutoff, |added.achievementsList|)
    ensures r.userLevel == if LevelOf(added.totalXP) > added.userLevel then LevelOf(added.totalXP) else added.userLevel
  {
    GardenUpdated(AchievementsChecked(LevelChecked(added), d, cutoff), d)
  }

  /** The unlock toasts of one achievement pass. */
  function CheckEvents(p: Progress, d: WellnessRecord, cutoff: int): seq<Event>
  {
    UnlockEvents(NewlyUnlocked(p.achievementsList, d, cutoff, |p.achievementsList|))
  }

  /** The growth toasts of one garden pass. */
  function GardenEvents(p: Progress, d: WellnessRecord): seq<Event>
  {
    GrowEvents(GrowthEvents(p.gardenElements, d, |p.gardenElements|))
  }

  /** `checkAchievements` toasts an achievement exactly when its entry was
      locked and now qualifies. */
  lemma UnlockToastsNameNewEntries(p: Progress, d: WellnessRecord, cutoff: int, x: AchievementId)
    ensures Unlocked(x) in CheckEvents(p, d, cutoff)
        <==> exists j :: 0 <= j < |p.achievementsList| && Newly(p.achievementsList[j], d, cutoff) && p.achievementsList[j].id == x
  {
    NewlyUnlockedNames(p.achievementsList, d, cutoff, |p.achievementsList|, x);
  }

  /** `updateGarden` toasts an element exactly when it advances a stage. */
  lemma GrowthToastsNameGrownElements(p: Progress, d: WellnessRecord, x: ElementId)
    ensures Grew(x) in GardenEvents(p, d)
        <==> exists j :: 0 <= j < |p.gardenElements| && Advances(p.gardenElements[j], d) && p.gardenElements[j].id == x
  {
    GrowthEventsNames(p.gardenElements, d, |p.gardenElements|, x);
  }

  /** The notifications of `addExperience`, in the order they are shown. */
  function ExperienceEvents(p: Progress, action: Action, amount: int, d: WellnessRecord, cutoff: int): seq<Event>
  {
    StepEvents(p.(totalXP := p.totalXP + amount), d, cutoff) + [Rewarded(action, amount)]
  }

  function StepEvents(added: Progress, d: WellnessRecord, cutoff: int): seq<Event>
  {
    LevelUpEvents(added)
    + CheckEvents(LevelChecked(added), d, cutoff)
    + GardenEvents(AchievementsChecked(LevelChecked(added), d, cutoff), d)
  }

  /** `addExperience` shows the reward celebration once, after every
      level-up, unlock and growth notification. */
  lemma RewardShownLast(p: Progress, action: Action, amount: int, d: WellnessRecord, cutoff: int)
    ensures var es := ExperienceEvents(p, action, amount, d, cutoff);
      && |es| > 0 && es[|es| - 1] == Rewarded(action, amount)
      && forall i :: 0 <= i < |es| - 1 ==> !es[i].Rewarded?
  {
    var added := p.(totalXP := p.totalXP + amount);
    var lv := LevelUpEvents(added);
    var ch := CheckEvents(LevelChecked(added), d, cutoff);
    var gr := GardenEvents(AchievementsChecked(LevelChecked(added), d, cutoff), d);
    assert forall i :: 0 <= i < |ch| ==> ch[i].Unlocked?;
    assert forall i :: 0 <= i < |gr| ==> gr[i].Grew?;
    var es := ExperienceEvents(p, action, amount, d, cutoff);
    assert es == lv + ch + gr + [Rewarded(action, amount)];
  }

  // ---------------------------------------------------------------------
  // Properties of the steps

  /** XP rises by exactly the amount plus the rewards unlocked; with
      non-negative amounts and rewards it never falls. */
  lemma ExperienceAddsExactly(p: Progress, amount: int, d: WellnessRecord, cutoff: int)
    ensures Experienced(p, amount, d, cutoff).totalXP
         == p.totalXP + amount + NewRewards(p.achievementsList, d, cutoff, |p.achievementsList|)
    ensures amount >= 0 && (forall i :: 0 <= i < |p.achievementsList| ==> p.achievementsList[i].xpReward >= 0)
            ==> Experienced(p, amount, d, cutoff).totalXP >= p.totalXP
  {
    if forall i :: 0 <= i < |p.achievementsList| ==> p.achievementsList[i].xpReward >= 0 {
      NewRewardsNonNegative(p.achievementsList, d, cutoff, |p.achievementsList|);
    }
  }

  /** The level is settled before the rewards are added: it never falls,
      and it is the level of the XP before the rewards, so it can lag the
      level of the final XP. */
  lemma LevelSettledBeforeRewards(p: Progress, amount: int, d: WellnessRecord, cutoff: int)
    ensures var r := Experienced(p, amount, d, cutoff);
      && r.userLevel >= p.userLevel
      && r.userLevel == (if LevelOf(p.totalXP + amount) > p.userLevel then LevelOf(p.totalXP + amount) else p.userLevel)
  {
  }

  /** On a well-formed record holding one completed task, a 25 XP reward at
      50 XP unlocks the first achievement (+50): 125 XP, yet the level stays
      1 though 125 XP is level 2. */
  lemma LevelLagsRewards(d: WellnessRecord, cutoff: int)
    requires WellFormed(d) && |d.dailyTasks| == 1 && d.dailyTasks[0].completed
    requires d.streak == 0 && |d.moodEntries| == 0 && |d.assessments| == 0
    ensures var p := FreshProgress().(totalXP := 50);
      var r := Experienced(p, 25, d, cutoff);
      r.totalXP == 125 && r.userLevel == 1 && LevelOf(r.totalXP) == 2
  {
    var l := InitialAchievements();
    assert d.dailyTasks[..0] == [];
    assert d.tasksCompleted == 1;
    assert Newly(l[0], d, cutoff);
    assert forall i :: 1 <= i < |l| ==> !Newly(l[i], d, cutoff);
    assert NewRewards(l, d, cutoff, 1) == 50;
    OnlyFirstRewarded(l, d, cutoff, |l|);
  }

  lemma {:induction false} OnlyFirstRewarded(l: seq<Achievement>, d: WellnessRecord, cutoff: int, k: nat)
    requires 1 <= k <= |l|
    requires forall i :: 1 <= i < |l| ==> !Newly(l[i], d, cutoff)
    ensures NewRewards(l, d, cutoff, k) == NewRewards(l, d, cutoff, 1)
  {
    if k > 1 {
      OnlyFirstRewarded(l, d, cutoff, k - 1);
    }
  }

  /** Running the achievement pass again on the same record is a no-op. */
  lemma AchievementsCheckedIdempotent(p: Progress, d: WellnessRecord, cutoff: int)
    ensures AchievementsChecked(AchievementsChecked(p, d, cutoff), d, cutoff) == AchievementsChecked(p, d, cutoff)
  {
    CheckIdempotent(p.achievementsList, d, cutoff, |p.achievementsList|);
  }

  /** On a record that qualifies for nothing, experience only moves XP and
      the level. */
  lemma FreshRecordOnlyLevels(p: Progress, amount: int, now: Instant, cutoff: int)
    requires p.achievementsList == InitialAchievements() && p.gardenElements == InitialElements()
    ensures var r := Experienced(p, amount, DefaultRecord(now), cutoff);
      r == LevelChecked(p.(totalXP := p.totalXP + amount))
  {
    var d := DefaultRecord(now);
    var l := InitialAchievements();
    forall i | 0 <= i < |l|
      ensures !Newly(l[i], d, cutoff)
    {
      FreshRecordUnlocksNothing(now, cutoff, l[i].id);
    }
    NothingNewNoReward(l, d, cutoff, |l|);
    FreshGardenStill(now);
  }

  lemma {:induction false} NothingNewNoReward(l: seq<Achievement>, d: WellnessRecord, cutoff: int, k: nat)
    requires k <= |l|
    requires forall i :: 0 <= i < |l| ==> !Newly(l[i], d, cutoff)
    ensures NewRewards(l, d, cutoff, k) == 0 && CheckedAll(l, d, cutoff) == l
  {
    if k > 0 {
      NothingNewNoReward(l, d, cutoff, k - 1);
    }
  }

  /** Four completed tasks from a fresh start: 100 XP and level 2
      ("Sprout"), reached on the fourth. */
  lemma FourTasksReachSprout(now: Instant, cutoff: int)
    ensures var d := DefaultRecord(now);
      var p1 := Experienced(FreshProgress(), TaskXp, d, cutoff);
      var p2 := Experienced(p1, TaskXp, d, cutoff);
      var p3 := Experienced(p2, TaskXp, d, cutoff);
      var p4 := Experienced(p3, TaskXp, d, cutoff);
      && p3.userLevel == 1 && p4.totalXP == 100 && p4.userLevel == 2
      && LevelName(p4.userLevel) == "Sprout"
  {
    var d := DefaultRecord(now);
    var p0 := FreshProgress();
    FreshRecordOnlyLevels(p0, TaskXp, now, cutoff);
    var p1 := Experienced(p0, TaskXp, d, cutoff);
    assert p1 == p0.(totalXP := 25);
    FreshRecordOnlyLevels(p1, TaskXp, now, cutoff);
    var p2 := Experienced(p1, TaskXp, d, cutoff);
    assert p2 == p0.(totalXP := 50);
    FreshRecordOnlyLevels(p2, TaskXp, now, cutoff);
    var p3 := Experienced(p2, TaskXp, d, cutoff);
    assert p3 == p0.(totalXP := 75);
    FreshRecordOnlyLevels(p3, TaskXp, now, cutoff);
  }

  /** The level-up fires on the fourth of those calls and not before. */
  lemma FourTasksLevelUpOnce(now: Instant, cutoff: int)
    ensures var p0 := FreshProgress();
      && LevelUpEvents(p0.(totalXP := 25)) == []
      && LevelUpEvents(p0.(totalXP := 50)) == []
      && LevelUpEvents(p0.(totalXP := 75)) == []
      && LevelUpEvents(p0.(totalXP := 100)) == [LeveledUp(1, 2)]
  {
  }

  // ---------------------------------------------------------------------
  // The loop of checkAchievements, turn by turn

  /** The engine's progress `p`, toasts `ev` and saved copy `sv` after the
      first `i` turns of the `checkAchievements` loop started from `p0`,
      `ev0` and `sv0`. */
  ghost predicate PassUpTo(p: Progress, ev: seq<Event>, sv: Option<SavedProgress>,
                           p0: Progress, ev0: seq<Event>, sv0: Option<SavedProgress>,
                           d: WellnessRecord, cutoff: int, i: nat)
  {
    var l0 := p0.achievementsList;
    && i <= |l0| && |p.achievementsList| == |l0|
    && (forall j :: 0 <= j < i ==> p.achievementsList[j] == Checked(l0[j], d, cutoff))
    && (forall j :: i <= j < |l0| ==> p.achievementsList[j] == l0[j])
    && p.totalXP == p0.totalXP + NewRewards(l0, d, cutoff, i)
    && p.(achievementsList := l0, totalXP := p0.totalXP) == p0
    && ev == ev0 + UnlockEvents(NewlyUnlocked(l0, d, cutoff, i))
    && (if NewlyUnlocked(l0, d, cutoff, i) == [] then sv == sv0 else sv == Some(Snapshot(p)))
  }

  /** One more turn, on entry `i`, keeps `PassUpTo`. */
  lemma PassStep(p: Progress, ev: seq<Event>, sv: Option<SavedProgress>,
                 q: Progress, evq: seq<Event>, svq: Option<SavedProgress>,
                 p0: Progress, ev0: seq<Event>, sv0: Option<SavedProgress>,
                 d: WellnessRecord, cutoff: int, i: nat)
    requires PassUpTo(p, ev, sv, p0, ev0, sv0, d, cutoff, i) && i < |p0.achievementsList|
    requires var a := p.achievementsList[i];
      && q.achievementsList == p.achievementsList[i := Checked(a, d, cutoff)]
      && q.totalXP == p.totalXP + (if Newly(a, d, cutoff) then a.xpReward else 0)
      && q.(achievementsList := p.achievementsList, totalXP := p.totalXP) == p
      && evq == ev + (if Newly(a, d, cutoff) then [Unlocked(a.id)] else [])
      && svq == (if Newly(a, d, cutoff) then Some(Snapshot(q)) else sv)
    ensures PassUpTo(q, evq, svq, p0, ev0, sv0, d, cutoff, i + 1)
  {
    var l0 := p0.achievementsList;
    if !Newly(l0[i], d, cutoff) {
      assert q.achievementsList == p.achievementsList;
    }
    assert UnlockEvents(NewlyUnlocked(l0, d, cutoff, i + 1))
        == UnlockEvents(NewlyUnlocked(l0, d, cutoff, i))
           + UnlockEvents(if Newly(l0[i], d, cutoff) then [l0[i].id] else []);
  }

  /** After the last turn the loop has done one whole pass. */
  lemma PassDone(p: Progress, ev: seq<Event>, sv: Option<SavedProgress>,
                 p0: Progress, ev0: seq<Event>, sv0: Option<SavedProgress>,
                 d: WellnessRecord, cutoff: int)
    requires PassUpTo(p, ev, sv, p0, ev0, sv0, d, cutoff, |p0.achievementsList|)
    ensures p == AchievementsChecked(p0, d, cutoff)
    ensures ev == ev0 + CheckEvents(p0, d, cutoff)
    ensures sv == if CheckEvents(p0, d, cutoff) == [] then sv0 else Some(Snapshot(p))
  {
    assert p.achievementsList == CheckedAll(p0.achievementsList, d, cutoff);
  }

  // ---------------------------------------------------------------------
  // The engine

  class GamificationSystem {
    /** The engine's own store, loaded when the engine is built. */
    const storage: MindWellStorage
    var userLevel: int
    var totalXP: int
    var achievementsList: seq<Achievement>
    var virtualGarden: VirtualGarden
    var gardenElements: seq<GardenElement>
    /** The progress last written to local storage. */
    var saved: Option<SavedProgress>
    /** The notifications shown so far. */
    var events: seq<Event>

    function State(): Progress
      reads this
    {
      Progress(userLevel, totalXP, achievementsList, virtualGarden, gardenElements)
    }

    /** `storedRecord` and `stored` are what local storage holds. The tables
        are built before the saved progress is restored. */
    constructor(storedRecord: Option<WellnessRecord>, stored: Option<SavedProgress>, now: Instant)
      ensures storage.Data() == LoadData(storedRecord, now)
      ensures State() == Init(stored)
      ensures saved == stored && events == []
    {
      storage := new MindWellStorage(storedRecord, now);
      userLevel := 1;
      totalXP := 0;
      virtualGarden := InitialGarden;
      saved := stored;
      events := [];
      new;
      InitializeAchievements();
      CreateVirtualGarden();
      LoadUserProgress();
    }

    method InitializeAchievements()
      modifies this
      ensures State() == old(State()).(achievementsList := InitialAchievements())
      ensures saved == old(saved) && events == old(events)
    {
      achievementsList := InitialAchievements();
    }

    method CreateVirtualGarden()
      modifies this
      ensures State() == old(State()).(gardenElements := InitialElements())
      ensures saved == old(saved) && events == old(events)
    {
      gardenElements := InitialElements();
    }

    /** `loadUserProgress`, reading `saved`. */
    method LoadUserProgress()
      modifies this
      ensures State() == Restore(old(State()), saved)
      ensures saved == old(saved) && events == old(events)
    {
      if saved.Some? {
        var data := saved.value;
        userLevel := OrDefault(data.userLevel, 1);
        totalXP := OrDefault(data.totalXP, 0);
        if data.virtualGarden.Some? {
          virtualGarden := data.virtualGarden.value;
        }
        if data.achievements.Some? {
          MarkSavedAchievements(data.achievements.value);
        }
        if data.gardenElements.Some? {
          gardenElements := data.gardenElements.value;
        }
      }
    }

    /** The `forEach` of `loadUserProgress` over the saved achievements. */
    method MarkSavedAchievements(ids: seq<AchievementId>)
      modifies this
      ensures State() == old(State()).(achievementsList := UnlockSaved(old(achievementsList), ids))
      ensures saved == old(saved) && events == old(events)
    {
      ghost var l0 := achievementsList;
      for k := 0 to |ids|
        invariant achievementsList == UnlockSaved(l0, ids[..k])
        invariant State() == old(State()).(achievementsList := achievementsList)
        invariant saved == old(saved) && events == old(events)
      {
        assert ids[..k + 1][..k] == ids[..k];
        var found := AchievementIndex(achievementsList, ids[k]);
        if found.Some? {
          achievementsList := achievementsList[found.value := achievementsList[found.value].(unlocked := true)];
        }
      }
      assert ids[..|ids|] == ids;
    }

    /** `saveProgress`. */
    method SaveProgress()
      modifies this
      ensures State() == old(State()) && events == old(events)
      ensures saved == Some(Snapshot(State()))
    {
      saved := Some(Snapshot(State()));
    }

    /** `addExperienceQuiet`: XP without any level, achievement or garden
      step. */
    method AddExperienceQuiet(amount: int)
      modifies this
      ensures State() == old(State()).(totalXP := old(totalXP) + amount)
      ensures saved == Some(Snapshot(State())) && events == old(events)
    {
      totalXP := totalXP + amount;
      SaveProgress();
    }

    /** `calculateLevel`. */
    method CalculateLevel(xp: int) returns (level: int)
      ensures level == LevelOf(xp)
    {
      level := Levels.CalculateLevel(xp);
    }

    /** `checkLevelUp`. */
    method CheckLevelUp()
      modifies this
      ensures State() == LevelChecked(old(State()))
      ensures events == old(events) + LevelUpEvents(old(State()))
      ensures saved == old(saved)
    {
      var newLevel := CalculateLevel(totalXP);
      if newLevel > userLevel {
        var oldLevel := userLevel;
        userLevel := newLevel;
        events := events + [LeveledUp(oldLevel, newLevel)];
      }
    }

    /** `unlockAchievement` on entry `i`. */
    method UnlockAchievement(i: nat)
      requires i < |achievementsList|
      modifies this
      ensures achievementsList == old(achievementsList)[i := old(achievementsList)[i].(unlocked := true)]
      ensures totalXP == old(totalXP) + old(achievementsList)[i].xpReward
      ensures userLevel == old(userLevel) && virtualGarden == old(virtualGarden) && gardenElements == old(gardenElements)
      ensures events == old(events) + [Unlocked(old(achievementsList)[i].id)]
      ensures saved == Some(Snapshot(State()))
    {
      achievementsList := achievementsList[i := achievementsList[i].(unlocked := true)];
      AddExperienceQuiet(achievementsList[i].xpReward);
      events := events + [Unlocked(achievementsList[i].id)];
      SaveProgress();
    }

    /** One turn of the `forEach` in `checkAchievements`. */
    method CheckOne(i: nat, data: WellnessRecord, cutoff: int)
      requires i < |achievementsList|
      modifies this
      ensures var a := old(achievementsList)[i];
        && achievementsList == old(achievementsList)[i := Checked(a, data, cutoff)]
        && totalXP == old(totalXP) + (if Newly(a, data, cutoff) then a.xpReward else 0)
        && State().(achievementsList := old(achievementsList), totalXP := old(totalXP)) == old(State())
        && events == old(events) + (if Newly(a, data, cutoff) then [Unlocked(a.id)] else [])
        && saved == (if Newly(a, data, cutoff) then Some(Snapshot(State())) else old(saved))
    {
      var achievement := achievementsList[i];
      if !achievement.unlocked {
        var shouldUnlock := ShouldUnlock(achievement.id, data, cutoff);
        if shouldUnlock {
          UnlockAchievement(i);
        }
      }
    }

    /** `checkAchievements` against the store's record; `cutoff` is the
        instant 90 days before now. Progress is saved after each unlock, so
        the saved copy changes exactly when something is unlocked. */
    method CheckAchievements(cutoff: int)
      modifies this
      ensures State() == AchievementsChecked(old(State()), storage.Data(), cutoff)
      ensures events == old(events) + CheckEvents(old(State()), storage.Data(), cutoff)
      ensures saved == if CheckEvents(old(State()), storage.Data(), cutoff) == [] then old(saved) else Some(Snapshot(State()))
    {
      var data := storage.Data();
      ghost var p0, ev0, sv0 := State(), events, saved;
      var n := |achievementsList|;
      var i := 0;
      while i < n
        invariant n == |p0.achievementsList| && i <= n
        invariant PassUpTo(State(), events, saved, p0, ev0, sv0, data, cutoff, i)
      {
        ghost var p, ev, sv := State(), events, saved;
        CheckOne(i, data, cutoff);
        PassStep(p, ev, sv, State(), events, saved, p0, ev0, sv0, data, cutoff, i);
        i := i + 1;
      }
      PassDone(State(), events, saved, p0, ev0, sv0, data, cutoff);
    }

    /** `updateGarden` against the store's record. */
    method UpdateGarden()
      modifies this
      ensures State() == GardenUpdated(old(State()), storage.Data())
      ensures events == old(events) + GardenEvents(old(State()), storage.Data())
      ensures saved == old(saved)
    {
      var data := storage.Data();
      ghost var e0 := gardenElements;
      ghost var events0 := events;
      var happiness0 := virtualGarden.happiness;
      var i := 0;
      while i < |gardenElements|
        invariant 0 <= i <= |gardenElements| == |e0|
        invariant forall j :: 0 <= j < i ==> gardenElements[j] == Grown(e0[j], data)
        invariant forall j :: i <= j < |e0| ==> gardenElements[j] == e0[j]
        invariant virtualGarden == old(virtualGarden).(happiness := happiness0 + HappinessGain(e0, data, i))
        invariant events == events0 + GrowEvents(GrowthEvents(e0, data, i))
        invariant userLevel == old(userLevel) && totalXP == old(totalXP) && achievementsList == old(achievementsList)
        invariant saved == old(saved)
      {
        var element := gardenElements[i];
        var shouldGrow := ShouldGrow(element.unlockCondition, data);
        if shouldGrow && element.currentStage < element.stageCount - 1 {
          gardenElements := gardenElements[i := element.(currentStage := element.currentStage + 1)];
          virtualGarden := virtualGarden.(happiness := virtualGarden.happiness + element.happiness);
          events := events + [Grew(element.id)];
        }
        assert GrowEvents(GrowthEvents(e0, data, i + 1))
            == GrowEvents(GrowthEvents(e0, data, i))
               + GrowEvents(if Advances(e0[i], data) then [e0[i].id] else []);
        i := i + 1;
      }
      assert gardenElements == GrownAll(e0, data);
    }

    /** The level, achievement and garden steps of `addExperience`. */
    method Evaluate(cutoff: int)
      modifies this
      ensures State() == Evaluated(old(State()), storage.Data(), cutoff)
      ensures events == old(events) + StepEvents(old(State()), storage.Data(), cutoff)
      ensures saved == if CheckEvents(LevelChecked(old(State())), storage.Data(), cutoff) == [] then old(saved)
                       else Some(Snapshot(AchievementsChecked(LevelChecked(old(State())), storage.Data(), cutoff)))
    {
      ghost var d := storage.Data();
      ghost var e0 := events;
      ghost var added := State();
      CheckLevelUp();
      ghost var leveled := State();
      CheckAchievements(cutoff);
      ghost var checked := State();
      assert storage.Data() == d && checked == AchievementsChecked(leveled, d, cutoff);
      assert events == e0 + LevelUpEvents(added) + CheckEvents(leveled, d, cutoff);
      UpdateGarden();
      assert events == e0 + (LevelUpEvents(added) + CheckEvents(leveled, d, cutoff) + GardenEvents(checked, d));
    }

    /** `addExperience`. */
    method AddExperience(action: Action, amount: int, cutoff: int)
      modifies this
      ensures State() == Experienced(old(State()), amount, storage.Data(), cutoff)
      ensures events == old(events) + ExperienceEvents(old(State()), action, amount, storage.Data(), cutoff)
      ensures saved == Some(Snapshot(State()))
    {
      ghost var d := storage.Data();
      ghost var p0 := State();
      ghost var e0 := events;
      totalXP := totalXP + amount;
      ghost var added := State();
      assert added == p0.(totalXP := p0.totalXP + amount);
      Evaluate(cutoff);
      assert State() == Evaluated(added, d, cutoff) == Experienced(p0, amount, d, cutoff);
      assert events == e0 + StepEvents(added, d, cutoff);
      SaveProgress();
      events := events + [Rewarded(action, amount)];
    }

    method OnTaskCompleted(cutoff: int)
      modifies this
      ensures State() == Experienced(old(State()), TaskXp, storage.Data(), cutoff)
      ensures events == old(events) + ExperienceEvents(old(State()), CompletedTask, TaskXp, storage.Data(), cutoff)
      ensures saved == Some(Snapshot(State()))
    {
      AddExperience(CompletedTask, TaskXp, cutoff);
    }

    method OnMoodTracked(cutoff: int)
      modifies this
      ensures State() == Experienced(old(State()), MoodXp, storage.Data(), cutoff)
      ensures events == old(events) + ExperienceEvents(old(State()), TrackedMood, MoodXp, storage.Data(), cutoff)
      ensures saved == Some(Snapshot(State()))
    {
      AddExperience(TrackedMood, MoodXp, cutoff);
    }

    method OnAssessmentCompleted(cutoff: int)
      modifies this
      ensures State() == Experienced(old(State()), AssessmentXp, storage.Data(), cutoff)
      ensures events == old(events) + ExperienceEvents(old(State()), CompletedAssessment, AssessmentXp, storage.Data(), cutoff)
      ensures saved == Some(Snapshot(State()))
    {
      AddExperience(CompletedAssessment, AssessmentXp, cutoff);
    }

    method OnStreakMaintained(streakDays: int, cutoff: int)
      modifies this
      ensures State() == Experienced(old(State()), StreakBonus(streakDays), storage.Data(), cutoff)
      ensures events == old(events) + ExperienceEvents(old(State()), MaintainedStreak, StreakBonus(streakDays), storage.Data(), cutoff)
      ensures saved == Some(Snapshot(State()))
    {
      var bonusXP := StreakBonus(streakDays);
      AddExperience(MaintainedStreak, bonusXP, cutoff);
    }
  }
}

/** The achievement table (`initializeAchievements`), the unlock predicates
    of `checkAchievements`, and what one pass of `checkAchievements` does
    to the table. */
module Achievements {
  import opened Basics
  import opened Store

  datatype AchievementId =
    | FirstDay | WeekWarrior | MonthMaster
    | MoodTracker | AssessmentMaster | WellnessWarrior
    | KnowledgeSeeker | BrainBooster
    | FriendConnector | CommunityHelper
    | GratitudeGuru | MindfulnessMaster | LifeChanger

  /** One entry of `achievementsList`; its name, description, category and
      rarity are display text and are not modelled. */
  datatype Achievement = Achievement(id: AchievementId, xpReward: int, unlocked: bool)

  const AchievementCount: nat := 13

  /** The list order. */
  function IdAt(i: int): AchievementId
  {
    match i
    case 0 => FirstDay
    case 1 => WeekWarrior
    case 2 => MonthMaster
    case 3 => MoodTracker
    case 4 => AssessmentMaster
    case 5 => WellnessWarrior
    case 6 => KnowledgeSeeker
    case 7 => BrainBooster
    case 8 => FriendConnector
    case 9 => CommunityHelper
    case 10 => GratitudeGuru
    case 11 => MindfulnessMaster
    case _ => LifeChanger
  }

  function RewardOf(id: AchievementId): int
  {
    match id
    case FirstDay => 50
    case WeekWarrior => 200
    case MonthMaster => 1000
    case MoodTracker => 150
    case AssessmentMaster => 300
    case WellnessWarrior => 500
    case KnowledgeSeeker => 250
    case BrainBooster => 200
    case FriendConnector => 180
    case CommunityHelper => 300
    case GratitudeGuru => 400
    case MindfulnessMaster => 600
    case LifeChanger => 2000
  }

  /** Distinct achievements have distinct `id` strings, so the saved list
      of ids names each unlocked entry unambiguously. */
  lemma KeysIdentify(a: AchievementId, b: AchievementId)
    ensures Key(a) == Key(b) <==> a == b
  {
  }

  /** The `id` string the table and the saved progress use. */
  function Key(id: AchievementId): string
  {
    match id
    case FirstDay => "first_day"
    case WeekWarrior => "week_warrior"
    case MonthMaster => "month_master"
    case MoodTracker => "mood_tracker"
    case AssessmentMaster => "assessment_master"
    case WellnessWarrior => "wellness_warrior"
    case KnowledgeSeeker => "knowledge_seeker"
    case BrainBooster => "brain_booster"
    case FriendConnector => "friend_connector"
    case CommunityHelper => "community_helper"
    case GratitudeGuru => "gratitude_guru"
    case MindfulnessMaster => "mindfulness_master"
    case LifeChanger => "life_changer"
  }

  /** `initializeAchievements`: all thirteen, locked, with their rewards. */
  function InitialAchievements(): (l: seq<Achievement>)
    ensures |l| == AchievementCount
    ensures forall i :: 0 <= i < |l| ==> !l[i].unlocked && l[i].xpReward == RewardOf(l[i].id)
  {
    seq(AchievementCount, i => Achievement(IdAt(i), RewardOf(IdAt(i)), false))
  }

  /** Every achievement appears in the table exactly once. */
  lemma InitialTableLists(id: AchievementId)
    ensures exists i :: 0 <= i < AchievementCount && InitialAchievements()[i].id == id
    ensures forall i, j :: 0 <= i < j < AchievementCount ==> InitialAchievements()[i].id != InitialAchievements()[j].id
  {
    var l := InitialAchievements();
    match id
    case FirstDay => assert l[0].id == id;
    case WeekWarrior => assert l[1].id == id;
    case MonthMaster => assert l[2].id == id;
    case MoodTracker => assert l[3].id == id;
    case AssessmentMaster => assert l[4].id == id;
    case WellnessWarrior => assert l[5].id == id;
    case KnowledgeSeeker => assert l[6].id == id;
    case BrainBooster => assert l[7].id == id;
    case FriendConnector => assert l[8].id == id;
    case CommunityHelper => assert l[9].id == id;
    case GratitudeGuru => assert l[10].id == id;
    case MindfulnessMaster => assert l[11].id == id;
    case LifeChanger => assert l[12].id == id;
  }

  // ---------------------------------------------------------------------
  // The unlock predicates

  /** Completed tasks of category `c`. */
  function InCategory(c: TaskCategory): Task -> bool
  {
    (t: Task) => t.category == c && t.completed
  }

  /** A completed task whose title, lower-cased, contains "gratitude". */
  predicate MentionsGratitude(t: Task)
  {
    t.completed && Includes(Lower(t.title), "gratitude")
  }

  /** An assessment taken at or after `cutoff` that scored at least 70. */
  function RecentGood(cutoff: int): AssessmentEntry -> bool
  {
    (a: AssessmentEntry) => a.date.ms >= cutoff && a.result.score >= 70
  }

  function CompletedIn(d: WellnessRecord, c: TaskCategory): nat
  {
    Count(d.dailyTasks, InCategory(c))
  }

  /** Whether `checkAchievements` unlocks `id` for the record `d`; `cutoff`
      is the time stamp of the instant 90 days before now. */
  predicate ShouldUnlock(id: AchievementId, d: WellnessRecord, cutoff: int)
  {
    match id
    case FirstDay => d.tasksCompleted >= 1
    case WeekWarrior => d.streak >= 7
    case MonthMaster => d.streak >= 30
    case MoodTracker => |d.moodEntries| >= 10
    case AssessmentMaster => |d.assessments| >= 3
    case WellnessWarrior => d.tasksCompleted >= 100
    case KnowledgeSeeker => CompletedIn(d, Learning) >= 25
    case BrainBooster => CompletedIn(d, Cognitive) >= 10
    case FriendConnector => CompletedIn(d, Social) >= 5
    case GratitudeGuru => Count(d.dailyTasks, MentionsGratitude) >= 21
    case MindfulnessMaster => CompletedIn(d, Mindfulness) >= 50
    case LifeChanger => Count(d.assessments, RecentGood(cutoff)) >= 12
    case CommunityHelper => false
  }

  /** The community helper has no unlock rule. */
  lemma CommunityHelperNeverUnlocks(d: WellnessRecord, cutoff: int)
    ensures !ShouldUnlock(CommunityHelper, d, cutoff)
  {
  }

  /** A fresh record qualifies for nothing. */
  lemma FreshRecordUnlocksNothing(now: Instant, cutoff: int, id: AchievementId)
    ensures !ShouldUnlock(id, DefaultRecord(now), cutoff)
  {
  }

  /** The first completed task is exactly what the first achievement needs. */
  lemma FirstTaskUnlocksFirstDay(d: WellnessRecord, id: int, clock: Clock, cutoff: int)
    requires d.tasksCompleted == 0 && Completable(d, id)
    ensures !ShouldUnlock(FirstDay, d, cutoff)
    ensures ShouldUnlock(FirstDay, WithTaskCompleted(d, id, clock), cutoff)
  {
  }

  /** Completing a task keeps or raises every completed-task count. */
  lemma {:induction false} CountMarked<T>(s: seq<T>, i: nat, x: T, p: T -> bool)
    requires i < |s| && (p(s[i]) ==> p(x))
    ensures Count(s[i := x], p) >= Count(s, p)
  {
    CountUpdate(s, i, x, p);
  }

  lemma CountGrows<T>(s: seq<T>, x: T, p: T -> bool)
    ensures Count(s + [x], p) >= Count(s, p)
  {
    CountAppend(s, x, p);
  }

  /** Once the record qualifies for an achievement, no store operation
      takes it out again (for the same 90-day cutoff). */
  lemma QualificationPersists(id: AchievementId, d: WellnessRecord, cutoff: int,
                              clock: Clock, taskId: int, template: TaskTemplate,
                              mood: Mood, result: Assessment.ScoreResult, details: string, p: UserPatch)
    requires ShouldUnlock(id, d, cutoff)
    ensures ShouldUnlock(id, WithTaskCompleted(d, taskId, clock), cutoff)
    ensures ShouldUnlock(id, WithTask(d, template, clock.now), cutoff)
    ensures ShouldUnlock(id, WithMoodEntry(d, mood, clock.now), cutoff)
    ensures ShouldUnlock(id, WithAssessment(d, result, clock.now), cutoff)
    ensures ShouldUnlock(id, WithAppointment(d, details, clock.now), cutoff)
    ensures ShouldUnlock(id, WithUserPatch(d, p), cutoff)
  {
    QualificationKeptByCompletion(id, d, cutoff, taskId, clock);
    QualificationKeptByNewTask(id, d, cutoff, template, clock.now);
    QualificationKeptByMood(id, d, cutoff, mood, clock.now);
    QualificationKeptByAssessment(id, d, cutoff, result, clock.now);
    QualificationKeptByBooking(id, d, cutoff, details, clock.now, p);
  }

  lemma QualificationKeptByCompletion(id: AchievementId, d: WellnessRecord, cutoff: int,
                                      taskId: int, clock: Clock)
    requires ShouldUnlock(id, d, cutoff)
    ensures ShouldUnlock(id, WithTaskCompleted(d, taskId, clock), cutoff)
  {
    TasksCountsKeptByCompletion(d, taskId, clock);
  }

  lemma QualificationKeptByMood(id: AchievementId, d: WellnessRecord, cutoff: int,
                                mood: Mood, now: Instant)
    requires ShouldUnlock(id, d, cutoff)
    ensures ShouldUnlock(id, WithMoodEntry(d, mood, now), cutoff)
  {
  }

  /** Booking an appointment and editing the profile touch no counter. */
  lemma QualificationKeptByBooking(id: AchievementId, d: WellnessRecord, cutoff: int,
                                   details: string, now: Instant, p: UserPatch)
    requires ShouldUnlock(id, d, cutoff)
    ensures ShouldUnlock(id, WithAppointment(d, details, now), cutoff)
    ensures ShouldUnlock(id, WithUserPatch(d, p), cutoff)
  {
  }

  lemma QualificationKeptByNewTask(id: AchievementId, d: WellnessRecord, cutoff: int,
                                   template: TaskTemplate, now: Instant)
    requires ShouldUnlock(id, d, cutoff)
    ensures ShouldUnlock(id, WithTask(d, template, now), cutoff)
  {
    var withTask := WithTask(d, template, now);
    var t := withTask.dailyTasks[|d.dailyTasks|];
    assert withTask.dailyTasks == d.dailyTasks + [t];
    forall c | true
      ensures CompletedIn(withTask, c) >= CompletedIn(d, c)
    {
      CountGrows(d.dailyTasks, t, InCategory(c));
    }
    CountGrows(d.dailyTasks, t, MentionsGratitude);
  }

  lemma QualificationKeptByAssessment(id: AchievementId, d: WellnessRecord, cutoff: int,
                                      result: Assessment.ScoreResult, now: Instant)
    requires ShouldUnlock(id, d, cutoff)
    ensures ShouldUnlock(id, WithAssessment(d, result, now), cutoff)
  {
    var withAssessment := WithAssessment(d, result, now);
    assert withAssessment.assessments == d.assessments + [withAssessment.assessments[|d.assessments|]];
    CountGrows(d.assessments, withAssessment.assessments[|d.assessments|], RecentGood(cutoff));
  }

  /** Completing a task never lowers a completed-task count. */
  lemma TasksCountsKeptByCompletion(d: WellnessRecord, taskId: int, clock: Clock)
    ensures var r := WithTaskCompleted(d, taskId, clock);
      && r.tasksCompleted >= d.tasksCompleted && r.streak >= d.streak
      && r.moodEntries == d.moodEntries && r.assessments == d.assessments
      && (forall c :: CompletedIn(r, c) >= CompletedIn(d, c))
      && Count(r.dailyTasks, MentionsGratitude) >= Count(d.dailyTasks, MentionsGratitude)
  {
    if Completable(d, taskId) {
      var i := TaskIndex(d.dailyTasks, taskId).value;
      var marked := MarkCompleted(d.dailyTasks, i, clock.now.ms);
      assert marked == d.dailyTasks[i := marked[i]];
      forall c | true
        ensures Count(marked, InCategory(c)) >= Count(d.dailyTasks, InCategory(c))
      {
        CountMarked(d.dailyTasks, i, marked[i], InCategory(c));
      }
      CountMarked(d.dailyTasks, i, marked[i], MentionsGratitude);
    }
  }

  // ---------------------------------------------------------------------
  // One pass of checkAchievements

  /** `checkAchievements` unlocks this entry now. */
  predicate Newly(a: Achievement, d: WellnessRecord, cutoff: int)
  {
    !a.unlocked && ShouldUnlock(a.id, d, cutoff)
  }

  function Checked(a: Achievement, d: WellnessRecord, cutoff: int): (r: Achievement)
    ensures r.id == a.id && r.xpReward == a.xpReward
    ensures r.unlocked <==> a.unlocked || ShouldUnlock(a.id, d, cutoff)
  {
    if Newly(a, d, cutoff) then a.(unlocked := true) else a
  }

  /** The table after one pass. */
  function CheckedAll(l: seq<Achievement>, d: WellnessRecord, cutoff: int): (r: seq<Achievement>)
    ensures |r| == |l|
    ensures forall i :: 0 <= i < |l| ==> r[i] == Checked(l[i], d, cutoff)
  {
    seq(|l|, i requires 0 <= i < |l| => Checked(l[i], d, cutoff))
  }

  /** The XP the rewards of the first `k` entries add in one pass. */
  function NewRewards(l: seq<Achievement>, d: WellnessRecord, cutoff: int, k: nat): int
    requires k <= |l|
  {
    if k == 0 then 0
    else NewRewards(l, d, cutoff, k - 1) + (if Newly(l[k - 1], d, cutoff) then l[k - 1].xpReward else 0)
  }

  /** The ids the first `k` entries unlock in one pass, in list order. */
  function NewlyUnlocked(l: seq<Achievement>, d: WellnessRecord, cutoff: int, k: nat): seq<AchievementId>
    requires k <= |l|
  {
    if k == 0 then []
    else NewlyUnlocked(l, d, cutoff, k - 1) + (if Newly(l[k - 1], d, cutoff) then [l[k - 1].id] else [])
  }

  /** A pass unlocks an id exactly when one of the entries it visits with
      that id was locked and qualifies. */
  lemma {:induction false} NewlyUnlockedNames(l: seq<Achievement>, d: WellnessRecord, cutoff: int, k: nat, x: AchievementId)
    requires k <= |l|
    ensures x in NewlyUnlocked(l, d, cutoff, k) <==> exists j :: 0 <= j < k && Newly(l[j], d, cutoff) && l[j].id == x
  {
    if k > 0 {
      NewlyUnlockedNames(l, d, cutoff, k - 1, x);
    }
  }

  /** Reference: the rewards of the entries locked in `before` and unlocked
      in `after`. */
  function RewardGained(before: seq<Achievement>, after: seq<Achievement>, k: nat): int
    requires k <= |before| == |after|
  {
    if k == 0 then 0
    else RewardGained(before, after, k - 1)
         + (if after[k - 1].unlocked && !before[k - 1].unlocked then before[k - 1].xpReward else 0)
  }

  /** A pass adds exactly the rewards of what it unlocks. */
  lemma {:induction false} NewRewardsAreGained(l: seq<Achievement>, d: WellnessRecord, cutoff: int, k: nat)
    requires k <= |l|
    ensures NewRewards(l, d, cutoff, k) == RewardGained(l, CheckedAll(l, d, cutoff), k)
  {
    if k > 0 {
      NewRewardsAreGained(l, d, cutoff, k - 1);
    }
  }

  /** Unlocked entries stay unlocked; nothing but the flag changes. */
  lemma CheckOneWay(l: seq<Achievement>, d: WellnessRecord, cutoff: int)
    ensures forall i :: 0 <= i < |l| ==>
      var r := CheckedAll(l, d, cutoff)[i];
      && (l[i].unlocked ==> r.unlocked)
      && r.(unlocked := l[i].unlocked) == l[i]
  {
  }

  /** A second pass over the same record changes nothing, unlocks nothing
      and adds no XP. */
  lemma {:induction false} CheckIdempotent(l: seq<Achievement>, d: WellnessRecord, cutoff: int, k: nat)
    requires k <= |l|
    ensures CheckedAll(CheckedAll(l, d, cutoff), d, cutoff) == CheckedAll(l, d, cutoff)
    ensures NewRewards(CheckedAll(l, d, cutoff), d, cutoff, k) == 0
    ensures NewlyUnlocked(CheckedAll(l, d, cutoff), d, cutoff, k) == []
  {
    if k > 0 {
      CheckIdempotent(l, d, cutoff, k - 1);
    }
  }

  /** Gains add up along a chain of one-way changes. */
  lemma {:induction false} RewardGainedChain(a: seq<Achievement>, b: seq<Achievement>, c: seq<Achievement>, k: nat)
    requires k <= |a| == |b| == |c|
    requires forall i :: 0 <= i < |a| ==> (a[i].unlocked ==> b[i].unlocked) && (b[i].unlocked ==> c[i].unlocked)
    requires forall i :: 0 <= i < |a| ==> a[i].xpReward == b[i].xpReward
    ensures RewardGained(a, b, k) + RewardGained(b, c, k) == RewardGained(a, c, k)
  {
    if k > 0 {
      RewardGainedChain(a, b, c, k - 1);
    }
  }

  /** Over two passes, on records that may differ, each achievement's
      reward is paid at most once: the XP added is the reward of every
      entry that went from locked to unlocked. */
  lemma RewardsPaidOnce(l: seq<Achievement>, d1: WellnessRecord, d2: WellnessRecord, cutoff1: int, cutoff2: int)
    ensures var m := CheckedAll(l, d1, cutoff1);
      var r := CheckedAll(m, d2, cutoff2);
      NewRewards(l, d1, cutoff1, |l|) + NewRewards(m, d2, cutoff2, |l|) == RewardGained(l, r, |l|)
  {
    var m := CheckedAll(l, d1, cutoff1);
    var r := CheckedAll(m, d2, cutoff2);
    NewRewardsAreGained(l, d1, cutoff1, |l|);
    NewRewardsAreGained(m, d2, cutoff2, |l|);
    RewardGainedChain(l, m, r, |l|);
  }

  /** When every reward is non-negative a pass never lowers XP. */
  lemma {:induction false} NewRewardsNonNegative(l: seq<Achievement>, d: WellnessRecord, cutoff: int, k: nat)
    requires k <= |l|
    requires forall i :: 0 <= i < |l| ==> l[i].xpReward >= 0
    ensures NewRewards(l, d, cutoff, k) >= 0
  {
    if k > 0 {
      NewRewardsNonNegative(l, d, cutoff, k - 1);
    }
  }

  /** The ids of the unlocked entries (what `saveProgress` stores). */
  function UnlockedIds(l: seq<Achievement>): (ids: seq<AchievementId>)
    ensures forall id :: id in ids <==> exists i :: 0 <= i < |l| && l[i].unlocked && l[i].id == id
  {
    if l == [] then []
    else UnlockedIds(l[..|l| - 1]) + (if l[|l| - 1].unlocked then [l[|l| - 1].id] else [])
  }
}

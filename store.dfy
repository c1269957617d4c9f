/** The wellness record and the store that owns it (`MindWellStorage`).
    The record's transitions are pure functions over `WellnessRecord`; the
    class keeps the record in fields and each of its methods is proved to
    perform exactly the matching transition. */
module Store {
  import opened Basics
  import Assessment

  // ---------------------------------------------------------------------
  // The record

  datatype User = User(
    name: string,
    registrationDate: int,
    mentalHealthScore: Option<int>,
    lastAssessmentDate: Option<int>)

  /** The fields an `updateUser` call spreads over the user; `None` leaves a
      field as it is, `Some(None)` sets a nullable field back to `null`. */
  datatype UserPatch = UserPatch(
    name: Option<string>,
    registrationDate: Option<int>,
    mentalHealthScore: Option<Option<int>>,
    lastAssessmentDate: Option<Option<int>>)

  datatype Settings = Settings(notifications: bool, theme: string)

  datatype AssessmentEntry = AssessmentEntry(id: int, date: Instant, result: Assessment.ScoreResult)

  datatype Mood = Mood(value: int, emoji: string)

  datatype MoodEntry = MoodEntry(id: int, date: Instant, mood: Mood)

  datatype TaskCategory =
    | Cognitive | Creative | Learning | Mindfulness | Physical | Social
    | OtherCategory(name: string)

  /** The category string a task carries. */
  function CategoryName(c: TaskCategory): string
  {
    match c
    case Cognitive => "cognitive"
    case Creative => "creative"
    case Learning => "learning"
    case Mindfulness => "mindfulness"
    case Physical => "physical"
    case Social => "social"
    case OtherCategory(name) => name
  }

  /** A category spelled one way only: `OtherCategory` never carries one of
      the six known names. */
  predicate Canonical(c: TaskCategory)
  {
    c.OtherCategory? ==> c.name !in ["cognitive", "creative", "learning", "mindfulness", "physical", "social"]
  }

  /** The category a task's string denotes. */
  function CategoryNamed(name: string): (c: TaskCategory)
    ensures Canonical(c) && CategoryName(c) == name
  {
    if name == "cognitive" then Cognitive
    else if name == "creative" then Creative
    else if name == "learning" then Learning
    else if name == "mindfulness" then Mindfulness
    else if name == "physical" then Physical
    else if name == "social" then Social
    else OtherCategory(name)
  }

  /** On canonical categories, comparing the values is comparing their
      strings, as the achievement and garden tests do. */
  lemma CategoryNamesAgree(c: TaskCategory, e: TaskCategory)
    requires Canonical(c) && Canonical(e)
    ensures CategoryName(c) == CategoryName(e) <==> c == e
  {
  }

  /** What a caller of `addTask` supplies. */
  datatype TaskTemplate = TaskTemplate(title: string, category: TaskCategory)

  /** A daily task. `date` is its creation instant; `deadline` and
      `completedAt` are millisecond time stamps. */
  datatype Task = Task(
    id: int,
    date: Instant,
    deadline: int,
    completed: bool,
    completedAt: Option<int>,
    title: string,
    category: TaskCategory)

  /** A booking; the booking form's own fields are kept opaque. */
  datatype Appointment = Appointment(id: int, bookingDate: int, details: string)

  datatype WellnessRecord = WellnessRecord(
    user: User,
    assessments: seq<AssessmentEntry>,
    dailyTasks: seq<Task>,
    moodEntries: seq<MoodEntry>,
    appointments: seq<Appointment>,
    streak: int,
    tasksCompleted: int,
    settings: Settings)

  /** Twenty hours, the distance from a task's creation to its deadline. */
  const TaskLifetimeMs: int := 20 * 60 * 60 * 1000

  // ---------------------------------------------------------------------
  // Loading

  /** The record a first visit starts from. */
  function DefaultRecord(now: Instant): (d: WellnessRecord)
    ensures d.user == User("", now.ms, None, None)
    ensures d.assessments == [] && d.dailyTasks == [] && d.moodEntries == [] && d.appointments == []
    ensures d.streak == 0 && d.tasksCompleted == 0
    ensures d.settings == Settings(true, "light")
  {
    WellnessRecord(User("", now.ms, None, None), [], [], [], [], 0, 0, Settings(true, "light"))
  }

  /** `loadData`: the stored record when there is one, the default otherwise. */
  function LoadData(stored: Option<WellnessRecord>, now: Instant): (d: WellnessRecord)
    ensures stored.Some? ==> d == stored.value
    ensures stored.None? ==> d == DefaultRecord(now) && WellFormed(d)
  {
    match stored
    case Some(r) => r
    case None => DefaultRecord(now)
  }

  // ---------------------------------------------------------------------
  // The record's invariant

  predicate IsCompleted(t: Task) { t.completed }

  /** Every completed task carries its completion time. */
  predicate CompletionsStamped(tasks: seq<Task>)
  {
    forall i :: 0 <= i < |tasks| ==> tasks[i].completed ==> tasks[i].completedAt.Some?
  }

  /** At most one mood entry per calendar day. */
  predicate MoodDaysDistinct(entries: seq<MoodEntry>)
  {
    forall i, j :: 0 <= i < j < |entries| ==> entries[i].date.day != entries[j].date.day
  }

  /** What every record built by the store's own operations satisfies: the
      counters are non-negative, `tasksCompleted` counts the completed
      tasks, completions are stamped and moods are one per day. */
  predicate WellFormed(d: WellnessRecord)
  {
    && d.streak >= 0
    && d.tasksCompleted == Count(d.dailyTasks, IsCompleted)
    && CompletionsStamped(d.dailyTasks)
    && MoodDaysDistinct(d.moodEntries)
  }

  // ---------------------------------------------------------------------
  // Transitions

  /** `updateUser`: the patch's fields over the current user's. */
  function WithUserPatch(d: WellnessRecord, p: UserPatch): (r: WellnessRecord)
    ensures r.(user := d.user) == d
    ensures r.user.name == (if p.name.Some? then p.name.value else d.user.name)
    ensures r.user.registrationDate == (if p.registrationDate.Some? then p.registrationDate.value else d.user.registrationDate)
    ensures r.user.mentalHealthScore == (if p.mentalHealthScore.Some? then p.mentalHealthScore.value else d.user.mentalHealthScore)
    ensures r.user.lastAssessmentDate == (if p.lastAssessmentDate.Some? then p.lastAssessmentDate.value else d.user.lastAssessmentDate)
  {
    d.(user := User(
      match p.name case Some(v) => v case None => d.user.name,
      match p.registrationDate case Some(v) => v case None => d.user.registrationDate,
      match p.mentalHealthScore case Some(v) => v case None => d.user.mentalHealthScore,
      match p.lastAssessmentDate case Some(v) => v case None => d.user.lastAssessmentDate))
  }

  /** `addAssessment`: one entry appended, stamped with the current time,
      and the user's latest score and assessment date set from it. */
  function WithAssessment(d: WellnessRecord, result: Assessment.ScoreResult, now: Instant): (r: WellnessRecord)
    ensures |r.assessments| == |d.assessments| + 1
    ensures r.assessments[..|d.assessments|] == d.assessments
    ensures r.assessments[|d.assessments|] == AssessmentEntry(now.ms, now, result)
    ensures r.user == d.user.(mentalHealthScore := Some(result.score), lastAssessmentDate := Some(now.ms))
    ensures r.(assessments := d.assessments, user := d.user) == d
  {
    d.(assessments := d.assessments + [AssessmentEntry(now.ms, now, result)],
       user := d.user.(mentalHealthScore := Some(result.score), lastAssessmentDate := Some(now.ms)))
  }

  predicate OnDay(e: MoodEntry, day: int) { e.date.day == day }

  /** The index of the first mood entry dated on `day`, if any. */
  function MoodIndex(entries: seq<MoodEntry>, day: int): (r: Option<nat>)
    ensures r.Some? ==> r.value < |entries| && entries[r.value].date.day == day
                        && forall j :: 0 <= j < r.value ==> entries[j].date.day != day
    ensures r.None? <==> forall j :: 0 <= j < |entries| ==> entries[j].date.day != day
  {
    FindFirst(entries, e => OnDay(e, day))
  }

  /** `addMoodEntry`: the first entry dated today is overwritten in place,
      keeping its id; with no entry dated today one entry is appended. */
  function WithMoodEntry(d: WellnessRecord, mood: Mood, now: Instant): (r: WellnessRecord)
    ensures r.(moodEntries := d.moodEntries) == d
    ensures MoodIndex(d.moodEntries, now.day).Some? ==>
      var i := MoodIndex(d.moodEntries, now.day).value;
      r.moodEntries == d.moodEntries[i := MoodEntry(d.moodEntries[i].id, now, mood)]
    ensures MoodIndex(d.moodEntries, now.day).None? ==>
      r.moodEntries == d.moodEntries + [MoodEntry(now.ms, now, mood)]
  {
    match MoodIndex(d.moodEntries, now.day)
    case Some(i) => d.(moodEntries := d.moodEntries[i := MoodEntry(d.moodEntries[i].id, now, mood)])
    case None => d.(moodEntries := d.moodEntries + [MoodEntry(now.ms, now, mood)])
  }

  /** `addTask`: one open task appended, created now, due in twenty hours. */
  function WithTask(d: WellnessRecord, template: TaskTemplate, now: Instant): (r: WellnessRecord)
    ensures |r.dailyTasks| == |d.dailyTasks| + 1
    ensures r.dailyTasks[..|d.dailyTasks|] == d.dailyTasks
    ensures var t := r.dailyTasks[|d.dailyTasks|];
      && t.id == now.ms && t.date == now && t.deadline == now.ms + 72000000
      && !t.completed && t.completedAt.None?
      && t.title == template.title && t.category == template.category
    ensures r.(dailyTasks := d.dailyTasks) == d
  {
    var t := Task(now.ms, now, now.ms + TaskLifetimeMs, false, None, template.title, template.category);
    d.(dailyTasks := d.dailyTasks + [t])
  }

  /** `addAppointment`: one booking appended, stamped now. */
  function WithAppointment(d: WellnessRecord, details: string, now: Instant): (r: WellnessRecord)
    ensures |r.appointments| == |d.appointments| + 1
    ensures r.appointments[..|d.appointments|] == d.appointments
    ensures r.appointments[|d.appointments|] == Appointment(now.ms, now.ms, details)
    ensures r.(appointments := d.appointments) == d
  {
    d.(appointments := d.appointments + [Appointment(now.ms, now.ms, details)])
  }

  predicate HasId(t: Task, id: int) { t.id == id }

  /** The index of the first task with this id (`find`), if any. */
  function TaskIndex(tasks: seq<Task>, id: int): (r: Option<nat>)
    ensures r.Some? ==> r.value < |tasks| && tasks[r.value].id == id
                        && forall j :: 0 <= j < r.value ==> tasks[j].id != id
    ensures r.None? <==> forall j :: 0 <= j < |tasks| ==> tasks[j].id != id
  {
    FindFirst(tasks, t => HasId(t, id))
  }

  /** `completeTask` changes something exactly when the first task with
      this id exists and is still open. */
  predicate Completable(d: WellnessRecord, id: int)
  {
    TaskIndex(d.dailyTasks, id).Some? && !d.dailyTasks[TaskIndex(d.dailyTasks, id).value].completed
  }

  /** The number of completed tasks created on `day` (the `filter` of
      `updateStreak`). */
  function CompletedOn(tasks: seq<Task>, day: int): nat
  {
    Count(tasks, (t: Task) => t.completed && t.date.day == day)
  }

  /** Some task created on `day` is completed. */
  predicate SomeCompletedOn(tasks: seq<Task>, day: int)
  {
    exists i :: 0 <= i < |tasks| && tasks[i].completed && tasks[i].date.day == day
  }

  /** `updateStreak`: only the streak changes, and it goes up by one exactly
      when a task created today is completed and either a task created
      yesterday is completed or the streak is zero. */
  function WithStreakUpdated(d: WellnessRecord, clock: Clock): (r: WellnessRecord)
    ensures r.(streak := d.streak) == d
    ensures r.streak == d.streak || r.streak == d.streak + 1
    ensures r.streak == d.streak + 1 <==>
      SomeCompletedOn(d.dailyTasks, clock.now.day)
      && (SomeCompletedOn(d.dailyTasks, clock.yesterday) || d.streak == 0)
  {
    var todayTasks := CompletedOn(d.dailyTasks, clock.now.day);
    var yesterdayTasks := CompletedOn(d.dailyTasks, clock.yesterday);
    if todayTasks > 0 && (yesterdayTasks > 0 || d.streak == 0) then d.(streak := d.streak + 1)
    else d
  }

  /** The task list with task `i` marked completed at `at`. */
  function MarkCompleted(tasks: seq<Task>, i: nat, at: int): (r: seq<Task>)
    requires i < |tasks|
    ensures |r| == |tasks|
    ensures r[i] == tasks[i].(completed := true, completedAt := Some(at))
    ensures forall j :: 0 <= j < |tasks| && j != i ==> r[j] == tasks[j]
  {
    tasks[i := tasks[i].(completed := true, completedAt := Some(at))]
  }

  /** `completeTask`: the first task with this id, when still open, becomes
      completed now, the completion counter goes up by one and the streak
      rule runs; otherwise nothing changes. */
  function WithTaskCompleted(d: WellnessRecord, id: int, clock: Clock): (r: WellnessRecord)
    ensures !Completable(d, id) ==> r == d
    ensures Completable(d, id) ==>
      var i := TaskIndex(d.dailyTasks, id).value;
      var marked := d.(dailyTasks := MarkCompleted(d.dailyTasks, i, clock.now.ms),
                       tasksCompleted := d.tasksCompleted + 1);
      r == WithStreakUpdated(marked, clock)
  {
    match TaskIndex(d.dailyTasks, id)
    case None => d
    case Some(i) =>
      if d.dailyTasks[i].completed then d
      else WithStreakUpdated(
             d.(dailyTasks := MarkCompleted(d.dailyTasks, i, clock.now.ms),
                tasksCompleted := d.tasksCompleted + 1),
             clock)
  }

  // ---------------------------------------------------------------------
  // Properties of the transitions

  /** Completing an unknown id, or a task already completed, changes
      nothing. */
  lemma CompleteTaskNoOp(d: WellnessRecord, id: int, clock: Clock)
    requires (forall j :: 0 <= j < |d.dailyTasks| ==> d.dailyTasks[j].id != id)
          || (exists j :: 0 <= j < |d.dailyTasks| && d.dailyTasks[j].id == id
                          && (forall k :: 0 <= k < j ==> d.dailyTasks[k].id != id)
                          && d.dailyTasks[j].completed)
    ensures WithTaskCompleted(d, id, clock) == d
  {
    if !(forall j :: 0 <= j < |d.dailyTasks| ==> d.dailyTasks[j].id != id) {
      var j :| 0 <= j < |d.dailyTasks| && d.dailyTasks[j].id == id
               && (forall k :: 0 <= k < j ==> d.dailyTasks[k].id != id)
               && d.dailyTasks[j].completed;
      var i := TaskIndex(d.dailyTasks, id).value;
      assert i == j;
    }
  }

  /** A successful completion marks exactly that task, stamps it now,
      raises the counter by exactly one and moves the streak by 0 or 1;
      every other task, list and field stays as it was. */
  lemma CompleteTaskEffect(d: WellnessRecord, id: int, clock: Clock)
    requires Completable(d, id)
    ensures var r := WithTaskCompleted(d, id, clock);
      var i := TaskIndex(d.dailyTasks, id).value;
      && |r.dailyTasks| == |d.dailyTasks|
      && r.dailyTasks[i].id == id && r.dailyTasks[i].completed
      && r.dailyTasks[i].completedAt == Some(clock.now.ms)
      && r.dailyTasks[i].(completed := false, completedAt := None) == d.dailyTasks[i].(completedAt := None)
      && (forall j :: 0 <= j < |d.dailyTasks| && j != i ==> r.dailyTasks[j] == d.dailyTasks[j])
      && r.tasksCompleted == d.tasksCompleted + 1
      && (r.streak == d.streak || r.streak == d.streak + 1)
      && r.(dailyTasks := d.dailyTasks, tasksCompleted := d.tasksCompleted, streak := d.streak) == d
  {
  }

  /** Completing the same id twice is completing it once. */
  lemma CompleteTaskTwice(d: WellnessRecord, id: int, c1: Clock, c2: Clock)
    ensures WithTaskCompleted(WithTaskCompleted(d, id, c1), id, c2) == WithTaskCompleted(d, id, c1)
  {
    if Completable(d, id) {
      var r := WithTaskCompleted(d, id, c1);
      var i := TaskIndex(d.dailyTasks, id).value;
      assert r.dailyTasks[i].id == id && r.dailyTasks[i].completed;
      assert forall k :: 0 <= k < i ==> r.dailyTasks[k].id != id;
      CompleteTaskNoOp(r, id, c2);
    }
  }

  /** The streak rule never lowers the streak. */
  lemma StreakNeverDecreases(d: WellnessRecord, id: int, clock: Clock)
    ensures WithTaskCompleted(d, id, clock).streak >= d.streak
    ensures WithTaskCompleted(d, id, clock).tasksCompleted >= d.tasksCompleted
  {
  }

  /** A positive streak stays as it is when no task created yesterday is
      completed, unless the task completed now was itself created yesterday
      (with a streak of 3, completing a task created today leaves 3). */
  lemma StreakKeptWithoutYesterday(d: WellnessRecord, id: int, clock: Clock)
    requires Completable(d, id)
    requires d.streak > 0
    requires !SomeCompletedOn(d.dailyTasks, clock.yesterday)
    requires d.dailyTasks[TaskIndex(d.dailyTasks, id).value].date.day != clock.yesterday
    ensures WithTaskCompleted(d, id, clock).streak == d.streak
    ensures WithTaskCompleted(d, id, clock).tasksCompleted == d.tasksCompleted + 1
  {
    var i := TaskIndex(d.dailyTasks, id).value;
    var marked := MarkCompleted(d.dailyTasks, i, clock.now.ms);
    assert !SomeCompletedOn(marked, clock.yesterday) by {
      forall j | 0 <= j < |marked| && marked[j].completed
        ensures marked[j].date.day != clock.yesterday
      {
        if j != i { assert marked[j] == d.dailyTasks[j]; }
      }
    }
  }

  /** With a task created yesterday completed, completing an open task
      created today raises the streak by one, and yesterday still counts
      for the next completion. */
  lemma StreakStep(d: WellnessRecord, id: int, clock: Clock)
    requires Completable(d, id)
    requires d.dailyTasks[TaskIndex(d.dailyTasks, id).value].date.day == clock.now.day
    requires SomeCompletedOn(d.dailyTasks, clock.yesterday)
    ensures WithTaskCompleted(d, id, clock).streak == d.streak + 1
    ensures SomeCompletedOn(WithTaskCompleted(d, id, clock).dailyTasks, clock.yesterday)
  {
    var i := TaskIndex(d.dailyTasks, id).value;
    var marked := MarkCompleted(d.dailyTasks, i, clock.now.ms);
    assert marked[i].completed && marked[i].date.day == clock.now.day;
    var k :| 0 <= k < |d.dailyTasks| && d.dailyTasks[k].completed && d.dailyTasks[k].date.day == clock.yesterday;
    assert marked[k].completed && marked[k].date.day == clock.yesterday;
  }

  /** Changing a task other than by its id does not move any id's first
      index. */
  lemma TaskIndexKeptByUpdate(tasks: seq<Task>, i: nat, x: Task, id: int)
    requires i < |tasks| && x.id == tasks[i].id
    ensures TaskIndex(tasks[i := x], id) == TaskIndex(tasks, id)
  {
    var u := tasks[i := x];
    assert forall j :: 0 <= j < |tasks| ==> u[j].id == tasks[j].id;
    var r, r0 := TaskIndex(u, id), TaskIndex(tasks, id);
    if r0.Some? {
      assert u[r0.value].id == id;
      assert r.Some?;
      assert !(r.value < r0.value) && !(r0.value < r.value);
    }
  }

  /** The streak rule runs once per completion, not once per day: with a
      task created yesterday completed, completing two open tasks created
      today raises the streak by two. */
  lemma StreakCountsCompletionsNotDays(d: WellnessRecord, a: int, b: int, clock: Clock)
    requires a != b
    requires Completable(d, a) && Completable(d, b)
    requires d.dailyTasks[TaskIndex(d.dailyTasks, a).value].date.day == clock.now.day
    requires d.dailyTasks[TaskIndex(d.dailyTasks, b).value].date.day == clock.now.day
    requires SomeCompletedOn(d.dailyTasks, clock.yesterday)
    ensures WithTaskCompleted(WithTaskCompleted(d, a, clock), b, clock).streak == d.streak + 2
  {
    StreakStep(d, a, clock);
    var r := WithTaskCompleted(d, a, clock);
    var ia := TaskIndex(d.dailyTasks, a).value;
    var ib := TaskIndex(d.dailyTasks, b).value;
    assert r.dailyTasks == d.dailyTasks[ia := r.dailyTasks[ia]];
    TaskIndexKeptByUpdate(d.dailyTasks, ia, r.dailyTasks[ia], b);
    StreakStep(r, b, clock);
  }

  /** Two moods recorded on the same calendar day leave exactly one entry
      for that day, holding the later mood and time. */
  lemma SameDayMoodsKeepLater(d: WellnessRecord, m1: Mood, m2: Mood, t1: Instant, t2: Instant)
    requires MoodDaysDistinct(d.moodEntries)
    requires t1.day == t2.day
    ensures var r := WithMoodEntry(WithMoodEntry(d, m1, t1), m2, t2);
      && |r.moodEntries| == |WithMoodEntry(d, m1, t1).moodEntries|
      && MoodDaysDistinct(r.moodEntries)
      && exists i :: 0 <= i < |r.moodEntries| && r.moodEntries[i].date == t2 && r.moodEntries[i].mood == m2
  {
    var d1 := WithMoodEntry(d, m1, t1);
    MoodEntryKeepsDaysDistinct(d, m1, t1);
    MoodEntryKeepsDaysDistinct(d1, m2, t2);
    MoodEntryRecorded(d1, m2, t2);
    var i :| 0 <= i < |d1.moodEntries| && d1.moodEntries[i].date.day == t1.day by {
      MoodEntryRecorded(d, m1, t1);
    }
    assert MoodIndex(d1.moodEntries, t2.day).Some?;
  }

  /** After `addMoodEntry` the record holds an entry with the new mood,
      dated now. */
  lemma MoodEntryRecorded(d: WellnessRecord, mood: Mood, now: Instant)
    ensures var r := WithMoodEntry(d, mood, now);
      exists i :: 0 <= i < |r.moodEntries| && r.moodEntries[i].date == now && r.moodEntries[i].mood == mood
  {
    var r := WithMoodEntry(d, mood, now);
    match MoodIndex(d.moodEntries, now.day)
    case Some(i) => assert r.moodEntries[i].date == now && r.moodEntries[i].mood == mood;
    case None => assert r.moodEntries[|d.moodEntries|].date == now && r.moodEntries[|d.moodEntries|].mood == mood;
  }

  // ---------------------------------------------------------------------
  // The invariant is kept

  lemma MoodEntryKeepsDaysDistinct(d: WellnessRecord, mood: Mood, now: Instant)
    requires MoodDaysDistinct(d.moodEntries)
    ensures MoodDaysDistinct(WithMoodEntry(d, mood, now).moodEntries)
  {
  }

  lemma DefaultWellFormed(now: Instant)
    ensures WellFormed(DefaultRecord(now))
  {
  }

  lemma UserPatchKeepsWellFormed(d: WellnessRecord, p: UserPatch)
    requires WellFormed(d)
    ensures WellFormed(WithUserPatch(d, p))
  {
  }

  lemma AssessmentKeepsWellFormed(d: WellnessRecord, result: Assessment.ScoreResult, now: Instant)
    requires WellFormed(d)
    ensures WellFormed(WithAssessment(d, result, now))
  {
  }

  lemma MoodEntryKeepsWellFormed(d: WellnessRecord, mood: Mood, now: Instant)
    requires WellFormed(d)
    ensures WellFormed(WithMoodEntry(d, mood, now))
  {
    MoodEntryKeepsDaysDistinct(d, mood, now);
  }

  lemma TaskKeepsWellFormed(d: WellnessRecord, template: TaskTemplate, now: Instant)
    requires WellFormed(d)
    ensures WellFormed(WithTask(d, template, now))
  {
    var r := WithTask(d, template, now);
    assert r.dailyTasks == d.dailyTasks + [r.dailyTasks[|d.dailyTasks|]];
    CountAppend(d.dailyTasks, r.dailyTasks[|d.dailyTasks|], IsCompleted);
  }

  lemma AppointmentKeepsWellFormed(d: WellnessRecord, details: string, now: Instant)
    requires WellFormed(d)
    ensures WellFormed(WithAppointment(d, details, now))
  {
  }

  lemma CompleteTaskKeepsWellFormed(d: WellnessRecord, id: int, clock: Clock)
    requires WellFormed(d)
    ensures WellFormed(WithTaskCompleted(d, id, clock))
  {
    if Completable(d, id) {
      var i := TaskIndex(d.dailyTasks, id).value;
      var marked := MarkCompleted(d.dailyTasks, i, clock.now.ms);
      CountUpdate(d.dailyTasks, i, marked[i], IsCompleted);
      assert marked == d.dailyTasks[i := marked[i]];
    }
  }

  /** Task ids are distinct. */
  predicate DistinctTaskIds(tasks: seq<Task>)
  {
    forall i, j :: 0 <= i < j < |tasks| ==> tasks[i].id != tasks[j].id
  }

  /** Ids are time stamps, so they stay distinct as long as the clock has
      moved past every earlier id when a task is added. */
  lemma TaskIdsStayDistinct(d: WellnessRecord, template: TaskTemplate, now: Instant)
    requires DistinctTaskIds(d.dailyTasks)
    requires forall j :: 0 <= j < |d.dailyTasks| ==> d.dailyTasks[j].id < now.ms
    ensures DistinctTaskIds(WithTask(d, template, now).dailyTasks)
  {
  }

  // ---------------------------------------------------------------------
  // The store

  /** `MindWellStorage`: the record's parts as fields, and `saved`, the
      record last written to local storage. */
  class MindWellStorage {
    var user: User
    var assessments: seq<AssessmentEntry>
    var dailyTasks: seq<Task>
    var moodEntries: seq<MoodEntry>
    var appointments: seq<Appointment>
    var streak: int
    var tasksCompleted: int
    var settings: Settings
    var saved: Option<WellnessRecord>

    /** `getData`. */
    function Data(): WellnessRecord
      reads this
    {
      WellnessRecord(user, assessments, dailyTasks, moodEntries, appointments, streak, tasksCompleted, settings)
    }

    /** Loads `stored`, the record found in local storage, if any. */
    constructor(stored: Option<WellnessRecord>, now: Instant)
      ensures Data() == LoadData(stored, now)
      ensures saved == stored
    {
      var d := LoadData(stored, now);
      user, assessments, dailyTasks, moodEntries := d.user, d.assessments, d.dailyTasks, d.moodEntries;
      appointments, streak, tasksCompleted, settings := d.appointments, d.streak, d.tasksCompleted, d.settings;
      saved := stored;
    }

    /** `saveData`. */
    method SaveData()
      modifies this
      ensures Data() == old(Data())
      ensures saved == Some(Data())
    {
      saved := Some(Data());
    }

    method UpdateUser(p: UserPatch)
      modifies this
      ensures Data() == WithUserPatch(old(Data()), p)
      ensures saved == Some(Data())
    {
      user := WithUserPatch(Data(), p).user;
      SaveData();
    }

    method AddAssessment(result: Assessment.ScoreResult, now: Instant)
      modifies this
      ensures Data() == WithAssessment(old(Data()), result, now)
      ensures saved == Some(Data())
    {
      assessments := assessments + [AssessmentEntry(now.ms, now, result)];
      user := user.(mentalHealthScore := Some(result.score));
      user := user.(lastAssessmentDate := Some(now.ms));
      SaveData();
    }

    method AddMoodEntry(mood: Mood, now: Instant)
      modifies this
      ensures Data() == WithMoodEntry(old(Data()), mood, now)
      ensures saved == Some(Data())
    {
      var existingIndex := MoodIndex(moodEntries, now.day);
      if existingIndex.Some? {
        var i := existingIndex.value;
        moodEntries := moodEntries[i := MoodEntry(moodEntries[i].id, now, mood)];
      } else {
        moodEntries := moodEntries + [MoodEntry(now.ms, now, mood)];
      }
      SaveData();
    }

    method AddTask(template: TaskTemplate, now: Instant)
      modifies this
      ensures Data() == WithTask(old(Data()), template, now)
      ensures saved == Some(Data())
    {
      dailyTasks := dailyTasks + [Task(now.ms, now, now.ms + TaskLifetimeMs, false, None, template.title, template.category)];
      SaveData();
    }

    /** Saves only when a task was actually completed. */
    method CompleteTask(taskId: int, clock: Clock)
      modifies this
      ensures Data() == WithTaskCompleted(old(Data()), taskId, clock)
      ensures Completable(old(Data()), taskId) ==> saved == Some(Data())
      ensures !Completable(old(Data()), taskId) ==> saved == old(saved)
    {
      var found := TaskIndex(dailyTasks, taskId);
      if found.Some? && !dailyTasks[found.value].completed {
        var i := found.value;
        dailyTasks := dailyTasks[i := dailyTasks[i].(completed := true, completedAt := Some(clock.now.ms))];
        tasksCompleted := tasksCompleted + 1;
        UpdateStreak(clock);
        SaveData();
      }
    }

    /** `updateStreak`; it does not save by itself. */
    method UpdateStreak(clock: Clock)
      modifies this
      ensures Data() == WithStreakUpdated(old(Data()), clock)
      ensures saved == old(saved)
    {
      var todayTasks := CompletedOn(dailyTasks, clock.now.day);
      var yesterdayTasks := CompletedOn(dailyTasks, clock.yesterday);
      if todayTasks > 0 {
        if yesterdayTasks > 0 || streak == 0 {
          streak := streak + 1;
        }
      }
    }

    method AddAppointment(details: string, now: Instant)
      modifies this
      ensures Data() == WithAppointment(old(Data()), details, now)
      ensures saved == Some(Data())
    {
      appointments := appointments + [Appointment(now.ms, now.ms, details)];
      SaveData();
    }
  }
}

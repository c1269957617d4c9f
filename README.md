# MindWell wellness record and progression engine, in Dafny

MindWell is a browser wellness tracker. This project models its two pieces that carry real logic.

1. **The wellness record store** (`MindWellStorage`) together with the questionnaire scorer (`MentalHealthAssessment`) and `Utils.timeAgo`.
   - The store owns one record: the user's profile, assessments, daily tasks, mood entries, appointments, and the `streak` and `tasksCompleted` counters.
   - Assessments, tasks and appointments are only ever appended.
   - Moods are upserted per calendar day.
   - Completing a task is a one-way transition that raises the completion counter and runs the streak rule.
   - The scorer turns ten severity-weighted answers into an inverted percentage ("higher is better"). It bands that percentage into five interpretations and breaks it down for eight categories.
2. **The progression engine** (`GamificationSystem`): experience points (XP), a ten-rung level ladder, thirteen one-way achievements and a five-element virtual garden.
   - Each call to `addExperience` adds XP. It then checks the level, runs one pass over the achievements (each unlock adds its reward quietly) and one pass over the garden (each element grows at most one stage). Finally it saves the progress.

How the model is built:
- Each stateful entity is a class whose fields the methods update: `Store.MindWellStorage` and `Gamification.GamificationSystem`.
- Each method is proved to perform one pure transition function over a value: `WellnessRecord` for the store, `Progress` for the engine.
- The properties are proved as lemmas about those functions.
- The notifications the engine shows are recorded as a list of `Event`s: reward, level-up, achievement unlocked and garden growth.
- Local storage is the field `saved` of each class. It holds the last record or progress written, or what was found at start-up.

Time is a parameter:
- An `Instant` is a millisecond time stamp together with the calendar day it falls on.
- A `Clock` is the current instant plus the calendar day of the instant 24 hours earlier; `updateStreak` compares task days with these two days.
- `checkAchievements` looks 90 days back. That point in time is passed as the time stamp `cutoff`.

The engine builds its own `MindWellStorage` when it is constructed (gamification.js:6). That store loads the record once and is never written to by the engine. So the engine judges achievements and garden growth against the record as it was at start-up, not against a store that changes later. The model keeps this: the engine's `storage` is a constant store object created in its constructor.

Two behaviours of the code that are easy to miss:
- The quiet XP addition of an unlock (`addExperienceQuiet`, gamification.js:549-552) does not re-check the level. So the level can lag the XP until the next `addExperience`. `Gamification.LevelLagsRewards` proves this.
- `updateStreak` does not save by itself. Its only caller, `completeTask`, saves afterwards.

A design note that is not a bug: the streak rule runs once per completed task, not once per day. When a task created yesterday is completed, completing two tasks created today raises the streak by two (`Store.StreakCountsCompletionsNotDays`). From a streak of 0 with nothing completed yesterday, the second completion of the day does not raise the streak again.

Files, one module each: `basics.dfy` (options, results, counting, rounding, text search), `assessment.dfy`, `store.dfy`, `utils.dfy`, `levels.dfy`, `achievements.dfy`, `garden.dfy`, `gamification.dfy`.

## Model

| member | source | states |
|---|---|---|
| Store.DefaultRecord | script.js:15-32 | the first-visit record is an empty profile registered now with no score and no assessment date; all four lists are empty; streak and completion count are 0; notifications are on with the light theme |
| Store.CategoryNamed | gamification.js:390-408 | the category value a task's string denotes is spelled one way only and carries that string back |
| Store.CategoryNamesAgree | gamification.js:390-408 | on canonically spelled categories, equal values are exactly equal strings, so comparing values is the source's string test |
| Store.LoadData | script.js:10-33 | a stored record is returned unchanged; with none, the default record is used, and it satisfies the record invariant |
| Store.WithUserPatch | script.js:39-42 | each field given in the patch replaces the user's field, each field not given is kept, and nothing outside the user changes |
| Store.WithAssessment | script.js:44-53 | exactly one entry is appended (earlier entries unchanged), stamped now with the result; the user's score becomes the new score and the last assessment date becomes now; nothing else changes |
| Store.MoodIndex | script.js:57-59 | the index found is the first entry dated today; there is none exactly when no entry is dated today |
| Store.WithMoodEntry | script.js:55-75 | when an entry is dated today, the first such entry is overwritten in place, keeps its id and takes the new mood and time, and the list length is unchanged; otherwise exactly one entry is appended; nothing else in the record changes |
| Store.WithTask | script.js:77-86 | exactly one task is appended (earlier tasks unchanged); it is open, unstamped, created now, has id now and is due 72,000,000 ms (20 h) later, with the caller's title and category |
| Store.WithAppointment | script.js:120-127 | exactly one booking is appended, stamped now; earlier bookings and the rest of the record are unchanged |
| Store.TaskIndex | script.js:89 | `find` by id: the first task with the id; none exactly when no task has it |
| Store.WithStreakUpdated | script.js:99-118 | only the streak changes, by 0 or +1; it rises exactly when some task created today is completed and either some task created yesterday is completed or the streak is 0 |
| Store.MarkCompleted | script.js:91-92 | task `i` becomes completed and stamped; every other task is unchanged |
| Store.WithTaskCompleted | script.js:88-97 | nothing changes unless the first task with the id is still open; otherwise that task is marked completed now, the counter rises by one and the streak rule runs |
| Store.CompleteTaskNoOp | script.js:88-97 | an unknown id, or an id whose first task is already completed, leaves the record unchanged |
| Store.CompleteTaskEffect | script.js:88-97 | a successful completion marks exactly that task and stamps it now, raises `tasksCompleted` by exactly 1, moves the streak by 0 or 1, and leaves every other task and field unchanged |
| Store.CompleteTaskTwice | script.js:88-97 | completing the same id twice is the same as completing it once |
| Store.StreakNeverDecreases | script.js:88-118 | completing a task never lowers the streak or the completion counter |
| Store.StreakKeptWithoutYesterday | script.js:111-114 | with a positive streak and no completed task created yesterday, completing a task not created yesterday leaves the streak as it was and raises the counter by one |
| Store.StreakStep | script.js:111-114 | with a completed task created yesterday, completing an open task created today raises the streak by one, and yesterday still counts afterwards |
| Store.StreakCountsCompletionsNotDays | script.js:88-118 | with a completed task created yesterday, completing two different open tasks created today raises the streak by two |
| Store.TaskIndexKeptByUpdate | script.js:89 | changing a task without changing its id moves no id's first index |
| Store.SameDayMoodsKeepLater | script.js:55-75 | two moods on the same day leave one entry for that day, holding the later mood and time; days stay distinct |
| Store.MoodEntryRecorded | script.js:55-75 | after `addMoodEntry` an entry with the new mood, dated now, is present |
| Store.MoodEntryKeepsDaysDistinct | script.js:55-75 | one mood entry per calendar day is preserved |
| Store.DefaultWellFormed | script.js:15-32 | the default record satisfies the invariant: non-negative streak, counter equal to the number of completed tasks, completions stamped, one mood per day |
| Store.UserPatchKeepsWellFormed | script.js:39-42 | `updateUser` preserves the record invariant |
| Store.AssessmentKeepsWellFormed | script.js:44-53 | `addAssessment` preserves the record invariant |
| Store.MoodEntryKeepsWellFormed | script.js:55-75 | `addMoodEntry` preserves the record invariant |
| Store.TaskKeepsWellFormed | script.js:77-86 | `addTask` preserves the record invariant |
| Store.AppointmentKeepsWellFormed | script.js:120-127 | `addAppointment` preserves the record invariant |
| Store.CompleteTaskKeepsWellFormed | script.js:88-118 | `completeTask` preserves the record invariant; the counter keeps counting the completed tasks |
| Store.TaskIdsStayDistinct | script.js:77-80 | ids are time stamps, so they stay distinct when the clock has passed every earlier id |
| Store.MindWellStorage.constructor | script.js:5-8 | the store's record is what `loadData` gives for what local storage holds |
| Store.MindWellStorage.SaveData | script.js:35-37 | the record is unchanged and becomes the saved record |
| Store.MindWellStorage.UpdateUser | script.js:39-42 | the new record is the patched record, and it is saved |
| Store.MindWellStorage.AddAssessment | script.js:44-53 | the new record is `WithAssessment` of the old one, and it is saved |
| Store.MindWellStorage.AddMoodEntry | script.js:55-75 | the new record is `WithMoodEntry` of the old one, and it is saved |
| Store.MindWellStorage.AddTask | script.js:77-86 | the new record is `WithTask` of the old one, and it is saved |
| Store.MindWellStorage.CompleteTask | script.js:88-97 | the new record is `WithTaskCompleted` of the old one; it is saved exactly when a task was completed, and the saved copy is untouched otherwise |
| Store.MindWellStorage.UpdateStreak | script.js:99-118 | the new record is `WithStreakUpdated` of the old one; nothing is saved |
| Store.MindWellStorage.AddAppointment | script.js:120-127 | the new record is `WithAppointment` of the old one, and it is saved |
| Assessment.Questions | script.js:290-407 | the battery has ten questions |
| Assessment.OptionsLabelled | script.js:290-407 | every option of every question of the battery has a text |
| Assessment.MaxValueSpec | script.js:412-413 | `Math.max` of the option values is one of them and bounds all of them |
| Assessment.MaxPossibleScore | script.js:412-414 | the largest possible total is positive for any well-formed battery |
| Assessment.Interpretation | script.js:428-434 | exactly one of five strings; each band holds exactly when the percentage is in its range (≥80, 60-79, 40-59, 20-39, <20) |
| Assessment.CategoryOrderSpec | script.js:436-446 | the category keys are exactly the categories seen, each once |
| Assessment.CategoryMaxPositive | script.js:436-452 | every category that occurs has a positive maximum, so its percentage is defined |
| Assessment.TalliesSpec | script.js:436-446 | the accumulated object holds exactly the categories seen; each holds its summed answers, summed maxima and question count |
| Assessment.CategoryScoresCover | script.js:436-454 | the breakdown has an entry for every question's category, only for categories some question has, and no category twice |
| Assessment.CategoryScoresEntries | script.js:436-454 | each entry holds its category's summed answers, summed maxima (positive) and question count, and the nearest integer (halves up) to 100 × (max − total) / max |
| Assessment.EveryCategoryScored | script.js:436-446 | every question's category gets an entry |
| Assessment.OnlyAskedCategoriesScored | script.js:436-446 | every entry is the category of some question |
| Assessment.OrderCovers | script.js:436-446 | every question's category is one of the keys of the breakdown |
| Assessment.OrderDistinct | script.js:436-446 | no key of the breakdown repeats |
| Assessment.OrderFromQuestions | script.js:436-446 | every key of the breakdown is some question's category |
| Assessment.CategoryUnseen | script.js:436-446 | a category no question has seen has nothing tallied |
| Assessment.CalculateCategoryScores | script.js:436-454 | it fails exactly when there are fewer answers than questions, at the first missing answer; otherwise it returns one entry per category in first-appearance order, with totals, maxima, counts and rounded inverted percentages |
| Assessment.FillPercentages | script.js:448-451 | the second loop fills in each tally's percentage, in key order |
| Assessment.CalculateScore | script.js:410-426 | fails exactly when an answer is missing, naming the first missing index; otherwise `totalScore` sums every answer, `maxPossibleScore` is the positive sum of the per-question maxima (`MaxPossibleScore`, 36 on the fixed battery), the score is the nearest integer (halves up) to 100 × (max − total) / max, the interpretation is the band of that score, and the breakdown is `CategoryScoresOf` (one entry per category key, whose meaning `CategoryScoresCover` and `CategoryScoresEntries` state); for one valid option per question it succeeds with 0 ≤ total ≤ max and a score in [0, 100] |
| Assessment.ValidScoreBounds | script.js:410-417 | for one valid option per question the total lies in [0, max] and the inverted percentage in [0, 100] |
| Assessment.AllMildestScoresHundred | script.js:410-417 | all-zero answers score 100, "Excellent mental health" |
| Assessment.AllSeverestScoresZero | script.js:410-417 | answering every question with its heaviest option scores 0, "Very poor mental health" |
| Assessment.CategoryPercentagesInRange | script.js:448-451 | for valid answers every category percentage lies in [0, 100] |
| Assessment.TableWeights | script.js:290-407 | the fixed battery is well formed; the first four questions weigh at most 3, the other six at most 4 |
| Assessment.MaxPossibleScoreIs36 | script.js:290-414 | the maximum possible score of the fixed battery is 36 |
| Assessment.FrequencyCategoryOrder | script.js:290-339 | the four frequency questions cover mood, then anxiety |
| Assessment.CategoryOrderTable | script.js:290-407 | the fixed battery has exactly eight categories: mood, anxiety, stress, sleep, social, energy, coping, overall |
| Assessment.CategoryCountTable | script.js:290-446 | mood and anxiety have two questions each; the other categories have one |
| Assessment.CategoryMaxTable | script.js:290-446 | mood and anxiety have maximum 6; the other six have maximum 4 |
| Assessment.CategoryScoresOf | script.js:436-454 | the breakdown in key order; its meaning is stated by `CategoryScoresCover` and `CategoryScoresEntries` |
| Assessment.CategoryBreakdown | script.js:436-454 | for the fixed battery the breakdown has eight entries in question order with those counts and maxima |
| Assessment.CountsSumToTen | script.js:436-454 | the per-category counts of the fixed battery sum to 10 |
| Assessment.BatteryMildest | script.js:290-426 | on the fixed battery, ten zero answers score 100 |
| Assessment.BatterySeverest | script.js:290-426 | on the fixed battery, answers 3,3,3,3,4,4,4,4,4,4 total 36 and score 0 |
| Utils.TimeAgo | script.js:728-739 | Today exactly at 0 days, Yesterday at 1, "days ago" for 2-6 and for negative days, weeks for 7-29 (1-4 weeks, rounded down), months from 30 days (rounded down) |
| Utils.DaysBetweenBracket | script.js:730-732 | `Math.floor` of the difference in days is k exactly when the difference lies in [k, k+1) days |
| Utils.Label | script.js:734-738 | the label text of each band; `DigitsRoundTrip` shows its number reads back |
| Utils.DigitsRoundTrip | script.js:736-738 | the label's digits read back as the number |
| Utils.TimeAgoExamples | script.js:728-739 | the band boundaries: just under a day is Today, 1 day Yesterday, 6 days, 7 days = 1 week, 29 days = 4 weeks, 30 days = 1 month, a future stamp is -1 days |
| Levels.XpRequired | gamification.js:31-42 | rung 1 needs 0 XP |
| Levels.LadderIncreasing | gamification.js:31-42 | the ladder (0, 100, 250, 500, 1000, 2000, 4000, 8000, 15000, 25000) climbs strictly |
| Levels.LevelOf | gamification.js:315-324 | the level is always in 1..10 |
| Levels.CurrentLevelName | gamification.js:590-592 | a rung's own (non-empty) name, and "Seedling" for any level that is not a rung |
| Levels.LevelOfSpec | gamification.js:315-324 | the level is the largest rung whose requirement the XP meets; no higher rung is met; 1 when none is |
| Levels.LevelFromSpec | gamification.js:317-322 | the countdown from rung `i` stops at the highest rung at or below `i` that the XP meets |
| Levels.LevelMonotone | gamification.js:315-324 | more XP never gives a lower level |
| Levels.LevelExamples | gamification.js:31-42 | 0→1, 99→1, 100→2, 249→2, 250→3, 24999→9, 25000→10, -5→1 |
| Levels.CalculateLevel | gamification.js:315-324 | the countdown loop with its early `break` returns the level of the XP |
| Achievements.InitialAchievements | gamification.js:46-175 | thirteen entries, all locked, each with its fixed reward |
| Achievements.InitialTableLists | gamification.js:46-175 | every achievement appears in the table exactly once |
| Achievements.CommunityHelperNeverUnlocks | gamification.js:369-421 | `community_helper` has no case, so it never unlocks |
| Achievements.FreshRecordUnlocksNothing | gamification.js:369-421 | a default record qualifies for no achievement |
| Achievements.FirstTaskUnlocksFirstDay | gamification.js:371-373 | the first completed task is exactly what `first_day` needs |
| Achievements.QualificationPersists | gamification.js:369-421 | once the record qualifies for an achievement, no store operation (complete, add task, mood, assessment, booking, profile edit) takes the qualification away |
| Achievements.QualificationKeptByCompletion | gamification.js:369-421 | completing a task keeps every qualification |
| Achievements.QualificationKeptByNewTask | gamification.js:369-421 | adding a task keeps every qualification |
| Achievements.QualificationKeptByMood | gamification.js:369-421 | recording a mood keeps every qualification |
| Achievements.QualificationKeptByBooking | gamification.js:369-421 | booking an appointment or editing the profile keeps every qualification |
| Achievements.QualificationKeptByAssessment | gamification.js:369-421 | adding an assessment keeps every qualification |
| Achievements.TasksCountsKeptByCompletion | gamification.js:389-410 | completing a task never lowers any completed-task count used by the thresholds |
| Achievements.Checked | gamification.js:365-425 | an entry is unlocked after the pass exactly when it was unlocked or qualifies; id and reward are unchanged |
| Achievements.CheckedAll | gamification.js:365-426 | the table after a pass is each entry checked |
| Achievements.NewRewardsAreGained | gamification.js:423-431 | the XP a pass adds equals the rewards of exactly the entries that went from locked to unlocked |
| Achievements.CheckOneWay | gamification.js:365-366 | unlocked entries stay unlocked, and only the flag changes |
| Achievements.CheckIdempotent | gamification.js:365-366 | a second pass on the same record changes nothing, unlocks nothing and adds no XP |
| Achievements.RewardsPaidOnce | gamification.js:365-431 | over two passes, even on different records, each reward is paid at most once: exactly the rewards of the entries that became unlocked |
| Achievements.NewRewardsNonNegative | gamification.js:429-431 | with non-negative rewards a pass never lowers XP |
| Achievements.UnlockedIds | gamification.js:558 | the saved ids are exactly those of the unlocked entries |
| Achievements.NewlyUnlockedNames | gamification.js:364-426 | an id is in the list a pass unlocks exactly when a visited entry with that id was locked and qualifies |
| Achievements.KeysIdentify | gamification.js:46-175 | distinct achievements have distinct `id` strings, so a saved list of ids names each entry unambiguously |
| Achievements.ShouldUnlock | gamification.js:369-421 | the thirteen unlock conditions, one per id; their properties are in `CommunityHelperNeverUnlocks`, `FreshRecordUnlocksNothing`, `FirstTaskUnlocksFirstDay` and `QualificationPersists` |
| Garden.InitialElements | gamification.js:178-221 | five elements, each at its first of four stages |
| Garden.GrowthEventsNames | gamification.js:488-523 | an id is in the list a pass grows exactly when a visited element with that id advances |
| Garden.StagesPictured | gamification.js:178-221 | every initial element has exactly one `growthStages` picture per stage |
| Garden.LastSeven | gamification.js:512 | `slice(-7)` is the last seven entries, or all of them when there are fewer |
| Garden.ShouldGrow | gamification.js:492-516 | the five growth conditions; their properties are in `GoodMoodStreakMeaning`, `FreshGardenStill` and `GrowthCapped` |
| Garden.GoodMoodStreakMeaning | gamification.js:511-514 | the joy sunflower's condition holds exactly when there are at least seven mood entries and the last seven all have value ≥ 4 |
| Garden.Grown | gamification.js:517-521 | an element climbs by 0 or 1 stage; it climbs exactly when its condition holds and it is below its last stage; it stays on a valid stage; nothing else changes |
| Garden.GrownAll | gamification.js:488-524 | every element is grown once |
| Garden.HappinessMatchesGrowth | gamification.js:517-520 | the happiness a pass adds equals the happiness weight of each element times the stages it gained |
| Garden.GrowthCapped | gamification.js:517-521 | while its condition holds an element climbs one stage per pass until its last stage and then stays |
| Garden.FreshGardenStill | gamification.js:488-524 | on a default record nothing grows and no happiness is added |
| Garden.NoGrowthNoGain | gamification.js:517-521 | when nothing grows, no happiness is added and nothing is announced |
| Gamification.StreakBonus | gamification.js:616-617 | the streak bonus is at most 100, exactly 100 from 20 days on, 5 per day up to 20 days, and never negative for a non-negative streak |
| Gamification.UnlockEvents | gamification.js:434 | one unlock toast per unlocked id, in order |
| Gamification.GrowEvents | gamification.js:521 | one growth toast per grown element, in order |
| Gamification.FreshProgress | gamification.js:5-19 | a new engine is at level 1 with 0 XP, the initial table and the initial garden |
| Gamification.OrDefault | gamification.js:571-572 | a missing or zero value falls back to the default; any other value is kept |
| Gamification.AchievementIndex | gamification.js:577 | `find` by id: the first entry with the id; none exactly when no entry has it |
| Gamification.Snapshot | gamification.js:554-562 | every field is written, level, XP and garden as they are, and the achievements as the ids of exactly the unlocked entries |
| Gamification.UnlockSaved | gamification.js:575-582 | the table keeps its length and every entry keeps its id and reward; an unlocked entry stays unlocked, and an entry becomes unlocked only when its id was saved |
| Gamification.Restore | gamification.js:567-588 | with nothing saved the engine is unchanged; otherwise the level is the saved one or 1 when missing or zero (so never 0), the XP the saved one or 0, and the garden and its elements the saved ones when present and the current ones otherwise; the table keeps its entries, ids and rewards, keeps every unlock, and unlocks an entry only when its id was saved |
| Gamification.Init | gamification.js:5-27 | with the tables built first: nothing saved gives the fresh engine; whatever was saved, the table has the initial entries in order and the level is not 0 |
| Gamification.UnlockSavedMembers | gamification.js:575-582 | marking the saved ids unlocks exactly the entries whose id was saved, keeping the others |
| Gamification.RestoreDefaults | gamification.js:567-573 | with nothing saved, or a missing or zero level and XP, the engine starts at level 1 with 0 XP |
| Gamification.InitialTableShaped | gamification.js:46-175 | the initial table has the thirteen ids in list order with distinct ids |
| Gamification.SaveRestoreRoundTrip | gamification.js:554-588 | saving progress and starting a new engine, with the tables built first, gives back the same progress (any level other than 0) |
| Gamification.RestartKeepsProgress | gamification.js:554-588 | saving right after start-up and starting again gives the same progress, whatever was stored |
| Gamification.InitAsWritten | gamification.js:21-27 | in the written order, start-up fails exactly when the saved achievements list is non-empty; when it succeeds the table and the garden elements are the initial ones, whatever was saved |
| Gamification.InitAsWrittenLosesProgress | gamification.js:21-27 | as written, restarting after any unlock fails, and a restored garden always resets to the first stages |
| Gamification.InitAsWrittenExample | gamification.js:21-27 | a save with one unlocked achievement makes the written order fail, while the corrected order restores it with its 50 XP |
| Gamification.LevelChecked | gamification.js:306-313 | only the level changes; it never falls; it is at least the level of the XP; when it rises, it becomes exactly the level of the XP |
| Gamification.LevelUpEvents | gamification.js:306-313 | one level-up notification, from the old to the new level, exactly when the level rises |
| Gamification.AchievementsChecked | gamification.js:362-427 | the table is checked and XP rises by exactly the newly unlocked rewards; nothing else changes |
| Gamification.GardenUpdated | gamification.js:488-524 | the elements are grown and happiness rises by the gains; nothing else changes |
| Gamification.Experienced | gamification.js:224-237 | XP rises by the amount plus the rewards the pass unlocks, and the level is the higher of the old level and the level of the XP before those rewards |
| Gamification.Evaluated | gamification.js:227-234 | after the XP credit, XP rises by the unlocked rewards only, and the level is set from the credited XP before the rewards |
| Gamification.CheckEvents | gamification.js:423-435 | the unlock toasts of one achievement pass, one per newly unlocked entry in table order |
| Gamification.GardenEvents | gamification.js:518-521 | the growth toasts of one garden pass, one per grown element in list order |
| Gamification.UnlockToastsNameNewEntries | gamification.js:423-435 | an achievement is toasted by `checkAchievements` exactly when its entry was locked and its condition holds |
| Gamification.GrowthToastsNameGrownElements | gamification.js:518-521 | an element is toasted by `updateGarden` exactly when its condition holds and it is below its last stage |
| Gamification.StepEvents | gamification.js:227-234 | the level-up notification, then the unlock toasts, then the growth toasts |
| Gamification.ExperienceEvents | gamification.js:224-241 | the step notifications followed by the reward celebration |
| Gamification.RewardShownLast | gamification.js:224-241 | `addExperience` shows the reward celebration exactly once, as its last notification |
| Gamification.ExperienceAddsExactly | gamification.js:224-237 | XP rises by exactly the amount plus the rewards unlocked; with non-negative amount and rewards it never falls |
| Gamification.LevelSettledBeforeRewards | gamification.js:224-231 | the level never falls and is fixed from the XP before the rewards are added |
| Gamification.LevelLagsRewards | gamification.js:429-431 | on a well-formed record holding one completed task, with 50 XP a 25 XP reward unlocks `first_day` (+50): 125 XP, but the level stays 1 though 125 XP is level 2 |
| Gamification.AchievementsCheckedIdempotent | gamification.js:362-427 | re-running the achievement pass on the same record is a no-op |
| Gamification.FreshRecordOnlyLevels | gamification.js:224-237 | on a default record experience only moves XP and the level |
| Gamification.FourTasksReachSprout | gamification.js:224-237 | from a fresh start four 25 XP task rewards give 100 XP and level 2 ("Sprout"), reached on the fourth |
| Gamification.FourTasksLevelUpOnce | gamification.js:306-313 | the level-up notification fires on the fourth reward and not before |
| Gamification.PassStep | gamification.js:364-426 | one more turn of the `forEach` extends the partial pass by exactly that entry |
| Gamification.PassDone | gamification.js:364-426 | after the last turn the loop has done one whole achievement pass, toasts included |
| Gamification.GamificationSystem.constructor | gamification.js:5-27 | the engine's store holds the loaded record, the progress is the corrected `Init` of what was saved, and nothing has been shown |
| Gamification.GamificationSystem.InitializeAchievements | gamification.js:46-175 | only the table changes, to the initial table |
| Gamification.GamificationSystem.CreateVirtualGarden | gamification.js:178-221 | only the elements change, to the initial elements |
| Gamification.GamificationSystem.LoadUserProgress | gamification.js:567-588 | the progress becomes `Restore` of what was saved |
| Gamification.GamificationSystem.MarkSavedAchievements | gamification.js:575-582 | only the table changes, to the saved ids marked |
| Gamification.GamificationSystem.SaveProgress | gamification.js:554-565 | the progress is unchanged and its snapshot becomes the saved progress |
| Gamification.GamificationSystem.AddExperienceQuiet | gamification.js:549-552 | only XP changes, by the amount, and the result is saved; no level, achievement or garden step |
| Gamification.GamificationSystem.CalculateLevel | gamification.js:315-324 | returns the level of the XP |
| Gamification.GamificationSystem.CheckLevelUp | gamification.js:306-313 | the progress becomes `LevelChecked` of the old one, with its notification |
| Gamification.GamificationSystem.UnlockAchievement | gamification.js:429-438 | entry `i` becomes unlocked, XP rises by its reward, the toast is shown and the progress is saved |
| Gamification.GamificationSystem.CheckOne | gamification.js:364-425 | one turn: a locked entry that qualifies is unlocked with its reward, toast and save; otherwise nothing changes |
| Gamification.GamificationSystem.CheckAchievements | gamification.js:362-427 | the progress becomes `AchievementsChecked` of the old one against the engine's store, with one toast per unlock; it is saved exactly when something was unlocked |
| Gamification.GamificationSystem.UpdateGarden | gamification.js:488-524 | the progress becomes `GardenUpdated` of the old one, with one toast per growth; nothing is saved |
| Gamification.GamificationSystem.Evaluate | gamification.js:227-234 | the level, achievement and garden steps in that order: the progress becomes `Evaluated` of the old one, the notifications are level-up, unlocks and growth, and the saved progress is the state after the achievement pass when something unlocked, and unchanged otherwise |
| Gamification.GamificationSystem.AddExperience | gamification.js:224-241 | the progress becomes `Experienced` of the old one; the notifications are level-up, unlocks, growth and then the reward; the result is saved |
| Gamification.GamificationSystem.OnTaskCompleted | gamification.js:603-605 | a completed task is worth 25 XP through `addExperience` |
| Gamification.GamificationSystem.OnMoodTracked | gamification.js:607-609 | a tracked mood is worth 15 XP |
| Gamification.GamificationSystem.OnAssessmentCompleted | gamification.js:611-613 | a completed assessment is worth 50 XP |
| Gamification.GamificationSystem.OnStreakMaintained | gamification.js:615-618 | a maintained streak is worth `min(5 × days, 100)` XP |
| Basics.Round | script.js:416 | `Math.round(num / den)` is the integer r with r − 1/2 ≤ num / den < r + 1/2, so halves round up |
| Basics.Percentage | script.js:416 | the inverted percentage is the nearest integer (halves up) to 100 × (max − total) / max; `PercentageBounds` gives 100, 0 and [0, 100] |
| Basics.Lower | gamification.js:403 | same length; each letter A-Z becomes its lower-case letter and every other character is kept |
| Basics.Includes | gamification.js:403 | `includes`: `IncludesAt` and `IncludesSomewhere` show it holds exactly when the pattern occurs at some position |
| Basics.IncludesAt | gamification.js:403 | an occurrence at some position makes the text include the pattern |
| Basics.IncludesSomewhere | gamification.js:403 | when the text includes the pattern, it occurs at some position |

## Left out

- DOM and presentation: the `show*` builders, the progress widget and motivational messages. Their calls are modelled only as recorded `Event`s.
- Display text of the tables: the achievements' names, descriptions, categories and rarities, the question wording, the garden elements' names and the level rewards. Only the strings that the logic compares or that identify entries are modelled: achievement ids, level names, category names, option texts and stage pictures.
- `ThemeManager`, `Navigation`, `HomePage`, `SlidingAnimations`, `TaskGenerator` and the rest of `Utils`: page wiring, display and random choices, with no state of the record.
- The 3D animation files: scene construction and animation with no state of the record.
- `getProgressToNextLevel`: a floating-point display helper. At level 10 there is no next rung, so the next requirement falls back to `totalXP`. The result is then 0/0, which is NaN, when `totalXP` is exactly 25000, and 100 otherwise.
- Task categories are a datatype rather than strings. `OtherCategory` can still hold one of the six known names, such as `OtherCategory("learning")`, which the source would count as learning and the model does not. `CategoryNamed` never builds such a value, and `CategoryNamesAgree` shows that comparing canonical values is the source's string test.
- Local storage and JSON: the stored document is a value of the model's own types. JSON text, corrupt JSON (which makes `JSON.parse` throw) and values of the wrong type are not represented.
- Saved achievements are kept by id. An id outside the thirteen known ones cannot be represented, and the saved time stamp `lastUpdated` is left out.
- The spread of caller payloads (`...task`, `...mood`, `...assessment`, `...appointment`): each payload carries only its own fields. A payload that overrides the stamped `id`, `date` or `completed` is not modelled.
- Appointment details are an opaque string.
- The engine's unused fields `badges`, `achievements`, `streaks` and `virtualGarden.plants` are not modelled.
- `Basics.Lower` folds the letters A-Z only. Non-ASCII case folding of `toLowerCase` is not modelled.
- The clock is a parameter: the current instant, the calendar days of now and of 24 hours earlier, and the 90-day `cutoff` of `life_changer`. `toDateString` and daylight-saving effects on those days are not modelled.
- `Math.round` on floats is modelled as exact rounding of the rational value, half up. For the fixed battery (denominators 36, 6 and 4) no tie or float error arises.
- The browser's event dispatch is replaced by direct method calls. The event payloads (`context`) are unused by the code and left out.

## Findings

| source | as written | input that shows it | evidently intended | confidence | as-written member | corrected member |
|---|---|---|---|---|---|---|
| gamification.js:21-27 | `init` runs `loadUserProgress` before `initializeAchievements` and `createVirtualGarden`. Marking a saved achievement reads the still-missing table, which throws. Then the garden is rebuilt over any restored elements. | saved progress whose achievement list holds one unlocked entry, e.g. `first_day` at 50 XP; or any saved garden with a grown element | the tables are built first and the saved progress is restored into them, so that saving and restarting gives back the same progress | not executed | Gamification.InitAsWritten, Gamification.InitAsWrittenLosesProgress, Gamification.InitAsWrittenExample | Gamification.Init, Gamification.SaveRestoreRoundTrip |

# ai-tasked backend core in Dafny

This project models the backend core of ai-tasked, a task manager with
AI-assisted task creation and a gamification layer. It covers four Convex
modules under `packages/backend/convex/`:

- **gamification** (`gamification.dfy`, module `Gamification`):
  - the XP, level and character-stage calculator;
  - the per-user progress ledger: `awardXP`, the daily streak, and the user record created at sign-up;
  - the achievement catalog, its lazy seeding and the achievement evaluator.
  - The `userProgress` and `achievements` tables are the fields of class `Ledger`.
- **tasks** (`tasks.dfy`, module `Tasks`):
  - the task record and the pure queries over the task table;
  - the mutations: create, update with its XP adjustment, complete, cascading delete, accepting an AI date suggestion.
  - The `tasks` table is a field of class `TaskStore`. It keeps rows in creation order with increasing ids, and it holds the `Ledger` as a collaborator.
- **ai** (`ai.dfy`, module `Ai`):
  - the context prompt sent to the language model;
  - the normaliser that turns the model's reply into validated task drafts, with its fallback task;
  - the ingestion that creates each draft and then its subtasks.
- **calendar** (`calendar.dfy`, module `Calendar`):
  - the busy slots taken from calendar events;
  - the free-slot scan over working hours in 15-minute steps;
  - the access-token refresh rule;
  - calendar-event creation, which schedules the task.

Supporting modules:

- `wrappers.dfy` holds `Option` and `Result`.
- `seqs.dfy` holds:
  - an order-preserving filter;
  - a stable insertion sort by a lexicographic key;
  - generic folds that specify the source's loops.
- `text.dfy` holds `String(n)`, the digit-only `Number(s)`, `split`, `join` and `indexOf`.

Each mutation is atomic, as a Convex mutation is. An operation that fails leaves every table unchanged.

## Model

| member | source | states |
|---|---|---|
| Gamification.CalculateXP | packages/backend/convex/gamification.ts:5-18 | twice the result is `base*difficulty + 10*subtasks`, plus one when that is odd (Math.round of the half value); unknown priority names take base 10 |
| Gamification.CalculateXPExamples | packages/backend/convex/gamification.ts:5-18 | medium/4 gives 50, high/3 gives 75, urgent/5 with 2 subtasks gives 198, and an unknown priority falls back to base 10 |
| Gamification.SubtaskBonus | packages/backend/convex/gamification.ts:15-17 | each extra subtask adds exactly 5 XP |
| Gamification.CalculateXPMonotoneInSubtasks | packages/backend/convex/gamification.ts:15-17 | more subtasks never give less XP |
| Gamification.ISqrt | packages/backend/convex/gamification.ts:21-24 | the integer square root: `r*r <= n < (r+1)*(r+1)` |
| Gamification.CalculateLevel | packages/backend/convex/gamification.ts:21-24 | level is at least 1; for a non-negative total, `100*(level-1)^2 <= total < 100*level^2`, i.e. `floor(sqrt(total/100)) + 1`; below 100 it is 1 |
| Gamification.CalculateLevelAsWritten | packages/backend/convex/gamification.ts:21-24 | the formula as written has no value (NaN) exactly for negative totals, and agrees with CalculateLevel elsewhere |
| Gamification.LevelCharacterized | packages/backend/convex/gamification.ts:21-24 | any level meeting the square bounds is the computed level, so the bounds determine the level |
| Gamification.LevelExamples | packages/backend/convex/gamification.ts:21-24 | levels at 0, 99, 100, 399 and 400 XP are 1, 1, 2, 2, 3 |
| Gamification.LevelMonotone | packages/backend/convex/gamification.ts:21-24 | the level never decreases as XP grows |
| Gamification.StageFrom | packages/backend/convex/gamification.ts:36-41 | the downward scan returns the highest threshold index met, and no higher threshold up to the scan start is met |
| Gamification.CalculateCharacterStage | packages/backend/convex/gamification.ts:27-42 | the stage is in 1..5; its threshold is met and the next one is not |
| Gamification.StageSteps | packages/backend/convex/gamification.ts:28-34 | the stage for each XP band: below 100, 100-499, 500-1999, 2000-9999 and from 10000 |
| Gamification.StageMonotone | packages/backend/convex/gamification.ts:27-42 | the stage never decreases as XP grows |
| Gamification.InitialProgress | packages/backend/convex/auth.ts:51-67 | the sign-up record: 0 XP, level 1, stage 1, no achievements, no completions; it satisfies the record invariant |
| Gamification.NextStreak | packages/backend/convex/gamification.ts:66-86 | same day keeps the streak, the next day extends it by one, anything else (or an absent or zero date) resets it to 1 |
| Gamification.AwardKeepsProgressValid | packages/backend/convex/gamification.ts:62-99 | after an award the total is the old one plus the amount, level and stage are recomputed, the longest streak does not shrink, one more completion is counted, and the invariant holds |
| Gamification.AwardedProgressValid | packages/backend/convex/gamification.ts:88-99 | an award keeps the record invariant and the owner |
| Gamification.SameDayStreak | packages/backend/convex/gamification.ts:66-86 | a second completion on the same day leaves the streak as the first one set it |
| Gamification.NextDayStreak | packages/backend/convex/gamification.ts:66-86 | a completion on the following day extends the streak by one |
| Gamification.AwardSummaryFlags | packages/backend/convex/gamification.ts:109-117 | `levelUp` holds iff the level rose, `stageUp` iff the stage rose, and a deduction raises neither |
| Gamification.NewlyUnlockedSound | packages/backend/convex/gamification.ts:142-168 | every id the evaluator adds was not yet unlocked and belongs to a catalog entry whose requirement is met |
| Gamification.NewlyUnlockedComplete | packages/backend/convex/gamification.ts:142-168 | every catalog entry that qualifies and is not yet unlocked is added |
| Gamification.NewlyUnlockedNoDuplicates | packages/backend/convex/gamification.ts:142-168 | with distinct catalog ids, the added ids are distinct and each comes from the catalog |
| Gamification.AfterAchievementsAppendOnly | packages/backend/convex/gamification.ts:122-179 | the evaluator only appends: old unlocks are a prefix, nothing else changes but the timestamp, appended ids qualify, and no id repeats |
| Gamification.AfterAchievementsValid | packages/backend/convex/gamification.ts:170-178 | the evaluator keeps the record invariant and the owner |
| Gamification.DefaultCatalog | packages/backend/convex/gamification.ts:207-250 | the seeded catalog has six entries with distinct ids |
| Gamification.SeedIdempotent | packages/backend/convex/gamification.ts:200-258 | seeding leaves a non-empty catalog, and seeding again changes nothing |
| Gamification.FirstAwardUnlocksFirstSteps | packages/backend/convex/gamification.ts:142-168 | a new user's first award of under 1000 XP unlocks exactly "First Steps" |
| Gamification.UpdateKeepsTableValid | packages/backend/convex/gamification.ts:90-99 | writing a valid record under its owner's key keeps every record in the table valid |
| Gamification.EvaluateCatalog | packages/backend/convex/gamification.ts:142-168 | the loop over the catalog collects exactly the newly qualifying ids, in catalog order |
| Gamification.CheckedTableStep | packages/backend/convex/gamification.ts:170-178 | the table stays valid; with no new ids nothing is written, otherwise only the user's unlock list and timestamp change |
| Gamification.Ledger.constructor | packages/backend/convex/gamification.ts:200-205 | empty tables satisfy the ledger invariant |
| Gamification.Ledger.InitializeProgress | packages/backend/convex/auth.ts:51-67 | the user's record becomes the sign-up record and nothing else changes |
| Gamification.Ledger.AwardXP | packages/backend/convex/gamification.ts:45-119 | a user without a record gets "User progress not found" and nothing changes; otherwise the record is awarded, then checked for achievements, and the summary compares the records before and after |
| Gamification.Ledger.CheckAchievements | packages/backend/convex/gamification.ts:122-179 | the progress table becomes the checked table and the catalog is unchanged |
| Gamification.Ledger.SeedAchievements | packages/backend/convex/gamification.ts:200-258 | an empty catalog becomes the six defaults; a non-empty catalog is kept; progress is unchanged |
| Tasks.ParsePriority | packages/backend/convex/tasks.ts:83 | exactly the four priority names are accepted |
| Tasks.PriorityNames | packages/backend/convex/gamification.ts:6-12 | name to priority to name round-trips both ways, and each priority's base XP is its table value |
| Tasks.SameIdSameTask | packages/backend/convex/tasks.ts:266-271 | in a table with increasing ids, two rows with one id are the same row |
| Tasks.FindTask | packages/backend/convex/tasks.ts:266-271 | a found row is in the table and has the id; None means no row has it |
| Tasks.Replace | packages/backend/convex/tasks.ts:186-189 | the table keeps its length and each position keeps its id |
| Tasks.FindAfterReplace | packages/backend/convex/tasks.ts:186-189 | after a replace, the replaced id reads back the new row and every other id reads as before |
| Tasks.ReplaceKeepsIds | packages/backend/convex/tasks.ts:186-189 | a replace keeps ids increasing and below the next id |
| Tasks.Without | packages/backend/convex/tasks.ts:248-259 | deletion keeps the surviving rows in order, and a row survives iff its id is not deleted |
| Tasks.WithoutKeepsIds | packages/backend/convex/tasks.ts:248-259 | deletion keeps ids increasing and below the next id |
| Tasks.WithoutNothing | packages/backend/convex/tasks.ts:248-259 | deleting no ids changes nothing |
| Tasks.WithoutWithout | packages/backend/convex/tasks.ts:248-259 | deleting the subtasks and then the task is one deletion of both id sets |
| Tasks.IdSetMembers | packages/backend/convex/tasks.ts:248-259 | an id is in the collected set iff some listed row has it |
| Tasks.OwnedBy | packages/backend/convex/tasks.ts:10-14 | the user's rows in table order: a row is listed iff it is in the table and the user owns it |
| Tasks.GetAllTasks | packages/backend/convex/tasks.ts:7-25 | the result is a permutation of the user's rows, sorted by the comparator's key |
| Tasks.GetAllTasksOrder | packages/backend/convex/tasks.ts:16-23 | exactly the user's rows; scheduled rows come before unscheduled ones, scheduled rows go by ascending date, and unscheduled rows go newest first |
| Tasks.GetAllTasksTies | packages/backend/convex/tasks.ts:16-23 | rows the comparator ties keep their table order, as the stable sort keeps them |
| Tasks.GetTasksByStatus | packages/backend/convex/tasks.ts:28-41 | in table order, a row is listed iff the user owns it and it has the status |
| Tasks.ScheduledRows | packages/backend/convex/tasks.ts:44-61 | in table order, a row is listed iff the user owns it and its date is in the range |
| Tasks.GetScheduledTasks | packages/backend/convex/tasks.ts:44-64 | a permutation of the user's rows whose date is in the range, by ascending date |
| Tasks.GetScheduledTasksTies | packages/backend/convex/tasks.ts:62 | rows scheduled at one instant keep their table order, as the stable sort keeps them |
| Tasks.GetSubtasks | packages/backend/convex/tasks.ts:67-75 | in table order, a row is listed iff its parent is the given task |
| Tasks.Lower | packages/backend/convex/tasks.ts:325 | ASCII lower-casing, position by position |
| Tasks.ContainsIff | packages/backend/convex/tasks.ts:327-330 | `includes` holds iff the pattern occurs at some position |
| Tasks.SearchTasks | packages/backend/convex/tasks.ts:314-332 | in table order, a row is listed iff the user owns it and the lower-cased term occurs in its lower-cased title or description |
| Tasks.EmptySearchListsAll | packages/backend/convex/tasks.ts:314-332 | the empty term lists every task of the user |
| Tasks.NewTaskRecord | packages/backend/convex/tasks.ts:98-126 | a new row is pending with its suggestion unused; an absent or zero difficulty becomes 1; the cached XP has no subtask bonus; every other field is copied from the arguments |
| Tasks.ApplyPatch | packages/backend/convex/tasks.ts:183-189 | only title, description, status, schedule and duration take the patch's values, and the timestamp is stamped; priority, difficulty and cached XP never change |
| Tasks.XpAdjustment | packages/backend/convex/tasks.ts:150-181 | an XP event fires iff the status moves into or out of Completed; completing awards the current XP and reopening deducts it |
| Tasks.CompleteThenReopen | packages/backend/convex/tasks.ts:150-181 | completing and then reopening with the same subtask count returns the user's total to where it was |
| Tasks.NewTaskEarnsItsValue | packages/backend/convex/tasks.ts:104 | completing a fresh task with no subtasks awards exactly its cached XP value |
| Tasks.ReopenAfterNewSubtaskGoesNegative | packages/backend/convex/tasks.ts:150-181 | completing a subtask-free task and reopening it after one subtask was added leaves a new user at -5 XP, where the level formula as written has no value |
| Tasks.CompletionCheck | packages/backend/convex/tasks.ts:204-210 | it succeeds iff the task exists and is not completed; otherwise "Task not found" or "Task is already completed" |
| Tasks.AcceptanceCheck | packages/backend/convex/tasks.ts:279-289 | it succeeds iff the task exists with a truthy suggested date and boost and its suggestion is unused; otherwise "Task not found", "No date suggestion available" or "Date suggestion already used", in that order |
| Tasks.Accepted | packages/backend/convex/tasks.ts:292-296 | the task is scheduled at the suggested date and marked used; nothing else changes but the timestamp |
| Tasks.SecondAcceptFails | packages/backend/convex/tasks.ts:279-296 | after an accept, the task reads back as accepted, and a second accept fails with "Date suggestion already used" |
| Tasks.SecondCompletionFails | packages/backend/convex/tasks.ts:204-236 | after a completion, completing the task again fails with "Task is already completed" |
| Tasks.DeleteCascade | packages/backend/convex/tasks.ts:239-263 | a row survives deletion iff it is neither the task nor one of its direct subtasks |
| Tasks.TaskStore.constructor | packages/backend/convex/tasks.ts:78-130 | an empty table with next id 0 satisfies the store invariant |
| Tasks.TaskStore.CreateTask | packages/backend/convex/tasks.ts:78-130 | the new record is appended under the next id and the next id advances by one |
| Tasks.TaskStore.UpdateTask | packages/backend/convex/tasks.ts:133-196 | a missing task gives "Task not found" and nothing changes; otherwise the row is patched and the XP adjustment, if any, is awarded through the ledger and reported |
| Tasks.TaskStore.CompleteTask | packages/backend/convex/tasks.ts:199-236 | a failed guard reports its message and nothing changes; otherwise the task is completed and its current XP is awarded |
| Tasks.TaskStore.DeleteTask | packages/backend/convex/tasks.ts:239-263 | a missing task gives "Task not found"; otherwise the task and its direct subtasks are removed |
| Tasks.TaskStore.DeleteRows | packages/backend/convex/tasks.ts:248-252 | the loop removes exactly the listed rows' ids |
| Tasks.TaskStore.AcceptDateSuggestion | packages/backend/convex/tasks.ts:274-311 | a failed guard reports its message and nothing changes; otherwise the task is accepted and its boost is awarded |
| Ai.Field | packages/backend/convex/ai.ts:251-271 | a member is present iff the value is an object that has the key |
| Ai.TextField | packages/backend/convex/ai.ts:252-253 | a present text field is a non-empty string member, so an empty one falls to the default |
| Ai.PositiveField | packages/backend/convex/ai.ts:258-260 | a numeric field is kept iff it is a number greater than 0 |
| Ai.Clamp | packages/backend/convex/ai.ts:257 | `Math.max(lo, Math.min(hi, x))`: in range, and equal to x when x is in range |
| Ai.PriorityField | packages/backend/convex/ai.ts:254-256 | a reply naming one of the four priorities keeps it; any other value, or none, gives medium |
| Ai.NormalizeSubtask | packages/backend/convex/ai.ts:263-270 | null elements have no result; otherwise the default title, the description, the priority rule, and a difficulty defaulting to 1 and clamped to 1..5 |
| Ai.MapAll | packages/backend/convex/ai.ts:251 | the map succeeds iff every element does, and then it gives one result per element, in order |
| Ai.NormalizeTask | packages/backend/convex/ai.ts:251-271 | no result exactly where the source throws (a null task, or a null subtask); otherwise a well-formed draft whose title, description, priority, difficulty (default 3), duration, dates, boost (clamped to 10..50), reason and subtasks follow the field rules |
| Ai.TrimStart | packages/backend/convex/ai.ts:236 | removes exactly the leading whitespace |
| Ai.TrimEnd | packages/backend/convex/ai.ts:236 | removes exactly the trailing whitespace |
| Ai.Trim | packages/backend/convex/ai.ts:236 | a slice with only whitespace around it, and no whitespace at either end of itself |
| Ai.ExtractArray | packages/backend/convex/ai.ts:239-242 | the text from the first `[` to the last `]` when one comes before the other, otherwise the whole text |
| Ai.Fallback | packages/backend/convex/ai.ts:276-281 | a medium task at difficulty 3 titled with the reply, cut to 100 characters plus "..." when longer |
| Ai.ParseAIResponse | packages/backend/convex/ai.ts:233-283 | every draft returned is well-formed |
| Ai.ParseOutcomes | packages/backend/convex/ai.ts:244-283 | an array none of whose elements throws gives one normalised draft per element, in order; an array with an element that throws gives exactly the fallback task |
| Ai.ParseNonArray | packages/backend/convex/ai.ts:246-248 | a reply that does not parse to an array gives the fallback task; an empty array gives no drafts |
| Ai.NullElementFallsBack | packages/backend/convex/ai.ts:251-281 | a null array element makes the whole reply fall back |
| Ai.ContextPromptShape | packages/backend/convex/ai.ts:202-230 | the prompt starts with the quoted input and ends with the request; with no context and no progress it is just those two; with progress it contains the level and streak lines |
| Ai.BuildContextPrompt | packages/backend/convex/ai.ts:202-230 | the assembled prompt is the context prompt |
| Ai.HttpErrorMessage | packages/backend/convex/ai.ts:61-70 | the upstream message, or "OpenAI API error: <status>", behind the rate-limit notice exactly on status 429 |
| Ai.SubtaskRows | packages/backend/convex/ai.ts:111-124 | one row per subtask |
| Ai.TaskGroup | packages/backend/convex/ai.ts:86-124 | one parent row plus one row per subtask |
| Ai.CreatedListShape | packages/backend/convex/ai.ts:100-108 | one entry per draft, in order, with its title, owner, AI flag, input and id, and a date-suggestion flag iff the draft has both a date and a boost |
| Ai.SubtaskRowsParent | packages/backend/convex/ai.ts:111-124 | each subtask row points at the parent, has consecutive ids, and carries its title, the owner and the input |
| Ai.CreateSubtasks | packages/backend/convex/ai.ts:111-124 | the store gains exactly the subtask rows under the next ids |
| Ai.IngestTask | packages/backend/convex/ai.ts:86-124 | the store gains the parent row and then its subtask rows, and the created entry describes the parent |
| Ai.IngestTasks | packages/backend/convex/ai.ts:83-125 | the store gains every draft's rows in order, and the created list is one entry per draft |
| Ai.ProcessNaturalLanguageInput | packages/backend/convex/ai.ts:6-140 | a missing key throws; a missing user, a network failure, an HTTP error or an empty reply are reported and create no row and use no id; otherwise every parsed draft and its subtasks are created and listed |
| Seqs.SortByKey | packages/backend/convex/tasks.ts:16-23 | the sort returns a permutation of its input in ascending key order |
| Seqs.SortByKeyStable | packages/backend/convex/tasks.ts:16-23 | the sort is stable: for every key, the elements with that key come out in the order they went in |
| Text.NatToStringRoundTrip | packages/backend/convex/calendar.ts:358 | parsing the decimal text of a natural number gives the number back |
| Text.IntToStringRoundTrip | packages/backend/convex/calendar.ts:358 | parsing the decimal text of an integer gives the integer back |
| Text.NumberOf | packages/backend/convex/calendar.ts:258 | `Number` of a digit string: defined iff every character is a digit, and then the decimal value |
| Text.Split | packages/backend/convex/calendar.ts:257 | at least one part, and no part contains the separator |
| Text.SplitJoin | packages/backend/convex/calendar.ts:257 | joining the parts with the separator gives the text back |
| Text.JoinLength | packages/backend/convex/ai.ts:223-225 | the joined length is the parts' lengths plus one separator between each pair |
| Calendar.SlotsOf | packages/backend/convex/calendar.ts:244-250 | one slot per timed event, in order, with its start and end |
| Calendar.BusySlots | packages/backend/convex/calendar.ts:244-250 | a permutation of the timed events' slots, sorted by start |
| Calendar.BusySlotsAreTimedEvents | packages/backend/convex/calendar.ts:244-250 | a slot is busy iff some event with both times has it |
| Calendar.WorkingHours | packages/backend/convex/calendar.ts:253 | the preferred periods when given, otherwise 09:00-18:00 alone |
| Calendar.ClockTime | packages/backend/convex/calendar.ts:257-264 | a value exactly when the hour part and a minute part both read as numbers; the value is never negative |
| Calendar.ClockTimeOfTwoParts | packages/backend/convex/calendar.ts:257-264 | "H:M" with digit parts is H hours plus M minutes past midnight |
| Calendar.NineOClock | packages/backend/convex/calendar.ts:253 | "09:00" is nine hours past midnight |
| Calendar.EighteenOClock | packages/backend/convex/calendar.ts:253 | "18:00" is eighteen hours past midnight |
| Calendar.HasConflict | packages/backend/convex/calendar.ts:273-275 | a conflict iff some busy slot overlaps the candidate |
| Calendar.PeriodSlotsSound | packages/backend/convex/calendar.ts:269-293 | every slot found has the requested length, lies within the period, starts on the 15-minute grid from the period start and overlaps no busy slot |
| Calendar.PeriodSlotsComplete | packages/backend/convex/calendar.ts:269-293 | every grid start whose slot fits in the period and is free is found |
| Calendar.PeriodSlotsAscending | packages/backend/convex/calendar.ts:269-293 | slots within a period come in strictly ascending start order |
| Calendar.FreeSlotsAppend | packages/backend/convex/calendar.ts:256-295 | periods are scanned in order: two runs of periods give their slots back to back |
| Calendar.PeriodFreeSlotsSound | packages/backend/convex/calendar.ts:256-295 | each slot of one period is in that period, has the requested length, is on its grid and is free |
| Calendar.FreeSlotsSound | packages/backend/convex/calendar.ts:256-295 | each free slot belongs to some working period in which it fits and is free |
| Calendar.FreeSlotsComplete | packages/backend/convex/calendar.ts:256-295 | each free grid slot of every working period is listed |
| Calendar.DefaultWorkingDay | packages/backend/convex/calendar.ts:253-295 | without preferred times the scan is the 09:00-18:00 scan of the day |
| Calendar.ScanPeriod | packages/backend/convex/calendar.ts:257-294 | one pass of the outer loop appends exactly the period's free slots |
| Calendar.FindFreeTimeSlots | packages/backend/convex/calendar.ts:214-312 | a failed event fetch gives empty lists, no success and the error; otherwise the free slots of the working hours and the sorted busy slots |
| Calendar.AccessTokenDecision | packages/backend/convex/calendar.ts:146-161 | no tokens gives "Google Calendar not connected"; a refresh is needed iff less than 5 minutes remain; otherwise the stored access token is used |
| Calendar.RefreshStaysNeeded | packages/backend/convex/calendar.ts:155-158 | once a refresh is needed it stays needed as time passes |
| Calendar.StoredTokenHasMargin | packages/backend/convex/calendar.ts:155-158 | a stored token is used only with more than 5 minutes to spare |
| Calendar.EventDurationMinutes | packages/backend/convex/calendar.ts:367 | the nearest whole minute to the event's length, halves rounded up |
| Calendar.DurationIsNearestMinute | packages/backend/convex/calendar.ts:367 | any minute count within half a minute of the length is the computed one |
| Calendar.EventFor | packages/backend/convex/calendar.ts:330-345 | the payload carries the task title and the times; the description is the default iff the task has none, or an empty one |
| Calendar.EventScheduledTask | packages/backend/convex/calendar.ts:364-368 | after the event, the task reads back scheduled at the start with the rounded duration, everything else stays as it was, and other tasks are unchanged |
| Calendar.CreateCalendarEvent | packages/backend/convex/calendar.ts:315-383 | token failure, "Task not found" and a rejected request ("Calendar event creation failed: <status>") change nothing; success schedules the task and returns the event's id and link |

## Left out

- Network and OAuth: the Google authorisation URL, the code exchange, the token refresh request itself (`refreshGoogleCalendarTokens`), the event listing request (`fetchCalendarEvents`) and `testAIConnection`. Their results are parameters of the modelled operations.
- `getCalendarConnectionStatus` is a plain field read with no logic beyond it.
- Event date strings are not parsed. The model takes events with their start and end already in milliseconds. An event with only an all-day date has no time and does not count as busy.
- The `startTime`/`endTime` strings of a free slot (`toISOString`, `toLocaleTimeString`), time zones and daylight saving time are not modelled. The day's local midnight is a parameter.
- Calendar.ClockTime: `Number` is modelled on digit strings only. Signs, spaces and decimals in a working-hours string give no value here; in the source they may still parse.
- JavaScript type coercion in the model's reply is not modelled. A non-string value in a text field, or a non-number value in a number field, counts as absent. Numbers are integers, not floats.
- Partial ingestion is not modelled. In the source, a truthy non-string title passes the `||` default and is then rejected by `createTask`'s validator partway through the loop; the rows created before it stay and the call reports failure. The model ingests every draft.
- Strings are sequences of characters: there is no UTF-16 length, no Unicode case mapping beyond ASCII, and no normalisation.
- The system prompt text and the language-model request options are not modelled. They are constant inputs to a call whose reply is a parameter.
- Clocks are parameters: `Date.now()` is a `now` argument, and one `now` serves every row created by one ingestion.
- `JSON.parse`, `Date.toISOString` and the language model are parameters of the operations that use them.
- User existence and the user's progress lookup in `processNaturalLanguageInput` are taken as a boolean and the ledger's record.
- `googleCalendarEventId`, the character type and customisation, and other fields no modelled logic reads are not part of the records.
- Concurrency: Convex runs each mutation as a transaction. The model treats each operation as atomic.
- The speech-to-text module, the auth helpers and the web client are not part of this model.

Where the code and the written design differ, the model follows the code:

- `awardXP` runs the streak rule and counts a completed task on every call, deductions included.
- There is one level of subtasks; grandchildren survive a cascading delete.
- The XP cached at creation has no subtask bonus, while completion recomputes the XP with the current subtask count.

## Findings

| source | as written | input that shows it | evidently intended | confidence | as-written member | corrected member |
|---|---|---|---|---|---|---|
| packages/backend/convex/gamification.ts:21-24 | `Math.floor(Math.sqrt(totalXp / 100)) + 1` is NaN for a negative total, and a negative total is reachable: the XP deducted on reopening is recomputed with the current subtask count | a new user completes a task with no subtasks, then a subtask is added and the task is reopened: the total becomes -5 and the level NaN | level 1 for any total below zero | not executed | Gamification.CalculateLevelAsWritten, Tasks.ReopenAfterNewSubtaskGoesNegative | Gamification.CalculateLevel |

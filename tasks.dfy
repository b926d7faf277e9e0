/** The task store (packages/backend/convex/tasks.ts): the task table with
    its queries, and the mutations that create, edit, complete, delete and
    reschedule tasks, coupled to the progress ledger through awardXP. */
module Tasks {
  import opened Wrappers
  import opened Seqs
  import opened Gamification

  type TaskId = nat

  datatype Status = Pending | InProgress | Completed

  datatype Priority = Low | Medium | High | Urgent

  /** The stored name of a priority, which is also what the XP calculator reads. */
  function PriorityName(p: Priority): string {
    match p
    case Low => "low"
    case Medium => "medium"
    case High => "high"
    case Urgent => "urgent"
  }

  /** The priority a name denotes, when it is one of the four. */
  function ParsePriority(s: string): (r: Option<Priority>)
    ensures r.Some? <==> s == "low" || s == "medium" || s == "high" || s == "urgent"
  {
    if s == "low" then Some(Low)
    else if s == "medium" then Some(Medium)
    else if s == "high" then Some(High)
    else if s == "urgent" then Some(Urgent)
    else None
  }

  /** Names and priorities are in one-to-one correspondence, and none of
      the four takes the calculator's fallback base. */
  lemma PriorityNames(p: Priority, s: string)
    ensures ParsePriority(PriorityName(p)) == Some(p)
    ensures ParsePriority(s).Some? ==> PriorityName(ParsePriority(s).value) == s
    ensures BaseXP(PriorityName(p)) == (match p case Low => 10 case Medium => 25 case High => 50 case Urgent => 75)
  {
  }

  datatype RecurrencePattern = Daily | Weekly | Monthly

  datatype Recurrence = Recurrence(pattern: RecurrencePattern, interval: int, endDate: Option<int>)

  /** A row of the `tasks` table; `id` stands for the document id and
      `createdAt`/`updatedAt` are millisecond timestamps. */
  datatype Task = Task(
    id: TaskId,
    userId: UserId,
    title: string,
    description: Option<string>,
    status: Status,
    priority: Priority,
    scheduledFor: Option<int>,
    duration: Option<int>,
    suggestedDate: Option<int>,
    xpBoost: Option<int>,
    suggestionReason: Option<string>,
    usedSuggestedDate: bool,
    recurrence: Option<Recurrence>,
    parentTaskId: Option<TaskId>,
    xpValue: int,
    difficultyLevel: int,
    aiGenerated: bool,
    aiContext: Option<string>,
    createdAt: int,
    updatedAt: int)

  /** JavaScript truthiness of an optional number: present and not 0. */
  predicate Truthy(x: Option<int>) {
    x.Some? && x.value != 0
  }

  // ---------------------------------------------------------------------
  // The table
  // ---------------------------------------------------------------------

  /** The table is kept in insertion order, which is the order every index
      query returns within one key; ids grow with insertion. */
  predicate IdsIncreasing(table: seq<Task>) {
    forall i, j | 0 <= i < j < |table| :: table[i].id < table[j].id
  }

  lemma SameIdSameTask(table: seq<Task>, a: Task, b: Task)
    requires IdsIncreasing(table) && a in table && b in table && a.id == b.id
    ensures a == b
  {
    var i :| 0 <= i < |table| && table[i] == a;
    var j :| 0 <= j < |table| && table[j] == b;
    assert !(i < j) && !(j < i);
  }

  /** ctx.db.get: the row with the given id, if there is one. */
  function FindTask(table: seq<Task>, id: TaskId): (r: Option<Task>)
    ensures r.Some? ==> r.value in table && r.value.id == id
    ensures r.None? ==> forall t | t in table :: t.id != id
  {
    if table == [] then None
    else if table[0].id == id then Some(table[0])
    else
      assert forall t | t in table :: t == table[0] || t in table[1..];
      FindTask(table[1..], id)
  }

  /** ctx.db.patch: every row with the id of `t` becomes `t`. */
  function Replace(table: seq<Task>, t: Task): (r: seq<Task>)
    ensures |r| == |table|
    ensures forall i | 0 <= i < |table| :: r[i].id == table[i].id
  {
    if table == [] then []
    else [if table[0].id == t.id then t else table[0]] + Replace(table[1..], t)
  }

  /** After a patch the row reads back as written, and every other row reads
      back as before. */
  lemma {:induction false} FindAfterReplace(table: seq<Task>, t: Task, id: TaskId)
    ensures FindTask(table, t.id).Some? && id == t.id ==> FindTask(Replace(table, t), id) == Some(t)
    ensures id != t.id ==> FindTask(Replace(table, t), id) == FindTask(table, id)
  {
    if table != [] {
      var r := Replace(table, t);
      assert r == [r[0]] + Replace(table[1..], t);
      assert r[1..] == Replace(table[1..], t);
      assert r[0].id == table[0].id;
      if table[0].id != id {
        FindAfterReplace(table[1..], t, id);
      }
    }
  }

  /** A patch that keeps the id keeps the table's invariant. */
  lemma ReplaceKeepsIds(table: seq<Task>, t: Task, bound: nat)
    requires IdsIncreasing(table) && forall u | u in table :: u.id < bound
    ensures IdsIncreasing(Replace(table, t)) && forall u | u in Replace(table, t) :: u.id < bound
  {
    var r := Replace(table, t);
    forall u | u in r ensures u.id < bound {
      var k :| 0 <= k < |r| && r[k] == u;
      assert u.id == table[k].id;
    }
  }

  /** ctx.db.delete, for every id in `ids` at once. */
  function Without(table: seq<Task>, ids: set<TaskId>): (r: seq<Task>)
    ensures Subsequence(r, table)
    ensures forall t :: t in r <==> t in table && t.id !in ids
  {
    Filter(table, (t: Task) => t.id !in ids)
  }

  /** Deleting rows keeps the ids increasing and below their bound. */
  lemma WithoutKeepsIds(table: seq<Task>, ids: set<TaskId>, bound: nat)
    requires IdsIncreasing(table) && forall u | u in table :: u.id < bound
    ensures IdsIncreasing(Without(table, ids)) && forall u | u in Without(table, ids) :: u.id < bound
  {
    SubsequenceKeepsIncreasing(Without(table, ids), table);
  }

  lemma {:induction false} SubsequenceKeepsIncreasing(r: seq<Task>, table: seq<Task>)
    requires IdsIncreasing(table) && Subsequence(r, table)
    ensures IdsIncreasing(r) && forall u | u in r :: u in table
    decreases |table|
  {
    if r != [] {
      assert table != [];
      assert IdsIncreasing(table[1..]) by {
        forall i, j | 0 <= i < j < |table[1..]| ensures table[1..][i].id < table[1..][j].id {
          assert table[1..][i] == table[i + 1] && table[1..][j] == table[j + 1];
        }
      }
      if r[0] == table[0] {
        SubsequenceKeepsIncreasing(r[1..], table[1..]);
        forall i, j | 0 <= i < j < |r| ensures r[i].id < r[j].id {
          if i == 0 {
            assert r[j] == r[1..][j - 1];
            assert r[j] in r[1..];
            var k :| 0 <= k < |table[1..]| && table[1..][k] == r[j];
            assert table[k + 1] == r[j];
          } else {
            assert r[i] == r[1..][i - 1] && r[j] == r[1..][j - 1];
          }
        }
        forall u | u in r ensures u in table {
          if u != r[0] {
            assert u in r[1..];
          }
        }
      } else {
        SubsequenceKeepsIncreasing(r, table[1..]);
      }
    }
  }

  lemma {:induction false} WithoutNothing(table: seq<Task>)
    ensures Without(table, {}) == table
  {
    if table != [] {
      WithoutNothing(table[1..]);
      assert table == [table[0]] + table[1..];
    }
  }

  /** Deleting one set of ids and then another is deleting both. */
  lemma {:induction false} WithoutWithout(table: seq<Task>, xs: set<TaskId>, ys: set<TaskId>)
    ensures Without(Without(table, xs), ys) == Without(table, xs + ys)
  {
    if table != [] {
      WithoutWithout(table[1..], xs, ys);
      var rest := Without(table[1..], xs);
      if table[0].id !in xs {
        assert Without(table, xs) == [table[0]] + rest;
        assert ([table[0]] + rest)[1..] == rest;
      }
    }
  }

  /** The ids of the given rows. */
  function IdSet(tasks: seq<Task>): set<TaskId> {
    if tasks == [] then {} else IdSet(tasks[..|tasks| - 1]) + {tasks[|tasks| - 1].id}
  }

  lemma {:induction false} IdSetMembers(tasks: seq<Task>, id: TaskId)
    ensures id in IdSet(tasks) <==> exists t :: t in tasks && t.id == id
  {
    if tasks != [] {
      var init := tasks[..|tasks| - 1];
      IdSetMembers(init, id);
      assert tasks == init + [tasks[|tasks| - 1]];
    }
  }

  lemma IdSetStep(tasks: seq<Task>, i: nat)
    requires i < |tasks|
    ensures IdSet(tasks[..i + 1]) == IdSet(tasks[..i]) + {tasks[i].id}
  {
    assert tasks[..i + 1][..i] == tasks[..i];
  }

  // ---------------------------------------------------------------------
  // Queries
  // ---------------------------------------------------------------------

  /** The `by_user` index: the user's tasks in insertion order. */
  function OwnedBy(table: seq<Task>, userId: UserId): (r: seq<Task>)
    ensures Subsequence(r, table)
    ensures forall t :: t in r <==> t in table && t.userId == userId
  {
    Filter(table, (t: Task) => t.userId == userId)
  }

  /** getAllTasks' comparator as a sort key: tasks with a truthy
      `scheduledFor` first, by ascending date; then the rest, newest first.
      The comparator orders any two tasks exactly as their keys do. */
  function AllTasksKey(t: Task): Key {
    if Truthy(t.scheduledFor) then Key(0, t.scheduledFor.value) else Key(1, -t.createdAt)
  }

  /** getAllTasks: a permutation of the user's tasks, sorted. */
  function GetAllTasks(table: seq<Task>, userId: UserId): (r: seq<Task>)
    ensures multiset(r) == multiset(OwnedBy(table, userId))
    ensures SortedBy(r, AllTasksKey)
  {
    SortByKey(OwnedBy(table, userId), AllTasksKey)
  }

  /** The order getAllTasks promises: scheduled before unscheduled, scheduled
      ones by ascending date, unscheduled ones by descending creation time;
      and exactly the user's tasks are listed. */
  lemma GetAllTasksOrder(table: seq<Task>, userId: UserId)
    ensures var r := GetAllTasks(table, userId);
      && (forall t :: t in r <==> t in table && t.userId == userId)
      && (forall i, j | 0 <= i < j < |r| ::
            && (Truthy(r[j].scheduledFor) ==> Truthy(r[i].scheduledFor))
            && (Truthy(r[i].scheduledFor) && Truthy(r[j].scheduledFor) ==>
                  r[i].scheduledFor.value <= r[j].scheduledFor.value)
            && (!Truthy(r[i].scheduledFor) && !Truthy(r[j].scheduledFor) ==>
                  r[i].createdAt >= r[j].createdAt))
  {
    var r := GetAllTasks(table, userId);
    forall t ensures t in r <==> t in table && t.userId == userId {
      assert t in r <==> t in multiset(r);
      assert t in OwnedBy(table, userId) <==> t in multiset(OwnedBy(table, userId));
    }
    forall i, j | 0 <= i < j < |r|
      ensures KeyLe(AllTasksKey(r[i]), AllTasksKey(r[j]))
    {
    }
  }

  /** Tasks the comparator ties (scheduled at one instant, or unscheduled
      and created at one instant) keep their index order. */
  lemma GetAllTasksTies(table: seq<Task>, userId: UserId, k: Key)
    ensures Filter(GetAllTasks(table, userId), KeyIs(AllTasksKey, k)) == Filter(OwnedBy(table, userId), KeyIs(AllTasksKey, k))
  {
    SortByKeyStable(OwnedBy(table, userId), AllTasksKey, k);
  }

  /** getTasksByStatus: the user's tasks that have the status, in index order. */
  function GetTasksByStatus(table: seq<Task>, userId: UserId, status: Status): (r: seq<Task>)
    ensures Subsequence(r, table)
    ensures forall t :: t in r <==> t in table && t.userId == userId && t.status == status
  {
    Filter(table, (t: Task) => t.userId == userId && t.status == status)
  }

  /** The range test of getScheduledTasks: a task without `scheduledFor`
      never passes it. */
  predicate InRange(t: Task, startDate: int, endDate: int) {
    t.scheduledFor.Some? && startDate <= t.scheduledFor.value <= endDate
  }

  function ScheduleKey(t: Task): Key {
    Key(0, t.scheduledFor.GetOr(0))
  }

  /** The `by_user` rows that pass the range test, in index order. */
  function ScheduledRows(table: seq<Task>, userId: UserId, startDate: int, endDate: int): (r: seq<Task>)
    ensures Subsequence(r, table)
    ensures forall t :: t in r <==> t in table && t.userId == userId && InRange(t, startDate, endDate)
  {
    Filter(table, (t: Task) => t.userId == userId && InRange(t, startDate, endDate))
  }

  /** getScheduledTasks: the user's tasks scheduled within [startDate,
      endDate], each as often as the table holds it, by ascending date. */
  function GetScheduledTasks(table: seq<Task>, userId: UserId, startDate: int, endDate: int): (r: seq<Task>)
    ensures multiset(r) == multiset(ScheduledRows(table, userId, startDate, endDate))
    ensures forall t :: t in r <==> t in table && t.userId == userId && InRange(t, startDate, endDate)
    ensures forall i, j | 0 <= i < j < |r| :: r[i].scheduledFor.GetOr(0) <= r[j].scheduledFor.GetOr(0)
  {
    var hits := ScheduledRows(table, userId, startDate, endDate);
    var r := SortByKey(hits, ScheduleKey);
    assert forall t :: t in r <==> t in multiset(r);
    assert forall t :: t in hits <==> t in multiset(hits);
    assert forall i, j | 0 <= i < j < |r| :: KeyLe(ScheduleKey(r[i]), ScheduleKey(r[j]));
    r
  }

  /** Tasks scheduled at one instant keep their index order. */
  lemma GetScheduledTasksTies(table: seq<Task>, userId: UserId, startDate: int, endDate: int, k: Key)
    ensures Filter(GetScheduledTasks(table, userId, startDate, endDate), KeyIs(ScheduleKey, k))
            == Filter(ScheduledRows(table, userId, startDate, endDate), KeyIs(ScheduleKey, k))
  {
    SortByKeyStable(ScheduledRows(table, userId, startDate, endDate), ScheduleKey, k);
  }

  /** getSubtasks: the `by_parent` index, over all users. */
  function GetSubtasks(table: seq<Task>, parentTaskId: TaskId): (r: seq<Task>)
    ensures Subsequence(r, table)
    ensures forall t :: t in r <==> t in table && t.parentTaskId == Some(parentTaskId)
  {
    Filter(table, (t: Task) => t.parentTaskId == Some(parentTaskId))
  }

  /** toLowerCase on the ASCII letters. */
  function Lower(s: string): (r: string)
    ensures |r| == |s|
    ensures forall i | 0 <= i < |s| :: r[i] == if 'A' <= s[i] <= 'Z' then (s[i] as int + 32) as char else s[i]
  {
    if s == [] then []
    else [if 'A' <= s[0] <= 'Z' then (s[0] as int + 32) as char else s[0]] + Lower(s[1..])
  }

  /** String.prototype.includes. */
  function Contains(text: string, pattern: string): bool
    decreases |text|
  {
    if pattern <= text then true
    else if text == [] then false
    else Contains(text[1..], pattern)
  }

  /** The pattern occurs in the text starting at position `k`. */
  predicate OccursAt(text: string, pattern: string, k: int) {
    0 <= k <= |text| - |pattern| && text[k..k + |pattern|] == pattern
  }

  /** `includes` holds exactly when the pattern occurs at some position. */
  lemma {:induction false} ContainsIff(text: string, pattern: string)
    ensures Contains(text, pattern) <==> exists k :: OccursAt(text, pattern, k)
    decreases |text|
  {
    if pattern <= text {
      assert OccursAt(text, pattern, 0);
    } else if text == [] {
      assert forall k :: !OccursAt(text, pattern, k);
    } else {
      ContainsIff(text[1..], pattern);
      if exists k :: OccursAt(text, pattern, k) {
        var k :| OccursAt(text, pattern, k);
        assert k != 0;
        assert text[1..][k - 1..k - 1 + |pattern|] == text[k..k + |pattern|];
        assert OccursAt(text[1..], pattern, k - 1);
      }
      if exists k :: OccursAt(text[1..], pattern, k) {
        var k :| OccursAt(text[1..], pattern, k);
        assert text[k + 1..k + 1 + |pattern|] == text[1..][k..k + |pattern|];
        assert OccursAt(text, pattern, k + 1);
      }
    }
  }

  /** The search filter: the lowercased term occurs in the lowercased title
      or in the lowercased description, when there is one. */
  predicate Matches(t: Task, term: string) {
    || Contains(Lower(t.title), Lower(term))
    || (t.description.Some? && Contains(Lower(t.description.value), Lower(term)))
  }

  /** searchTasks: the user's matching tasks, in index order. */
  function SearchTasks(table: seq<Task>, userId: UserId, searchTerm: string): (r: seq<Task>)
    ensures Subsequence(r, table)
    ensures forall t :: t in r <==> t in table && t.userId == userId && Matches(t, searchTerm)
  {
    var owned := OwnedBy(table, userId);
    var r := Filter(owned, (t: Task) => Matches(t, searchTerm));
    FilterFilter(table, (t: Task) => t.userId == userId, (t: Task) => Matches(t, searchTerm),
                 (t: Task) => t.userId == userId && Matches(t, searchTerm));
    r
  }

  /** A search for the empty term lists every task of the user. */
  lemma EmptySearchListsAll(table: seq<Task>, userId: UserId, t: Task)
    requires t in table && t.userId == userId
    ensures t in SearchTasks(table, userId, "")
  {
    assert Lower("") == "";
  }

  // ---------------------------------------------------------------------
  // Record builders
  // ---------------------------------------------------------------------

  /** The arguments of createTask. */
  datatype TaskArgs = TaskArgs(
    userId: UserId,
    title: string,
    description: Option<string>,
    priority: Priority,
    scheduledFor: Option<int>,
    duration: Option<int>,
    difficultyLevel: Option<int>,
    parentTaskId: Option<TaskId>,
    aiGenerated: Option<bool>,
    aiContext: Option<string>,
    suggestedDate: Option<int>,
    xpBoost: Option<int>,
    suggestionReason: Option<string>,
    recurrence: Option<Recurrence>)

  /** The row createTask inserts: pending, suggestion unused, difficulty 1
      when none (or 0) is given, the XP value of the task without subtasks,
      not AI-generated unless said so, and both timestamps `now`. */
  function NewTaskRecord(args: TaskArgs, id: TaskId, now: int): (t: Task)
    ensures t.id == id && t.userId == args.userId && t.title == args.title && t.priority == args.priority
    ensures t.status == Pending && !t.usedSuggestedDate
    ensures t.difficultyLevel == if Truthy(args.difficultyLevel) then args.difficultyLevel.value else 1
    ensures t.difficultyLevel != 0
    ensures t.xpValue == CalculateXP(PriorityName(t.priority), t.difficultyLevel, 0)
    ensures t.aiGenerated <==> args.aiGenerated == Some(true)
    ensures t.createdAt == now && t.updatedAt == now
    ensures t.parentTaskId == args.parentTaskId
    ensures t.scheduledFor == args.scheduledFor && t.suggestedDate == args.suggestedDate && t.xpBoost == args.xpBoost
    ensures t.description == args.description && t.duration == args.duration
    ensures t.suggestionReason == args.suggestionReason && t.recurrence == args.recurrence && t.aiContext == args.aiContext
  {
    var difficulty := if Truthy(args.difficultyLevel) then args.difficultyLevel.value else 1;
    Task(id, args.userId, args.title, args.description, Pending, args.priority,
         args.scheduledFor, args.duration, args.suggestedDate, args.xpBoost, args.suggestionReason, false,
         args.recurrence, args.parentTaskId,
         CalculateXP(PriorityName(args.priority), difficulty, 0), difficulty,
         args.aiGenerated == Some(true), args.aiContext, now, now)
  }

  /** The fields updateTask lets a user change; an absent field is kept. */
  datatype TaskPatch = TaskPatch(
    title: Option<string>,
    description: Option<string>,
    status: Option<Status>,
    scheduledFor: Option<int>,
    duration: Option<int>)

  /** The row after updateTask's patch: the supplied fields and `updatedAt`
      change, nothing else does (priority, difficulty and XP value in
      particular stay as they were). */
  function ApplyPatch(t: Task, patch: TaskPatch, now: int): (r: Task)
    ensures r.(title := t.title, description := t.description, status := t.status,
               scheduledFor := t.scheduledFor, duration := t.duration, updatedAt := t.updatedAt) == t
    ensures r.priority == t.priority && r.difficultyLevel == t.difficultyLevel && r.xpValue == t.xpValue
    ensures r.title == patch.title.GetOr(t.title) && r.description == (if patch.description.Some? then patch.description else t.description)
    ensures r.status == patch.status.GetOr(t.status)
    ensures r.scheduledFor == (if patch.scheduledFor.Some? then patch.scheduledFor else t.scheduledFor)
    ensures r.duration == (if patch.duration.Some? then patch.duration else t.duration)
    ensures r.updatedAt == now
  {
    t.(title := patch.title.GetOr(t.title),
       description := if patch.description.Some? then patch.description else t.description,
       status := patch.status.GetOr(t.status),
       scheduledFor := if patch.scheduledFor.Some? then patch.scheduledFor else t.scheduledFor,
       duration := if patch.duration.Some? then patch.duration else t.duration,
       updatedAt := now)
  }

  /** The XP a status change moves, if any: completing a task earns its XP
      for the direct subtasks it has, reopening a completed one takes the
      same amount back, and every other change moves nothing. */
  function XpAdjustment(t: Task, newStatus: Option<Status>, subtaskCount: nat): (delta: Option<int>)
    ensures delta.Some? <==> newStatus.Some? && (newStatus.value == Completed) != (t.status == Completed)
    ensures delta.Some? && t.status == Completed ==>
      delta.value == -CalculateXP(PriorityName(t.priority), t.difficultyLevel, subtaskCount)
    ensures delta.Some? && t.status != Completed ==>
      delta.value == CalculateXP(PriorityName(t.priority), t.difficultyLevel, subtaskCount)
  {
    var xp := CalculateXP(PriorityName(t.priority), t.difficultyLevel, subtaskCount);
    if newStatus.Some? && newStatus.value != t.status then
      if t.status == Completed && newStatus.value != Completed then Some(-xp)
      else if t.status != Completed && newStatus.value == Completed then Some(xp)
      else None
    else None
  }

  /** Completing a task and reopening it with the same subtasks moves its
      XP there and back, so the user's total ends where it started. */
  lemma CompleteThenReopen(table: map<UserId, Progress>, catalog: seq<Achievement>, t: Task, p1: TaskPatch,
                           p2: TaskPatch, n: nat, now1: int, now2: int)
    requires t.status != Completed && p1.status == Some(Completed)
    requires p2.status.Some? && p2.status.value != Completed
    requires t.userId in table
    ensures var d1 := XpAdjustment(t, p1.status, n);
            var d2 := XpAdjustment(ApplyPatch(t, p1, now1), p2.status, n);
            && d1.Some? && d2.Some? && d1.value + d2.value == 0
            && var after := AwardedTable(table, catalog, t.userId, d1.value, now1);
               AwardedTable(after, catalog, t.userId, d2.value, now2)[t.userId].totalXp == table[t.userId].totalXp
  {
  }

  /** The XP stored on a new task is what completing it without subtasks
      earns. */
  lemma NewTaskEarnsItsValue(args: TaskArgs, id: TaskId, now: int, patch: TaskPatch)
    requires patch.status == Some(Completed)
    ensures XpAdjustment(NewTaskRecord(args, id, now), patch.status, 0) == Some(NewTaskRecord(args, id, now).xpValue)
  {
  }

  /** Completing a task without subtasks and reopening it after a subtask
      was added deducts 5 XP more than was awarded, so a new user's total
      goes negative, where the level formula as written has no value. */
  lemma ReopenAfterNewSubtaskGoesNegative(userId: UserId, created: int, t: Task, now1: int, now2: int)
    requires t.status != Completed
    ensures var t1 := ApplyPatch(t, TaskPatch(None, None, Some(Completed), None, None), now1);
      var d1 := XpAdjustment(t, Some(Completed), 0);
      var d2 := XpAdjustment(t1, Some(Pending), 1);
      && d1.Some? && d2.Some?
      && var total := AwardedProgress(AwardedProgress(InitialProgress(userId, created), d1.value, now1), d2.value, now2).totalXp;
         total == -5 && CalculateLevelAsWritten(total).None?
  {
    SubtaskBonus(PriorityName(t.priority), t.difficultyLevel, 0);
  }

  /** The guards of completeTask, in the order it tests them. */
  function CompletionCheck(table: seq<Task>, taskId: TaskId): (r: Result<Task>)
    ensures r.Success? <==> FindTask(table, taskId).Some? && FindTask(table, taskId).value.status != Completed
    ensures r.Success? ==> r.value == FindTask(table, taskId).value
    ensures FindTask(table, taskId).None? ==> r == Failure("Task not found")
    ensures FindTask(table, taskId).Some? && FindTask(table, taskId).value.status == Completed ==>
      r == Failure("Task is already completed")
  {
    match FindTask(table, taskId)
    case None => Failure("Task not found")
    case Some(t) => if t.status == Completed then Failure("Task is already completed") else Success(t)
  }

  /** The guards of acceptDateSuggestion, in the order it tests them. */
  function AcceptanceCheck(table: seq<Task>, taskId: TaskId): (r: Result<Task>)
    ensures r.Success? <==> FindTask(table, taskId).Some? && Truthy(FindTask(table, taskId).value.suggestedDate)
                            && Truthy(FindTask(table, taskId).value.xpBoost)
                            && !FindTask(table, taskId).value.usedSuggestedDate
    ensures r.Success? ==> r.value == FindTask(table, taskId).value
    ensures FindTask(table, taskId).None? ==> r == Failure("Task not found")
    ensures FindTask(table, taskId).Some? && !(Truthy(FindTask(table, taskId).value.suggestedDate)
                                               && Truthy(FindTask(table, taskId).value.xpBoost)) ==>
      r == Failure("No date suggestion available")
    ensures FindTask(table, taskId).Some? && Truthy(FindTask(table, taskId).value.suggestedDate)
            && Truthy(FindTask(table, taskId).value.xpBoost) && FindTask(table, taskId).value.usedSuggestedDate ==>
      r == Failure("Date suggestion already used")
  {
    match FindTask(table, taskId)
    case None => Failure("Task not found")
    case Some(t) =>
      if !Truthy(t.suggestedDate) || !Truthy(t.xpBoost) then Failure("No date suggestion available")
      else if t.usedSuggestedDate then Failure("Date suggestion already used")
      else Success(t)
  }

  /** The row after an accepted suggestion. */
  function Accepted(t: Task, now: int): (r: Task)
    ensures r.scheduledFor == t.suggestedDate && r.usedSuggestedDate && r.updatedAt == now
    ensures r.(scheduledFor := t.scheduledFor, usedSuggestedDate := t.usedSuggestedDate, updatedAt := t.updatedAt) == t
  {
    t.(scheduledFor := t.suggestedDate, usedSuggestedDate := true, updatedAt := now)
  }

  /** A suggestion can be accepted once: after the first acceptance the
      task is scheduled on the suggested date and a second one fails. */
  lemma SecondAcceptFails(table: seq<Task>, taskId: TaskId, now: int)
    requires AcceptanceCheck(table, taskId).Success?
    ensures var t := AcceptanceCheck(table, taskId).value;
      && FindTask(Replace(table, Accepted(t, now)), taskId) == Some(Accepted(t, now))
      && Accepted(t, now).scheduledFor == t.suggestedDate
      && AcceptanceCheck(Replace(table, Accepted(t, now)), taskId) == Failure("Date suggestion already used")
  {
    var t := AcceptanceCheck(table, taskId).value;
    FindAfterReplace(table, Accepted(t, now), taskId);
  }

  /** A completed task cannot be completed again. */
  lemma SecondCompletionFails(table: seq<Task>, taskId: TaskId, now: int)
    requires CompletionCheck(table, taskId).Success?
    ensures var t := CompletionCheck(table, taskId).value;
      CompletionCheck(Replace(table, t.(status := Completed, updatedAt := now)), taskId)
        == Failure("Task is already completed")
  {
    var t := CompletionCheck(table, taskId).value;
    FindAfterReplace(table, t.(status := Completed, updatedAt := now), taskId);
  }

  /** What deleteTask leaves: every row except the task and its direct
      subtasks; grandchildren and the rest of the table stay. */
  lemma DeleteCascade(table: seq<Task>, taskId: TaskId)
    requires IdsIncreasing(table)
    ensures forall t :: t in Without(table, IdSet(GetSubtasks(table, taskId)) + {taskId}) <==>
      t in table && t.id != taskId && t.parentTaskId != Some(taskId)
  {
    var subs := GetSubtasks(table, taskId);
    forall t | t in table && t.id in IdSet(subs)
      ensures t.parentTaskId == Some(taskId)
    {
      IdSetMembers(subs, t.id);
      var s :| s in subs && s.id == t.id;
      SameIdSameTask(table, s, t);
    }
    forall t | t in table && t.parentTaskId == Some(taskId)
      ensures t.id in IdSet(subs)
    {
      IdSetMembers(subs, t.id);
    }
  }

  /** completeTask's result. */
  datatype Completion = Completion(task: Task, xpResult: AwardResult)

  /** updateTask's result: `xpResult` is absent when the status change
      moves no XP. */
  datatype Update = Update(task: Task, xpResult: Option<AwardResult>)

  /** acceptDateSuggestion's result. */
  datatype Acceptance = Acceptance(task: Task, xpResult: AwardResult, boost: int)

  // ---------------------------------------------------------------------
  // The store
  // ---------------------------------------------------------------------

  /** The `tasks` table, next to the progress ledger that awardXP updates.
      Each mutation either succeeds or fails leaving both tables as they
      were, as a transaction does. */
  class TaskStore {
    var table: seq<Task>
    var nextId: TaskId
    const ledger: Ledger

    ghost predicate Valid()
      reads this, ledger
    {
      && ledger.Valid()
      && IdsIncreasing(table)
      && (forall t | t in table :: t.id < nextId)
    }

    constructor (ledger: Ledger)
      requires ledger.Valid()
      ensures Valid() && this.ledger == ledger && table == [] && nextId == 0
    {
      this.ledger := ledger;
      table := [];
      nextId := 0;
    }

    /** createTask: inserts the new row and returns it. */
    method CreateTask(args: TaskArgs, now: int) returns (t: Task)
      requires Valid()
      modifies this
      ensures Valid()
      ensures t == NewTaskRecord(args, old(nextId), now)
      ensures table == old(table) + [t] && nextId == old(nextId) + 1
    {
      t := NewTaskRecord(args, nextId, now);
      table := table + [t];
      nextId := nextId + 1;
    }

    /** updateTask: rejects an unknown id; moves XP when the status crosses
        the completed boundary (before the patch, counting the direct
        subtasks); then patches the supplied fields. */
    method UpdateTask(taskId: TaskId, patch: TaskPatch, now: int) returns (r: Result<Update>)
      requires Valid()
      modifies this, ledger
      ensures Valid()
      ensures nextId == old(nextId) && ledger.achievements == old(ledger.achievements)
      ensures FindTask(old(table), taskId).None? ==>
        r == Failure("Task not found") && table == old(table) && ledger.progress == old(ledger.progress)
      ensures FindTask(old(table), taskId).Some? ==>
        var t := FindTask(old(table), taskId).value;
        var delta := XpAdjustment(t, patch.status, |GetSubtasks(old(table), taskId)|);
        if delta.Some? && t.userId !in old(ledger.progress) then
          r == Failure("User progress not found") && table == old(table) && ledger.progress == old(ledger.progress)
        else
          && table == Replace(old(table), ApplyPatch(t, patch, now))
          && (delta.None? ==> ledger.progress == old(ledger.progress) && r == Success(Update(ApplyPatch(t, patch, now), None)))
          && (delta.Some? ==>
                && ledger.progress == AwardedTable(old(ledger.progress), ledger.achievements, t.userId, delta.value, now)
                && r == Success(Update(ApplyPatch(t, patch, now),
                                       Some(AwardSummary(old(ledger.progress)[t.userId],
                                                         AwardedProgress(old(ledger.progress)[t.userId], delta.value, now),
                                                         delta.value)))))
    {
      var found := FindTask(table, taskId);
      if found.None? {
        return Failure("Task not found");
      }
      var t := found.value;
      var delta := XpAdjustment(t, patch.status, |GetSubtasks(table, taskId)|);
      var xpResult: Option<AwardResult> := None;
      if delta.Some? {
        var award := ledger.AwardXP(t.userId, delta.value, now);
        if award.Failure? {
          return Failure(award.error);
        }
        xpResult := Some(award.value);
      }
      var patched := ApplyPatch(t, patch, now);
      ReplaceKeepsIds(table, patched, nextId);
      table := Replace(table, patched);
      r := Success(Update(patched, xpResult));
    }

    /** completeTask: rejects an unknown or already completed task; sets the
        status to completed and awards the task's XP for its direct
        subtasks. */
    method CompleteTask(taskId: TaskId, now: int) returns (r: Result<Completion>)
      requires Valid()
      modifies this, ledger
      ensures Valid()
      ensures nextId == old(nextId) && ledger.achievements == old(ledger.achievements)
      ensures CompletionCheck(old(table), taskId).Failure? ==>
        && r == Failure(CompletionCheck(old(table), taskId).error)
        && table == old(table) && ledger.progress == old(ledger.progress)
      ensures CompletionCheck(old(table), taskId).Success? ==>
        var t := CompletionCheck(old(table), taskId).value;
        var xp := CalculateXP(PriorityName(t.priority), t.difficultyLevel, |GetSubtasks(old(table), taskId)|);
        if t.userId !in old(ledger.progress) then
          r == Failure("User progress not found") && table == old(table) && ledger.progress == old(ledger.progress)
        else
          && table == Replace(old(table), t.(status := Completed, updatedAt := now))
          && ledger.progress == AwardedTable(old(ledger.progress), ledger.achievements, t.userId, xp, now)
          && r == Success(Completion(t.(status := Completed, updatedAt := now),
                                     AwardSummary(old(ledger.progress)[t.userId],
                                                  AwardedProgress(old(ledger.progress)[t.userId], xp, now), xp)))
    {
      var check := CompletionCheck(table, taskId);
      if check.Failure? {
        return Failure(check.error);
      }
      var t := check.value;
      var xp := CalculateXP(PriorityName(t.priority), t.difficultyLevel, |GetSubtasks(table, taskId)|);
      var award := ledger.AwardXP(t.userId, xp, now);
      if award.Failure? {
        return Failure(award.error);
      }
      var completed := t.(status := Completed, updatedAt := now);
      ReplaceKeepsIds(table, completed, nextId);
      table := Replace(table, completed);
      r := Success(Completion(completed, award.value));
    }

    /** deleteTask: rejects an unknown id; deletes each direct subtask, then
        the task. The progress ledger is not touched. */
    method DeleteTask(taskId: TaskId) returns (r: Result<bool>)
      requires Valid()
      modifies this
      ensures Valid()
      ensures nextId == old(nextId)
      ensures FindTask(old(table), taskId).None? ==> r == Failure("Task not found") && table == old(table)
      ensures FindTask(old(table), taskId).Some? ==>
        r == Success(true) && table == Without(old(table), IdSet(GetSubtasks(old(table), taskId)) + {taskId})
    {
      if FindTask(table, taskId).None? {
        return Failure("Task not found");
      }
      var subtasks := GetSubtasks(table, taskId);
      ghost var original := table;
      DeleteRows(subtasks);
      WithoutWithout(original, IdSet(subtasks), {taskId});
      WithoutKeepsIds(original, IdSet(subtasks) + {taskId}, nextId);
      table := Without(table, {taskId});
      r := Success(true);
    }

    /** The loop of deleteTask: deletes the given rows one at a time. */
    method DeleteRows(rows: seq<Task>)
      modifies this
      ensures table == Without(old(table), IdSet(rows))
      ensures nextId == old(nextId)
    {
      ghost var original := table;
      var i := 0;
      assert IdSet(rows[..0]) == {};
      WithoutNothing(original);
      while i < |rows|
        invariant 0 <= i <= |rows|
        invariant table == Without(original, IdSet(rows[..i]))
        invariant nextId == old(nextId)
      {
        WithoutWithout(original, IdSet(rows[..i]), {rows[i].id});
        IdSetStep(rows, i);
        table := Without(table, {rows[i].id});
        i := i + 1;
      }
      assert rows[..i] == rows;
    }

    /** acceptDateSuggestion: rejects an unknown task, a missing suggestion
        or boost, and a suggestion already used; otherwise moves the task to
        the suggested date, marks the suggestion used and awards the boost. */
    method AcceptDateSuggestion(taskId: TaskId, now: int) returns (r: Result<Acceptance>)
      requires Valid()
      modifies this, ledger
      ensures Valid()
      ensures nextId == old(nextId) && ledger.achievements == old(ledger.achievements)
      ensures AcceptanceCheck(old(table), taskId).Failure? ==>
        && r == Failure(AcceptanceCheck(old(table), taskId).error)
        && table == old(table) && ledger.progress == old(ledger.progress)
      ensures AcceptanceCheck(old(table), taskId).Success? ==>
        var t := AcceptanceCheck(old(table), taskId).value;
        if t.userId !in old(ledger.progress) then
          r == Failure("User progress not found") && table == old(table) && ledger.progress == old(ledger.progress)
        else
          && table == Replace(old(table), Accepted(t, now))
          && ledger.progress == AwardedTable(old(ledger.progress), ledger.achievements, t.userId, t.xpBoost.value, now)
          && r == Success(Acceptance(Accepted(t, now),
                                     AwardSummary(old(ledger.progress)[t.userId],
                                                  AwardedProgress(old(ledger.progress)[t.userId], t.xpBoost.value, now),
                                                  t.xpBoost.value),
                                     t.xpBoost.value))
    {
      var check := AcceptanceCheck(table, taskId);
      if check.Failure? {
        return Failure(check.error);
      }
      var t := check.value;
      var award := ledger.AwardXP(t.userId, t.xpBoost.value, now);
      if award.Failure? {
        return Failure(award.error);
      }
      var accepted := Accepted(t, now);
      ReplaceKeepsIds(table, accepted, nextId);
      table := Replace(table, accepted);
      r := Success(Acceptance(accepted, award.value, t.xpBoost.value));
    }
  }
}

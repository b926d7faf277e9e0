/** The AI task orchestrator (packages/backend/convex/ai.ts): the context
    prompt sent to the language model, the normaliser that turns the model's
    reply into task records, and the ingestion that creates those tasks. The
    language model, JSON.parse and Date.toISOString are parameters. */
module Ai {
  import opened Wrappers
  import opened Seqs
  import opened Text
  import opened Gamification
  import opened Tasks

  // ---------------------------------------------------------------------
  // JSON values and field access
  // ---------------------------------------------------------------------

  /** A parsed JSON value; numbers are taken to be integers. */
  datatype Json =
    | JNull
    | JBool(b: bool)
    | JNum(n: int)
    | JStr(s: string)
    | JArr(items: seq<Json>)
    | JObj(fields: map<string, Json>)

  /** `value.key` on anything but null: the member of an object, and
      undefined (None) for every other value or a missing member. */
  function Field(value: Json, key: string): (r: Option<Json>)
    requires !value.JNull?
    ensures r.Some? <==> value.JObj? && key in value.fields
  {
    if value.JObj? && key in value.fields then Some(value.fields[key]) else None
  }

  /** `value.key || undefined` for a string member: a non-empty string. */
  function TextField(value: Json, key: string): (r: Option<string>)
    requires !value.JNull?
    ensures r.Some? ==> r.value != [] && Field(value, key) == Some(JStr(r.value))
  {
    match Field(value, key)
    case Some(JStr(s)) => if s != [] then Some(s) else None
    case _ => None
  }

  /** A numeric member, zero included. */
  function NumberField(value: Json, key: string): Option<int>
    requires !value.JNull?
  {
    match Field(value, key)
    case Some(JNum(n)) => Some(n)
    case _ => None
  }

  /** `value.key && value.key > 0 ? value.key : undefined`. */
  function PositiveField(value: Json, key: string): (r: Option<int>)
    requires !value.JNull?
    ensures r.Some? <==> NumberField(value, key).Some? && NumberField(value, key).value > 0
    ensures r.Some? ==> r == NumberField(value, key)
  {
    var n := NumberField(value, key);
    if n.Some? && n.value > 0 then n else None
  }

  /** `Math.max(lo, Math.min(hi, x))`. */
  function Clamp(x: int, lo: int, hi: int): (r: int)
    requires lo <= hi
    ensures lo <= r <= hi
    ensures lo <= x <= hi ==> r == x
    ensures x < lo ==> r == lo
    ensures x > hi ==> r == hi
  {
    if x < lo then lo else if x > hi then hi else x
  }

  /** The priority rule: one of the four names is kept, anything else
      becomes medium. */
  function PriorityField(value: Json): (p: Priority)
    requires !value.JNull?
    ensures forall q :: Field(value, "priority") == Some(JStr(PriorityName(q))) ==> p == q
    ensures (forall q :: Field(value, "priority") != Some(JStr(PriorityName(q)))) ==> p == Medium
  {
    match Field(value, "priority")
    case Some(JStr(s)) =>
      PriorityNames(Medium, s);
      ParsePriority(s).GetOr(Medium)
    case _ => Medium
  }

  // ---------------------------------------------------------------------
  // Normalising the model's reply
  // ---------------------------------------------------------------------

  datatype ParsedSubtask = ParsedSubtask(
    title: string,
    description: Option<string>,
    priority: Priority,
    difficultyLevel: int)

  datatype ParsedTask = ParsedTask(
    title: string,
    description: Option<string>,
    priority: Priority,
    difficultyLevel: int,
    duration: Option<int>,
    scheduledFor: Option<int>,
    suggestedDate: Option<int>,
    xpBoost: Option<int>,
    reason: Option<string>,
    subtasks: Option<seq<ParsedSubtask>>)

  /** What every normalised task satisfies: difficulty in 1..5, positive
      optional numbers, a boost in 10..50, and the same for its subtasks. */
  predicate WellFormedSubtask(s: ParsedSubtask) {
    1 <= s.difficultyLevel <= 5
  }

  predicate WellFormed(t: ParsedTask) {
    && 1 <= t.difficultyLevel <= 5
    && (t.duration.Some? ==> t.duration.value > 0)
    && (t.scheduledFor.Some? ==> t.scheduledFor.value > 0)
    && (t.suggestedDate.Some? ==> t.suggestedDate.value > 0)
    && (t.xpBoost.Some? ==> 10 <= t.xpBoost.value <= 50)
    && (t.subtasks.Some? ==> forall i | 0 <= i < |t.subtasks.value| :: WellFormedSubtask(t.subtasks.value[i]))
  }

  /** The difficulty rule `Math.max(1, Math.min(5, value.difficultyLevel || fallback))`:
      an absent or zero level takes the fallback, any other is clamped to 1..5. */
  predicate DifficultyFrom(value: Json, fallback: int, d: int)
    requires !value.JNull?
  {
    var n := NumberField(value, "difficultyLevel");
    if n.None? || n.value == 0 then d == fallback
    else if n.value < 1 then d == 1
    else if n.value > 5 then d == 5
    else d == n.value
  }

  /** One subtask of the reply; None when the element is null, where the
      source's member access throws. */
  function NormalizeSubtask(value: Json): (r: Option<ParsedSubtask>)
    ensures r.Some? <==> !value.JNull?
    ensures r.Some? ==> WellFormedSubtask(r.value)
    ensures r.Some? ==> r.value.title == TextField(value, "title").GetOr("Untitled Subtask")
    ensures r.Some? ==> r.value.description == TextField(value, "description")
    ensures r.Some? ==> r.value.priority == PriorityField(value)
    ensures r.Some? ==> DifficultyFrom(value, 1, r.value.difficultyLevel)
  {
    if value.JNull? then None
    else
      var d := NumberField(value, "difficultyLevel");
      Some(ParsedSubtask(
        TextField(value, "title").GetOr("Untitled Subtask"),
        TextField(value, "description"),
        PriorityField(value),
        Clamp(if d.Some? && d.value != 0 then d.value else 1, 1, 5)))
  }

  /** `items.map(f)` where `f` may throw (None): the mapped sequence when no
      element throws. */
  function MapAll<A, B>(items: seq<A>, f: A -> Option<B>): (r: Option<seq<B>>)
    ensures r.Some? <==> forall i | 0 <= i < |items| :: f(items[i]).Some?
    ensures r.Some? ==> (|r.value| == |items|
      && forall i | 0 <= i < |items| :: Some(r.value[i]) == f(items[i]))
  {
    if items == [] then Some([])
    else
      var init := MapAll(items[..|items| - 1], f);
      var last := f(items[|items| - 1]);
      if init.Some? && last.Some? then Some(init.value + [last.value]) else None
  }

  /** An element on which the source's normaliser throws: null itself, or
      a task whose `subtasks` array holds a null. */
  predicate Throws(value: Json) {
    || value.JNull?
    || (match Field(value, "subtasks")
        case Some(JArr(items)) => JNull in items
        case _ => false)
  }

  /** One task of the reply; None exactly where the source throws. */
  function NormalizeTask(value: Json): (r: Option<ParsedTask>)
    ensures r.None? <==> Throws(value)
    ensures r.Some? ==> WellFormed(r.value)
    ensures r.Some? ==> r.value.title == TextField(value, "title").GetOr("Untitled Task")
    ensures r.Some? ==> r.value.description == TextField(value, "description")
    ensures r.Some? ==> r.value.priority == PriorityField(value)
    ensures r.Some? ==> DifficultyFrom(value, 3, r.value.difficultyLevel)
    ensures r.Some? ==> r.value.duration == PositiveField(value, "duration")
    ensures r.Some? ==> r.value.scheduledFor == PositiveField(value, "scheduledFor")
    ensures r.Some? ==> r.value.suggestedDate == PositiveField(value, "suggestedDate")
    ensures r.Some? ==> (r.value.xpBoost.Some? <==> PositiveField(value, "xpBoost").Some?)
    ensures r.Some? && PositiveField(value, "xpBoost").Some? ==>
      r.value.xpBoost == Some(Clamp(PositiveField(value, "xpBoost").value, 10, 50))
    ensures r.Some? ==> r.value.reason == TextField(value, "reason")
    ensures r.Some? ==> match Field(value, "subtasks")
      case Some(JArr(items)) => r.value.subtasks.Some? && r.value.subtasks == MapAll(items, NormalizeSubtask)
      case _ => r.value.subtasks.None?
  {
    if value.JNull? then None
    else
      var d := NumberField(value, "difficultyLevel");
      var boost := PositiveField(value, "xpBoost");
      var subtasks: Option<Option<seq<ParsedSubtask>>> :=
        match Field(value, "subtasks")
        case Some(JArr(items)) => if MapAll(items, NormalizeSubtask).Some? then Some(MapAll(items, NormalizeSubtask)) else None
        case _ => Some(None);
      if subtasks.None? then None
      else
        Some(ParsedTask(
          TextField(value, "title").GetOr("Untitled Task"),
          TextField(value, "description"),
          PriorityField(value),
          Clamp(if d.Some? && d.value != 0 then d.value else 3, 1, 5),
          PositiveField(value, "duration"),
          PositiveField(value, "scheduledFor"),
          PositiveField(value, "suggestedDate"),
          if boost.Some? then Some(Clamp(boost.value, 10, 50)) else None,
          TextField(value, "reason"),
          subtasks.value))
  }

  /** The character class of String.prototype.trim: white space and line
      terminators. */
  predicate IsJsWhitespace(c: char) {
    var n := c as int;
    || n == 0x09 || n == 0x0A || n == 0x0B || n == 0x0C || n == 0x0D || n == 0x20 || n == 0xA0
    || n == 0x1680 || (0x2000 <= n <= 0x200A) || n == 0x2028 || n == 0x2029 || n == 0x202F
    || n == 0x205F || n == 0x3000 || n == 0xFEFF
  }

  function TrimStart(s: string): (r: string)
    ensures |r| <= |s| && r == s[|s| - |r|..]
    ensures r == [] || !IsJsWhitespace(r[0])
    ensures forall k | 0 <= k < |s| - |r| :: IsJsWhitespace(s[k])
  {
    if s != [] && IsJsWhitespace(s[0]) then TrimStart(s[1..]) else s
  }

  function TrimEnd(s: string): (r: string)
    ensures |r| <= |s| && r == s[..|r|]
    ensures r == [] || !IsJsWhitespace(r[|r| - 1])
    ensures forall k | |r| <= k < |s| :: IsJsWhitespace(s[k])
  {
    if s != [] && IsJsWhitespace(s[|s| - 1]) then TrimEnd(s[..|s| - 1]) else s
  }

  /** String.prototype.trim: drops the white space at both ends and
      nothing else. */
  function Trim(s: string): (r: string)
    ensures exists i, j :: (0 <= i <= j <= |s| && r == s[i..j]
      && (forall k | 0 <= k < i :: IsJsWhitespace(s[k]))
      && (forall k | j <= k < |s| :: IsJsWhitespace(s[k])))
    ensures r == [] || (!IsJsWhitespace(r[0]) && !IsJsWhitespace(r[|r| - 1]))
  {
    var a := TrimStart(s);
    var r := TrimEnd(a);
    var i := |s| - |a|;
    assert r == s[i..i + |r|];
    r
  }

  /** The match of /\[[\s\S]*\]/ when there is one, the text otherwise. The
      pattern is greedy, so a match runs from the first '[' to the last ']'
      and exists exactly when some '[' comes before some ']'. */
  function ExtractArray(s: string): (r: string)
    ensures (exists i, j :: 0 <= i < j < |s| && s[i] == '[' && s[j] == ']') ==>
      exists i, j :: 0 <= i < j < |s| && r == s[i..j + 1] && s[i] == '[' && s[j] == ']'
        && (forall k | 0 <= k < i :: s[k] != '[') && (forall k | j < k < |s| :: s[k] != ']')
    ensures !(exists i, j :: 0 <= i < j < |s| && s[i] == '[' && s[j] == ']') ==> r == s
  {
    var first := FirstIndexOf(s, '[');
    var last := LastIndexOf(s, ']');
    if first.Some? && last.Some? && first.value < last.value then s[first.value..last.value + 1] else s
  }

  /** The text handed to JSON.parse. */
  function Candidate(response: string): string {
    ExtractArray(Trim(response))
  }

  /** The task the catch block returns: the first 100 characters of the
      untrimmed reply, with "..." when it is longer. */
  function Fallback(response: string): (t: ParsedTask)
    ensures |t.title| <= 103 && WellFormed(t)
    ensures |response| <= 100 ==> t.title == response
    ensures |response| > 100 ==> t.title == response[..100] + "..."
    ensures t.priority == Medium && t.difficultyLevel == 3 && t.subtasks.None?
  {
    var title := if |response| > 100 then response[..100] + "..." else response;
    ParsedTask(title, None, Medium, 3, None, None, None, None, None, None)
  }

  /** parseAIResponse: the normalised tasks when the candidate text parses
      to an array none of whose elements is null, the fallback task
      otherwise. */
  function ParseAIResponse(response: string, parse: string -> Option<Json>): (r: seq<ParsedTask>)
    ensures forall i | 0 <= i < |r| :: WellFormed(r[i])
  {
    match parse(Candidate(response))
    case Some(JArr(items)) =>
      var all := MapAll(items, NormalizeTask);
      if all.Some? then all.value else [Fallback(response)]
    case _ => [Fallback(response)]
  }

  /** Which branch of parseAIResponse a parsed array takes: when no element
      throws, one normalised task per element, in order; when one does, the
      fallback task alone. */
  lemma ParseOutcomes(response: string, parse: string -> Option<Json>)
    ensures var c := parse(Candidate(response));
      var r := ParseAIResponse(response, parse);
      && (c.Some? && c.value.JArr? && (forall i | 0 <= i < |c.value.items| :: !Throws(c.value.items[i])) ==>
            && |r| == |c.value.items|
            && forall i | 0 <= i < |r| :: NormalizeTask(c.value.items[i]) == Some(r[i]))
      && (c.Some? && c.value.JArr? && (exists k | 0 <= k < |c.value.items| :: Throws(c.value.items[k])) ==>
            r == [Fallback(response)])
  {
  }

  /** A reply that is not an array (or does not parse) gives the fallback
      task alone; an empty array gives no task at all. */
  lemma ParseNonArray(response: string, parse: string -> Option<Json>)
    ensures !(parse(Candidate(response)).Some? && parse(Candidate(response)).value.JArr?) ==>
      ParseAIResponse(response, parse) == [Fallback(response)]
    ensures parse(Candidate(response)) == Some(JArr([])) ==> ParseAIResponse(response, parse) == []
  {
  }

  /** A null element anywhere in the array sends the whole reply to the
      fallback. */
  lemma NullElementFallsBack(response: string, parse: string -> Option<Json>, k: nat)
    requires parse(Candidate(response)).Some? && parse(Candidate(response)).value.JArr?
    requires k < |parse(Candidate(response)).value.items|
    requires parse(Candidate(response)).value.items[k] == JNull
    ensures ParseAIResponse(response, parse) == [Fallback(response)]
  {
    var items := parse(Candidate(response)).value.items;
    assert NormalizeTask(items[k]).None?;
  }

  // ---------------------------------------------------------------------
  // The context prompt
  // ---------------------------------------------------------------------

  /** The optional `context` argument of processNaturalLanguageInput. */
  datatype PromptContext = PromptContext(
    previousTasks: Option<seq<string>>,
    userTimezone: Option<string>,
    currentTime: Option<int>)

  const InputLabel: string := "User input: \""
  const PromptTrailer: string := "\nPlease create structured tasks from this input:"

  function PromptHeader(input: string): string {
    InputLabel + input + "\"\n\n"
  }

  predicate HasTime(context: Option<PromptContext>) {
    context.Some? && Truthy(context.value.currentTime)
  }

  predicate HasTimezone(context: Option<PromptContext>) {
    context.Some? && context.value.userTimezone.Some? && context.value.userTimezone.value != ""
  }

  predicate HasRecentTasks(context: Option<PromptContext>) {
    context.Some? && context.value.previousTasks.Some? && |context.value.previousTasks.value| > 0
  }

  function TimeLine(iso: string): string {
    "Current time: " + iso + "\n"
  }

  function TimezoneLine(timezone: string): string {
    "User timezone: " + timezone + "\n"
  }

  function LevelLine(progress: Progress): string {
    "User level: " + IntToString(progress.currentLevel) + "\n"
  }

  function StreakLine(progress: Progress): string {
    "Current streak: " + IntToString(progress.currentStreak) + " days\n"
  }

  function RecentTasksLine(titles: seq<string>): string {
    "Recent tasks: " + Join(titles, ", ") + "\n"
  }

  /** The user message: the quoted input, then each optional line the
      context and the user's progress provide, then the request. */
  function ContextPrompt(input: string, context: Option<PromptContext>, progress: Option<Progress>,
                         isoString: int -> string): string
  {
    PromptHeader(input)
    + (if HasTime(context) then TimeLine(isoString(context.value.currentTime.value)) else "")
    + (if HasTimezone(context) then TimezoneLine(context.value.userTimezone.value) else "")
    + (if progress.Some? then LevelLine(progress.value) + StreakLine(progress.value) else "")
    + (if HasRecentTasks(context) then RecentTasksLine(context.value.previousTasks.value) else "")
    + PromptTrailer
  }

  /** Concatenation facts the prompt lemma uses, stated on plain strings. */
  lemma AppendAssoc(a: string, b: string, c: string)
    ensures a + b + c == a + (b + c)
  {
  }

  lemma PrefixOfAppends(h: string, t: string, z: string, pr: string, rt: string, tail: string)
    ensures h <= h + t + z + pr + rt + tail
  {
    var p := h + t + z + pr + rt + tail;
    assert p == h + (t + z + pr + rt + tail);
  }

  lemma EmptyPieces(h: string, tail: string)
    ensures h + "" + "" + "" + "" + tail == h + tail
  {
    assert h + "" + "" + "" + "" == h;
  }

  lemma SuffixOfAppend(x: string, tail: string)
    ensures (x + tail)[|x + tail| - |tail|..] == tail
  {
  }

  lemma PairOccurs(pre: string, level: string, streak: string, rt: string, tail: string)
    ensures OccursAt(pre + (level + streak) + rt + tail, level, |pre|)
    ensures OccursAt(pre + (level + streak) + rt + tail, streak, |pre| + |level|)
  {
    var p := pre + (level + streak) + rt + tail;
    assert p == pre + (level + (streak + (rt + tail)));
    assert p == (pre + level) + (streak + (rt + tail));
  }

  /** The prompt opens with the quoted input and closes with the
      request; without context or progress nothing stands between them; with
      a progress record it states the user's level and streak. */
  lemma ContextPromptShape(input: string, context: Option<PromptContext>, progress: Option<Progress>,
                           isoString: int -> string)
    ensures var p := ContextPrompt(input, context, progress, isoString);
      && PromptHeader(input) <= p
      && p[|p| - |PromptTrailer|..] == PromptTrailer
      && (context.None? && progress.None? ==> p == PromptHeader(input) + PromptTrailer)
      && (progress.Some? ==> Contains(p, LevelLine(progress.value)) && Contains(p, StreakLine(progress.value)))
  {
    var h := PromptHeader(input);
    var t := if HasTime(context) then TimeLine(isoString(context.value.currentTime.value)) else "";
    var z := if HasTimezone(context) then TimezoneLine(context.value.userTimezone.value) else "";
    var pr := if progress.Some? then LevelLine(progress.value) + StreakLine(progress.value) else "";
    var rt := if HasRecentTasks(context) then RecentTasksLine(context.value.previousTasks.value) else "";
    var p := h + t + z + pr + rt + PromptTrailer;
    assert p == ContextPrompt(input, context, progress, isoString);
    PrefixOfAppends(h, t, z, pr, rt, PromptTrailer);
    SuffixOfAppend(h + t + z + pr + rt, PromptTrailer);
    if context.None? && progress.None? {
      EmptyPieces(h, PromptTrailer);
    }
    if progress.Some? {
      var level, streak := LevelLine(progress.value), StreakLine(progress.value);
      PairOccurs(h + t + z, level, streak, rt, PromptTrailer);
      ContainsIff(p, level);
      ContainsIff(p, streak);
    }
  }

  /** buildContextPrompt: appends the lines to `prompt` one by one. */
  method BuildContextPrompt(input: string, context: Option<PromptContext>, progress: Option<Progress>,
                            isoString: int -> string) returns (prompt: string)
    ensures prompt == ContextPrompt(input, context, progress, isoString)
  {
    ghost var t := if HasTime(context) then TimeLine(isoString(context.value.currentTime.value)) else "";
    ghost var z := if HasTimezone(context) then TimezoneLine(context.value.userTimezone.value) else "";
    ghost var pr := if progress.Some? then LevelLine(progress.value) + StreakLine(progress.value) else "";
    ghost var rt := if HasRecentTasks(context) then RecentTasksLine(context.value.previousTasks.value) else "";
    prompt := PromptHeader(input);
    if HasTime(context) {
      prompt := prompt + TimeLine(isoString(context.value.currentTime.value));
    }
    assert prompt == PromptHeader(input) + t;
    if HasTimezone(context) {
      prompt := prompt + TimezoneLine(context.value.userTimezone.value);
    }
    assert prompt == PromptHeader(input) + t + z;
    if progress.Some? {
      ghost var before := prompt;
      prompt := prompt + LevelLine(progress.value);
      prompt := prompt + StreakLine(progress.value);
      AppendAssoc(before, LevelLine(progress.value), StreakLine(progress.value));
    }
    assert prompt == PromptHeader(input) + t + z + pr;
    if HasRecentTasks(context) {
      prompt := prompt + RecentTasksLine(context.value.previousTasks.value);
    }
    assert prompt == PromptHeader(input) + t + z + pr + rt;
    prompt := prompt + PromptTrailer;
  }

  // ---------------------------------------------------------------------
  // The orchestrator
  // ---------------------------------------------------------------------

  /** What the HTTP call to the model returns. */
  datatype LlmReply =
    | NetworkError(message: string)
    | HttpError(status: int, upstreamMessage: Option<string>)
    | Reply(content: Option<string>)

  const RateLimitPrefix: string :=
    "Rate limit exceeded. Please wait a moment and try again. You may need to add credits to your OpenAI account: "

  /** The message of a non-OK reply: the upstream message or a status line,
      behind a rate-limit notice on status 429. */
  function HttpErrorMessage(status: int, upstreamMessage: Option<string>): (m: string)
    ensures var base := if upstreamMessage.Some? && upstreamMessage.value != "" then upstreamMessage.value
                        else "OpenAI API error: " + IntToString(status);
      && (status == 429 ==> m == RateLimitPrefix + base && RateLimitPrefix <= m)
      && (status != 429 ==> m == base)
  {
    var base := if upstreamMessage.Some? && upstreamMessage.value != "" then upstreamMessage.value
                else "OpenAI API error: " + IntToString(status);
    if status == 429 then RateLimitPrefix + base else base
  }

  datatype Suggestion = Suggestion(suggestedDate: int, xpBoost: int, reason: Option<string>)

  /** One entry of the returned list: the created parent row and its date
      suggestion, present exactly when it has both a date and a boost. */
  datatype CreatedTask = CreatedTask(task: Task, hasDateSuggestion: bool, suggestionData: Option<Suggestion>)

  /** The three ways processNaturalLanguageInput ends: a thrown error, a
      `{success: false, error}` object, or the created tasks. */
  datatype Outcome = Threw(message: string) | Failed(error: string) | Succeeded(tasks: seq<CreatedTask>)

  function ParentArgs(t: ParsedTask, userId: UserId, input: string): TaskArgs {
    TaskArgs(userId, t.title, t.description, t.priority, t.scheduledFor, t.duration, Some(t.difficultyLevel),
             None, Some(true), Some(input), t.suggestedDate, t.xpBoost, t.reason, None)
  }

  function SubtaskArgs(s: ParsedSubtask, parentId: TaskId, userId: UserId, input: string): TaskArgs {
    TaskArgs(userId, s.title, s.description, s.priority, None, None, Some(s.difficultyLevel),
             Some(parentId), Some(true), Some(input), None, None, None, None)
  }

  function SubtasksOf(t: ParsedTask): seq<ParsedSubtask> {
    t.subtasks.GetOr([])
  }

  function SubtaskRow(parentId: TaskId, userId: UserId, input: string, now: int): (ParsedSubtask, nat) -> Task {
    (s: ParsedSubtask, id: nat) => NewTaskRecord(SubtaskArgs(s, parentId, userId, input), id, now)
  }

  /** The rows the inner loop inserts, with ids from `firstId` on. */
  function SubtaskRows(subtasks: seq<ParsedSubtask>, parentId: TaskId, userId: UserId, input: string,
                       firstId: nat, now: int): (rows: seq<Task>)
    ensures |rows| == |subtasks|
  {
    MapFrom(subtasks, SubtaskRow(parentId, userId, input, now), firstId)
  }

  /** The rows one parsed task contributes: itself, then its subtasks. */
  function TaskGroup(t: ParsedTask, userId: UserId, input: string, id: nat, now: int): (rows: seq<Task>)
    ensures |rows| == 1 + |SubtasksOf(t)|
  {
    [NewTaskRecord(ParentArgs(t, userId, input), id, now)] + SubtaskRows(SubtasksOf(t), id, userId, input, id + 1, now)
  }

  /** Row groups and returned entries, as functions of the parsed task and
      the id its parent row receives. */
  function Grouping(userId: UserId, input: string, now: int): (ParsedTask, nat) -> seq<Task> {
    (t: ParsedTask, id: nat) => TaskGroup(t, userId, input, id, now)
  }

  function Created(row: Task, t: ParsedTask): CreatedTask {
    var has := t.suggestedDate.Some? && t.xpBoost.Some?;
    CreatedTask(row, has, if has then Some(Suggestion(t.suggestedDate.value, t.xpBoost.value, t.reason)) else None)
  }

  function Heading(userId: UserId, input: string, now: int): (ParsedTask, nat) -> CreatedTask {
    (t: ParsedTask, id: nat) => Created(NewTaskRecord(ParentArgs(t, userId, input), id, now), t)
  }

  /** The rows the whole ingestion inserts, with ids from `firstId` on. */
  function IngestedRows(parsed: seq<ParsedTask>, userId: UserId, input: string, firstId: nat, now: int): seq<Task> {
    FlatMapFrom(parsed, Grouping(userId, input, now), firstId)
  }

  /** The id the parent row of `parsed[i]` receives. */
  function ParentId(parsed: seq<ParsedTask>, i: nat, userId: UserId, input: string, firstId: nat, now: int): nat
    requires i <= |parsed|
  {
    Offset(parsed, i, Grouping(userId, input, now), firstId)
  }

  /** The returned list: one entry per parsed task, for its parent row. */
  function CreatedList(parsed: seq<ParsedTask>, userId: UserId, input: string, firstId: nat, now: int): seq<CreatedTask> {
    HeadsFrom(parsed, Grouping(userId, input, now), Heading(userId, input, now), firstId)
  }

  /** The list has one entry per parsed task, in order; each entry is an
      AI-generated top-level row of the user carrying the input as its
      context, and has a date suggestion exactly when the parsed task has
      both a date and a boost. */
  lemma CreatedListShape(parsed: seq<ParsedTask>, userId: UserId, input: string, firstId: nat, now: int)
    ensures var c := CreatedList(parsed, userId, input, firstId, now);
      && |c| == |parsed|
      && forall i | 0 <= i < |c| ::
           && c[i].task.title == parsed[i].title && c[i].task.userId == userId
           && c[i].task.aiGenerated && c[i].task.aiContext == Some(input) && c[i].task.parentTaskId.None?
           && c[i].task.id == ParentId(parsed, i, userId, input, firstId, now)
           && (c[i].hasDateSuggestion <==> parsed[i].suggestedDate.Some? && parsed[i].xpBoost.Some?)
  {
    var c := CreatedList(parsed, userId, input, firstId, now);
    HeadsAt(parsed, Grouping(userId, input, now), Heading(userId, input, now), firstId);
    forall i | 0 <= i < |c|
      ensures && c[i].task.title == parsed[i].title && c[i].task.userId == userId
              && c[i].task.aiGenerated && c[i].task.aiContext == Some(input) && c[i].task.parentTaskId.None?
              && c[i].task.id == ParentId(parsed, i, userId, input, firstId, now)
              && (c[i].hasDateSuggestion <==> parsed[i].suggestedDate.Some? && parsed[i].xpBoost.Some?)
    {
      var id := ParentId(parsed, i, userId, input, firstId, now);
      assert c[i] == Created(NewTaskRecord(ParentArgs(parsed[i], userId, input), id, now), parsed[i]);
    }
  }

  /** Every inserted subtask row belongs to the user, points at its parent
      row and takes the next id. */
  lemma SubtaskRowsParent(subtasks: seq<ParsedSubtask>, parentId: TaskId, userId: UserId,
                          input: string, firstId: nat, now: int)
    ensures var rows := SubtaskRows(subtasks, parentId, userId, input, firstId, now);
      forall i | 0 <= i < |rows| ::
        && rows[i].parentTaskId == Some(parentId) && rows[i].id == firstId + i && rows[i].userId == userId
        && rows[i].title == subtasks[i].title && rows[i].aiGenerated && rows[i].aiContext == Some(input)
  {
    var rows := SubtaskRows(subtasks, parentId, userId, input, firstId, now);
    MapAt(subtasks, SubtaskRow(parentId, userId, input, now), firstId);
    forall i | 0 <= i < |rows|
      ensures && rows[i].parentTaskId == Some(parentId) && rows[i].id == firstId + i && rows[i].userId == userId
              && rows[i].title == subtasks[i].title && rows[i].aiGenerated && rows[i].aiContext == Some(input)
    {
      assert rows[i] == NewTaskRecord(SubtaskArgs(subtasks[i], parentId, userId, input), firstId + i, now);
    }
  }

  /** The inner loop: creates the subtasks of the row `parentId` just
      inserted, in order. */
  method CreateSubtasks(store: TaskStore, subtasks: seq<ParsedSubtask>, parentId: TaskId, userId: UserId,
                        input: string, now: int)
    requires store.Valid() && store.nextId == parentId + 1
    modifies store
    ensures store.Valid()
    ensures store.table == old(store.table) + SubtaskRows(subtasks, parentId, userId, input, parentId + 1, now)
    ensures store.nextId == old(store.nextId) + |subtasks|
  {
    ghost var table0 := store.table;
    var j := 0;
    while j < |subtasks|
      invariant 0 <= j <= |subtasks|
      invariant store.Valid()
      invariant store.table == table0 + SubtaskRows(subtasks[..j], parentId, userId, input, parentId + 1, now)
      invariant store.nextId == parentId + 1 + j
    {
      MapStep(subtasks, j, SubtaskRow(parentId, userId, input, now), parentId + 1);
      var _ := store.CreateTask(SubtaskArgs(subtasks[j], parentId, userId, input), now);
      j := j + 1;
    }
    assert subtasks[..j] == subtasks;
  }

  /** What one pass of the outer loop does to the table, the next id and
      the returned list, in terms of the loop's invariants. */
  lemma IngestPass(parsed: seq<ParsedTask>, i: nat, userId: UserId, input: string, first: nat, now: int,
                   table0: seq<Task>, before: seq<Task>, after: seq<Task>, nextBefore: nat, nextAfter: nat,
                   created: seq<CreatedTask>, c: CreatedTask)
    requires i < |parsed|
    requires before == table0 + IngestedRows(parsed[..i], userId, input, first, now)
    requires nextBefore == ParentId(parsed, i, userId, input, first, now)
    requires created == CreatedList(parsed[..i], userId, input, first, now)
    requires after == before + TaskGroup(parsed[i], userId, input, nextBefore, now)
    requires nextAfter == nextBefore + |TaskGroup(parsed[i], userId, input, nextBefore, now)|
    requires c == Created(NewTaskRecord(ParentArgs(parsed[i], userId, input), nextBefore, now), parsed[i])
    ensures after == table0 + IngestedRows(parsed[..i + 1], userId, input, first, now)
    ensures nextAfter == ParentId(parsed, i + 1, userId, input, first, now)
    ensures created + [c] == CreatedList(parsed[..i + 1], userId, input, first, now)
  {
    var group, head := Grouping(userId, input, now), Heading(userId, input, now);
    FlatMapStep(parsed, i, group, first);
    HeadsStep(parsed, i, group, head, first);
    AppendAssoc3(table0, IngestedRows(parsed[..i], userId, input, first, now), group(parsed[i], nextBefore));
    assert parsed[..i + 1][..i + 1] == parsed[..i + 1];
  }

  /** One pass of the outer loop: the parent row, then its subtasks. */
  method IngestTask(store: TaskStore, t: ParsedTask, userId: UserId, input: string, now: int)
    returns (c: CreatedTask)
    requires store.Valid()
    modifies store
    ensures store.Valid()
    ensures store.table == old(store.table) + TaskGroup(t, userId, input, old(store.nextId), now)
    ensures store.nextId == old(store.nextId) + |TaskGroup(t, userId, input, old(store.nextId), now)|
    ensures c == Created(NewTaskRecord(ParentArgs(t, userId, input), old(store.nextId), now), t)
  {
    ghost var table0 := store.table;
    var task := store.CreateTask(ParentArgs(t, userId, input), now);
    c := Created(task, t);
    CreateSubtasks(store, SubtasksOf(t), task.id, userId, input, now);
    AppendAssoc3(table0, [task], SubtaskRows(SubtasksOf(t), task.id, userId, input, task.id + 1, now));
  }

  /** The outer loop: creates each parsed task, then its subtasks. */
  method IngestTasks(store: TaskStore, parsed: seq<ParsedTask>, userId: UserId, input: string, now: int)
    returns (created: seq<CreatedTask>)
    requires store.Valid()
    modifies store
    ensures store.Valid()
    ensures store.table == old(store.table) + IngestedRows(parsed, userId, input, old(store.nextId), now)
    ensures store.nextId == old(store.nextId) + |IngestedRows(parsed, userId, input, old(store.nextId), now)|
    ensures created == CreatedList(parsed, userId, input, old(store.nextId), now)
  {
    ghost var table0 := store.table;
    ghost var first := store.nextId;
    created := [];
    var i := 0;
    while i < |parsed|
      invariant 0 <= i <= |parsed|
      invariant store.Valid()
      invariant store.table == table0 + IngestedRows(parsed[..i], userId, input, first, now)
      invariant store.nextId == ParentId(parsed, i, userId, input, first, now)
      invariant created == CreatedList(parsed[..i], userId, input, first, now)
    {
      ghost var before, nextBefore := store.table, store.nextId;
      var c := IngestTask(store, parsed[i], userId, input, now);
      IngestPass(parsed, i, userId, input, first, now, table0, before, store.table, nextBefore, store.nextId, created, c);
      created := created + [c];
      i := i + 1;
    }
    assert parsed[..i] == parsed;
  }

  /** The progress record getUserWithProgress attaches to the user. */
  function ProgressOf(progress: map<UserId, Progress>, userId: UserId): Option<Progress> {
    if userId in progress then Some(progress[userId]) else None
  }

  /** processNaturalLanguageInput. A missing API key throws; every later
      error is caught and reported as `{success: false}`; otherwise each
      parsed task is created, then its subtasks under it. */
  method ProcessNaturalLanguageInput(store: TaskStore, apiKey: string, input: string, userId: UserId,
                                     userExists: bool, context: Option<PromptContext>,
                                     llm: string -> LlmReply, parse: string -> Option<Json>,
                                     isoString: int -> string, now: int)
    returns (r: Outcome)
    requires store.Valid()
    modifies store
    ensures store.Valid()
    ensures apiKey == "" ==>
      r == Threw("OpenAI API key not configured") && store.table == old(store.table) && store.nextId == old(store.nextId)
    ensures apiKey != "" && !userExists ==>
      r == Failed("User not found") && store.table == old(store.table) && store.nextId == old(store.nextId)
    ensures apiKey != "" && userExists ==>
      var reply := llm(ContextPrompt(input, context, ProgressOf(store.ledger.progress, userId), isoString));
      && (reply.NetworkError? ==>
            r == Failed(reply.message) && store.table == old(store.table) && store.nextId == old(store.nextId))
      && (reply.HttpError? ==>
            && r == Failed(HttpErrorMessage(reply.status, reply.upstreamMessage))
            && store.table == old(store.table) && store.nextId == old(store.nextId))
      && (reply.Reply? && (reply.content.None? || reply.content.value == "") ==>
            r == Failed("No response from AI") && store.table == old(store.table) && store.nextId == old(store.nextId))
      && (reply.Reply? && reply.content.Some? && reply.content.value != "" ==>
            var parsed := ParseAIResponse(reply.content.value, parse);
            var rows := IngestedRows(parsed, userId, input, old(store.nextId), now);
            && store.table == old(store.table) + rows
            && store.nextId == old(store.nextId) + |rows|
            && r == Succeeded(CreatedList(parsed, userId, input, old(store.nextId), now)))
  {
    if apiKey == "" {
      return Threw("OpenAI API key not configured");
    }
    if !userExists {
      return Failed("User not found");
    }
    var prompt := BuildContextPrompt(input, context, ProgressOf(store.ledger.progress, userId), isoString);
    var reply := llm(prompt);
    if reply.NetworkError? {
      return Failed(reply.message);
    }
    if reply.HttpError? {
      return Failed(HttpErrorMessage(reply.status, reply.upstreamMessage));
    }
    if reply.content.None? || reply.content.value == "" {
      return Failed("No response from AI");
    }
    var parsed := ParseAIResponse(reply.content.value, parse);
    var created := IngestTasks(store, parsed, userId, input, now);
    r := Succeeded(created);
  }
}

/** The calendar side of scheduling: the busy slots taken from a day's
    events, the scan for free slots of a given length inside the working
    periods, the rule that decides when the stored access token must be
    refreshed, and the creation of an event for a task, which also puts the
    event's time on the task. Times are millisecond timestamps; the fetch of
    the day's events and the calls to the calendar service are inputs. */
module Calendar {
  import opened Wrappers
  import opened Seqs
  import opened Text
  import opened Tasks

  const MinuteMs := 60 * 1000
  const HourMs := 60 * MinuteMs
  /** The scan advances by a quarter of an hour. */
  const StepMs := 15 * MinuteMs
  /** The token is refreshed five minutes before it expires. */
  const RefreshMarginMs := 5 * MinuteMs

  // ---------------------------------------------------------------------
  // Busy slots

  /** A calendar event, reduced to the parsed `start.dateTime` and
      `end.dateTime`; an all-day event has neither. */
  datatype Event = Event(startDateTime: Option<int>, endDateTime: Option<int>)

  /** A time interval `[start, end)`. */
  datatype Slot = Slot(start: int, end: int)

  predicate Timed(e: Event) {
    e.startDateTime.Some? && e.endDateTime.Some?
  }

  function SlotOf(e: Event): Slot
    requires Timed(e)
  {
    Slot(e.startDateTime.value, e.endDateTime.value)
  }

  function SlotsOf(events: seq<Event>): (r: seq<Slot>)
    requires forall i | 0 <= i < |events| :: Timed(events[i])
    ensures |r| == |events|
    ensures forall i | 0 <= i < |events| :: r[i] == SlotOf(events[i])
  {
    if events == [] then [] else [SlotOf(events[0])] + SlotsOf(events[1..])
  }

  function StartKey(s: Slot): Key {
    Key(s.start, 0)
  }

  /** The slots of the timed events, sorted by start time; the sort is
      stable, so slots with the same start keep the events' order. */
  function BusySlots(events: seq<Event>): (r: seq<Slot>)
    ensures SortedBy(r, StartKey)
    ensures multiset(r) == multiset(SlotsOf(Filter(events, Timed)))
  {
    SortByKey(SlotsOf(Filter(events, Timed)), StartKey)
  }

  /** A busy slot is exactly the interval of some timed event. */
  lemma BusySlotsAreTimedEvents(events: seq<Event>, s: Slot)
    ensures s in BusySlots(events) <==> exists k | 0 <= k < |events| :: Timed(events[k]) && SlotOf(events[k]) == s
  {
    var timed := Filter(events, Timed);
    var slots := SlotsOf(timed);
    assert s in BusySlots(events) <==> s in slots by {
      assert s in BusySlots(events) <==> s in multiset(BusySlots(events));
      assert s in slots <==> s in multiset(slots);
    }
    if s in slots {
      var i :| 0 <= i < |slots| && slots[i] == s;
      assert timed[i] in events;
      var k :| 0 <= k < |events| && events[k] == timed[i];
      assert Timed(events[k]) && SlotOf(events[k]) == s;
    }
    if exists k | 0 <= k < |events| :: Timed(events[k]) && SlotOf(events[k]) == s {
      var k :| 0 <= k < |events| && Timed(events[k]) && SlotOf(events[k]) == s;
      assert events[k] in timed;
      var i :| 0 <= i < |timed| && timed[i] == events[k];
      assert slots[i] == s;
    }
  }

  // ---------------------------------------------------------------------
  // Working periods

  /** A working period as two "HH:MM" clock strings. */
  datatype WorkingPeriod = WorkingPeriod(start: string, end: string)

  const DefaultWorkingHours := [WorkingPeriod("09:00", "18:00")]

  /** The preferred periods when there are any (an empty list included),
      otherwise the default working day. */
  function WorkingHours(preferred: Option<seq<WorkingPeriod>>): (r: seq<WorkingPeriod>)
    ensures preferred.Some? ==> r == preferred.value
    ensures preferred.None? ==> r == [WorkingPeriod("09:00", "18:00")]
  {
    preferred.GetOr(DefaultWorkingHours)
  }

  /** The offset from midnight of an "H:M" clock string: the hour and the
      minute are its first two ':'-separated parts read as numbers. A
      missing minute or a part that is not a number makes the period's
      bounds invalid, which is `None`. */
  function ClockTime(s: string): (r: Option<int>)
    ensures r.Some? <==> && NumberOf(Split(s, ':')[0]).Some?
                         && |Split(s, ':')| > 1 && NumberOf(Split(s, ':')[1]).Some?
    ensures r.Some? ==> r.value >= 0
  {
    var parts := Split(s, ':');
    var hour := NumberOf(parts[0]);
    var minute := if |parts| > 1 then NumberOf(parts[1]) else None;
    if hour.Some? && minute.Some? then Some(hour.value * HourMs + minute.value * MinuteMs) else None
  }

  lemma ClockTimeOfTwoParts(h: string, m: string, hv: nat, mv: nat)
    requires NumberOf(h) == Some(hv) && NumberOf(m) == Some(mv)
    ensures ClockTime(h + ":" + m) == Some(hv * HourMs + mv * MinuteMs)
  {
    var s := h + ":" + m;
    NoDigitIsColon(h);
    NoDigitIsColon(m);
    FirstColonAt(h, m);
    assert s[|h| + 1..] == m;
    assert Split(m, ':') == [m];
    assert s[..|h|] == h;
  }

  lemma NoDigitIsColon(s: string)
    requires NumberOf(s).Some?
    ensures forall k | 0 <= k < |s| :: s[k] != ':'
  {
  }

  lemma FirstColonAt(h: string, m: string)
    requires forall k | 0 <= k < |h| :: h[k] != ':'
    requires forall k | 0 <= k < |m| :: m[k] != ':'
    ensures FirstIndexOf(h + ":" + m, ':') == Some(|h|)
    ensures FirstIndexOf(m, ':') == None
  {
    var s := h + ":" + m;
    assert s[|h|] == ':';
    assert forall k | 0 <= k < |h| :: s[k] == h[k];
  }

  lemma NineOClock()
    ensures ClockTime("09:00") == Some(9 * HourMs)
  {
    assert ParseDigits("0") == 0;
    assert "09"[..1] == "0" && "00"[..1] == "0";
    assert NumberOf("09") == Some(9);
    assert NumberOf("00") == Some(0);
    ClockTimeOfTwoParts("09", "00", 9, 0);
    assert "09" + ":" + "00" == "09:00";
  }

  lemma EighteenOClock()
    ensures ClockTime("18:00") == Some(18 * HourMs)
  {
    assert ParseDigits("0") == 0 && ParseDigits("1") == 1;
    assert "18"[..1] == "1" && "00"[..1] == "0";
    assert NumberOf("18") == Some(18);
    assert NumberOf("00") == Some(0);
    ClockTimeOfTwoParts("18", "00", 18, 0);
    assert "18" + ":" + "00" == "18:00";
  }

  // ---------------------------------------------------------------------
  // The free-slot scan

  /** The half-open overlap test between a candidate `[start, end)` and a
      busy slot. */
  predicate Overlaps(busy: Slot, start: int, end: int) {
    start < busy.end && end > busy.start
  }

  /** Whether some busy slot overlaps the candidate. */
  function HasConflict(busy: seq<Slot>, start: int, end: int): (r: bool)
    ensures r <==> exists k | 0 <= k < |busy| :: Overlaps(busy[k], start, end)
  {
    if busy == [] then false
    else
      assert forall k | 0 < k < |busy| :: busy[k] == busy[1..][k - 1];
      Overlaps(busy[0], start, end) || HasConflict(busy[1..], start, end)
  }

  /** The free slots of length `length` whose start is `t` plus a whole
      number of steps and whose end does not pass `periodEnd`, in scan
      order. */
  function PeriodSlots(t: int, periodEnd: int, length: int, busy: seq<Slot>): seq<Slot>
    decreases periodEnd - length - t + StepMs
  {
    if t + length <= periodEnd then
      (if HasConflict(busy, t, t + length) then [] else [Slot(t, t + length)])
        + PeriodSlots(t + StepMs, periodEnd, length, busy)
    else []
  }

  /** The slots one working period contributes on the day that starts at
      `dayStart` (local midnight): none when a bound is invalid. */
  function PeriodFreeSlots(period: WorkingPeriod, dayStart: int, durationMinutes: int, busy: seq<Slot>): seq<Slot> {
    var s, e := ClockTime(period.start), ClockTime(period.end);
    if s.Some? && e.Some? then PeriodSlots(dayStart + s.value, dayStart + e.value, durationMinutes * MinuteMs, busy)
    else []
  }

  function PeriodScan(dayStart: int, durationMinutes: int, busy: seq<Slot>): WorkingPeriod -> seq<Slot> {
    period => PeriodFreeSlots(period, dayStart, durationMinutes, busy)
  }

  /** The free slots of all periods, period after period. */
  function FreeSlots(periods: seq<WorkingPeriod>, dayStart: int, durationMinutes: int, busy: seq<Slot>): seq<Slot> {
    ConcatMap(periods, PeriodScan(dayStart, durationMinutes, busy))
  }

  /** `x` is `origin` plus a whole number of scan steps. */
  predicate OnGrid(x: int, origin: int) {
    (x - origin) % StepMs == 0
  }

  /** Every slot of a period's scan has the requested length, lies inside
      the period, starts on the quarter-hour grid of the period's start and
      overlaps no busy slot. */
  lemma {:induction false} PeriodSlotsSound(t: int, periodEnd: int, length: int, busy: seq<Slot>)
    ensures forall s | s in PeriodSlots(t, periodEnd, length, busy) ::
      && s.end == s.start + length
      && t <= s.start && s.end <= periodEnd
      && OnGrid(s.start, t)
      && !HasConflict(busy, s.start, s.end)
    decreases periodEnd - length - t + StepMs
  {
    if t + length <= periodEnd {
      PeriodSlotsSound(t + StepMs, periodEnd, length, busy);
    }
  }

  /** Every candidate on the grid that fits in the period and overlaps no
      busy slot is emitted. */
  lemma {:induction false} PeriodSlotsComplete(t: int, periodEnd: int, length: int, busy: seq<Slot>, k: nat)
    requires t + k * StepMs + length <= periodEnd
    requires !HasConflict(busy, t + k * StepMs, t + k * StepMs + length)
    ensures Slot(t + k * StepMs, t + k * StepMs + length) in PeriodSlots(t, periodEnd, length, busy)
    decreases k
  {
    if k > 0 {
      PeriodSlotsComplete(t + StepMs, periodEnd, length, busy, k - 1);
    }
  }

  predicate StartsAscending(r: seq<Slot>) {
    forall i, j | 0 <= i < j < |r| :: r[i].start < r[j].start
  }

  /** Within a period, the slots come in strictly ascending start order. */
  lemma {:induction false} PeriodSlotsAscending(t: int, periodEnd: int, length: int, busy: seq<Slot>)
    ensures StartsAscending(PeriodSlots(t, periodEnd, length, busy))
    decreases periodEnd - length - t + StepMs
  {
    if t + length <= periodEnd {
      var rest := PeriodSlots(t + StepMs, periodEnd, length, busy);
      PeriodSlotsAscending(t + StepMs, periodEnd, length, busy);
      PeriodSlotsSound(t + StepMs, periodEnd, length, busy);
      if !HasConflict(busy, t, t + length) {
        var r := [Slot(t, t + length)] + rest;
        assert PeriodSlots(t, periodEnd, length, busy) == r;
        assert StepMs > 0;
        forall i, j | 0 <= i < j < |r| ensures r[i].start < r[j].start {
          assert r[j] == rest[j - 1];
          assert rest[j - 1] in rest;
          if i > 0 {
            assert r[i] == rest[i - 1];
          }
        }
      } else {
        assert PeriodSlots(t, periodEnd, length, busy) == [] + rest;
        assert [] + rest == rest;
      }
    }
  }

  predicate InPeriod(s: Slot, period: WorkingPeriod, dayStart: int, durationMinutes: int, busy: seq<Slot>) {
    && ClockTime(period.start).Some? && ClockTime(period.end).Some?
    && s.end == s.start + durationMinutes * MinuteMs
    && dayStart + ClockTime(period.start).value <= s.start
    && s.end <= dayStart + ClockTime(period.end).value
    && OnGrid(s.start, dayStart + ClockTime(period.start).value)
    && !HasConflict(busy, s.start, s.end)
  }

  /** The periods are scanned in their given order. */
  lemma FreeSlotsAppend(a: seq<WorkingPeriod>, b: seq<WorkingPeriod>, dayStart: int, durationMinutes: int, busy: seq<Slot>)
    ensures FreeSlots(a + b, dayStart, durationMinutes, busy)
         == FreeSlots(a, dayStart, durationMinutes, busy) + FreeSlots(b, dayStart, durationMinutes, busy)
  {
    ConcatMapAppend(a, b, PeriodScan(dayStart, durationMinutes, busy));
  }

  /** A slot of one period's scan satisfies that period's conditions. */
  lemma PeriodFreeSlotsSound(period: WorkingPeriod, dayStart: int, durationMinutes: int, busy: seq<Slot>, s: Slot)
    requires s in PeriodFreeSlots(period, dayStart, durationMinutes, busy)
    ensures InPeriod(s, period, dayStart, durationMinutes, busy)
  {
    var start, end := ClockTime(period.start), ClockTime(period.end);
    PeriodSlotsSound(dayStart + start.value, dayStart + end.value, durationMinutes * MinuteMs, busy);
  }

  /** Every free slot belongs to one of the periods and satisfies that
      period's conditions. */
  lemma FreeSlotsSound(periods: seq<WorkingPeriod>, dayStart: int, durationMinutes: int, busy: seq<Slot>, s: Slot)
    requires s in FreeSlots(periods, dayStart, durationMinutes, busy)
    ensures exists p | 0 <= p < |periods| :: InPeriod(s, periods[p], dayStart, durationMinutes, busy)
  {
    var scan := PeriodScan(dayStart, durationMinutes, busy);
    ConcatMapMembers(periods, scan, s);
    var p :| 0 <= p < |periods| && s in scan(periods[p]);
    PeriodFreeSlotsSound(periods[p], dayStart, durationMinutes, busy, s);
  }

  /** Every grid candidate of every valid period that fits and is free is
      among the free slots. */
  lemma FreeSlotsComplete(periods: seq<WorkingPeriod>, dayStart: int, durationMinutes: int, busy: seq<Slot>, p: nat, k: nat)
    requires p < |periods|
    requires ClockTime(periods[p].start).Some? && ClockTime(periods[p].end).Some?
    requires var start := dayStart + ClockTime(periods[p].start).value + k * StepMs;
      && start + durationMinutes * MinuteMs <= dayStart + ClockTime(periods[p].end).value
      && !HasConflict(busy, start, start + durationMinutes * MinuteMs)
    ensures var start := dayStart + ClockTime(periods[p].start).value + k * StepMs;
      Slot(start, start + durationMinutes * MinuteMs) in FreeSlots(periods, dayStart, durationMinutes, busy)
  {
    var s, e := ClockTime(periods[p].start), ClockTime(periods[p].end);
    var scan := PeriodScan(dayStart, durationMinutes, busy);
    var start := dayStart + s.value + k * StepMs;
    PeriodSlotsComplete(dayStart + s.value, dayStart + e.value, durationMinutes * MinuteMs, busy, k);
    assert Slot(start, start + durationMinutes * MinuteMs) in scan(periods[p]);
    ConcatMapMembers(periods, scan, Slot(start, start + durationMinutes * MinuteMs));
  }

  /** Without preferred times the scan is the one of the period from nine to
      eighteen o'clock. */
  lemma DefaultWorkingDay(dayStart: int, durationMinutes: int, busy: seq<Slot>)
    ensures FreeSlots(WorkingHours(None), dayStart, durationMinutes, busy)
         == PeriodSlots(dayStart + 9 * HourMs, dayStart + 18 * HourMs, durationMinutes * MinuteMs, busy)
  {
    NineOClock();
    EighteenOClock();
    var hours := WorkingHours(None);
    assert hours[..0] == [];
  }

  /** One iteration of findFreeTimeSlots' loop over the working periods:
      the period's bounds are parsed and its `while` loop appends the slots
      it finds to `freeSlots`. */
  method ScanPeriod(freeSlots: seq<Slot>, period: WorkingPeriod, dayStart: int, durationMinutes: int, busy: seq<Slot>)
    returns (after: seq<Slot>)
    ensures after == freeSlots + PeriodFreeSlots(period, dayStart, durationMinutes, busy)
  {
    after := freeSlots;
    var periodStart, periodEnd := ClockTime(period.start), ClockTime(period.end);
    if periodStart.None? || periodEnd.None? {
      return;
    }
    var currentTime := dayStart + periodStart.value;
    var periodEndTime := dayStart + periodEnd.value;
    var length := durationMinutes * MinuteMs;
    while currentTime + length <= periodEndTime
      invariant after + PeriodSlots(currentTime, periodEndTime, length, busy)
             == freeSlots + PeriodSlots(dayStart + periodStart.value, periodEndTime, length, busy)
      decreases periodEndTime - length - currentTime + StepMs
    {
      var slotEnd := currentTime + length;
      ghost var rest := PeriodSlots(currentTime + StepMs, periodEndTime, length, busy);
      if !HasConflict(busy, currentTime, slotEnd) {
        AppendAssoc3(after, [Slot(currentTime, slotEnd)], rest);
        after := after + [Slot(currentTime, slotEnd)];
      }
      currentTime := currentTime + StepMs;
    }
  }

  lemma FreeSlotsPass(periods: seq<WorkingPeriod>, i: nat, dayStart: int, durationMinutes: int, busy: seq<Slot>,
                      before: seq<Slot>, after: seq<Slot>)
    requires i < |periods|
    requires before == FreeSlots(periods[..i], dayStart, durationMinutes, busy)
    requires after == before + PeriodFreeSlots(periods[i], dayStart, durationMinutes, busy)
    ensures after == FreeSlots(periods[..i + 1], dayStart, durationMinutes, busy)
  {
    ConcatMapStep(periods, i, PeriodScan(dayStart, durationMinutes, busy));
  }

  /** The result of findFreeTimeSlots; the failure carries the message of
      the error the event fetch reported. */
  datatype SlotSearch = SlotSearch(freeSlots: seq<Slot>, busySlots: seq<Slot>, success: bool, error: Option<string>)

  /** findFreeTimeSlots on the day starting at local midnight `dayStart`,
      given the outcome of fetching that day's events. */
  method FindFreeTimeSlots(fetched: Result<seq<Event>>, dayStart: int, durationMinutes: int,
                           preferredTimes: Option<seq<WorkingPeriod>>) returns (r: SlotSearch)
    ensures fetched.Failure? ==> r == SlotSearch([], [], false, Some(fetched.error))
    ensures fetched.Success? ==>
      var busy := BusySlots(fetched.value);
      r == SlotSearch(FreeSlots(WorkingHours(preferredTimes), dayStart, durationMinutes, busy), busy, true, None)
  {
    if fetched.Failure? {
      return SlotSearch([], [], false, Some(fetched.error));
    }
    var busy := BusySlots(fetched.value);
    var workingHours := WorkingHours(preferredTimes);
    var freeSlots: seq<Slot> := [];
    var i := 0;
    while i < |workingHours|
      invariant 0 <= i <= |workingHours|
      invariant freeSlots == FreeSlots(workingHours[..i], dayStart, durationMinutes, busy)
    {
      ghost var before := freeSlots;
      freeSlots := ScanPeriod(freeSlots, workingHours[i], dayStart, durationMinutes, busy);
      FreeSlotsPass(workingHours, i, dayStart, durationMinutes, busy, before, freeSlots);
      i := i + 1;
    }
    assert workingHours[..i] == workingHours;
    r := SlotSearch(freeSlots, busy, true, None);
  }

  // ---------------------------------------------------------------------
  // Access tokens

  /** The stored Google Calendar tokens of a user. */
  datatype CalendarTokens = CalendarTokens(accessToken: string, refreshToken: Option<string>, expiresAt: int)

  /** What getValidAccessToken does with the stored tokens. */
  datatype TokenUse = UseStored(token: string) | Refresh

  /** No tokens is an error; otherwise the token is refreshed exactly when
      fewer than five minutes are left before it expires, and used as
      stored before that. */
  function AccessTokenDecision(tokens: Option<CalendarTokens>, now: int): (r: Result<TokenUse>)
    ensures r.Failure? <==> tokens.None?
    ensures r.Failure? ==> r.error == "Google Calendar not connected"
    ensures r == Success(Refresh) <==> tokens.Some? && now >= tokens.value.expiresAt - RefreshMarginMs
    ensures r.Success? && r.value.UseStored? ==> r.value.token == tokens.value.accessToken
  {
    match tokens
    case None => Failure("Google Calendar not connected")
    case Some(t) => if now >= t.expiresAt - 5 * 60 * 1000 then Success(Refresh) else Success(UseStored(t.accessToken))
  }

  /** Once a token needs refreshing it keeps needing it as time goes on. */
  lemma RefreshStaysNeeded(tokens: Option<CalendarTokens>, now: int, later: int)
    requires now <= later
    requires AccessTokenDecision(tokens, now) == Success(Refresh)
    ensures AccessTokenDecision(tokens, later) == Success(Refresh)
  {
  }

  /** A stored token is only handed out while more than five minutes of its
      lifetime remain. */
  lemma StoredTokenHasMargin(tokens: Option<CalendarTokens>, now: int)
    requires AccessTokenDecision(tokens, now).Success? && AccessTokenDecision(tokens, now).value.UseStored?
    ensures tokens.Some? && tokens.value.expiresAt - now > RefreshMarginMs
  {
  }

  /** The token getValidAccessToken returns, given the outcome `refreshed`
      of the refresh action it calls when the decision is to refresh. */
  function ValidAccessToken(tokens: Option<CalendarTokens>, now: int, refreshed: Result<string>): Result<string> {
    match AccessTokenDecision(tokens, now)
    case Failure(e) => Failure(e)
    case Success(Refresh) => refreshed
    case Success(UseStored(token)) => Success(token)
  }

  // ---------------------------------------------------------------------
  // Creating an event for a task

  /** Math.round of a millisecond difference in minutes: halves round up. */
  function EventDurationMinutes(startTime: int, endTime: int): (m: int)
    ensures MinuteMs * m - MinuteMs / 2 <= endTime - startTime < MinuteMs * m + MinuteMs / 2
  {
    (endTime - startTime + 30000) / 60000
  }

  /** A rounding to the nearest minute is unique. */
  lemma DurationIsNearestMinute(startTime: int, endTime: int, m: int)
    requires MinuteMs * m - MinuteMs / 2 <= endTime - startTime < MinuteMs * m + MinuteMs / 2
    ensures EventDurationMinutes(startTime, endTime) == m
  {
  }

  const DefaultEventDescription := "Created by AI-Tasked"
  const CreationFailedPrefix := "Calendar event creation failed: "

  /** The event body posted for a task. */
  datatype EventPayload = EventPayload(summary: string, description: string, start: int, end: int)

  function EventFor(t: Task, startTime: int, endTime: int): (e: EventPayload)
    ensures e.summary == t.title && e.start == startTime && e.end == endTime
    ensures e.description == DefaultEventDescription <==>
      t.description.None? || t.description.value == [] || t.description.value == DefaultEventDescription
  {
    var description := if t.description.Some? && t.description.value != [] then t.description.value
                       else DefaultEventDescription;
    EventPayload(t.title, description, startTime, endTime)
  }

  /** The calendar service's answer to the event POST. */
  datatype CalendarReply = EventCreated(id: string, htmlLink: string) | EventRejected(status: int)

  datatype EventOutcome = EventFailed(error: string) | EventLinked(eventId: string, eventUrl: string)

  /** The updateTask patch that puts the event's time on the task. */
  function ScheduleFromEvent(startTime: int, endTime: int): TaskPatch {
    TaskPatch(None, None, None, Some(startTime), Some(EventDurationMinutes(startTime, endTime)))
  }

  /** After the event is created the task reads back scheduled at the
      event's start for the event's rounded length, with every other
      field (but the update time) as before; other tasks are untouched. */
  lemma EventScheduledTask(table: seq<Task>, t: Task, startTime: int, endTime: int, now: int, other: TaskId)
    requires FindTask(table, t.id) == Some(t)
    ensures var after := Replace(table, ApplyPatch(t, ScheduleFromEvent(startTime, endTime), now));
      && FindTask(after, t.id).Some?
      && FindTask(after, t.id).value.scheduledFor == Some(startTime)
      && FindTask(after, t.id).value.duration == Some(EventDurationMinutes(startTime, endTime))
      && FindTask(after, t.id).value.(scheduledFor := t.scheduledFor, duration := t.duration, updatedAt := t.updatedAt) == t
      && (other != t.id ==> FindTask(after, other) == FindTask(table, other))
  {
    var u := ApplyPatch(t, ScheduleFromEvent(startTime, endTime), now);
    assert u.id == t.id;
    FindAfterReplace(table, u, t.id);
    FindAfterReplace(table, u, other);
  }

  /** createCalendarEvent: needs a usable access token and an existing
      task; posts the event through `api` with that token; on success
      patches the task's schedule and returns the event's id and link. Each
      failure leaves the tables as they were. */
  method CreateCalendarEvent(store: TaskStore, tokens: Option<CalendarTokens>, now: int, refreshed: Result<string>,
                             taskId: TaskId, startTime: int, endTime: int,
                             api: (string, EventPayload) -> CalendarReply) returns (r: EventOutcome)
    requires store.Valid()
    modifies store, store.ledger
    ensures store.Valid()
    ensures store.nextId == old(store.nextId)
    ensures store.ledger.progress == old(store.ledger.progress) && store.ledger.achievements == old(store.ledger.achievements)
    ensures var token := ValidAccessToken(tokens, now, refreshed);
      var found := FindTask(old(store.table), taskId);
      if token.Failure? then r == EventFailed(token.error) && store.table == old(store.table)
      else if found.None? then r == EventFailed("Task not found") && store.table == old(store.table)
      else match api(token.value, EventFor(found.value, startTime, endTime))
        case EventRejected(status) =>
          r == EventFailed(CreationFailedPrefix + IntToString(status)) && store.table == old(store.table)
        case EventCreated(id, link) =>
          && r == EventLinked(id, link)
          && store.table == Replace(old(store.table), ApplyPatch(found.value, ScheduleFromEvent(startTime, endTime), now))
  {
    var token := ValidAccessToken(tokens, now, refreshed);
    if token.Failure? {
      return EventFailed(token.error);
    }
    var found := FindTask(store.table, taskId);
    if found.None? {
      return EventFailed("Task not found");
    }
    var reply := api(token.value, EventFor(found.value, startTime, endTime));
    if reply.EventRejected? {
      return EventFailed(CreationFailedPrefix + IntToString(reply.status));
    }
    var patch := ScheduleFromEvent(startTime, endTime);
    var _ := store.UpdateTask(taskId, patch, now);
    r := EventLinked(reply.id, reply.htmlLink);
  }
}

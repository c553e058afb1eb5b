// Calendar reminders for trials (backend/lib/calendar.ts).
//
// A reminder event starts at 09:00 two days before a trial ends and carries
// popup reminders; partial updates send only the fields supplied; the stored
// access token is refreshed once its expiry has passed; the per-user loop
// collects the ids of the events it created and carries on after a failure;
// deleting a reminder removes the stored row even when the calendar refuses.
//
// Google Calendar, the OAuth server and the description template are the
// environment (`CalendarEnv`); `connected_accounts` and `calendar_events`
// are the fields of `CalendarStore`. Local time is taken to be UTC.

module Calendar {
  import opened Common

  const MINUTE_MS: int := 60 * 1000

  /** Popup reminder used when an event names none: 48 hours before. */
  const DEFAULT_REMINDER_MINUTES: seq<int> := [2880]

  /** The popups of a trial reminder: 48 hours, 24 hours and 1 hour before. */
  const TRIAL_REMINDER_MINUTES: seq<int> := [2880, 1440, 60]

  /** The `reminder_minutes` column written for a trial reminder. */
  const STORED_REMINDER_MINUTES: int := 2880

  /** The title prefix, character for character as the source file spells it
      (a warning sign whose UTF-8 bytes were read as Mac Roman). */
  const TITLE_PREFIX: string := "\U{201A}\U{F6}\U{2020}\U{D4}\U{220F}\U{E8} Trial Ending Soon: "
  const PROVIDER: string := "google_calendar"
  const NO_ACCOUNT: string := "No active Google Calendar account found"
  const EVENT_NOT_FOUND: string := "Calendar event not found"
  const INVALID_TIME: string := "Invalid time value"

  datatype Result<T> = Ok(value: T) | Err(message: string)

  // ---------------------------------------------------------------------------
  // Date arithmetic (date-fns and the Date setters, in UTC).

  /** Milliseconds since midnight. */
  function TimeOfDay(t: Instant): int
  {
    t % DAY_MS
  }

  /** `subDays(t, n)`. */
  function SubDays(t: Instant, n: int): Instant
  {
    t - n * DAY_MS
  }

  /** `t.setHours(h, m, s, ms)`: the same day at the given time. */
  function SetHours(t: Instant, h: int, m: int, s: int, ms: int): Instant
  {
    DayOf(t) * DAY_MS + h * HOUR_MS + m * MINUTE_MS + s * 1000 + ms
  }

  /** A number with its fraction dropped. For the non-negative amounts used
      here this is how `addDays` treats a fractional day count (date-fns
      converts the amount to an integer, or `setDate` truncates
      `getDate() + amount`; the two agree when the amount is not negative). */
  function Trunc(x: real): int
  {
    if x >= 0.0 then x.Floor else -((-x).Floor)
  }

  /** `addDays(t, amount)` for a non-negative amount: only whole days are added. */
  function AddDays(t: Instant, amount: real): Instant
  {
    t + Trunc(amount) * DAY_MS
  }

  /** The start of a trial's reminder event: 09:00:00.000 on the day two days
      before the trial ends. */
  function ReminderDate(trialEnd: Instant): (r: Instant)
    ensures DayOf(r) == DayOf(trialEnd) - 2
    ensures TimeOfDay(r) == 9 * HOUR_MS
  {
    DayAt(DayOf(trialEnd) - 2, 9 * HOUR_MS);
    SetHours(SubDays(trialEnd, 2), 9, 0, 0, 0)
  }

  lemma DayAt(d: int, offset: int)
    requires 0 <= offset < DAY_MS
    ensures DayOf(d * DAY_MS + offset) == d
    ensures (d * DAY_MS + offset) % DAY_MS == offset
  {
  }

  /** The reminder comes between 39 and 63 hours before the end instant, so
      always before the trial ends. */
  lemma {:induction false} ReminderBeforeEnd(trialEnd: Instant)
    ensures 39 * HOUR_MS <= trialEnd - ReminderDate(trialEnd) < 63 * HOUR_MS
  {
    var r := ReminderDate(trialEnd);
    assert r == (DayOf(trialEnd) - 2) * DAY_MS + 9 * HOUR_MS;
    assert trialEnd == DayOf(trialEnd) * DAY_MS + TimeOfDay(trialEnd);
  }

  /** The end of the reminder event as written, `addDays(start, 0.5)`. */
  function ReminderEndAsWritten(start: Instant): Instant
  {
    AddDays(start, 0.5)
  }

  /** Half a day truncates to no day at all: the event said to last twelve
      hours ends when it starts. */
  lemma HalfDayEventIsEmpty(start: Instant)
    ensures ReminderEndAsWritten(start) == start
  {
    assert Trunc(0.5) == 0;
  }

  /** The end of the reminder event: twelve hours after its start. */
  function ReminderEnd(start: Instant): Instant
  {
    start + 12 * HOUR_MS
  }

  /** A reminder event lasts twelve hours and ends at 21:00 on its own day. */
  lemma {:induction false} ReminderEventSpan(trialEnd: Instant)
    ensures var start := ReminderDate(trialEnd);
      && ReminderEnd(start) - start == 12 * HOUR_MS
      && DayOf(ReminderEnd(start)) == DayOf(start)
      && TimeOfDay(ReminderEnd(start)) == 21 * HOUR_MS
  {
    var start := ReminderDate(trialEnd);
    DayAt(DayOf(trialEnd) - 2, 21 * HOUR_MS);
    assert ReminderEnd(start) == (DayOf(trialEnd) - 2) * DAY_MS + 21 * HOUR_MS;
  }

  // ---------------------------------------------------------------------------
  // Event requests.

  datatype Override = Override(via: string, minutes: int)

  datatype EventTime = EventTime(dateTime: Instant, timeZone: string)

  datatype Reminders = Reminders(useDefault: bool, overrides: seq<Override>)

  /** The request body of `events.insert`. */
  datatype EventBody = EventBody(
    summary: string,
    description: string,
    start: EventTime,
    end: EventTime,
    reminders: Reminders)

  datatype EventData = EventData(
    title: string,
    description: string,
    startDate: Instant,
    endDate: Instant,
    reminderMinutes: Option<seq<int>>)

  function Utc(t: Instant): EventTime
  {
    EventTime(t, "UTC")
  }

  /** One popup per minutes value, in order. */
  function Popups(minutes: seq<int>): seq<Override>
  {
    seq(|minutes|, i requires 0 <= i < |minutes| => Override("popup", minutes[i]))
  }

  /** `(reminderMinutes || [2880]).map(...)`: an array is truthy even when empty. */
  function ReminderOverrides(minutes: Option<seq<int>>): seq<Override>
  {
    Popups(if minutes.Some? then minutes.value else DEFAULT_REMINDER_MINUTES)
  }

  function MinutesOf(os: seq<Override>): seq<int>
  {
    seq(|os|, i requires 0 <= i < |os| => os[i].minutes)
  }

  /** The overrides are popups that give back exactly the minutes supplied, in
      order, and the single 48-hour popup when none are supplied. */
  lemma OverridesRoundTrip(minutes: Option<seq<int>>)
    ensures minutes.Some? ==> MinutesOf(ReminderOverrides(minutes)) == minutes.value
    ensures minutes.None? ==> ReminderOverrides(minutes) == [Override("popup", 2880)]
    ensures forall o :: o in ReminderOverrides(minutes) ==> o.via == "popup"
  {
    var os := ReminderOverrides(minutes);
    if minutes.Some? {
      assert MinutesOf(os) == minutes.value;
    } else {
      assert os[0] == Override("popup", 2880);
    }
  }

  function EventRequest(d: EventData): EventBody
  {
    EventBody(d.title, d.description, Utc(d.startDate), Utc(d.endDate),
              Reminders(false, ReminderOverrides(d.reminderMinutes)))
  }

  /** What `updateCalendarEvent` is given: any subset of the event's fields. */
  datatype EventPatch = EventPatch(
    title: Option<string>,
    description: Option<string>,
    startDate: Option<Instant>,
    endDate: Option<Instant>,
    reminderMinutes: Option<seq<int>>)

  /** The request body of `events.update`; None is a key that is not set. */
  datatype UpdateBody = UpdateBody(
    summary: Option<string>,
    description: Option<string>,
    start: Option<EventTime>,
    end: Option<EventTime>,
    reminders: Option<Reminders>)

  /** The keys a request body sets. */
  function Keys(u: UpdateBody): set<string>
  {
    (if u.summary.Some? then {"summary"} else {})
    + (if u.description.Some? then {"description"} else {})
    + (if u.start.Some? then {"start"} else {})
    + (if u.end.Some? then {"end"} else {})
    + (if u.reminders.Some? then {"reminders"} else {})
  }

  /** The fields of a patch that are supplied and truthy, by the key each
      one becomes. A Date and an array are objects, so they are truthy
      whenever supplied; a string must not be empty. */
  function SuppliedKeys(p: EventPatch): set<string>
  {
    (if Truthy(p.title) then {"summary"} else {})
    + (if Truthy(p.description) then {"description"} else {})
    + (if p.startDate.Some? then {"start"} else {})
    + (if p.endDate.Some? then {"end"} else {})
    + (if p.reminderMinutes.Some? then {"reminders"} else {})
  }

  /** The update body a patch yields. */
  function UpdateData(p: EventPatch): UpdateBody
  {
    UpdateBody(
      if Truthy(p.title) then p.title else None,
      if Truthy(p.description) then p.description else None,
      if p.startDate.Some? then Some(Utc(p.startDate.value)) else None,
      if p.endDate.Some? then Some(Utc(p.endDate.value)) else None,
      if p.reminderMinutes.Some? then Some(Reminders(false, Popups(p.reminderMinutes.value))) else None)
  }

  /** `updateData` built field by field, starting from `{}`. */
  method BuildUpdateData(p: EventPatch) returns (u: UpdateBody)
    ensures u == UpdateData(p)
  {
    u := UpdateBody(None, None, None, None, None);
    if Truthy(p.title) {
      u := u.(summary := p.title);
    }
    if Truthy(p.description) {
      u := u.(description := p.description);
    }
    if p.startDate.Some? {
      u := u.(start := Some(Utc(p.startDate.value)));
    }
    if p.endDate.Some? {
      u := u.(end := Some(Utc(p.endDate.value)));
    }
    if p.reminderMinutes.Some? {
      u := u.(reminders := Some(Reminders(false, Popups(p.reminderMinutes.value))));
    }
  }

  /** The body sets a key exactly for each supplied, truthy field, with that
      field's value, and nothing else. */
  lemma UpdateDataKeys(p: EventPatch)
    ensures Keys(UpdateData(p)) == SuppliedKeys(p)
    ensures UpdateData(p).summary.Some? ==> UpdateData(p).summary == p.title
    ensures UpdateData(p).description.Some? ==> UpdateData(p).description == p.description
    ensures UpdateData(p).start.Some? ==> UpdateData(p).start.value.dateTime == p.startDate.value
    ensures UpdateData(p).end.Some? ==> UpdateData(p).end.value.dateTime == p.endDate.value
    ensures UpdateData(p).reminders.Some? ==>
      MinutesOf(UpdateData(p).reminders.value.overrides) == p.reminderMinutes.value
  {
    if p.reminderMinutes.Some? {
      assert MinutesOf(Popups(p.reminderMinutes.value)) == p.reminderMinutes.value;
    }
  }

  // ---------------------------------------------------------------------------
  // The environment.

  /** What `events.insert` does: returns an event, whose id may be missing,
      or throws. */
  datatype InsertOutcome = Inserted(id: Option<string>) | InsertThrew(error: string)

  /** The calendar's answers: for update and delete, None is success and
      Some(e) an exception with message e. */
  datatype Google = Google(
    insert: EventBody -> InsertOutcome,
    update: (string, UpdateBody) -> Option<string>,
    delete: string -> Option<string>)

  /** What the OAuth server answers to a refresh. */
  datatype Tokens = Tokens(accessToken: Option<string>, expiryDate: Option<int>)

  datatype CalendarEnv = CalendarEnv(
    parse: DateParser,                   // new Date(s); None for an Invalid Date
    iso: Instant -> string,              // toISOString()
    describe: (Trial, Instant) -> string, // the description template
    google: Google,
    refresh: Tokens,
    now: Instant)

  // ---------------------------------------------------------------------------
  // The connected account and the token refresh.

  /** The user's active `google_calendar` row of `connected_accounts`. */
  datatype Account = Account(id: string, accessToken: Option<string>, refreshToken: Option<string>, expiresAt: Option<string>)

  /** `account.expires_at && new Date(account.expires_at) <= new Date()`. */
  predicate NeedsRefresh(a: Account, env: CalendarEnv)
  {
    Truthy(a.expiresAt) && env.parse(a.expiresAt.value).Some? && env.parse(a.expiresAt.value).value <= env.now
  }

  /** The stored row after a refresh: the new token, and the new expiry or null. */
  function Refreshed(a: Account, env: CalendarEnv): (r: Account)
  {
    a.(accessToken := env.refresh.accessToken,
       expiresAt := if env.refresh.expiryDate.Some? && env.refresh.expiryDate.value != 0
                    then Some(env.iso(env.refresh.expiryDate.value)) else None)
  }

  /** The account after the refresh check. */
  function TokenStep(a: Account, env: CalendarEnv): Account
  {
    if NeedsRefresh(a, env) then Refreshed(a, env) else a
  }

  /** A refresh keeps the row's identity and refresh token, happens only when
      due, and stores the new access token. */
  lemma RefreshKeepsIdentity(a: Account, env: CalendarEnv)
    ensures TokenStep(a, env).id == a.id && TokenStep(a, env).refreshToken == a.refreshToken
    ensures TokenStep(a, env) != a ==> NeedsRefresh(a, env)
    ensures NeedsRefresh(a, env) ==> TokenStep(a, env).accessToken == env.refresh.accessToken
  {
  }

  /** Within one run (one environment) a second token check leaves the account
      as the first left it, so a loop of calls ends with one token step. */
  lemma TokenStepIdempotent(a: Account, env: CalendarEnv)
    ensures TokenStep(TokenStep(a, env), env) == TokenStep(a, env)
  {
  }

  /** A token that expires later than now, stored as a date the parser reads
      back, is not refreshed again. */
  lemma {:induction false} FreshTokenNotRefreshedAgain(a: Account, env: CalendarEnv)
    requires env.refresh.expiryDate.Some? && env.refresh.expiryDate.value > env.now
    requires env.parse(env.iso(env.refresh.expiryDate.value)) == Some(env.refresh.expiryDate.value)
    ensures !NeedsRefresh(Refreshed(a, env), env)
  {
  }

  /** The account after a run that reached the account lookup (`looked`) or
      did not. */
  function AfterLookup(a: Option<Account>, looked: bool, env: CalendarEnv): Option<Account>
  {
    if a.Some? && looked then Some(TokenStep(a.value, env)) else a
  }

  /** Two runs leave the account as one run that looked it up if either did. */
  lemma AfterLookupTwice(a: Option<Account>, first: bool, second: bool, env: CalendarEnv)
    ensures AfterLookup(AfterLookup(a, first, env), second, env) == AfterLookup(a, first || second, env)
  {
    if a.Some? {
      TokenStepIdempotent(a.value, env);
    }
  }

  /** The access token used for the call: the refreshed one when a refresh was due. */
  function AccessTokenFor(a: Account, env: CalendarEnv): Option<string>
  {
    TokenStep(a, env).accessToken
  }

  // ---------------------------------------------------------------------------
  // The `calendar_events` table and `.single()` lookups.

  datatype CalendarEventRow = CalendarEventRow(
    userId: string,
    trialId: string,
    provider: string,
    externalEventId: Option<string>,
    eventTitle: string,
    eventDescription: string,
    eventDate: Instant,
    reminderMinutes: int)

  predicate RowOf(r: CalendarEventRow, userId: string, trialId: string)
  {
    r.userId == userId && r.trialId == trialId
  }

  /** Positions of the rows of a user's trial, in table order. */
  function Matching(rows: seq<CalendarEventRow>, userId: string, trialId: string): seq<nat>
  {
    if rows == [] then []
    else
      var last := |rows| - 1;
      Matching(rows[..last], userId, trialId) + (if RowOf(rows[last], userId, trialId) then [last] else [])
  }

  lemma {:induction false} MatchingMember(rows: seq<CalendarEventRow>, userId: string, trialId: string, k: nat)
    ensures k in Matching(rows, userId, trialId) <==> k < |rows| && RowOf(rows[k], userId, trialId)
  {
    if rows != [] {
      var init := rows[..|rows| - 1];
      MatchingMember(init, userId, trialId, k);
      if k < |init| {
        assert rows[k] == init[k];
      }
    }
  }

  lemma {:induction false} MatchingSorted(rows: seq<CalendarEventRow>, userId: string, trialId: string)
    ensures forall a, b :: 0 <= a < b < |Matching(rows, userId, trialId)| ==>
      Matching(rows, userId, trialId)[a] < Matching(rows, userId, trialId)[b]
    ensures forall a :: 0 <= a < |Matching(rows, userId, trialId)| ==> Matching(rows, userId, trialId)[a] < |rows|
  {
    if rows != [] {
      MatchingSorted(rows[..|rows| - 1], userId, trialId);
    }
  }

  /** `.single()`: the row, when exactly one row matches. */
  function Single(rows: seq<CalendarEventRow>, userId: string, trialId: string): (k: Option<nat>)
    ensures k.Some? ==> k.value < |rows|
  {
    MatchingSorted(rows, userId, trialId);
    var m := Matching(rows, userId, trialId);
    if |m| == 1 then Some(m[0]) else None
  }

  /** A single lookup finds a row of the user's trial, and it is the only one. */
  lemma {:induction false} SingleIsTheOnlyRow(rows: seq<CalendarEventRow>, userId: string, trialId: string)
    ensures Single(rows, userId, trialId).Some? ==>
      var k := Single(rows, userId, trialId).value;
      k < |rows| && RowOf(rows[k], userId, trialId)
      && forall j :: 0 <= j < |rows| && RowOf(rows[j], userId, trialId) ==> j == k
    ensures Single(rows, userId, trialId).None? ==>
      (forall j :: 0 <= j < |rows| ==> !RowOf(rows[j], userId, trialId)) || |Matching(rows, userId, trialId)| >= 2
  {
    var m := Matching(rows, userId, trialId);
    if |m| == 1 {
      MatchingMember(rows, userId, trialId, m[0]);
      forall j | 0 <= j < |rows| && RowOf(rows[j], userId, trialId) ensures j == m[0] {
        MatchingMember(rows, userId, trialId, j);
      }
    } else if |m| == 0 {
      forall j | 0 <= j < |rows| ensures !RowOf(rows[j], userId, trialId) {
        MatchingMember(rows, userId, trialId, j);
      }
    }
  }

  function RemoveAt(rows: seq<CalendarEventRow>, k: nat): seq<CalendarEventRow>
    requires k < |rows|
  {
    rows[..k] + rows[k + 1..]
  }

  // ---------------------------------------------------------------------------
  // Trial reminder events.

  function ReminderTitle(trial: Trial): string
  {
    TITLE_PREFIX + trial.serviceName
  }

  /** The event data of a trial's reminder, for its parsed end instant. */
  function ReminderEventData(trial: Trial, trialEnd: Instant, env: CalendarEnv): EventData
  {
    var start := ReminderDate(trialEnd);
    EventData(ReminderTitle(trial), env.describe(trial, trialEnd), start, ReminderEndAsWritten(start),
              Some(TRIAL_REMINDER_MINUTES))
  }

  /** The row stored for a created reminder event. */
  function ReminderRow(userId: string, trial: Trial, trialEnd: Instant, eventId: string, env: CalendarEnv): CalendarEventRow
  {
    CalendarEventRow(userId, trial.id, PROVIDER, Some(eventId), ReminderTitle(trial),
                     env.describe(trial, trialEnd), ReminderDate(trialEnd), STORED_REMINDER_MINUTES)
  }

  /** `createCalendarEvent`'s result once an account exists: the event's id
      when it has a truthy one, null otherwise; an exception propagates. */
  function InsertResult(o: InsertOutcome): Result<Option<string>>
  {
    match o
    case Inserted(id) => Ok(if Truthy(id) then id else None)
    case InsertThrew(e) => Err(e)
  }

  /** `createTrialReminderEvent`: an unreadable end date throws (while the
      description is formatted, before the guarded part); otherwise a missing
      account or a failed insert yields null. */
  function TrialReminderOutcome(hasAccount: bool, trial: Trial, env: CalendarEnv): Result<Option<string>>
  {
    match env.parse(trial.trialEnd)
    case None => Err(INVALID_TIME)
    case Some(end) =>
      if !hasAccount then Ok(None)
      else
        var r := InsertResult(env.google.insert(EventRequest(ReminderEventData(trial, end, env))));
        if r.Ok? then r else Ok(None)
  }

  /** The rows a trial's reminder adds to `calendar_events`. */
  function TrialReminderRows(hasAccount: bool, userId: string, trial: Trial, env: CalendarEnv): seq<CalendarEventRow>
  {
    var r := TrialReminderOutcome(hasAccount, trial, env);
    if r.Ok? && r.value.Some? && env.parse(trial.trialEnd).Some?
    then [ReminderRow(userId, trial, env.parse(trial.trialEnd).value, r.value.value, env)]
    else []
  }

  function IdOf(r: Result<Option<string>>): seq<string>
  {
    if r.Ok? && r.value.Some? then [r.value.value] else []
  }

  /** The ids collected over a run of trials, in trial order. */
  function ReminderIds(hasAccount: bool, ts: seq<Trial>, env: CalendarEnv): seq<string>
  {
    if ts == [] then []
    else ReminderIds(hasAccount, ts[..|ts| - 1], env) + IdOf(TrialReminderOutcome(hasAccount, ts[|ts| - 1], env))
  }

  function ReminderRows(hasAccount: bool, userId: string, ts: seq<Trial>, env: CalendarEnv): seq<CalendarEventRow>
  {
    if ts == [] then []
    else ReminderRows(hasAccount, userId, ts[..|ts| - 1], env) + TrialReminderRows(hasAccount, userId, ts[|ts| - 1], env)
  }

  /** The per-trial step of the collecting loop. */
  lemma RemindersStep(hasAccount: bool, userId: string, ts: seq<Trial>, i: nat, env: CalendarEnv)
    requires i < |ts|
    ensures ReminderIds(hasAccount, ts[..i + 1], env) == ReminderIds(hasAccount, ts[..i], env) + IdOf(TrialReminderOutcome(hasAccount, ts[i], env))
    ensures ReminderRows(hasAccount, userId, ts[..i + 1], env) == ReminderRows(hasAccount, userId, ts[..i], env) + TrialReminderRows(hasAccount, userId, ts[i], env)
  {
    assert ts[..i + 1][..i] == ts[..i];
  }

  /** Some trial's end date is readable: only then does the loop reach the
      account lookup, whose token check may refresh the account. */
  predicate AnyReadable(ts: seq<Trial>, env: CalendarEnv)
  {
    exists i :: 0 <= i < |ts| && env.parse(ts[i].trialEnd).Some?
  }

  lemma AnyReadableStep(ts: seq<Trial>, i: nat, env: CalendarEnv)
    requires i < |ts|
    ensures AnyReadable(ts[..i + 1], env) <==> AnyReadable(ts[..i], env) || env.parse(ts[i].trialEnd).Some?
  {
    if AnyReadable(ts[..i + 1], env) && !env.parse(ts[i].trialEnd).Some? {
      var j :| 0 <= j < i + 1 && env.parse(ts[..i + 1][j].trialEnd).Some?;
      assert ts[..i][j] == ts[j];
    }
    if env.parse(ts[i].trialEnd).Some? {
      assert ts[..i + 1][i] == ts[i];
    }
    if AnyReadable(ts[..i], env) {
      var j :| 0 <= j < i && env.parse(ts[..i][j].trialEnd).Some?;
      assert ts[..i + 1][j] == ts[j];
    }
  }

  /** Collecting over two runs of trials collects over each in turn, so a
      trial that fails takes nothing away from the trials around it. */
  lemma {:induction false} ReminderIdsAppend(hasAccount: bool, a: seq<Trial>, b: seq<Trial>, env: CalendarEnv)
    ensures ReminderIds(hasAccount, a + b, env) == ReminderIds(hasAccount, a, env) + ReminderIds(hasAccount, b, env)
    decreases |b|
  {
    if b == [] {
      assert a + b == a;
    } else {
      var b' := b[..|b| - 1];
      ReminderIdsAppend(hasAccount, a, b', env);
      assert (a + b)[..|a + b| - 1] == a + b';
      assert (a + b)[|a + b| - 1] == b[|b| - 1];
    }
  }

  /** A trial that throws or yields no id adds nothing and stops nothing. */
  lemma {:induction false} FailedTrialSkipped(hasAccount: bool, a: seq<Trial>, t: Trial, b: seq<Trial>, env: CalendarEnv)
    requires IdOf(TrialReminderOutcome(hasAccount, t, env)) == []
    ensures ReminderIds(hasAccount, a + [t] + b, env) == ReminderIds(hasAccount, a, env) + ReminderIds(hasAccount, b, env)
  {
    ReminderIdsAppend(hasAccount, a + [t], b, env);
    ReminderIdsAppend(hasAccount, a, [t], env);
    assert [t][..0] == [];
  }

  /** Every collected id is a non-empty id the calendar returned for one of the
      trials, and there is at most one per trial. */
  lemma {:induction false} ReminderIdsFromCalendar(hasAccount: bool, ts: seq<Trial>, env: CalendarEnv)
    ensures |ReminderIds(hasAccount, ts, env)| <= |ts|
    ensures forall id :: id in ReminderIds(hasAccount, ts, env) ==>
      id != "" && exists i :: (0 <= i < |ts| && env.parse(ts[i].trialEnd).Some? &&
        env.google.insert(EventRequest(ReminderEventData(ts[i], env.parse(ts[i].trialEnd).value, env))) == Inserted(Some(id)))
  {
    if ts != [] {
      var init := ts[..|ts| - 1];
      ReminderIdsFromCalendar(hasAccount, init, env);
      forall id | id in ReminderIds(hasAccount, ts, env)
        ensures id != "" && exists i :: (0 <= i < |ts| && env.parse(ts[i].trialEnd).Some? &&
          env.google.insert(EventRequest(ReminderEventData(ts[i], env.parse(ts[i].trialEnd).value, env))) == Inserted(Some(id)))
      {
        if id in ReminderIds(hasAccount, init, env) {
          var i :| 0 <= i < |init| && env.parse(init[i].trialEnd).Some? &&
            env.google.insert(EventRequest(ReminderEventData(init[i], env.parse(init[i].trialEnd).value, env))) == Inserted(Some(id));
          assert ts[i] == init[i];
        } else {
          assert ts[|ts| - 1].id == ts[|ts| - 1].id;
        }
      }
    }
  }

  /** Without a connected calendar no reminder is created. */
  lemma {:induction false} NoAccountNoIds(ts: seq<Trial>, env: CalendarEnv)
    ensures ReminderIds(false, ts, env) == []
    ensures ReminderRows(false, "", ts, env) == []
  {
    if ts != [] {
      NoAccountNoIds(ts[..|ts| - 1], env);
    }
  }

  /** Creation and update put the reminder at the same time for the same end. */
  lemma CreateAndUpdateAgree(trial: Trial, trialEnd: Instant, env: CalendarEnv)
    ensures var created := EventRequest(ReminderEventData(trial, trialEnd, env));
      var updated := UpdateData(UpdatePatch(trialEnd));
      && updated.start == Some(created.start) && updated.end == Some(created.end)
      && Keys(updated) == {"start", "end"}
      && created.reminders.overrides == Popups(TRIAL_REMINDER_MINUTES)
  {
  }

  /** The patch `updateTrialReminder` sends for a new end instant. */
  function UpdatePatch(newTrialEnd: Instant): EventPatch
  {
    var start := ReminderDate(newTrialEnd);
    EventPatch(None, None, Some(start), Some(ReminderEndAsWritten(start)), None)
  }

  // ---------------------------------------------------------------------------
  // The stored state and the operations on it.

  class CalendarStore {
    /** The user's active calendar account, if any. */
    var account: Option<Account>
    /** The `calendar_events` table; a row's id is its position. */
    var events: seq<CalendarEventRow>

    constructor (account: Option<Account>, events: seq<CalendarEventRow>)
      ensures this.account == account && this.events == events
    {
      this.account := account;
      this.events := events;
    }

    /** Look up the account and refresh its token when due: shared by
        create, update and delete. */
    method AccessToken(env: CalendarEnv) returns (r: Result<Option<string>>)
      modifies this`account
      ensures old(account).None? ==> r == Err(NO_ACCOUNT) && account == old(account)
      ensures old(account).Some? ==>
        account == Some(TokenStep(old(account).value, env)) && r == Ok(AccessTokenFor(old(account).value, env))
    {
      if account.None? {
        return Err(NO_ACCOUNT);
      }
      var a := account.value;
      var accessToken := a.accessToken;
      if Truthy(a.expiresAt) && env.parse(a.expiresAt.value).Some? && env.parse(a.expiresAt.value).value <= env.now {
        accessToken := env.refresh.accessToken;
        account := Some(Refreshed(a, env));
      }
      r := Ok(accessToken);
    }

    method CreateCalendarEvent(eventData: EventData, env: CalendarEnv) returns (r: Result<Option<string>>)
      modifies this`account
      ensures old(account).None? ==> r == Err(NO_ACCOUNT) && account == old(account)
      ensures old(account).Some? ==>
        account == Some(TokenStep(old(account).value, env))
        && r == InsertResult(env.google.insert(EventRequest(eventData)))
    {
      var token := AccessToken(env);
      if token.Err? {
        return Err(token.message);
      }
      var event := EventRequest(eventData);
      var response := env.google.insert(event);
      if response.InsertThrew? {
        return Err(response.error);
      }
      r := Ok(if Truthy(response.id) then response.id else None);
    }

    method UpdateCalendarEvent(eventId: string, eventData: EventPatch, env: CalendarEnv) returns (r: Result<UpdateBody>)
      modifies this`account
      ensures old(account).None? ==> r == Err(NO_ACCOUNT) && account == old(account)
      ensures old(account).Some? ==>
        && account == Some(TokenStep(old(account).value, env))
        && var sent := UpdateData(eventData);
           r == if env.google.update(eventId, sent).Some? then Err(env.google.update(eventId, sent).value) else Ok(sent)
    {
      var token := AccessToken(env);
      if token.Err? {
        return Err(token.message);
      }
      var updateData := BuildUpdateData(eventData);
      var thrown := env.google.update(eventId, updateData);
      if thrown.Some? {
        return Err(thrown.value);
      }
      r := Ok(updateData);
    }

    method DeleteCalendarEvent(eventId: string, env: CalendarEnv) returns (r: Result<()>)
      modifies this`account
      ensures old(account).None? ==> r == Err(NO_ACCOUNT) && account == old(account)
      ensures old(account).Some? ==>
        && account == Some(TokenStep(old(account).value, env))
        && r == if env.google.delete(eventId).Some? then Err(env.google.delete(eventId).value) else Ok(())
    {
      var token := AccessToken(env);
      if token.Err? {
        return Err(token.message);
      }
      var thrown := env.google.delete(eventId);
      if thrown.Some? {
        return Err(thrown.value);
      }
      r := Ok(());
    }

    method CreateTrialReminderEvent(userId: string, trial: Trial, env: CalendarEnv) returns (r: Result<Option<string>>)
      modifies this
      ensures r == TrialReminderOutcome(old(account).Some?, trial, env)
      ensures events == old(events) + TrialReminderRows(old(account).Some?, userId, trial, env)
      ensures account == AfterLookup(old(account), env.parse(trial.trialEnd).Some?, env)
    {
      var trialEndDate := env.parse(trial.trialEnd);
      if trialEndDate.None? {
        return Err(INVALID_TIME);
      }
      var reminderDate := SubDays(trialEndDate.value, 2);
      reminderDate := SetHours(reminderDate, 9, 0, 0, 0);
      var eventData := EventData(ReminderTitle(trial), env.describe(trial, trialEndDate.value),
                                 reminderDate, ReminderEndAsWritten(reminderDate), Some(TRIAL_REMINDER_MINUTES));
      var eventId := CreateCalendarEvent(eventData, env);
      if eventId.Err? {
        return Ok(None);
      }
      if eventId.value.Some? {
        events := events + [ReminderRow(userId, trial, trialEndDate.value, eventId.value.value, env)];
      }
      r := eventId;
    }

    /** Every fetched trial gets a reminder attempt; the ids created are
        collected in trial order and a failing trial is passed over. */
    method CreateTrialRemindersForUser(userId: string, fetched: Option<seq<Trial>>, env: CalendarEnv)
      returns (eventIds: seq<string>)
      modifies this
      ensures var ts := if fetched.Some? then fetched.value else [];
        && eventIds == ReminderIds(old(account).Some?, ts, env)
        && events == old(events) + ReminderRows(old(account).Some?, userId, ts, env)
        && account == AfterLookup(old(account), AnyReadable(ts, env), env)
    {
      eventIds := [];
      if fetched.None? || |fetched.value| == 0 {
        return;
      }
      var trials := fetched.value;
      ghost var hasAccount := account.Some?;
      var i := 0;
      while i < |trials|
        invariant 0 <= i <= |trials|
        invariant account.Some? == hasAccount
        invariant eventIds == ReminderIds(hasAccount, trials[..i], env)
        invariant events == old(events) + ReminderRows(hasAccount, userId, trials[..i], env)
        invariant account == AfterLookup(old(account), AnyReadable(trials[..i], env), env)
      {
        RemindersStep(hasAccount, userId, trials, i, env);
        AnyReadableStep(trials, i, env);
        AfterLookupTwice(old(account), AnyReadable(trials[..i], env), env.parse(trials[i].trialEnd).Some?, env);
        var eventId := CreateTrialReminderEvent(userId, trials[i], env);
        if eventId.Ok? && eventId.value.Some? {
          eventIds := eventIds + [eventId.value.value];
        }
        i := i + 1;
      }
      assert trials[..i] == trials;
    }

    /** Move a trial's reminder to two days before its new end. */
    method UpdateTrialReminder(userId: string, trialId: string, newTrialEndDate: Instant, env: CalendarEnv)
      returns (r: Result<UpdateBody>)
      modifies this
      ensures var k := Single(old(events), userId, trialId);
        && (k.None? || !Truthy(old(events)[k.value].externalEventId) ==>
              r == Err(EVENT_NOT_FOUND) && events == old(events) && account == old(account))
        && (k.Some? && Truthy(old(events)[k.value].externalEventId) ==>
              var ext := old(events)[k.value].externalEventId.value;
              && (old(account).None? ==> r == Err(NO_ACCOUNT) && events == old(events) && account == old(account))
              && (old(account).Some? ==>
                    var sent := UpdateData(UpdatePatch(newTrialEndDate));
                    && account == Some(TokenStep(old(account).value, env))
                    && (env.google.update(ext, sent).Some? ==>
                          r == Err(env.google.update(ext, sent).value) && events == old(events))
                    && (env.google.update(ext, sent).None? ==>
                          r == Ok(sent)
                          && events == old(events)[k.value := old(events)[k.value].(eventDate := ReminderDate(newTrialEndDate))])))
    {
      var calendarEvent := Single(events, userId, trialId);
      if calendarEvent.None? || !Truthy(events[calendarEvent.value].externalEventId) {
        return Err(EVENT_NOT_FOUND);
      }
      var k := calendarEvent.value;
      var reminderDate := SubDays(newTrialEndDate, 2);
      reminderDate := SetHours(reminderDate, 9, 0, 0, 0);
      var updated := UpdateCalendarEvent(events[k].externalEventId.value,
        EventPatch(None, None, Some(reminderDate), Some(ReminderEndAsWritten(reminderDate)), None), env);
      if updated.Err? {
        return updated;
      }
      events := events[k := events[k].(eventDate := reminderDate)];
      r := updated;
    }

    /** Remove a trial's reminder: from the calendar when it has an external
        id (a failure there is ignored), and from the table in any case.
        Reports whether the calendar was asked. */
    method DeleteTrialReminder(userId: string, trialId: string, env: CalendarEnv) returns (attempted: bool)
      modifies this
      ensures var k := Single(old(events), userId, trialId);
        && (k.None? ==> events == old(events) && account == old(account) && !attempted)
        && (k.Some? ==>
              && events == RemoveAt(old(events), k.value)
              && attempted == Truthy(old(events)[k.value].externalEventId)
              && (attempted && old(account).Some? ==> account == Some(TokenStep(old(account).value, env)))
              && (!attempted || old(account).None? ==> account == old(account)))
    {
      var calendarEvent := Single(events, userId, trialId);
      if calendarEvent.None? {
        return false;
      }
      var k := calendarEvent.value;
      attempted := false;
      if Truthy(events[k].externalEventId) {
        attempted := true;
        var _ := DeleteCalendarEvent(events[k].externalEventId.value, env);
      }
      events := RemoveAt(events, k);
    }
  }
}

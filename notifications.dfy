// Trial reminders: which channels a user is reminded on, which trials are
// skipped because they were reminded in the last day, how every requested
// channel ends up in exactly one of the `sent` and `failed` lists, and what
// is recorded in the `notifications` table along the way.
//
// The delivery services (Resend, Twilio, OneSignal), the template text and
// the storage errors are not modelled; what the environment answers for a
// trial on a channel is the parameter `deliver`.

module Notifications {
  import opened Common

  datatype Channel = EmailChannel | SmsChannel | PushChannel

  function ChannelName(c: Channel): string
  {
    match c
    case EmailChannel => "email"
    case SmsChannel => "sms"
    case PushChannel => "push"
  }

  /** Position of a channel in the order the selection pushes them. */
  function ChannelRank(c: Channel): nat
  {
    match c
    case EmailChannel => 0
    case SmsChannel => 1
    case PushChannel => 2
  }

  // ---------------------------------------------------------------------------
  // The `notifications` table.

  datatype Status = Pending | Sent | Failed | Delivered

  const TRIAL_REMINDER: string := "trial_reminder"

  datatype Notification = Notification(
    userId: string,
    trialId: string,
    kind: string,
    channel: Channel,
    recipient: string,
    status: Status,
    sentAt: Option<Instant>,
    errorMessage: Option<string>,
    createdAt: Instant)

  /** The row `saveNotification` inserts for a reminder: pending, not yet sent. */
  function PendingReminder(userId: string, trialId: string, c: Channel, recipient: string, now: Instant): Notification
  {
    Notification(userId, trialId, TRIAL_REMINDER, c, recipient, Pending, None, None, now)
  }

  /** The row after `updateNotificationStatus(id, status, errorMessage)`. */
  function WithStatus(n: Notification, status: Status, errorMessage: Option<string>, now: Instant): (r: Notification)
    ensures r.status == status
    ensures r.sentAt.Some? <==> status == Sent || status == Delivered
    ensures r.sentAt.Some? ==> r.sentAt.value == now
    ensures r.errorMessage == (if Truthy(errorMessage) then errorMessage else n.errorMessage)
    ensures r.(status := n.status, sentAt := n.sentAt, errorMessage := n.errorMessage) == n
  {
    var stamped := n.(status := status, sentAt := if status == Sent || status == Delivered then Some(now) else None);
    if Truthy(errorMessage) then stamped.(errorMessage := errorMessage) else stamped
  }

  /** The table; a row's id is its position. */
  class NotificationStore {
    var rows: seq<Notification>

    constructor ()
      ensures rows == []
    {
      rows := [];
    }

    method SaveNotification(n: Notification) returns (id: nat)
      modifies this
      ensures rows == old(rows) + [n]
      ensures id == |old(rows)|
    {
      id := |rows|;
      rows := rows + [n];
    }

    /** An update that names no row changes nothing, as an `update ... eq('id', id)` would. */
    method UpdateNotificationStatus(id: nat, status: Status, errorMessage: Option<string>, now: Instant)
      requires status != Pending
      modifies this
      ensures id < |old(rows)| ==> rows == old(rows)[id := WithStatus(old(rows)[id], status, errorMessage, now)]
      ensures id >= |old(rows)| ==> rows == old(rows)
    {
      if id < |rows| {
        rows := rows[id := WithStatus(rows[id], status, errorMessage, now)];
      }
    }
  }

  // ---------------------------------------------------------------------------
  // Templates: only the cancel-link-or-fallback choices.

  const SMS_FALLBACK: string := "Check your email for cancellation link."

  /** The cancellation part of the SMS reminder. */
  function SmsCancelText(trial: Trial): string
  {
    if Truthy(trial.cancelUrl) then "Cancel: " + trial.cancelUrl.value else SMS_FALLBACK
  }

  /** The link a push reminder opens; `appUrl` is the configured application URL. */
  function PushUrl(trial: Trial, appUrl: string): (url: string)
    ensures url != ""
    ensures Truthy(trial.cancelUrl) ==> url == trial.cancelUrl.value
    ensures !Truthy(trial.cancelUrl) ==> url == appUrl + "/dashboard"
  {
    Or(trial.cancelUrl, appUrl + "/dashboard")
  }

  /** The SMS names the cancel URL whenever the trial has one, and otherwise
      points to the email. */
  lemma SmsCancelChoice(trial: Trial)
    ensures Truthy(trial.cancelUrl) ==> Contains(SmsCancelText(trial), trial.cancelUrl.value)
    ensures !Truthy(trial.cancelUrl) ==> SmsCancelText(trial) == SMS_FALLBACK
  {
    if Truthy(trial.cancelUrl) {
      var u := trial.cancelUrl.value;
      var s := SmsCancelText(trial);
      assert s[8..8 + |u|] == u;
      assert OccursAt(s, u, 8);
      ContainsAt(s, u);
    }
  }

  // ---------------------------------------------------------------------------
  // Sending one reminder over several channels.

  /** What the environment answers when a reminder for `trial` goes out on a
      channel: an exception before or while saving (template or storage), or
      the delivery service's verdict. */
  datatype Outcome =
    | Thrown(message: string)
    | SendOk(messageId: Option<string>)
    | SendError(error: Option<string>)

  type Deliver = (Trial, Channel) -> Outcome

  /** The contact details handed to `sendTrialReminder`. */
  datatype Contact = Contact(email: Option<string>, phone: Option<string>, pushEnabled: bool)

  /** Where a channel's reminder is addressed; None when the contact detail is missing. */
  function Recipient(c: Channel, contact: Contact): Option<string>
  {
    match c
    case EmailChannel => if Truthy(contact.email) then contact.email else None
    case SmsChannel => if Truthy(contact.phone) then contact.phone else None
    case PushChannel => if contact.pushEnabled then Some("push_notification") else None
  }

  function MissingContactLine(c: Channel): string
  {
    match c
    case EmailChannel => "email: No email address provided"
    case SmsChannel => "sms: No phone number provided"
    case PushChannel => "push: Push notifications not enabled"
  }

  /** `${result.error}` prints "undefined" for a missing error. */
  function ErrorText(e: Option<string>): string
  {
    if e.Some? then e.value else "undefined"
  }

  /** One channel's attempt: whether it counts as sent, the line it adds to
      `sent` or `failed`, and the notification row it leaves behind. */
  datatype Attempt = Attempt(delivered: bool, line: string, row: Option<Notification>)

  function AttemptOf(userId: string, trial: Trial, c: Channel, contact: Contact, deliver: Deliver, now: Instant): Attempt
  {
    match Recipient(c, contact)
    case None => Attempt(false, MissingContactLine(c), None)
    case Some(to) =>
      var pending := PendingReminder(userId, trial.id, c, to, now);
      match deliver(trial, c)
      case Thrown(message) => Attempt(false, ChannelName(c) + ": " + message, None)
      case SendOk(messageId) =>
        Attempt(true, ChannelName(c) + ": " + Or(messageId, "sent"), Some(WithStatus(pending, Sent, None, now)))
      case SendError(error) =>
        Attempt(false, ChannelName(c) + ": " + ErrorText(error), Some(WithStatus(pending, Failed, error, now)))
  }

  /** The lines the attempts over `cs` add to `sent` (delivered) or `failed`. */
  function Lines(userId: string, trial: Trial, cs: seq<Channel>, contact: Contact, deliver: Deliver, now: Instant, delivered: bool): seq<string>
  {
    if cs == [] then []
    else
      var a := AttemptOf(userId, trial, cs[|cs| - 1], contact, deliver, now);
      Lines(userId, trial, cs[..|cs| - 1], contact, deliver, now, delivered) + (if a.delivered == delivered then [a.line] else [])
  }

  /** The notification rows the attempts over `cs` leave in the table. */
  function SavedRows(userId: string, trial: Trial, cs: seq<Channel>, contact: Contact, deliver: Deliver, now: Instant): seq<Notification>
  {
    if cs == [] then []
    else
      var a := AttemptOf(userId, trial, cs[|cs| - 1], contact, deliver, now);
      SavedRows(userId, trial, cs[..|cs| - 1], contact, deliver, now) + (if a.row.Some? then [a.row.value] else [])
  }

  /** The body of the channel loop: a missing contact fails without saving;
      otherwise the reminder is saved as pending and then marked sent or failed. */
  method SendOne(store: NotificationStore, userId: string, trial: Trial, c: Channel, contact: Contact, deliver: Deliver, now: Instant)
    returns (a: Attempt)
    modifies store
    ensures a == AttemptOf(userId, trial, c, contact, deliver, now)
    ensures store.rows == old(store.rows) + (if a.row.Some? then [a.row.value] else [])
  {
    var to := Recipient(c, contact);
    if to.None? {
      return Attempt(false, MissingContactLine(c), None);
    }
    var outcome := deliver(trial, c);
    if outcome.Thrown? {
      return Attempt(false, ChannelName(c) + ": " + outcome.message, None);
    }
    var pending := PendingReminder(userId, trial.id, c, to.value, now);
    var id := store.SaveNotification(pending);
    if outcome.SendOk? {
      store.UpdateNotificationStatus(id, Sent, None, now);
      a := Attempt(true, ChannelName(c) + ": " + Or(outcome.messageId, "sent"), Some(WithStatus(pending, Sent, None, now)));
    } else {
      store.UpdateNotificationStatus(id, Failed, outcome.error, now);
      a := Attempt(false, ChannelName(c) + ": " + ErrorText(outcome.error), Some(WithStatus(pending, Failed, outcome.error, now)));
    }
  }

  method SendTrialReminder(store: NotificationStore, userId: string, trial: Trial, channels: seq<Channel>, contact: Contact, deliver: Deliver, now: Instant)
    returns (sent: seq<string>, failed: seq<string>)
    modifies store
    ensures sent == Lines(userId, trial, channels, contact, deliver, now, true)
    ensures failed == Lines(userId, trial, channels, contact, deliver, now, false)
    ensures store.rows == old(store.rows) + SavedRows(userId, trial, channels, contact, deliver, now)
  {
    sent, failed := [], [];
    var k := 0;
    while k < |channels|
      invariant 0 <= k <= |channels|
      invariant sent == Lines(userId, trial, channels[..k], contact, deliver, now, true)
      invariant failed == Lines(userId, trial, channels[..k], contact, deliver, now, false)
      invariant store.rows == old(store.rows) + SavedRows(userId, trial, channels[..k], contact, deliver, now)
    {
      var a := SendOne(store, userId, trial, channels[k], contact, deliver, now);
      if a.delivered {
        sent := sent + [a.line];
      } else {
        failed := failed + [a.line];
      }
      assert channels[..k + 1][..k] == channels[..k];
      k := k + 1;
    }
    assert channels[..k] == channels;
  }

  /** Every requested channel lands in exactly one of the two lists. */
  lemma {:induction false} EveryChannelAccounted(userId: string, trial: Trial, cs: seq<Channel>, contact: Contact, deliver: Deliver, now: Instant)
    ensures |Lines(userId, trial, cs, contact, deliver, now, true)| + |Lines(userId, trial, cs, contact, deliver, now, false)| == |cs|
  {
    if cs != [] {
      EveryChannelAccounted(userId, trial, cs[..|cs| - 1], contact, deliver, now);
    }
  }

  /** A channel whose contact detail is missing fails with its fixed message
      and leaves no notification row, whatever the services would answer. */
  lemma MissingContactFails(userId: string, trial: Trial, c: Channel, contact: Contact, deliver: Deliver, now: Instant)
    requires Recipient(c, contact).None?
    ensures Lines(userId, trial, [c], contact, deliver, now, true) == []
    ensures Lines(userId, trial, [c], contact, deliver, now, false) == [MissingContactLine(c)]
    ensures SavedRows(userId, trial, [c], contact, deliver, now) == []
  {
    assert [c][..0] == [];
  }

  /** Every row a reminder leaves is a trial reminder for an addressable
      channel, already marked sent (with a send time) or failed (without one). */
  lemma {:induction false} SavedRowsSettled(userId: string, trial: Trial, cs: seq<Channel>, contact: Contact, deliver: Deliver, now: Instant)
    ensures forall n :: n in SavedRows(userId, trial, cs, contact, deliver, now) ==>
      && n.kind == TRIAL_REMINDER && n.userId == userId && n.trialId == trial.id
      && n.channel in cs && Recipient(n.channel, contact) == Some(n.recipient)
      && (n.status == Sent || n.status == Failed)
      && (n.sentAt == Some(now) <==> n.status == Sent)
      && (n.sentAt.None? <==> n.status == Failed)
      && n.createdAt == now
  {
    if cs != [] {
      SavedRowsSettled(userId, trial, cs[..|cs| - 1], contact, deliver, now);
    }
  }

  /** A row is kept exactly for each attempt that got as far as the delivery
      service, so there are never more rows than channels. */
  lemma {:induction false} SavedRowsBound(userId: string, trial: Trial, cs: seq<Channel>, contact: Contact, deliver: Deliver, now: Instant)
    ensures |SavedRows(userId, trial, cs, contact, deliver, now)| <= |cs|
    ensures |Lines(userId, trial, cs, contact, deliver, now, true)| <= |SavedRows(userId, trial, cs, contact, deliver, now)|
  {
    if cs != [] {
      SavedRowsBound(userId, trial, cs[..|cs| - 1], contact, deliver, now);
    }
  }

  // ---------------------------------------------------------------------------
  // Channel selection from the stored profile.

  /** The user's notification preferences (a JSON column; absent keys are None). */
  datatype Preferences = Preferences(emailNotifications: Option<bool>, smsNotifications: Option<bool>, pushNotifications: Option<bool>)

  datatype Profile = Profile(email: Option<string>, phone: Option<string>, preferences: Option<Preferences>)

  /** `profile.preferences || {}`. */
  function PreferencesOf(p: Profile): Preferences
  {
    if p.preferences.Some? then p.preferences.value else Preferences(None, None, None)
  }

  predicate EmailWanted(p: Profile) { PreferencesOf(p).emailNotifications != Some(false) }
  predicate SmsWanted(p: Profile) { PreferencesOf(p).smsNotifications == Some(true) && Truthy(p.phone) }
  predicate PushWanted(p: Profile) { PreferencesOf(p).pushNotifications != Some(false) }

  /** The channels a user is reminded on: those they want, in the order
      email, sms, push, and email alone when they want none. */
  function ChannelsFor(p: Profile): seq<Channel>
  {
    var wanted := (if EmailWanted(p) then [EmailChannel] else [])
      + (if SmsWanted(p) then [SmsChannel] else [])
      + (if PushWanted(p) then [PushChannel] else []);
    if wanted == [] then [EmailChannel] else wanted
  }

  /** The selection holds each wanted channel once, in the order email, sms,
      push, and falls back to email alone. */
  lemma ChannelSelection(p: Profile)
    ensures 1 <= |ChannelsFor(p)| <= 3
    ensures EmailChannel in ChannelsFor(p) <==> EmailWanted(p) || (!SmsWanted(p) && !PushWanted(p))
    ensures SmsChannel in ChannelsFor(p) <==> SmsWanted(p)
    ensures PushChannel in ChannelsFor(p) <==> PushWanted(p)
    ensures !EmailWanted(p) && !SmsWanted(p) && !PushWanted(p) ==> ChannelsFor(p) == [EmailChannel]
    ensures forall i, j :: 0 <= i < j < |ChannelsFor(p)| ==> ChannelRank(ChannelsFor(p)[i]) < ChannelRank(ChannelsFor(p)[j])
  {
  }

  /** The selection as written: push each wanted channel, then fall back to email. */
  method SelectChannels(p: Profile) returns (channels: seq<Channel>)
    ensures channels == ChannelsFor(p)
  {
    var prefs := PreferencesOf(p);
    channels := [];
    if prefs.emailNotifications != Some(false) {
      channels := channels + [EmailChannel];
    }
    if prefs.smsNotifications == Some(true) && Truthy(p.phone) {
      channels := channels + [SmsChannel];
    }
    if prefs.pushNotifications != Some(false) {
      channels := channels + [PushChannel];
    }
    if |channels| == 0 {
      channels := [EmailChannel];
    }
  }

  /** The contact details a due trial's reminder is sent with. */
  function ContactOf(p: Profile): Contact
  {
    Contact(p.email, p.phone, PushWanted(p))
  }

  /** Push is requested exactly when it is enabled, so a selected push
      channel never fails for being disabled. */
  lemma SelectedPushIsEnabled(p: Profile)
    ensures PushChannel in ChannelsFor(p) <==> ContactOf(p).pushEnabled
    ensures SmsChannel in ChannelsFor(p) ==> Recipient(SmsChannel, ContactOf(p)).Some?
  {
  }

  // ---------------------------------------------------------------------------
  // The recent-reminder skip.

  /** A joined notification as the reminder job sees it: its type, if the
      query selected it, and its creation time (None when it does not parse). */
  datatype ReminderRow = ReminderRow(kind: Option<string>, createdAt: Option<Instant>)

  predicate IsRecentReminder(n: ReminderRow, now: Instant)
  {
    n.kind == Some(TRIAL_REMINDER) && n.createdAt.Some? && n.createdAt.value > now - DAY_MS
  }

  /** A trial reminded within the last day is skipped. */
  predicate RecentlyReminded(ns: seq<ReminderRow>, now: Instant)
  {
    exists i :: 0 <= i < |ns| && IsRecentReminder(ns[i], now)
  }

  /** The join as written selects only `created_at`, so no row has a type. */
  function JoinAsWritten(ns: seq<Notification>): (rs: seq<ReminderRow>)
    ensures |rs| == |ns|
  {
    seq(|ns|, i requires 0 <= i < |ns| => ReminderRow(None, Some(ns[i].createdAt)))
  }

  /** The join with the type selected as well. */
  function Join(ns: seq<Notification>): (rs: seq<ReminderRow>)
    ensures |rs| == |ns|
  {
    seq(|ns|, i requires 0 <= i < |ns| => ReminderRow(Some(ns[i].kind), Some(ns[i].createdAt)))
  }

  /** As written, the skip never fires, whatever notifications the trial has. */
  lemma AsWrittenNeverSkips(ns: seq<Notification>, now: Instant)
    ensures !RecentlyReminded(JoinAsWritten(ns), now)
  {
  }

  /** With the type selected, a trial is skipped exactly when it has a
      reminder created less than a day ago. */
  lemma JoinSkipsIffRecent(ns: seq<Notification>, now: Instant)
    ensures RecentlyReminded(Join(ns), now) <==>
      exists i :: 0 <= i < |ns| && ns[i].kind == TRIAL_REMINDER && ns[i].createdAt > now - DAY_MS
  {
    if RecentlyReminded(Join(ns), now) {
      var i :| 0 <= i < |ns| && IsRecentReminder(Join(ns)[i], now);
      assert ns[i].kind == TRIAL_REMINDER && ns[i].createdAt > now - DAY_MS;
    }
    if exists i :: 0 <= i < |ns| && ns[i].kind == TRIAL_REMINDER && ns[i].createdAt > now - DAY_MS {
      var i :| 0 <= i < |ns| && ns[i].kind == TRIAL_REMINDER && ns[i].createdAt > now - DAY_MS;
      assert IsRecentReminder(Join(ns)[i], now);
    }
  }

  /** A reminder saved an hour ago: the corrected join skips the trial, the
      join as written sends the reminder again. */
  lemma RemindedAnHourAgo(userId: string, trialId: string, now: Instant)
    ensures var ns := [Notification(userId, trialId, TRIAL_REMINDER, EmailChannel, "a@b.c", Sent, Some(now - HOUR_MS), None, now - HOUR_MS)];
      RecentlyReminded(Join(ns), now) && !RecentlyReminded(JoinAsWritten(ns), now)
  {
    var ns := [Notification(userId, trialId, TRIAL_REMINDER, EmailChannel, "a@b.c", Sent, Some(now - HOUR_MS), None, now - HOUR_MS)];
    assert IsRecentReminder(Join(ns)[0], now);
  }

  /** Rows a reminder run leaves make the corrected join skip the trial for
      the rest of the day. */
  lemma {:induction false} SentReminderSuppressesNext(userId: string, trial: Trial, cs: seq<Channel>, contact: Contact, deliver: Deliver, now: Instant, later: Instant)
    requires now <= later < now + DAY_MS
    requires SavedRows(userId, trial, cs, contact, deliver, now) != []
    ensures RecentlyReminded(Join(SavedRows(userId, trial, cs, contact, deliver, now)), later)
  {
    var ns := SavedRows(userId, trial, cs, contact, deliver, now);
    SavedRowsSettled(userId, trial, cs, contact, deliver, now);
    assert ns[0] in ns;
    assert IsRecentReminder(Join(ns)[0], later);
  }

  // ---------------------------------------------------------------------------
  // The reminder job.

  /** The notification columns the job's query selects: `TimeOnly` is the
      query as written (notifications.ts:411), `TimeAndType` the corrected one. */
  datatype Select = TimeOnly | TimeAndType

  function Joined(q: Select, ns: seq<Notification>): seq<ReminderRow>
  {
    match q
    case TimeOnly => JoinAsWritten(ns)
    case TimeAndType => Join(ns)
  }

  /** An active trial ending within two days, joined with its owner's profile
      and its notifications. */
  datatype DueTrial = DueTrial(trial: Trial, profile: Profile, notifications: seq<Notification>)

  /** The trial counts as reminded within the last day, judged on its
      notifications as the query `q` returns them. */
  predicate Skipped(d: DueTrial, q: Select, now: Instant)
  {
    RecentlyReminded(Joined(q, d.notifications), now)
  }

  /** `!trials` reads as no trials. */
  function Fetched(fetched: Option<seq<DueTrial>>): seq<DueTrial>
  {
    if fetched.Some? then fetched.value else []
  }

  function SentFor(d: DueTrial, q: Select, deliver: Deliver, now: Instant): nat
  {
    if Skipped(d, q, now) then 0
    else |Lines(d.trial.userId, d.trial, ChannelsFor(d.profile), ContactOf(d.profile), deliver, now, true)|
  }

  function FailedFor(d: DueTrial, q: Select, deliver: Deliver, now: Instant): nat
  {
    if Skipped(d, q, now) then 0
    else |Lines(d.trial.userId, d.trial, ChannelsFor(d.profile), ContactOf(d.profile), deliver, now, false)|
  }

  function RowsFor(d: DueTrial, q: Select, deliver: Deliver, now: Instant): seq<Notification>
  {
    if Skipped(d, q, now) then []
    else SavedRows(d.trial.userId, d.trial, ChannelsFor(d.profile), ContactOf(d.profile), deliver, now)
  }

  function SentTotal(ds: seq<DueTrial>, q: Select, deliver: Deliver, now: Instant): nat
  {
    if ds == [] then 0 else SentTotal(ds[..|ds| - 1], q, deliver, now) + SentFor(ds[|ds| - 1], q, deliver, now)
  }

  function FailedTotal(ds: seq<DueTrial>, q: Select, deliver: Deliver, now: Instant): nat
  {
    if ds == [] then 0 else FailedTotal(ds[..|ds| - 1], q, deliver, now) + FailedFor(ds[|ds| - 1], q, deliver, now)
  }

  function RowsTotal(ds: seq<DueTrial>, q: Select, deliver: Deliver, now: Instant): seq<Notification>
  {
    if ds == [] then [] else RowsTotal(ds[..|ds| - 1], q, deliver, now) + RowsFor(ds[|ds| - 1], q, deliver, now)
  }

  /** Number of due trials that are not skipped. */
  function Reminded(ds: seq<DueTrial>, q: Select, now: Instant): nat
  {
    if ds == [] then 0
    else Reminded(ds[..|ds| - 1], q, now) + (if Skipped(ds[|ds| - 1], q, now) then 0 else 1)
  }

  /** Requested channels over the trials that are not skipped. */
  function ChannelTotal(ds: seq<DueTrial>, q: Select, now: Instant): nat
  {
    if ds == [] then 0
    else
      var d := ds[|ds| - 1];
      ChannelTotal(ds[..|ds| - 1], q, now) + (if Skipped(d, q, now) then 0 else |ChannelsFor(d.profile)|)
  }

  /** Requested channels over all due trials. */
  function ChannelsRequested(ds: seq<DueTrial>): nat
  {
    if ds == [] then 0 else ChannelsRequested(ds[..|ds| - 1]) + |ChannelsFor(ds[|ds| - 1].profile)|
  }

  /** One iteration of the job as written: the skip test runs on the rows the
      query returns, then the channels are selected and the reminder sent. */
  method RemindTrial(store: NotificationStore, d: DueTrial, deliver: Deliver, now: Instant)
    returns (sent: nat, failed: nat)
    modifies store
    ensures sent == SentFor(d, TimeOnly, deliver, now) && failed == FailedFor(d, TimeOnly, deliver, now)
    ensures store.rows == old(store.rows) + RowsFor(d, TimeOnly, deliver, now)
  {
    if RecentlyReminded(JoinAsWritten(d.notifications), now) {
      // The source returns without sending here; with the rows this query
      // returns, the branch is never taken (`AsWrittenNeverSkips`).
      assert false;
    }
    var channels := SelectChannels(d.profile);
    var s, f := SendTrialReminder(store, d.trial.userId, d.trial, channels, ContactOf(d.profile), deliver, now);
    sent, failed := |s|, |f|;
  }

  /** The totals over one more trial add that trial's own counts and rows. */
  lemma TotalsStep(ds: seq<DueTrial>, q: Select, i: nat, deliver: Deliver, now: Instant)
    requires i < |ds|
    ensures SentTotal(ds[..i + 1], q, deliver, now) == SentTotal(ds[..i], q, deliver, now) + SentFor(ds[i], q, deliver, now)
    ensures FailedTotal(ds[..i + 1], q, deliver, now) == FailedTotal(ds[..i], q, deliver, now) + FailedFor(ds[i], q, deliver, now)
    ensures RowsTotal(ds[..i + 1], q, deliver, now) == RowsTotal(ds[..i], q, deliver, now) + RowsFor(ds[i], q, deliver, now)
  {
    assert ds[..i + 1][..i] == ds[..i];
  }

  /** The job as written: every fetched trial is processed; the counts and the
      rows are those of the trials the skip test (on the query as written)
      lets through, which is all of them (`AsWrittenRemindsEveryTrial`). */
  method CheckTrialsForReminders(store: NotificationStore, fetched: Option<seq<DueTrial>>, deliver: Deliver, now: Instant)
    returns (processed: nat, sent: nat, failed: nat)
    modifies store
    ensures processed == |Fetched(fetched)|
    ensures sent == SentTotal(Fetched(fetched), TimeOnly, deliver, now)
    ensures failed == FailedTotal(Fetched(fetched), TimeOnly, deliver, now)
    ensures store.rows == old(store.rows) + RowsTotal(Fetched(fetched), TimeOnly, deliver, now)
  {
    if fetched.None? || |fetched.value| == 0 {
      return 0, 0, 0;
    }
    var trials := fetched.value;
    sent, failed := 0, 0;
    var i := 0;
    while i < |trials|
      invariant 0 <= i <= |trials|
      invariant sent == SentTotal(trials[..i], TimeOnly, deliver, now)
      invariant failed == FailedTotal(trials[..i], TimeOnly, deliver, now)
      invariant store.rows == old(store.rows) + RowsTotal(trials[..i], TimeOnly, deliver, now)
    {
      TotalsStep(trials, TimeOnly, i, deliver, now);
      ghost var rows0 := store.rows;
      var s, f := RemindTrial(store, trials[i], deliver, now);
      assert store.rows == rows0 + RowsFor(trials[i], TimeOnly, deliver, now);
      AppendAssoc(old(store.rows), RowsTotal(trials[..i], TimeOnly, deliver, now), RowsFor(trials[i], TimeOnly, deliver, now));
      assert store.rows == old(store.rows) + RowsTotal(trials[..i + 1], TimeOnly, deliver, now);
      sent, failed := sent + s, failed + f;
      i := i + 1;
    }
    assert trials[..i] == trials;
    processed := |trials|;
  }

  /** The totals account for every channel of every trial that was not
      skipped, and each such trial reports at least once. */
  lemma {:induction false} TotalsAccountForChannels(ds: seq<DueTrial>, q: Select, deliver: Deliver, now: Instant)
    ensures SentTotal(ds, q, deliver, now) + FailedTotal(ds, q, deliver, now) == ChannelTotal(ds, q, now)
    ensures Reminded(ds, q, now) <= ChannelTotal(ds, q, now) <= 3 * Reminded(ds, q, now)
  {
    if ds != [] {
      var d := ds[|ds| - 1];
      TotalsAccountForChannels(ds[..|ds| - 1], q, deliver, now);
      EveryChannelAccounted(d.trial.userId, d.trial, ChannelsFor(d.profile), ContactOf(d.profile), deliver, now);
    }
  }

  /** As written no trial is skipped: every fetched trial is reminded, and
      sent plus failed is the number of channels requested over all of them. */
  lemma {:induction false} AsWrittenRemindsEveryTrial(ds: seq<DueTrial>, deliver: Deliver, now: Instant)
    ensures Reminded(ds, TimeOnly, now) == |ds|
    ensures ChannelTotal(ds, TimeOnly, now) == ChannelsRequested(ds)
    ensures SentTotal(ds, TimeOnly, deliver, now) + FailedTotal(ds, TimeOnly, deliver, now) == ChannelsRequested(ds)
    ensures |ds| <= ChannelsRequested(ds) <= 3 * |ds|
  {
    if ds != [] {
      var d := ds[|ds| - 1];
      AsWrittenRemindsEveryTrial(ds[..|ds| - 1], deliver, now);
      AsWrittenNeverSkips(d.notifications, now);
      ChannelSelection(d.profile);
    }
    TotalsAccountForChannels(ds, TimeOnly, deliver, now);
  }

  /** As written, a trial reminded in one run is reminded again by a run later
      the same day: its new rows do not make the skip test fire. */
  lemma AsWrittenRemindsAgain(d: DueTrial, deliver: Deliver, now: Instant, later: Instant)
    ensures var d2 := d.(notifications := d.notifications + RowsFor(d, TimeOnly, deliver, now));
      && !Skipped(d2, TimeOnly, later)
      && RowsFor(d2, TimeOnly, deliver, later)
         == SavedRows(d.trial.userId, d.trial, ChannelsFor(d.profile), ContactOf(d.profile), deliver, later)
  {
    var d2 := d.(notifications := d.notifications + RowsFor(d, TimeOnly, deliver, now));
    AsWrittenNeverSkips(d2.notifications, later);
  }

  /** When every due trial counts as reminded within the last day the job
      sends nothing and records nothing. With the query as written no trial
      counts as reminded, so this holds only of an empty batch there. */
  lemma {:induction false} AllSkippedSendsNothing(ds: seq<DueTrial>, q: Select, deliver: Deliver, now: Instant)
    requires forall i :: 0 <= i < |ds| ==> Skipped(ds[i], q, now)
    ensures SentTotal(ds, q, deliver, now) == 0 && FailedTotal(ds, q, deliver, now) == 0
    ensures RowsTotal(ds, q, deliver, now) == []
  {
    if ds != [] {
      AllSkippedSendsNothing(ds[..|ds| - 1], q, deliver, now);
    }
  }

  /** With the corrected query, a trial that got at least one reminder row in
      a run is skipped by every run later the same day: nothing is sent and
      nothing is recorded again. */
  lemma SecondRunSkips(d: DueTrial, deliver: Deliver, now: Instant, later: Instant)
    requires now <= later < now + DAY_MS
    requires RowsFor(d, TimeAndType, deliver, now) != []
    ensures var d2 := d.(notifications := d.notifications + RowsFor(d, TimeAndType, deliver, now));
      && Skipped(d2, TimeAndType, later)
      && SentFor(d2, TimeAndType, deliver, later) == 0 && FailedFor(d2, TimeAndType, deliver, later) == 0
      && RowsFor(d2, TimeAndType, deliver, later) == []
  {
    var rows := RowsFor(d, TimeAndType, deliver, now);
    var all := d.notifications + rows;
    var userId, cs, contact := d.trial.userId, ChannelsFor(d.profile), ContactOf(d.profile);
    assert rows == SavedRows(userId, d.trial, cs, contact, deliver, now);
    SavedRowsSettled(userId, d.trial, cs, contact, deliver, now);
    assert rows[0] in rows;
    assert all[|d.notifications|] == rows[0];
    assert IsRecentReminder(Join(all)[|d.notifications|], later);
  }
}

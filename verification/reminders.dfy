/**
 * The scheduled reminder dispatcher (supabase/functions/process-reminders).
 *
 * One invocation selects the reminders that are unsent and due, and for each
 * one, in fetch order: looks up the patient's profile, builds a notification
 * from the reminder type and the joined appointment, inserts it, and marks the
 * reminder sent. Failures are isolated per reminder. The `reminders` and
 * `notifications` tables are sequences of rows; every backend call is an
 * input saying whether it succeeded, returned an error, or threw.
 */
module ReminderDispatch {

  import opened Wrappers
  import opened Strings
  import opened Queries

  type ReminderId = string

  /** The appointment columns joined into a reminder row. */
  datatype AppointmentInfo = AppointmentInfo(date: string, time: string, reason: string)

  /**
   * A `reminders` row with its joined appointment (`None` when the join finds
   * no appointment). `scheduledFor` is a timestamp.
   */
  datatype Reminder = Reminder(
    id: ReminderId,
    reminderType: string,
    scheduledFor: int,
    patientId: string,
    appointment: Option<AppointmentInfo>,
    sent: bool)

  /** The columns the dispatcher writes into a new `notifications` row. */
  datatype NotificationRow = NotificationRow(userId: string, title: string, message: string, kind: string)

  /** How one backend call went: success, an error result, or a thrown exception. */
  datatype Call = Done | Error | Threw

  /** The outcomes of the three calls made for one reminder. */
  datatype Calls = Calls(profile: Call, insert: Call, update: Call)

  /** The HTTP response of one invocation. */
  datatype Response =
    | NothingToProcess               // 200, count 0
    | Processed(ids: seq<ReminderId>) // 200, count and ids of the reminders marked sent
    | ServerError                    // 500, the reminder query failed

  function StatusCode(r: Response): int {
    if r.ServerError? then 500 else 200
  }

  /** The `count` field of the response body; the error body has none. */
  function Count(r: Response): Option<nat> {
    match r
    case NothingToProcess => Some(0)
    case Processed(ids) => Some(|ids|)
    case ServerError => None
  }

  // ---------------------------------------------------------------- selection

  /** `.eq('sent', false).lte('scheduled_for', now)`. */
  predicate Due(r: Reminder, now: int) {
    !r.sent && r.scheduledFor <= now
  }

  function DueAt(now: int): Reminder -> bool {
    (r: Reminder) => Due(r, now)
  }

  /** The candidate reminders of one invocation, in table order. */
  function DueReminders(table: seq<Reminder>, now: int): seq<Reminder> {
    Filter(table, DueAt(now))
  }

  // ---------------------------------------------------------------- notification text

  function TimeLabel(reminderType: string): string {
    if reminderType == "24h_before" then "24 hours" else "1 hour"
  }

  function ReminderTitle(reminderType: string): string {
    "Appointment Reminder - " + TimeLabel(reminderType)
  }

  /** The reason sentence, present only for a non-empty reason. */
  function ReasonPart(reason: string): string {
    if reason != "" then "Reason: " + reason else ""
  }

  /** The message; `localeDate` stands for `new Date(date).toLocaleDateString()`. */
  function ReminderMessage(a: AppointmentInfo, localeDate: string -> string): string {
    "Your dental appointment is scheduled for " + localeDate(a.date) + " at " + a.time + ". "
    + ReasonPart(a.reason)
  }

  function ReminderNotification(r: Reminder, localeDate: string -> string): NotificationRow
    requires r.appointment.Some?
  {
    NotificationRow(r.patientId, ReminderTitle(r.reminderType),
                    ReminderMessage(r.appointment.value, localeDate), "reminder")
  }

  /**
   * The notification goes to the reminder's patient with type `reminder`; its
   * title names the 24-hour lead time exactly for `24h_before` reminders and
   * the 1-hour lead time otherwise.
   */
  lemma NotificationAddressing(r: Reminder, localeDate: string -> string)
    requires r.appointment.Some?
    ensures var n := ReminderNotification(r, localeDate);
            n.userId == r.patientId && n.kind == "reminder"
            && (r.reminderType == "24h_before" <==> n.title == "Appointment Reminder - 24 hours")
            && (r.reminderType != "24h_before" <==> n.title == "Appointment Reminder - 1 hour")
  {
  }

  /** The message mentions the formatted date and the appointment time. */
  lemma MessageMentions(a: AppointmentInfo, localeDate: string -> string)
    ensures var m := ReminderMessage(a, localeDate);
            IsInfix(localeDate(a.date), m) && IsInfix(a.time, m)
  {
    var head := "Your dental appointment is scheduled for ";
    var d := localeDate(a.date);
    var tail := ". " + ReasonPart(a.reason);
    assert ReminderMessage(a, localeDate) == head + d + " at " + a.time + tail;
    MessageParts(head, d, a.time, tail);
  }

  /** Both the date and the time are found in `head + date + " at " + time + tail`. */
  lemma MessageParts(head: string, date: string, time: string, tail: string)
    ensures IsInfix(date, head + date + " at " + time + tail)
    ensures IsInfix(time, head + date + " at " + time + tail)
  {
    var m := head + date + " at " + time + tail;
    assert m == head + date + (" at " + time + tail);
    InfixOfConcat(head, date, " at " + time + tail);
    assert m == (head + date + " at ") + time + tail;
    InfixOfConcat(head + date + " at ", time, tail);
  }

  /**
   * The message ends with `Reason: <reason>` when the reason is non-empty and
   * with the date sentence's closing `". "` otherwise.
   */
  lemma MessageEnding(a: AppointmentInfo, localeDate: string -> string)
    ensures var m := ReminderMessage(a, localeDate);
            (a.reason != "" ==> |m| >= |a.reason| + 8 && m[|m| - |a.reason| - 8..] == "Reason: " + a.reason)
            && (a.reason == "" ==> |m| >= 2 && m[|m| - 2..] == ". ")
  {
    var m := ReminderMessage(a, localeDate);
    var front := "Your dental appointment is scheduled for " + localeDate(a.date) + " at " + a.time;
    assert m == front + ". " + ReasonPart(a.reason);
    if a.reason != "" {
      var reason := "Reason: " + a.reason;
      assert m == (front + ". ") + reason;
      assert m[|front + ". "|..] == reason;
    } else {
      assert m == front + ". ";
    }
  }

  // ---------------------------------------------------------------- one reminder

  /** Neither the profile lookup threw nor the missing appointment was dereferenced. */
  predicate ReachesInsert(r: Reminder, c: Calls) {
    c.profile != Threw && r.appointment.Some?
  }

  /** The notification row is written. */
  predicate Notifies(r: Reminder, c: Calls) {
    ReachesInsert(r, c) && c.insert == Done
  }

  /** The reminder is marked sent: the insert did not throw (an error result is only logged) and the update succeeded. */
  predicate Marks(r: Reminder, c: Calls) {
    ReachesInsert(r, c) && c.insert != Threw && c.update == Done
  }

  function NotifiedBy(calls: ReminderId -> Calls): Reminder -> bool {
    (r: Reminder) => Notifies(r, calls(r.id))
  }

  function MarkedBy(calls: ReminderId -> Calls): Reminder -> bool {
    (r: Reminder) => Marks(r, calls(r.id))
  }

  /** `.update({ sent: true }).eq('id', id)`. */
  function MarkSent(table: seq<Reminder>, id: ReminderId): seq<Reminder> {
    seq(|table|, i requires 0 <= i < |table| =>
      if table[i].id == id then table[i].(sent := true) else table[i])
  }

  /** The tables and the `processedReminders` list as the loop goes. */
  datatype Batch = Batch(reminders: seq<Reminder>, notifications: seq<NotificationRow>, processed: seq<ReminderId>)

  /** The body of the loop for one reminder, including its `catch`. */
  function Step(b: Batch, r: Reminder, c: Calls, localeDate: string -> string): Batch {
    var notifications :=
      if Notifies(r, c) then b.notifications + [ReminderNotification(r, localeDate)] else b.notifications;
    if Marks(r, c) then Batch(MarkSent(b.reminders, r.id), notifications, b.processed + [r.id])
    else b.(notifications := notifications)
  }

  /** The loop over `rs`, in order. */
  function Run(b: Batch, rs: seq<Reminder>, calls: ReminderId -> Calls, localeDate: string -> string): Batch
    decreases |rs|
  {
    if rs == [] then b
    else
      var last := rs[|rs| - 1];
      Step(Run(b, rs[..|rs| - 1], calls, localeDate), last, calls(last.id), localeDate)
  }

  /** What one invocation leaves in the tables and answers. */
  datatype DispatchResult = DispatchResult(reminders: seq<Reminder>, notifications: seq<NotificationRow>, response: Response)

  function Dispatch(reminders: seq<Reminder>, notifications: seq<NotificationRow>, now: int,
                    fetch: Call, calls: ReminderId -> Calls, localeDate: string -> string): DispatchResult
  {
    if fetch != Done then DispatchResult(reminders, notifications, ServerError)
    else
      var due := DueReminders(reminders, now);
      if |due| == 0 then DispatchResult(reminders, notifications, NothingToProcess)
      else
        var b := Run(Batch(reminders, notifications, []), due, calls, localeDate);
        DispatchResult(b.reminders, b.notifications, Processed(b.processed))
  }

  // ---------------------------------------------------------------- the tables

  class ReminderStore {
    var reminders: seq<Reminder>
    var notifications: seq<NotificationRow>

    constructor (reminders: seq<Reminder>, notifications: seq<NotificationRow>)
      ensures this.reminders == reminders && this.notifications == notifications
    {
      this.reminders := reminders;
      this.notifications := notifications;
    }

    /**
     * The body of the loop for one reminder `r` whose calls go as `c`: the
     * notification insert is attempted when the profile lookup did not throw
     * and the appointment is present, and its row is added only when the
     * insert succeeds; the reminder is marked sent and recorded as processed
     * when, in addition, the insert did not throw and the update succeeded.
     */
    method ProcessOne(r: Reminder, c: Calls, localeDate: string -> string, processed: seq<ReminderId>)
      returns (processed': seq<ReminderId>)
      modifies this
      ensures Batch(reminders, notifications, processed')
              == Step(Batch(old(reminders), old(notifications), processed), r, c, localeDate)
    {
      processed' := processed;
      if c.profile != Threw && r.appointment.Some? {
        if c.insert == Done {
          notifications := notifications + [ReminderNotification(r, localeDate)];
        }
        if c.insert != Threw && c.update == Done {
          reminders := MarkSent(reminders, r.id);
          processed' := processed + [r.id];
        }
      }
    }

    /**
     * One invocation. A failed reminder query answers 500 and changes nothing;
     * no due reminder answers count 0 and changes nothing; otherwise each due
     * reminder is processed in turn as `Step` says.
     */
    method ProcessReminders(now: int, fetch: Call, calls: ReminderId -> Calls, localeDate: string -> string)
      returns (response: Response)
      modifies this
      ensures var d := Dispatch(old(reminders), old(notifications), now, fetch, calls, localeDate);
              reminders == d.reminders && notifications == d.notifications && response == d.response
      ensures fetch != Done ==> response == ServerError
      ensures response == NothingToProcess || response == ServerError ==>
                reminders == old(reminders) && notifications == old(notifications)
    {
      if fetch != Done {
        return ServerError;
      }
      var due := DueReminders(reminders, now);
      if |due| == 0 {
        return NothingToProcess;
      }
      ghost var start := Batch(reminders, notifications, []);
      var processed: seq<ReminderId> := [];
      for i := 0 to |due|
        invariant Batch(reminders, notifications, processed) == Run(start, due[..i], calls, localeDate)
      {
        var r := due[i];
        processed := ProcessOne(r, calls(r.id), localeDate, processed);
        RunPrefix(start, due, i, calls, localeDate);
      }
      assert due[..|due|] == due;
      response := Processed(processed);
    }
  }

  // ---------------------------------------------------------------- properties of the loop

  function Ids(rs: seq<Reminder>): (ids: seq<ReminderId>)
    ensures |ids| == |rs|
  {
    seq(|rs|, i requires 0 <= i < |rs| => rs[i].id)
  }

  /** Every row whose id is in `ids` marked sent; nothing else changes. */
  function MarkAll(table: seq<Reminder>, ids: seq<ReminderId>): seq<Reminder> {
    seq(|table|, i requires 0 <= i < |table| =>
      if table[i].id in ids then table[i].(sent := true) else table[i])
  }

  function NotificationsFor(rs: seq<Reminder>, localeDate: string -> string): seq<NotificationRow>
    requires forall i :: 0 <= i < |rs| ==> rs[i].appointment.Some?
  {
    seq(|rs|, i requires 0 <= i < |rs| => ReminderNotification(rs[i], localeDate))
  }

  /** One more iteration of the loop extends the run over a prefix by one reminder. */
  lemma RunPrefix(b: Batch, rs: seq<Reminder>, i: nat, calls: ReminderId -> Calls, localeDate: string -> string)
    requires i < |rs|
    ensures Run(b, rs[..i + 1], calls, localeDate) == Step(Run(b, rs[..i], calls, localeDate), rs[i], calls(rs[i].id), localeDate)
  {
    assert rs[..i + 1][..i] == rs[..i];
    assert rs[..i + 1][i] == rs[i];
    RunLast(b, rs[..i + 1], calls, localeDate);
  }

  /** Unfolds the last iteration of `Run`. */
  lemma RunLast(b: Batch, rs: seq<Reminder>, calls: ReminderId -> Calls, localeDate: string -> string)
    requires rs != []
    ensures Run(b, rs, calls, localeDate)
            == Step(Run(b, rs[..|rs| - 1], calls, localeDate), rs[|rs| - 1], calls(rs[|rs| - 1].id), localeDate)
  {
  }

  lemma FilterSnoc<T>(init: seq<T>, last: T, p: T -> bool)
    ensures Filter(init + [last], p) == if p(last) then Filter(init, p) + [last] else Filter(init, p)
  {
    FilterAppend(init, [last], p);
    assert Filter([last], p) == if p(last) then [last] else [];
  }

  lemma MarkAllSnoc(table: seq<Reminder>, ids: seq<ReminderId>, id: ReminderId)
    ensures MarkSent(MarkAll(table, ids), id) == MarkAll(table, ids + [id])
  {
  }

  /** The processed list grows by the ids of exactly the reminders whose update succeeded, in order. */
  lemma {:induction false} RunProcessed(b: Batch, rs: seq<Reminder>, calls: ReminderId -> Calls, localeDate: string -> string)
    ensures Run(b, rs, calls, localeDate).processed == b.processed + Ids(Filter(rs, MarkedBy(calls)))
    decreases |rs|
  {
    if rs != [] {
      var init, last := rs[..|rs| - 1], rs[|rs| - 1];
      var c := calls(last.id);
      var b0 := Run(b, init, calls, localeDate);
      var f0 := Filter(init, MarkedBy(calls));
      RunProcessed(b, init, calls, localeDate);
      RunLast(b, rs, calls, localeDate);
      assert rs == init + [last];
      MarkedSnoc(init, last, calls);
      if Marks(last, c) {
        ProcessedWhenMarked(b0, last, c, localeDate);
        IdsSnoc(f0, last);
      } else {
        ProcessedWhenNotMarked(b0, last, c, localeDate);
      }
    }
  }

  lemma ProcessedWhenMarked(b: Batch, r: Reminder, c: Calls, localeDate: string -> string)
    requires Marks(r, c)
    ensures Step(b, r, c, localeDate).processed == b.processed + [r.id]
  {
  }

  lemma ProcessedWhenNotMarked(b: Batch, r: Reminder, c: Calls, localeDate: string -> string)
    requires !Marks(r, c)
    ensures Step(b, r, c, localeDate).processed == b.processed
  {
  }

  lemma IdsSnoc(rs: seq<Reminder>, r: Reminder)
    ensures Ids(rs + [r]) == Ids(rs) + [r.id]
  {
  }

  /** The marked reminders of a run are those of all but its last, then the last when it is marked. */
  lemma MarkedSnoc(init: seq<Reminder>, last: Reminder, calls: ReminderId -> Calls)
    ensures Filter(init + [last], MarkedBy(calls))
            == Filter(init, MarkedBy(calls)) + if Marks(last, calls(last.id)) then [last] else []
  {
    FilterSnoc(init, last, MarkedBy(calls));
    assert MarkedBy(calls)(last) == Marks(last, calls(last.id));
  }

  /** Exactly the rows whose id some successful update named are marked sent. */
  lemma {:induction false} RunReminders(b: Batch, rs: seq<Reminder>, calls: ReminderId -> Calls, localeDate: string -> string)
    ensures Run(b, rs, calls, localeDate).reminders == MarkAll(b.reminders, Ids(Filter(rs, MarkedBy(calls))))
    decreases |rs|
  {
    if rs == [] {
      MarkAllNone(b.reminders);
    } else {
      var init, last := rs[..|rs| - 1], rs[|rs| - 1];
      var c := calls(last.id);
      var b0 := Run(b, init, calls, localeDate);
      RunReminders(b, init, calls, localeDate);
      RunLast(b, rs, calls, localeDate);
      assert rs == init + [last];
      MarkedSnoc(init, last, calls);
      if Marks(last, c) {
        RemindersWhenMarked(b0, last, c, localeDate);
      } else {
        RemindersWhenNotMarked(b0, last, c, localeDate);
      }
      MarkAllStep(b.reminders, b0.reminders, Filter(init, MarkedBy(calls)), last, Marks(last, c));
    }
  }

  lemma MarkAllNone(table: seq<Reminder>)
    ensures MarkAll(table, []) == table
  {
  }

  /** Marking one more id continues a `MarkAll`, and marking none leaves it. */
  lemma MarkAllStep(table: seq<Reminder>, marked: seq<Reminder>, f0: seq<Reminder>, last: Reminder, marks: bool)
    requires marked == MarkAll(table, Ids(f0))
    ensures (if marks then MarkSent(marked, last.id) else marked)
            == MarkAll(table, Ids(f0 + if marks then [last] else []))
  {
    if marks {
      IdsSnoc(f0, last);
      MarkAllSnoc(table, Ids(f0), last.id);
    } else {
      assert f0 + [] == f0;
    }
  }

  lemma RemindersWhenMarked(b: Batch, r: Reminder, c: Calls, localeDate: string -> string)
    requires Marks(r, c)
    ensures Step(b, r, c, localeDate).reminders == MarkSent(b.reminders, r.id)
  {
  }

  lemma RemindersWhenNotMarked(b: Batch, r: Reminder, c: Calls, localeDate: string -> string)
    requires !Marks(r, c)
    ensures Step(b, r, c, localeDate).reminders == b.reminders
  {
  }

  lemma NotificationsForSnoc(rs: seq<Reminder>, last: Reminder, localeDate: string -> string)
    requires forall i :: 0 <= i < |rs| ==> rs[i].appointment.Some?
    requires last.appointment.Some?
    ensures NotificationsFor(rs + [last], localeDate) == NotificationsFor(rs, localeDate) + [ReminderNotification(last, localeDate)]
  {
  }

  /** Notifying one more reminder continues the appended notifications, and notifying none leaves them. */
  lemma NotificationsStep(base: seq<NotificationRow>, before: seq<NotificationRow>, n0: seq<Reminder>, last: Reminder,
                          notifies: bool, localeDate: string -> string)
    requires forall i :: 0 <= i < |n0| ==> n0[i].appointment.Some?
    requires notifies ==> last.appointment.Some?
    requires before == base + NotificationsFor(n0, localeDate)
    ensures var n := n0 + if notifies then [last] else [];
            (forall i :: 0 <= i < |n| ==> n[i].appointment.Some?)
            && (if notifies then before + [ReminderNotification(last, localeDate)] else before)
               == base + NotificationsFor(n, localeDate)
  {
    if notifies {
      NotificationsForSnoc(n0, last, localeDate);
    } else {
      assert n0 + [] == n0;
    }
  }

  /** The notified reminders of a run are those of all but its last, then the last when it is notified. */
  lemma NotifiedSnoc(init: seq<Reminder>, last: Reminder, calls: ReminderId -> Calls)
    ensures Filter(init + [last], NotifiedBy(calls))
            == Filter(init, NotifiedBy(calls)) + if Notifies(last, calls(last.id)) then [last] else []
  {
    FilterSnoc(init, last, NotifiedBy(calls));
    assert NotifiedBy(calls)(last) == Notifies(last, calls(last.id));
  }

  lemma NotificationsWhenNotified(b: Batch, r: Reminder, c: Calls, localeDate: string -> string)
    requires Notifies(r, c)
    ensures Step(b, r, c, localeDate).notifications == b.notifications + [ReminderNotification(r, localeDate)]
  {
  }

  lemma NotificationsWhenNotNotified(b: Batch, r: Reminder, c: Calls, localeDate: string -> string)
    requires !Notifies(r, c)
    ensures Step(b, r, c, localeDate).notifications == b.notifications
  {
  }

  /** One notification is appended per reminder whose insert succeeded, in order. */
  lemma {:induction false} RunNotifications(b: Batch, rs: seq<Reminder>, calls: ReminderId -> Calls, localeDate: string -> string)
    ensures Run(b, rs, calls, localeDate).notifications
            == b.notifications + NotificationsFor(Filter(rs, NotifiedBy(calls)), localeDate)
    decreases |rs|
  {
    if rs != [] {
      var init, last := rs[..|rs| - 1], rs[|rs| - 1];
      var c := calls(last.id);
      var b0 := Run(b, init, calls, localeDate);
      var n0 := Filter(init, NotifiedBy(calls));
      RunNotifications(b, init, calls, localeDate);
      RunLast(b, rs, calls, localeDate);
      assert rs == init + [last];
      NotifiedSnoc(init, last, calls);
      if Notifies(last, c) {
        NotificationsWhenNotified(b0, last, c, localeDate);
      } else {
        NotificationsWhenNotNotified(b0, last, c, localeDate);
      }
      NotificationsStep(b.notifications, b0.notifications, n0, last, Notifies(last, c), localeDate);
    }
  }

  /**
   * A run that gets past the query reports, in fetch order, the ids of exactly
   * the due reminders whose `sent` update succeeded, and `count` is their number.
   */
  lemma ProcessedAreMarkedDueInOrder(table: seq<Reminder>, notifications: seq<NotificationRow>, now: int,
                                     calls: ReminderId -> Calls, localeDate: string -> string)
    requires |DueReminders(table, now)| > 0
    ensures var d := Dispatch(table, notifications, now, Done, calls, localeDate);
            var ids := Ids(Filter(DueReminders(table, now), MarkedBy(calls)));
            d.response == Processed(ids) && Count(d.response) == Some(|ids|)
  {
    RunProcessed(Batch(table, notifications, []), DueReminders(table, now), calls, localeDate);
  }

  lemma IdsMember(rs: seq<Reminder>, id: ReminderId)
    ensures id in Ids(rs) <==> exists r :: r in rs && r.id == id
  {
    if id in Ids(rs) {
      var k :| 0 <= k < |rs| && Ids(rs)[k] == id;
      assert rs[k] in rs;
    }
    if exists r :: r in rs && r.id == id {
      var r :| r in rs && r.id == id;
      var k :| 0 <= k < |rs| && rs[k] == r;
      assert Ids(rs)[k] == id;
    }
  }

  /**
   * A row ends up sent exactly when it was sent before or its id is among the
   * processed ones; no other column of any row changes, and no row is added or
   * removed.
   */
  lemma SentExactlyProcessed(table: seq<Reminder>, notifications: seq<NotificationRow>, now: int,
                             fetch: Call, calls: ReminderId -> Calls, localeDate: string -> string)
    ensures var d := Dispatch(table, notifications, now, fetch, calls, localeDate);
            var ids := if d.response.Processed? then d.response.ids else [];
            |d.reminders| == |table|
            && forall k :: 0 <= k < |table| ==>
                 d.reminders[k] == table[k].(sent := table[k].sent || table[k].id in ids)
  {
    var d := Dispatch(table, notifications, now, fetch, calls, localeDate);
    if fetch == Done && |DueReminders(table, now)| > 0 {
      RunProcessed(Batch(table, notifications, []), DueReminders(table, now), calls, localeDate);
      RunReminders(Batch(table, notifications, []), DueReminders(table, now), calls, localeDate);
    }
  }

  /** No two rows of the table share an id (the table's primary key). */
  ghost predicate UniqueIds(table: seq<Reminder>) {
    forall i, j :: 0 <= i < |table| && 0 <= j < |table| && table[i].id == table[j].id ==> i == j
  }

  /**
   * Only candidates are touched: a row that was already sent, or scheduled
   * after `now`, is left exactly as it was.
   */
  lemma NonCandidatesUntouched(table: seq<Reminder>, notifications: seq<NotificationRow>, now: int,
                               fetch: Call, calls: ReminderId -> Calls, localeDate: string -> string, k: int)
    requires UniqueIds(table)
    requires 0 <= k < |table| && !Due(table[k], now)
    ensures var d := Dispatch(table, notifications, now, fetch, calls, localeDate);
            k < |d.reminders| && d.reminders[k] == table[k]
  {
    SentExactlyProcessed(table, notifications, now, fetch, calls, localeDate);
    if fetch == Done && |DueReminders(table, now)| > 0 {
      var due := DueReminders(table, now);
      var marked := Filter(due, MarkedBy(calls));
      forall r | r in marked ensures r.id != table[k].id {
        assert r in due && Due(r, now);
        var j :| 0 <= j < |table| && table[j] == r;
        assert j != k;
      }
      IdsMember(marked, table[k].id);
      RunProcessed(Batch(table, notifications, []), due, calls, localeDate);
    }
  }

  /** The notifications table only grows: by one row per due reminder whose insert succeeded, in fetch order. */
  lemma NotificationsAppended(table: seq<Reminder>, notifications: seq<NotificationRow>, now: int,
                              calls: ReminderId -> Calls, localeDate: string -> string)
    ensures var d := Dispatch(table, notifications, now, Done, calls, localeDate);
            var notified := Filter(DueReminders(table, now), NotifiedBy(calls));
            d.notifications == notifications + NotificationsFor(notified, localeDate)
  {
    var due := DueReminders(table, now);
    if |due| > 0 {
      RunNotifications(Batch(table, notifications, []), due, calls, localeDate);
    } else {
      assert Filter(due, NotifiedBy(calls)) == [];
      assert NotificationsFor([], localeDate) == [];
    }
  }

  /**
   * A reminder reported as processed is never a candidate again: once marked
   * it is sent, so a later invocation, at any time, does not select it.
   */
  lemma NoReprocessing(table: seq<Reminder>, notifications: seq<NotificationRow>, now: int,
                       calls: ReminderId -> Calls, localeDate: string -> string, later: int)
    ensures var d := Dispatch(table, notifications, now, Done, calls, localeDate);
            d.response.Processed? ==>
              forall r :: r in DueReminders(d.reminders, later) ==> r.id !in d.response.ids
  {
    var d := Dispatch(table, notifications, now, Done, calls, localeDate);
    if d.response.Processed? {
      SentExactlyProcessed(table, notifications, now, Done, calls, localeDate);
      forall r | r in DueReminders(d.reminders, later) ensures r.id !in d.response.ids {
        var k :| 0 <= k < |d.reminders| && d.reminders[k] == r;
      }
    }
  }

  /**
   * The dispatcher does not make marking depend on the notification: with an
   * insert that returns an error and an update that succeeds, the reminder is
   * reported processed and marked sent although no notification was written.
   */
  lemma MarkedWithoutNotification(r: Reminder, now: int, localeDate: string -> string)
    requires Due(r, now) && r.appointment.Some?
    ensures var calls := (_: ReminderId) => Calls(Done, Error, Done);
            var d := Dispatch([r], [], now, Done, calls, localeDate);
            d.reminders == [r.(sent := true)] && d.notifications == []
            && d.response == Processed([r.id])
  {
    var calls := (_: ReminderId) => Calls(Done, Error, Done);
    assert DueReminders([r], now) == [r];
    assert [r][..0] == [];
    var b := Batch([r], [], []);
    assert Run(b, [r], calls, localeDate) == Step(b, r, calls(r.id), localeDate);
    assert MarkSent([r], r.id) == [r.(sent := true)];
  }

  /**
   * A reminder whose processing throws (its appointment is missing, or the
   * profile lookup or the insert throws) is skipped without effect, and the
   * reminders after it are processed as if it were absent.
   */
  lemma FailureIsIsolated(b: Batch, before: seq<Reminder>, r: Reminder, after: seq<Reminder>,
                          calls: ReminderId -> Calls, localeDate: string -> string)
    requires !ReachesInsert(r, calls(r.id)) || calls(r.id).insert == Threw
    ensures Run(b, before + [r] + after, calls, localeDate) == Run(b, before + after, calls, localeDate)
  {
    var all := before + [r] + after;
    var rest := before + after;
    assert Filter([r], MarkedBy(calls)) == [];
    assert Filter([r], NotifiedBy(calls)) == [];
    SkipFilter(before, r, after, MarkedBy(calls));
    SkipFilter(before, r, after, NotifiedBy(calls));
    RunProcessed(b, all, calls, localeDate);
    RunProcessed(b, rest, calls, localeDate);
    RunReminders(b, all, calls, localeDate);
    RunReminders(b, rest, calls, localeDate);
    RunNotifications(b, all, calls, localeDate);
    RunNotifications(b, rest, calls, localeDate);
  }

  lemma SkipFilter<T>(before: seq<T>, x: T, after: seq<T>, p: T -> bool)
    requires Filter([x], p) == []
    ensures Filter(before + [x] + after, p) == Filter(before + after, p)
  {
    assert before + [x] + after == before + ([x] + after);
    FilterAppend(before, [x] + after, p);
    FilterAppend([x], after, p);
    FilterAppend(before, after, p);
    assert [] + Filter(after, p) == Filter(after, p);
  }
}

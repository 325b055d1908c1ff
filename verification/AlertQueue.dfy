/** The table of alert events as a retry queue: `deliverNext` picks one due event, tries to
    send it, and settles the row. Other parts of the panel change the table between those two
    steps. */
module AlertQueue {
  import opened AlertRules
  import opened Commons

  const MAX_PENDING := 1000
  const MAX_ATTEMPTS := 3

  datatype Delivery = Pending | Delivered | Skipped | Failed

  /** A row of `alert_events`. References to a deleted rule or channel become null. */
  datatype Event = Event(
    rule: Option<int>,
    at: int,
    report: Report,
    channel: Option<int>,
    delivery: Delivery,
    attempts: nat,
    nextAttempt: int)

  /** The event that the notifier has read and not yet settled. */
  datatype Pick = Pick(id: nat, event: Event)

  /** The table by id, and its next automatic id. */
  datatype Queue = Queue(rows: map<nat, Event>, nextId: nat, picked: Option<Pick>)

  /** How an attempt ended. The row is left alone when nothing was sent, because the database
      failed or the panel is stopping, and when the notification has gone out but the panel stops or
      the update fails before that is recorded. */
  datatype Sending = NoChannel | Sent | Refused | NotSent | Unrecorded {
    predicate Records() {
      NoChannel? || Sent? || Refused?
    }
  }

  /** What is counted over the rows: the pending ones, or the attempts they may still make. */
  datatype Measure = Waiting | AttemptsLeft

  /** The weight of a row, nothing for one that is not there. */
  function WeightAt(m: Measure, rows: map<nat, Event>, id: nat): nat {
    if id !in rows || rows[id].delivery != Pending then 0
    else if m == Waiting then 1
    else if rows[id].attempts < MAX_ATTEMPTS then MAX_ATTEMPTS - rows[id].attempts
    else 0
  }

  /** The weight of the rows with an id below `n`. */
  function Weigh(m: Measure, rows: map<nat, Event>, n: nat): nat {
    if n == 0 then 0 else Weigh(m, rows, n - 1) + WeightAt(m, rows, n - 1)
  }

  function CountPending(q: Queue): nat {
    Weigh(Waiting, q.rows, q.nextId)
  }

  function Append(q: Queue, e: Event): Queue {
    q.(rows := q.rows[q.nextId := e], nextId := q.nextId + 1)
  }

  /** A new report joins the queue, or is written off when too many are waiting. */
  function Insert(q: Queue, rule: int, at: int, report: Report, channel: int): Queue {
    var delivery := if CountPending(q) >= MAX_PENDING then Failed else Pending;
    Append(q, Event(Some(rule), at, report, Some(channel), delivery, 0, 0))
  }

  /** A test notification is recorded with its outcome and never queued. */
  function InsertTest(q: Queue, at: int, channel: int, sent: bool): Queue {
    Append(q, Event(None, at, Quiet, Some(channel), if sent then Delivered else Failed, 1, 0))
  }

  predicate Due(rows: map<nat, Event>, id: nat, now: int) {
    id in rows && rows[id].delivery == Pending && rows[id].nextAttempt <= now
  }

  /** The due event with the lowest id, from `id` on. */
  function FirstDue(rows: map<nat, Event>, id: nat, end: nat, now: int): (p: Option<Pick>)
    ensures p.None? ==> forall i :: id <= i < end ==> !Due(rows, i, now)
    ensures p.Some? ==>
              && id <= p.value.id < end && Due(rows, p.value.id, now)
              && p.value.event == rows[p.value.id]
              && forall i :: id <= i < p.value.id ==> !Due(rows, i, now)
    decreases end - id
  {
    if id >= end then None
    else if Due(rows, id, now) then Some(Pick(id, rows[id]))
    else FirstDue(rows, id + 1, end, now)
  }

  /** Seconds to wait after an attempt that follows `attempts` others. */
  function Backoff(attempts: nat): nat {
    if attempts == 0 then 30 else 2 * Backoff(attempts - 1)
  }

  /** The delivery state that an attempt on `e` leads to. */
  function Outcome(e: Event, sending: Sending): Delivery {
    if e.channel.None? || sending == NoChannel then Skipped
    else if sending == Sent then Delivered
    else if e.attempts >= 2 then Failed
    else Pending
  }

  /** The update of the picked row; it may have been pruned meanwhile. */
  function Settled(rows: map<nat, Event>, p: Pick, sending: Sending, now: int): map<nat, Event> {
    if p.id !in rows then rows
    else
      var row := rows[p.id];
      rows[p.id := row.(delivery := Outcome(p.event, sending), attempts := row.attempts + 1,
                        nextAttempt := now + Backoff(p.event.attempts))]
  }

  /** The steps of the notifier and of everything else that touches the table. */
  datatype Step =
    | Take(now: int)
    | Settle(sending: Sending, now: int)
    | Emit(rule: int, at: int, report: Report, channel: int)
    | Test(at: int, channel: int, sent: bool)
    | Prune(cutoff: int)
    | ForgetChannel(channel: int)
    | ForgetRule(rule: int)

  function Next(q: Queue, s: Step): Queue {
    match s
    case Take(now) => if q.picked.Some? then q else q.(picked := FirstDue(q.rows, 0, q.nextId, now))
    case Settle(sending, now) =>
      if q.picked.None? then q
      else if !sending.Records() then q.(picked := None)
      else q.(rows := Settled(q.rows, q.picked.value, sending, now), picked := None)
    case Emit(rule, at, report, channel) => Insert(q, rule, at, report, channel)
    case Test(at, channel, sent) => InsertTest(q, at, channel, sent)
    case Prune(cutoff) =>
      q.(rows := map id | id in q.rows && q.rows[id].at >= cutoff :: q.rows[id])
    case ForgetChannel(channel) =>
      q.(rows := map id | id in q.rows ::
                   if q.rows[id].channel == Some(channel) then q.rows[id].(channel := None) else q.rows[id])
    case ForgetRule(rule) =>
      q.(rows := map id | id in q.rows ::
                   if q.rows[id].rule == Some(rule) then q.rows[id].(rule := None) else q.rows[id])
  }

  function Run(q: Queue, steps: seq<Step>): Queue {
    if steps == [] then q else Next(Run(q, steps[..|steps| - 1]), steps[|steps| - 1])
  }

  // ---- What every step keeps ----------------------------------------------------------

  ghost predicate RowOk(e: Event) {
    e.attempts <= MAX_ATTEMPTS && (e.delivery == Pending ==> e.attempts < MAX_ATTEMPTS)
  }

  /** The picked event is still waiting, with the attempts it had, unless it was pruned. */
  ghost predicate PickOk(q: Queue, p: Pick) {
    && p.id < q.nextId && p.event.attempts < MAX_ATTEMPTS
    && (p.id in q.rows ==>
          q.rows[p.id].delivery == Pending && q.rows[p.id].attempts == p.event.attempts)
  }

  ghost predicate Valid(q: Queue) {
    && (forall id :: id in q.rows ==> id < q.nextId && RowOk(q.rows[id]))
    && (q.picked.Some? ==> PickOk(q, q.picked.value))
    && CountPending(q) <= MAX_PENDING
  }

  /** What may happen to a row that is still there: nothing, or attempts on a pending event.
      Only the references to rule and channel may be cleared besides. */
  ghost predicate Progress(a: Event, b: Event) {
    && a.at == b.at && a.report == b.report
    && (b.attempts == a.attempts ==> b.delivery == a.delivery && b.nextAttempt == a.nextAttempt)
    && (b.attempts != a.attempts ==> a.delivery == Pending && b.attempts > a.attempts)
  }

  lemma {:induction false} WeighLess(m: Measure, a: map<nat, Event>, b: map<nat, Event>, n: nat)
    requires forall id: nat :: id < n ==> WeightAt(m, b, id) <= WeightAt(m, a, id)
    ensures Weigh(m, b, n) <= Weigh(m, a, n)
  {
    if n > 0 {
      WeighLess(m, a, b, n - 1);
    }
  }

  /** A table that is lighter somewhere and nowhere heavier is lighter. */
  lemma {:induction false} WeighDrops(
    m: Measure, a: map<nat, Event>, b: map<nat, Event>, n: nat, k: nat)
    requires forall id: nat :: id < n ==> WeightAt(m, b, id) <= WeightAt(m, a, id)
    requires k < n && WeightAt(m, b, k) < WeightAt(m, a, k)
    ensures Weigh(m, b, n) < Weigh(m, a, n)
  {
    if k == n - 1 {
      WeighLess(m, a, b, n - 1);
    } else {
      WeighDrops(m, a, b, n - 1, k);
    }
  }

  /** Every step keeps at most three attempts per event, fewer than three while it is pending,
      and at most 1000 events pending. */
  lemma StepKeepsValid(q: Queue, s: Step)
    requires Valid(q)
    ensures Valid(Next(q, s))
  {
    hide Weigh;
    var q' := Next(q, s);
    WeighLess(Waiting, q.rows, q'.rows, q.nextId);
    match s
    case Emit(_, _, _, _) => AppendedCount(q, q');
    case Test(_, _, _) => AppendedCount(q, q');
    case _ =>
  }

  lemma AppendedCount(q: Queue, q': Queue)
    requires q'.nextId == q.nextId + 1 && q.nextId in q'.rows
    ensures CountPending(q') == Weigh(Waiting, q'.rows, q.nextId) + WeightAt(Waiting, q'.rows, q.nextId)
  {
  }

  /** No step undoes an attempt, revives a finished event, or brings back a lost row. */
  lemma StepProgress(q: Queue, s: Step)
    requires Valid(q)
    ensures Next(q, s).nextId >= q.nextId
    ensures forall id :: id in Next(q, s).rows && id < q.nextId ==>
              id in q.rows && Progress(q.rows[id], Next(q, s).rows[id])
  {
    hide Weigh, Backoff;
  }

  lemma {:induction false} RunKeepsValid(q: Queue, steps: seq<Step>)
    requires Valid(q)
    ensures Valid(Run(q, steps))
    ensures Run(q, steps).nextId >= q.nextId
  {
    if steps != [] {
      RunKeepsValid(q, steps[..|steps| - 1]);
      StepKeepsValid(Run(q, steps[..|steps| - 1]), steps[|steps| - 1]);
      StepProgress(Run(q, steps[..|steps| - 1]), steps[|steps| - 1]);
    }
  }

  /** Over any run: a delivered, skipped or failed event stays as it is for as long as its row
      exists; at most three attempts on an event are recorded; and the time before which it may not
      be tried again stands until it is. */
  lemma {:induction false} EventFate(q: Queue, steps: seq<Step>, id: nat)
    requires Valid(q) && id < q.nextId && id in Run(q, steps).rows
    ensures id in q.rows && Progress(q.rows[id], Run(q, steps).rows[id])
    ensures Run(q, steps).rows[id].attempts <= MAX_ATTEMPTS
    ensures q.rows[id].delivery != Pending ==>
              && Run(q, steps).rows[id].delivery == q.rows[id].delivery
              && Run(q, steps).rows[id].attempts == q.rows[id].attempts
  {
    hide Next;
    RunKeepsValid(q, steps);
    if steps != [] {
      var before := steps[..|steps| - 1];
      RunKeepsValid(q, before);
      StepProgress(Run(q, before), steps[|steps| - 1]);
      EventFate(q, before, id);
    }
  }

  // ---- How often an event is sent -----------------------------------------------------

  /** The step ends an attempt in which the notifier sent event `id`. */
  predicate SendsNow(q: Queue, s: Step, id: nat) {
    s.Settle? && q.picked.Some? && q.picked.value.id == id && q.picked.value.event.channel.Some?
    && (s.sending.Sent? || s.sending.Refused? || s.sending.Unrecorded?)
  }

  /** How often a run sends event `id`. */
  function Sends(q: Queue, steps: seq<Step>, id: nat): nat {
    if steps == [] then 0
    else
      var n := |steps| - 1;
      Sends(q, steps[..n], id) + if SendsNow(Run(q, steps[..n]), steps[n], id) then 1 else 0
  }

  /** How often it does so without recording it. */
  function Slips(q: Queue, steps: seq<Step>, id: nat): nat {
    if steps == [] then 0
    else
      var n := |steps| - 1;
      Slips(q, steps[..n], id) +
      if SendsNow(Run(q, steps[..n]), steps[n], id) && steps[n].sending.Unrecorded? then 1 else 0
  }

  /** The attempts on an event that can still be recorded, or be made without a row to record them. */
  function Chances(q: Queue, id: nat): nat {
    if id in q.rows then WeightAt(AttemptsLeft, q.rows, id)
    else if q.picked.Some? && q.picked.value.id == id then 1
    else 0
  }

  lemma SendSpends(q: Queue, s: Step, id: nat)
    requires Valid(q) && id < q.nextId
    ensures Chances(Next(q, s), id) + (if SendsNow(q, s, id) && !s.sending.Unrecorded? then 1 else 0) <= Chances(q, id)
  {
    hide Weigh, Backoff;
  }

  /** Over any run, the sends of an event are the recorded ones, of which three at most are left to
      it, and the slips. So there are at most three as long as nothing slips. */
  lemma {:induction false} SendsAreBounded(q: Queue, steps: seq<Step>, id: nat)
    requires Valid(q) && id < q.nextId
    ensures Sends(q, steps, id) + Chances(Run(q, steps), id) <= Chances(q, id) + Slips(q, steps, id)
    ensures Chances(q, id) <= MAX_ATTEMPTS
  {
    hide Next, SendsNow;
    if steps != [] {
      var n := |steps| - 1;
      SendsAreBounded(q, steps[..n], id);
      RunKeepsValid(q, steps[..n]);
      SendSpends(Run(q, steps[..n]), steps[n], id);
    }
  }

  /** One step's attempt is recorded in the row, whether it sent the event or skipped it. */
  lemma SendIsRecorded(q: Queue, s: Step, id: nat)
    requires Valid(q) && id < q.nextId && id in Next(q, s).rows
    ensures id in q.rows
    ensures Next(q, s).rows[id].attempts - q.rows[id].attempts ==
            (if SendsNow(q, s, id) && !s.sending.Unrecorded? then 1 else 0)
            + (if Next(q, s).rows[id].delivery == Skipped != q.rows[id].delivery then 1 else 0)
  {
    hide Weigh, Backoff;
  }

  /** While the row exists, it tells the sends exactly, but for the slips: its recorded attempts are
      the other sends, and one more when the event was skipped. */
  lemma {:induction false} SendsAreRecorded(q: Queue, steps: seq<Step>, id: nat)
    requires Valid(q) && id < q.nextId && id in Run(q, steps).rows
    ensures id in q.rows
    ensures Run(q, steps).rows[id].attempts - q.rows[id].attempts ==
            Sends(q, steps, id) - Slips(q, steps, id)
            + (if Run(q, steps).rows[id].delivery == Skipped != q.rows[id].delivery then 1 else 0)
  {
    hide Next, SendsNow;
    if steps != [] {
      var n := |steps| - 1;
      RunKeepsValid(q, steps[..n]);
      SendIsRecorded(Run(q, steps[..n]), steps[n], id);
      SendsAreRecorded(q, steps[..n], id);
      EventFate(q, steps[..n], id);
      EventFate(Run(q, steps[..n]), [steps[n]], id);
      assert [steps[n]][..0] == [];
    }
  }

  // ---- What an attempt and a report do ------------------------------------------------

  /** The end of an attempt. When it is recorded and the row is still there, an event with a channel
      whose send was accepted is delivered; one without a channel to send it on is skipped; one whose
      send was refused has failed exactly when this was its third attempt, and otherwise waits 30,
      60 or 120 seconds. Nothing else changes, and an attempt that is not recorded leaves every row. */
  lemma SettleMeans(q: Queue, sending: Sending, now: int)
    requires Valid(q) && q.picked.Some?
    ensures var id := q.picked.value.id;
            var reachable := q.picked.value.event.channel.Some? && sending != NoChannel;
            var q' := Next(q, Settle(sending, now));
            && q'.picked == None && q'.nextId == q.nextId && q'.rows.Keys == q.rows.Keys
            && (forall i :: i in q.rows && (i != id || sending.NotSent? || sending.Unrecorded?) ==>
                  q'.rows[i] == q.rows[i])
            && (id in q.rows && !sending.NotSent? && !sending.Unrecorded? ==>
                  var a, b := q.rows[id], q'.rows[id];
                  && b.attempts == a.attempts + 1
                  && (b.delivery == Delivered <==> reachable && sending.Sent?)
                  && (b.delivery == Skipped <==> !reachable)
                  && (b.delivery == Failed <==> reachable && sending.Refused? && b.attempts == 3)
                  && (b.delivery == Pending <==> reachable && sending.Refused? && b.attempts < 3)
                  && b.nextAttempt == now + (if a.attempts == 0 then 30 else if a.attempts == 1 then 60 else 120)
                  && b == a.(delivery := b.delivery, attempts := b.attempts, nextAttempt := b.nextAttempt))
  {
    hide Weigh;
    assert Backoff(0) == 30 && Backoff(1) == 60 && Backoff(2) == 120;
  }

  /** The step records that a send of event `id` was accepted. */
  predicate AcceptedNow(q: Queue, s: Step, id: nat) {
    s.Settle? && s.sending.Sent? && q.picked.Some? && q.picked.value.id == id && q.picked.value.event.channel.Some?
  }

  ghost predicate Accepted(q: Queue, steps: seq<Step>, id: nat) {
    exists k :: 0 <= k < |steps| && AcceptedNow(Run(q, steps[..k]), steps[k], id)
  }

  lemma DeliveredNow(q: Queue, s: Step, id: nat)
    requires Valid(q) && id in q.rows && id in Next(q, s).rows
    ensures Next(q, s).rows[id].delivery == Delivered <==>
            q.rows[id].delivery == Delivered || AcceptedNow(q, s, id)
  {
    hide Weigh, Backoff;
  }

  lemma AcceptedStep(q: Queue, steps: seq<Step>, id: nat)
    requires steps != []
    ensures var n := |steps| - 1;
            Accepted(q, steps, id) <==>
            Accepted(q, steps[..n], id) || AcceptedNow(Run(q, steps[..n]), steps[n], id)
  {
    hide Run, AcceptedNow;
    var n := |steps| - 1;
    assert forall k :: 0 <= k <= n ==> steps[..n][..k] == steps[..k];
  }

  /** Over any run: an event that was pending and whose row is still there is delivered if and only
      if a send of it was accepted and that was recorded. */
  lemma {:induction false} DeliveredIffAccepted(q: Queue, steps: seq<Step>, id: nat)
    requires Valid(q) && id < q.nextId && id in Run(q, steps).rows
    ensures id in q.rows
    ensures q.rows[id].delivery == Pending ==>
              (Run(q, steps).rows[id].delivery == Delivered <==> Accepted(q, steps, id))
  {
    hide Next, Accepted, AcceptedNow;
    EventFate(q, steps, id);
    if steps == [] {
      NothingAccepted(q, id);
    } else {
      var n := |steps| - 1;
      var before := Run(q, steps[..n]);
      RunKeepsValid(q, steps[..n]);
      StepProgress(before, steps[n]);
      DeliveredIffAccepted(q, steps[..n], id);
      DeliveredNow(before, steps[n], id);
      AcceptedStep(q, steps, id);
    }
  }

  lemma NothingAccepted(q: Queue, id: nat)
    ensures !Accepted(q, [], id)
  {
  }

  /** The event has no pending row and is not being sent. */
  predicate Over(q: Queue, id: nat) {
    && id < q.nextId
    && (id in q.rows ==> q.rows[id].delivery != Pending)
    && (q.picked.Some? ==> q.picked.value.id != id)
  }

  lemma StaysOver(q: Queue, s: Step, id: nat)
    requires Valid(q) && Over(q, id)
    ensures Over(Next(q, s), id) && !SendsNow(q, s, id)
  {
    hide Weigh, Backoff;
  }

  lemma {:induction false} OverIsNotSent(q: Queue, steps: seq<Step>, id: nat)
    requires Valid(q) && Over(q, id)
    ensures Over(Run(q, steps), id) && Sends(q, steps, id) == 0
  {
    hide Next, Over, SendsNow;
    if steps != [] {
      var n := |steps| - 1;
      OverIsNotSent(q, steps[..n], id);
      RunKeepsValid(q, steps[..n]);
      StaysOver(Run(q, steps[..n]), steps[n], id);
    }
  }

  /** Once a send was accepted and that was recorded, the event is never sent again. */
  lemma AcceptedIsFinal(q: Queue, s: Step, later: seq<Step>, id: nat)
    requires Valid(q) && AcceptedNow(q, s, id)
    ensures Sends(Next(q, s), later, id) == 0
  {
    StepKeepsValid(q, s);
    assert Over(Next(q, s), id) by {
      hide Weigh, Backoff;
    }
    OverIsNotSent(Next(q, s), later, id);
  }

  function PendingIds(rows: map<nat, Event>): set<nat> {
    set id | id in rows && rows[id].delivery == Pending
  }

  lemma {:induction false} WeighCounts(rows: map<nat, Event>, n: nat)
    ensures Weigh(Waiting, rows, n) == |set id | id in PendingIds(rows) && id < n|
  {
    var below := set id | id in PendingIds(rows) && id < n;
    if n == 0 {
      assert below == {};
    } else {
      WeighCounts(rows, n - 1);
      var before := set id | id in PendingIds(rows) && id < n - 1;
      assert below == before + if n - 1 in PendingIds(rows) then {n - 1} else {};
    }
  }

  /** A report becomes one new row, for its rule, time and channel, pending exactly while fewer than
      1000 rows are, and failed otherwise; a test notification is never pending. */
  lemma InsertMeans(q: Queue, rule: int, at: int, report: Report, channel: int)
    requires Valid(q)
    ensures var q' := Next(q, Emit(rule, at, report, channel));
            && q'.nextId == q.nextId + 1 && q'.picked == q.picked
            && q'.rows == q.rows[q.nextId := Event(
                 Some(rule), at, report, Some(channel),
                 if |PendingIds(q.rows)| < 1000 then Pending else Failed, 0, 0)]
    ensures forall sent ::
              var q' := Next(q, Test(at, channel, sent));
              && q'.nextId == q.nextId + 1 && q'.picked == q.picked
              && q'.rows == q.rows[q.nextId := Event(
                   None, at, Quiet, Some(channel), if sent then Delivered else Failed, 1, 0)]
  {
    WeighCounts(q.rows, q.nextId);
    assert (set id | id in PendingIds(q.rows) && id < q.nextId) == PendingIds(q.rows);
  }

  /** What else touches the table keeps every row's delivery: pruning drops exactly the rows from
      before the cutoff, and a deleted channel or rule is forgotten by exactly the rows that had it. */
  lemma HousekeepingMeans(q: Queue, s: Step)
    requires s.Prune? || s.ForgetChannel? || s.ForgetRule?
    ensures var q' := Next(q, s);
            && q'.nextId == q.nextId && q'.picked == q.picked
            && (forall id :: id in q'.rows <==> id in q.rows && (s.Prune? ==> q.rows[id].at >= s.cutoff))
            && (forall id :: id in q'.rows ==>
                  var a, b := q.rows[id], q'.rows[id];
                  && b == a.(channel := b.channel, rule := b.rule)
                  && b.channel == (if s.ForgetChannel? && a.channel == Some(s.channel) then None else a.channel)
                  && b.rule == (if s.ForgetRule? && a.rule == Some(s.rule) then None else a.rule))
  {
  }

  /** A queue with one event that has a channel. */
  const ONE_EVENT := Insert(Queue(map[], 0, None), 1, 0, Firing, 1)

  lemma OneEventIs()
    ensures ONE_EVENT == Queue(map[0 := Event(Some(1), 0, Firing, Some(1), Pending, 0, 0)], 1, None)
    ensures Valid(ONE_EVENT)
  {
  }

  /** `slips` sends that nobody records, and then three that are refused. */
  function Resent(slips: nat): seq<Step> {
    if slips == 0 then
      [Take(0), Settle(Refused, 0), Take(30), Settle(Refused, 30), Take(90), Settle(Refused, 90)]
    else [Take(0), Settle(Unrecorded, 0)] + Resent(slips - 1)
  }

  lemma {:induction false} RunAfter(q: Queue, before: seq<Step>, after: seq<Step>, id: nat)
    ensures Run(q, before + after) == Run(Run(q, before), after)
    ensures Sends(q, before + after, id) == Sends(q, before, id) + Sends(Run(q, before), after, id)
    ensures Slips(q, before + after, id) == Slips(q, before, id) + Slips(Run(q, before), after, id)
    decreases |after|
  {
    hide Next, SendsNow;
    if after == [] {
      assert before + after == before;
    } else {
      var n := |after| - 1;
      assert (before + after)[..|before| + n] == before + after[..n];
      RunAfter(q, before, after[..n], id);
    }
  }

  /** One attempt, from the event being due to the settled row. */
  lemma OneAttempt(q: Queue, sending: Sending, at: int)
    requires q.picked.None? && q.nextId == 1 && Due(q.rows, 0, at)
    ensures var attempt := [Take(at), Settle(sending, at)];
            var picked := Pick(0, q.rows[0]);
            && Run(q, attempt) ==
               q.(rows := if sending.Records() then Settled(q.rows, picked, sending, at) else q.rows)
            && Sends(q, attempt, 0) == (if SendsNow(q.(picked := Some(picked)), attempt[1], 0) then 1 else 0)
            && Slips(q, attempt, 0) ==
               (if SendsNow(q.(picked := Some(picked)), attempt[1], 0) && sending.Unrecorded? then 1 else 0)
  {
    hide Weigh, Backoff, Settled;
    var attempt := [Take(at), Settle(sending, at)];
    assert attempt[..1] == [Take(at)] && attempt[..1][..0] == [];
    var taken := Next(q, Take(at));
    assert taken == q.(picked := Some(Pick(0, q.rows[0])));
    assert Run(q, attempt[..1]) == taken;
    assert Sends(q, attempt[..1], 0) == 0 && Slips(q, attempt[..1], 0) == 0;
  }

  lemma ThreeRefusals()
    ensures Sends(ONE_EVENT, Resent(0), 0) == 3 && Slips(ONE_EVENT, Resent(0), 0) == 0
  {
    hide Run, Sends, Slips, Weigh, Valid;
    assert Backoff(0) == 30 && Backoff(1) == 60;
    var q := ONE_EVENT;
    OneEventIs();
    OneAttempt(q, Refused, 0);
    var a1, a2, a3 := [Take(0), Settle(Refused, 0)], [Take(30), Settle(Refused, 30)], [Take(90), Settle(Refused, 90)];
    var q1 := Run(q, a1);
    OneAttempt(q1, Refused, 30);
    var q2 := Run(q1, a2);
    OneAttempt(q2, Refused, 90);
    assert Resent(0) == a1 + (a2 + a3);
    RunAfter(q, a1, a2 + a3, 0);
    RunAfter(q1, a2, a3, 0);
  }

  /** The bound is reached for any number of slips: with one, an event is sent four times. */
  lemma {:induction false} SlipsAreResent(slips: nat)
    ensures Sends(ONE_EVENT, Resent(slips), 0) == 3 + slips && Slips(ONE_EVENT, Resent(slips), 0) == slips
  {
    if slips == 0 {
      ThreeRefusals();
    } else {
      hide Run, Sends, Slips, Weigh, Valid;
      OneEventIs();
      OneAttempt(ONE_EVENT, Unrecorded, 0);
      SlipsAreResent(slips - 1);
      RunAfter(ONE_EVENT, [Take(0), Settle(Unrecorded, 0)], Resent(slips - 1), 0);
    }
  }

  /** An attempt that leaves an event pending sets the wait before the next one, 30 seconds
      and then 60; nothing shortens it: when the event is picked again, it has passed. */
  lemma BackoffHolds(q: Queue, sending: Sending, at: int, steps: seq<Step>, now: int)
    requires Valid(q) && q.picked.Some? && sending.Records() && q.picked.value.id in q.rows
    requires var id := q.picked.value.id;
             var settled := Next(q, Settle(sending, at));
             var later := Run(settled, steps);
             && later.picked.None?
             && var again := Next(later, Take(now)).picked;
                again.Some? && again.value.id == id && again.value.event.attempts == settled.rows[id].attempts
    ensures q.picked.value.event.attempts <= 1
    ensures now >= at + if q.picked.value.event.attempts == 0 then 30 else 60
  {
    hide Weigh;
    var id := q.picked.value.id;
    var settled := Next(q, Settle(sending, at));
    StepKeepsValid(q, Settle(sending, at));
    EventFate(settled, steps, id);
    assert Backoff(0) == 30 && Backoff(1) == 60;
  }

  // ---- No event is passed over for ever -----------------------------------------------

  /** The calls of a run that selected an event and ended without an error. */
  function Calls(q: Queue, steps: seq<Step>): nat {
    if steps == [] then 0
    else
      var n := |steps| - 1;
      Calls(q, steps[..n]) +
      if steps[n].Settle? && steps[n].sending.Records() && Run(q, steps[..n]).picked.Some? then 1 else 0
  }

  /** The attempts that pending events below `id` may still make, and one for an attempt in
      flight on an event that has been pruned. */
  function Potential(q: Queue, id: nat): nat {
    Weigh(AttemptsLeft, q.rows, id) +
    if q.picked.Some? && q.picked.value.id !in q.rows then 1 else 0
  }

  /** The event is due from `since` on, and none above it is in flight. */
  predicate Waits(q: Queue, id: nat, since: int) {
    id < q.nextId && Due(q.rows, id, since) && (q.picked.Some? ==> q.picked.value.id <= id)
  }

  /** Events are only picked from `since` on. */
  ghost predicate PicksFrom(steps: seq<Step>, since: int) {
    forall i :: 0 <= i < |steps| && steps[i].Take? ==> steps[i].now >= since
  }

  /** A step attempts or prunes the waiting event, or uses up its potential. */
  lemma StepSpends(q: Queue, s: Step, id: nat, since: int)
    requires Valid(q) && Waits(q, id, since) && (s.Take? ==> s.now >= since)
    requires id in Next(q, s).rows && Next(q, s).rows[id].attempts == q.rows[id].attempts
    ensures Waits(Next(q, s), id, since)
    ensures Potential(Next(q, s), id)
            + (if s.Settle? && s.sending.Records() && q.picked.Some? then 1 else 0)
            <= Potential(q, id)
  {
    hide Weigh, Backoff;
    var q' := Next(q, s);
    WeighLess(AttemptsLeft, q.rows, q'.rows, id);
    if s.Take? {
      assert Due(q.rows, id, s.now);
    }
    if q.picked.Some? {
      var p := q.picked.value.id;
      if p < id && p in q.rows && (p !in q'.rows || (s.Settle? && s.sending.Records())) {
        WeighDrops(AttemptsLeft, q.rows, q'.rows, id, p);
      }
    }
  }

  lemma {:induction false} CallsSpend(q: Queue, steps: seq<Step>, id: nat, since: int)
    requires Valid(q) && Waits(q, id, since) && PicksFrom(steps, since)
    requires id in Run(q, steps).rows && Run(q, steps).rows[id].attempts == q.rows[id].attempts
    ensures Waits(Run(q, steps), id, since)
    ensures Calls(q, steps) + Potential(Run(q, steps), id) <= Potential(q, id)
  {
    hide Next, Potential;
    if steps != [] {
      var n := |steps| - 1;
      var before := steps[..n];
      RunKeepsValid(q, before);
      StepProgress(Run(q, before), steps[n]);
      EventFate(q, before, id);
      CallsSpend(q, before, id, since);
      StepSpends(Run(q, before), steps[n], id, since);
    }
  }

  lemma {:induction false} PotentialBound(rows: map<nat, Event>, id: nat)
    ensures Weigh(AttemptsLeft, rows, id) <= MAX_ATTEMPTS * Weigh(Waiting, rows, id)
  {
    if id > 0 {
      PotentialBound(rows, id - 1);
    }
  }

  /** Fairness: a due event with `k` pending events of lower id is attempted (or pruned) within
      3k + 1 calls that select an event and end without an error, whatever is inserted, pruned
      or forgotten meanwhile. */
  lemma AttemptedInTime(q: Queue, steps: seq<Step>, id: nat, since: int)
    requires Valid(q) && q.picked.None? && Due(q.rows, id, since) && PicksFrom(steps, since)
    requires Calls(q, steps) >= MAX_ATTEMPTS * Weigh(Waiting, q.rows, id) + 1
    ensures id in Run(q, steps).rows ==> Run(q, steps).rows[id].attempts > q.rows[id].attempts
  {
    if id in Run(q, steps).rows {
      EventFate(q, steps, id);
      if Run(q, steps).rows[id].attempts == q.rows[id].attempts {
        CallsSpend(q, steps, id, since);
        PotentialBound(q.rows, id);
      }
    }
  }
}

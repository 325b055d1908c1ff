/** The alert engine over its tables: one pass evaluates every enabled rule and may fail
    half-way, saving a rule or pointing a monitor elsewhere forgets alert states, and the
    notifier works the queue of events. */
module AlertEngines {
  import opened AlertQueue
  import opened AlertRules
  import opened Commons

  const MAX_RULES := 200

  /** A row of `alert_rules`; `monitor` is 0 for a rule about a machine. */
  datatype Rule = Rule(id: int, condition: Condition, monitor: int, channel: int, enabled: bool)

  /** What one pass observes for a rule; nothing observed is an unknown value. */
  datatype Seen = Seen(known: bool, value: real)

  function Observed(observe: map<int, Seen>, id: int, now: int): Observation {
    if id in observe then Observation(now, observe[id].known, observe[id].value)
    else Observation(now, false, 0.0)
  }

  /** The stored state of a rule; without a row it reads as zeros. */
  function StateOf(states: map<int, RuleState>, id: int): RuleState {
    if id in states then states[id] else NO_STATE
  }

  function LogOf(logs: map<int, seq<Observation>>, id: int): seq<Observation> {
    if id in logs then logs[id] else []
  }

  ghost predicate DistinctIds(rules: seq<Rule>) {
    forall i, j :: 0 <= i < j < |rules| ==> rules[i].id != rules[j].id
  }

  /** What a rule is meant to report in a pass, given its log since the last reset. */
  ghost function ReportDue(r: Rule, log: seq<Observation>, o: Observation): Report {
    if r.enabled then Expected(r.condition, log + [o], |log|) else Quiet
  }

  /** A report joins the queue of events, unless there is nothing to report. */
  function WithReport(q: Queue, r: Rule, report: Report, now: int): Queue {
    if report == Quiet then q else Insert(q, r.id, now, report, r.channel)
  }

  /** What a pass sees of a rule: the value observed now, if one is known, and nothing otherwise. */
  lemma ObservedMeans(observe: map<int, Seen>, id: int, now: int)
    ensures var o := Observed(observe, id, now);
            && o.at == now
            && (o.known <==> id in observe && observe[id].known)
            && (o.known ==> o.value == observe[id].value)
  {
  }

  /** A report adds one row for its rule, time and channel, and no report adds none. */
  lemma ReportBecomesRow(q: Queue, r: Rule, report: Report, now: int)
    requires AlertQueue.Valid(q)
    ensures var q' := WithReport(q, r, report, now);
            if report == Quiet then q' == q
            else
              && q'.rows.Keys == q.rows.Keys + {q.nextId}
              && (forall id :: id in q.rows ==> q'.rows[id] == q.rows[id])
              && var e := q'.rows[q.nextId];
                 e.rule == Some(r.id) && e.at == now && e.report == report && e.channel == Some(r.channel)
                 && (e.delivery == Pending <==> |PendingIds(q.rows)| < 1000)
                 && (e.delivery == Failed <==> |PendingIds(q.rows)| >= 1000)
  {
    InsertMeans(q, r.id, now, report, r.channel);
  }

  lemma WithReportValid(q: Queue, r: Rule, report: Report, now: int)
    requires AlertQueue.Valid(q)
    ensures AlertQueue.Valid(WithReport(q, r, report, now))
  {
    StepKeepsValid(q, Emit(r.id, now, report, r.channel));
  }

  /** The queue after the reports of the first `n` rules, in order of rule. */
  ghost function Emitted(
    q: Queue, rules: seq<Rule>, n: nat, logs: map<int, seq<Observation>>, observe: map<int, Seen>, now: int): Queue
    requires n <= |rules|
  {
    if n == 0 then q
    else
      var before := Emitted(q, rules, n - 1, logs, observe, now);
      var r := rules[n - 1];
      WithReport(before, r, ReportDue(r, LogOf(logs, r.id), Observed(observe, r.id, now)), now)
  }

  /** The logs after the first `n` rules were evaluated. */
  ghost predicate Logged(
    logs': map<int, seq<Observation>>, logs: map<int, seq<Observation>>, rules: seq<Rule>, n: nat,
    observe: map<int, Seen>, now: int)
    requires n <= |rules|
  {
    forall j :: 0 <= j < |rules| ==>
      LogOf(logs', rules[j].id) ==
      LogOf(logs, rules[j].id) +
      if j < n && rules[j].enabled then [Observed(observe, rules[j].id, now)] else []
  }

  /** A stored row is the one that the log leads to. */
  ghost predicate Faithful(c: Condition, row: RuleState, log: seq<Observation>, clock: int) {
    && row == AlertRules.Run(c, log)
    && InOrder(log)
    && forall o :: o in log ==> o.at <= clock
  }

  ghost predicate AllFaithful(
    rules: seq<Rule>, states: map<int, RuleState>, logs: map<int, seq<Observation>>, clock: int)
  {
    forall j :: 0 <= j < |rules| ==>
      Faithful(rules[j].condition, StateOf(states, rules[j].id), LogOf(logs, rules[j].id), clock)
  }

  /** One evaluation extends a faithful log and reports what the rule is meant to report. */
  lemma Evaluated(c: Condition, row: RuleState, log: seq<Observation>, clock: int, o: Observation)
    requires Faithful(c, row, log, clock) && clock <= o.at && 0 < o.at
    ensures Faithful(c, Stored(c, row, o), log + [o], o.at)
    ensures Decide(c, row, o).report == Expected(c, log + [o], |log|)
    ensures !Decide(c, row, o).write ==> Decide(c, row, o).report == Quiet
  {
    hide Expected;
    assert (log + [o])[..|log|] == log;
    RunTracks(c, log);
    DecideTracks(c, row, log, o);
  }

  /** The evaluation of the rule changes its row in a way worth a write. */
  predicate Worth(r: Rule, rows: map<int, RuleState>, observe: map<int, Seen>, now: int) {
    Decide(r.condition, StateOf(rows, r.id), Observed(observe, r.id, now)).write
  }

  /** The decision about one rule, as the loop body works it out step by step. */
  method Judge(c: Condition, row: RuleState, o: Observation) returns (out: Outcome)
    ensures out == Decide(c, row, o)
  {
    var since, active := row.since, row.active;
    if !active && (row.lastEval == 0 || o.at - row.lastEval > MAX_GAP) {
      since := 0;
    }
    var firing := o.known && o.value >= c.threshold;
    if !firing {
      since := 0;
    } else if since == 0 {
      since := o.at;
    }
    var report := Quiet;
    if firing && !active && o.at - since >= c.duration {
      active := true;
      report := Firing;
    }
    if o.known && !firing && active {
      active := false;
      report := Recovered;
    }
    var same := since == row.since && active == row.active && (active || since == 0);
    out := Outcome(RuleState(since, active, o.at), !same, report);
  }

  lemma NothingToReport(q: Queue, r: Rule, now: int)
    ensures WithReport(q, r, Quiet, now) == q
  {
  }

  /** The rows after one rule of a pass was evaluated. */
  function RowsAfter(rows: map<int, RuleState>, r: Rule, o: Observation): map<int, RuleState> {
    var out := Decide(r.condition, StateOf(rows, r.id), o);
    if out.write then rows[r.id := out.state] else rows
  }

  /** Evaluating one rule keeps every row faithful and reports what is due. */
  lemma RuleEvaluated(
    rules: seq<Rule>, k: nat, rows: map<int, RuleState>, logs: map<int, seq<Observation>>, q: Queue,
    o: Observation)
    requires DistinctIds(rules) && k < |rules| && rules[k].enabled && 0 < o.at
    requires AllFaithful(rules, rows, logs, o.at) && AlertQueue.Valid(q)
    ensures var r := rules[k];
            var log := LogOf(logs, r.id);
            && AllFaithful(rules, RowsAfter(rows, r, o), logs[r.id := log + [o]], o.at)
            && Decide(r.condition, StateOf(rows, r.id), o).report == ReportDue(r, log, o)
            && AlertQueue.Valid(WithReport(q, r, ReportDue(r, log, o), o.at))
  {
    hide Faithful, Decide, Expected, AlertQueue.Valid, WithReport;
    var r := rules[k];
    var log := LogOf(logs, r.id);
    Evaluated(r.condition, StateOf(rows, r.id), log, o.at, o);
    WithReportValid(q, r, ReportDue(r, log, o), o.at);
  }

  lemma ResetFaithful(c: Condition, clock: int)
    ensures Faithful(c, NO_STATE, [], clock)
  {
  }

  /** The loop over the rules, on the tables that it reads and writes. */
  method Pass(
    rules: seq<Rule>, states: map<int, RuleState>, events: Queue, ghost logs: map<int, seq<Observation>>,
    observe: map<int, Seen>, now: int, commits: set<int>)
    returns (ok: bool, done: nat, rows: map<int, RuleState>, queue: Queue, ghost kept: map<int, seq<Observation>>)
    requires DistinctIds(rules) && AllFaithful(rules, states, logs, now)
    requires AlertQueue.Valid(events) && 0 < now
    ensures done <= |rules| && (ok <==> done == |rules|)
    ensures !ok ==> rules[done].enabled && rules[done].id !in commits
    ensures !ok ==> Worth(rules[done], rows, observe, now)
    ensures AllFaithful(rules, rows, kept, now) && AlertQueue.Valid(queue)
    ensures Logged(kept, logs, rules, done, observe, now)
    ensures queue == Emitted(events, rules, done, logs, observe, now)
  {
    hide AllFaithful, DistinctIds, Logged, Decide, Expected, AlertQueue.Valid, WithReport;
    NothingLogged(logs, rules, observe, now);
    rows, queue, kept := states, events, logs;
    done := 0;
    while done < |rules|
      invariant done <= |rules|
      invariant AllFaithful(rules, rows, kept, now) && AlertQueue.Valid(queue)
      invariant Logged(kept, logs, rules, done, observe, now)
      invariant queue == Emitted(events, rules, done, logs, observe, now)
    {
      var rule := rules[done];
      if !rule.enabled {
        LoggedStep(kept, kept, logs, rules, done, observe, now);
        NothingToReport(queue, rule, now);
      } else {
        var o := Observed(observe, rule.id, now);
        ghost var log := LogOf(kept, rule.id);
        var out := Judge(rule.condition, StateOf(rows, rule.id), o);
        if out.write && rule.id !in commits {
          return false, done, rows, queue, kept;
        }
        RuleEvaluated(rules, done, rows, kept, queue, o);
        LoggedStep(kept[rule.id := log + [o]], kept, logs, rules, done, observe, now);
        if out.write {
          rows := rows[rule.id := out.state];
        }
        queue := WithReport(queue, rule, out.report, now);
        kept := kept[rule.id := log + [o]];
      }
      done := done + 1;
    }
    ok := true;
  }

  lemma RuleAdded(
    rules: seq<Rule>, rule: Rule, states: map<int, RuleState>, logs: map<int, seq<Observation>>, clock: int)
    requires DistinctIds(rules) && AllFaithful(rules, states, logs, clock)
    requires forall j :: 0 <= j < |rules| ==> rules[j].id < rule.id
    ensures DistinctIds(rules + [rule])
    ensures AllFaithful(rules + [rule], states - {rule.id}, logs - {rule.id}, clock)
  {
    hide Faithful;
    ResetFaithful(rule.condition, clock);
  }

  lemma RuleRemoved(
    rules: seq<Rule>, k: nat, states: map<int, RuleState>, logs: map<int, seq<Observation>>, clock: int)
    requires DistinctIds(rules) && k < |rules| && AllFaithful(rules, states, logs, clock)
    ensures var left := rules[..k] + rules[k + 1..];
            var id := rules[k].id;
            && DistinctIds(left)
            && AllFaithful(left, states - {id}, logs - {id}, clock)
            && forall j :: 0 <= j < |left| ==> left[j] == rules[if j < k then j else j + 1] && left[j].id != id
  {
    hide Faithful;
    var left := rules[..k] + rules[k + 1..];
    assert forall j :: 0 <= j < |left| ==> left[j] == rules[if j < k then j else j + 1];
  }

  class Engine {
    var rules: seq<Rule>
    var nextRule: int
    var states: map<int, RuleState>
    var events: Queue

    /** The evaluations of each rule since its state was last reset. */
    ghost var logs: map<int, seq<Observation>>
    ghost var clock: int

    /** The stored state of every rule is the one that its log leads to. */
    ghost predicate Valid()
      reads this
    {
      && DistinctIds(rules)
      && (forall j :: 0 <= j < |rules| ==> rules[j].id < nextRule)
      && AllFaithful(rules, states, logs, clock)
      && |rules| <= MAX_RULES
      && AlertQueue.Valid(events)
    }

    constructor ()
      ensures Valid() && rules == [] && events.rows == map[]
    {
      rules, nextRule, states, logs, clock := [], 1, map[], map[], 0;
      events := Queue(map[], 0, None);
    }

    /** One pass (`evaluate`). A rule whose write does not commit ends it with an error; the
        rules before it have been evaluated, it and the later ones have not. `commits` are
        the rules whose transaction would succeed. */
    method Evaluate(observe: map<int, Seen>, now: int, commits: set<int>) returns (ok: bool, done: nat)
      requires Valid() && clock <= now && 0 < now
      modifies this`states, this`events, this`logs, this`clock
      ensures Valid() && clock == now
      ensures done <= |rules| && (ok <==> done == |rules|)
      ensures !ok ==> rules[done].enabled && rules[done].id !in commits
      ensures !ok ==> Worth(rules[done], states, observe, now)
      ensures Logged(logs, old(logs), rules, done, observe, now)
      ensures events == Emitted(old(events), rules, done, old(logs), observe, now)
    {
      hide AllFaithful, Logged, Emitted, AlertQueue.Valid;
      LaterClock(rules, states, logs, clock, now);
      ghost var kept;
      ok, done, states, events, kept := Pass(rules, states, events, logs, observe, now, commits);
      logs, clock := kept, now;
    }

    /** `handleSaveRule` for an existing rule: the rule is replaced and its state forgotten. */
    method UpdateRule(rule: Rule) returns (found: bool)
      requires Valid()
      modifies this`rules, this`states, this`logs
      ensures Valid()
      ensures found <==> exists j :: 0 <= j < |old(rules)| && old(rules)[j].id == rule.id
      ensures !found ==> rules == old(rules) && states == old(states)
      ensures found ==>
                && |rules| == |old(rules)|
                && (forall j :: 0 <= j < |rules| ==>
                      rules[j] == if old(rules)[j].id == rule.id then rule else old(rules)[j])
                && StateOf(states, rule.id) == NO_STATE && LogOf(logs, rule.id) == []
      ensures forall id :: id != rule.id ==>
                StateOf(states, id) == old(StateOf(states, id)) && LogOf(logs, id) == old(LogOf(logs, id))
    {
      hide Faithful, AlertQueue.Valid;
      ResetFaithful(rule.condition, clock);
      var k := 0;
      while k < |rules| && rules[k].id != rule.id
        invariant k <= |rules|
        invariant forall j :: 0 <= j < k ==> rules[j].id != rule.id
      {
        k := k + 1;
      }
      if k == |rules| {
        return false;
      }
      rules := rules[k := rule];
      states := states - {rule.id};
      logs := logs - {rule.id};
      return true;
    }

    /** `handleSaveRule` for a new rule, up to the limit. */
    method CreateRule(condition: Condition, monitor: int, channel: int, enabled: bool)
      returns (id: Option<int>)
      requires Valid()
      modifies this`rules, this`nextRule, this`states, this`logs
      ensures Valid()
      ensures id.None? <==> |old(rules)| >= MAX_RULES
      ensures id.None? ==> rules == old(rules)
      ensures id.Some? ==> rules == old(rules) + [Rule(id.value, condition, monitor, channel, enabled)]
                           && (forall j :: 0 <= j < |old(rules)| ==> old(rules)[j].id < id.value)
                           && LogOf(logs, id.value) == []
      ensures forall i :: i != old(nextRule) ==>
                StateOf(states, i) == old(StateOf(states, i)) && LogOf(logs, i) == old(LogOf(logs, i))
    {
      hide AllFaithful, DistinctIds, AlertQueue.Valid;
      if |rules| >= MAX_RULES {
        return None;
      }
      var rule := Rule(nextRule, condition, monitor, channel, enabled);
      RuleAdded(rules, rule, states, logs, clock);
      states := states - {rule.id};
      logs := logs - {rule.id};
      rules := rules + [rule];
      nextRule := nextRule + 1;
      return Some(rule.id);
    }

    /** `handleDeleteRule`: the rule goes with its state, and its events stay without it. */
    method DeleteRule(id: int) returns (found: bool)
      requires Valid()
      modifies this`rules, this`states, this`logs, this`events
      ensures Valid()
      ensures found <==> exists j :: 0 <= j < |old(rules)| && old(rules)[j].id == id
      ensures !found ==> rules == old(rules) && states == old(states) && events == old(events)
      ensures found ==>
                && (exists k :: 0 <= k < |old(rules)| && old(rules)[k].id == id
                                && rules == old(rules)[..k] + old(rules)[k + 1..])
                && (forall j :: 0 <= j < |rules| ==> rules[j].id != id)
                && events == Next(old(events), ForgetRule(id))
      ensures forall i :: i != id ==>
                StateOf(states, i) == old(StateOf(states, i)) && LogOf(logs, i) == old(LogOf(logs, i))
    {
      hide AllFaithful, DistinctIds, AlertQueue.Valid;
      StepKeepsValid(events, ForgetRule(id));
      var k := 0;
      while k < |rules| && rules[k].id != id
        invariant k <= |rules|
        invariant forall j :: 0 <= j < k ==> rules[j].id != id
      {
        k := k + 1;
      }
      if k == |rules| {
        return false;
      }
      RuleRemoved(rules, k, states, logs, clock);
      rules := rules[..k] + rules[k + 1..];
      states := states - {id};
      logs := logs - {id};
      events := events.(rows := map e | e in events.rows ::
        if events.rows[e].rule == Some(id) then events.rows[e].(rule := None) else events.rows[e]);
      return true;
    }

    /** Pointing a monitor at another target forgets the states of the rules on it. */
    method MonitorChanged(monitor: int)
      requires Valid()
      modifies this`states, this`logs
      ensures Valid()
      ensures forall j :: 0 <= j < |rules| ==>
                LogOf(logs, rules[j].id) ==
                if rules[j].monitor == monitor then [] else old(LogOf(logs, rules[j].id))
      ensures forall j :: 0 <= j < |rules| ==>
                StateOf(states, rules[j].id) ==
                if rules[j].monitor == monitor then NO_STATE else old(StateOf(states, rules[j].id))
    {
      hide Faithful, AlertQueue.Valid;
      var affected := set j | 0 <= j < |rules| && rules[j].monitor == monitor :: rules[j].id;
      forall j | 0 <= j < |rules|
        ensures Faithful(rules[j].condition, NO_STATE, [], clock)
        ensures rules[j].id in affected <==> rules[j].monitor == monitor
      {
        ResetFaithful(rules[j].condition, clock);
      }
      states := states - affected;
      logs := logs - affected;
    }

    /** The first half of `deliverNext`: read the due event with the lowest id. */
    method TakeDue(now: int)
      requires Valid()
      modifies this`events
      ensures Valid()
      ensures events == Next(old(events), Take(now))
    {
      StepKeepsValid(events, Take(now));
      if events.picked.None? {
        events := events.(picked := FirstDue(events.rows, 0, events.nextId, now));
      }
    }

    /** The second half: settle the row according to how the attempt ended. */
    method SettleTaken(sending: Sending, now: int)
      requires Valid() && events.picked.Some?
      modifies this`events
      ensures Valid()
      ensures events == Next(old(events), Settle(sending, now))
      ensures var p := old(events).picked.value;
              p.id in old(events).rows && p.event.channel.Some? && sending.Sent? ==>
                p.id in events.rows && events.rows[p.id].delivery == Delivered
    {
      StepKeepsValid(events, Settle(sending, now));
      SettleMeans(events, sending, now);
      var p := events.picked.value;
      if !sending.Records() {
        events := events.(picked := None);
        return;
      }
      var delivery := Delivered;
      if p.event.channel.None? || sending == NoChannel {
        delivery := Skipped;
      } else if sending == Refused {
        delivery := if p.event.attempts >= 2 then Failed else Pending;
      }
      if p.id in events.rows {
        var row := events.rows[p.id];
        var wait := Backoff(p.event.attempts);
        events := events.(rows := events.rows[p.id :=
          row.(delivery := delivery, attempts := row.attempts + 1, nextAttempt := now + wait)]);
      }
      events := events.(picked := None);
    }
  }

  lemma LaterClock(
    rules: seq<Rule>, states: map<int, RuleState>, logs: map<int, seq<Observation>>, clock: int, now: int)
    requires AllFaithful(rules, states, logs, clock) && clock <= now
    ensures AllFaithful(rules, states, logs, now)
  {
  }

  /** A rule whose turn has come has the log it had before the pass, and only its log grows. */
  lemma LoggedStep(
    after: map<int, seq<Observation>>, before: map<int, seq<Observation>>,
    logs: map<int, seq<Observation>>, rules: seq<Rule>, n: nat, observe: map<int, Seen>, now: int)
    requires DistinctIds(rules) && n < |rules| && Logged(before, logs, rules, n, observe, now)
    requires after == if rules[n].enabled then
                        before[rules[n].id := LogOf(before, rules[n].id)
                                              + [Observed(observe, rules[n].id, now)]]
                      else before
    ensures Logged(after, logs, rules, n + 1, observe, now)
    ensures LogOf(before, rules[n].id) == LogOf(logs, rules[n].id)
  {
  }

  lemma NothingLogged(logs: map<int, seq<Observation>>, rules: seq<Rule>, observe: map<int, Seen>, now: int)
    ensures Logged(logs, logs, rules, 0, observe, now)
  {
  }
}

/** One alert rule: the incremental machine that the evaluator keeps in the database, and
    what it is meant to report, said about the whole log of evaluations. */
module AlertRules {

  /** The longest pause, in seconds, that still joins two evaluations. */
  const MAX_GAP := 15

  /** The part of a rule that its evaluation depends on. Saving a rule resets its state, so
      both stay fixed over a log. */
  datatype Condition = Condition(threshold: real, duration: nat)

  /** One evaluation: the time in Unix seconds and the observed value, if there is one. */
  datatype Observation = Observation(at: int, known: bool, value: real)

  /** A row of `alert_states`; a missing row reads as zeros. */
  datatype RuleState = RuleState(since: int, active: bool, lastEval: int)

  const NO_STATE := RuleState(0, false, 0)

  datatype Report = Quiet | Firing | Recovered

  /** The outcome of one evaluation: the new state, whether it is worth a write, and the event
      that goes with the write. */
  datatype Outcome = Outcome(state: RuleState, write: bool, report: Report)

  /** The body of the loop in `evaluate`, up to its database writes. */
  function Decide(c: Condition, st: RuleState, o: Observation): Outcome {
    var since0 := if !st.active && (st.lastEval == 0 || o.at - st.lastEval > MAX_GAP) then 0 else st.since;
    var firing := o.known && o.value >= c.threshold;
    var since := if !firing then 0 else if since0 == 0 then o.at else since0;
    var fires := firing && !st.active && o.at - since >= c.duration;
    var recovers := o.known && !firing && st.active;
    var active := fires || (st.active && !recovers);
    var same := since == st.since && active == st.active && (active || since == 0);
    Outcome(RuleState(since, active, o.at), !same,
            if fires then Firing else if recovers then Recovered else Quiet)
  }

  /** What the database holds afterwards: a write that would change nothing is skipped, which
      leaves `lastEval` stale. */
  function Stored(c: Condition, st: RuleState, o: Observation): RuleState {
    var out := Decide(c, st, o);
    if out.write then out.state else st
  }

  function Run(c: Condition, log: seq<Observation>): RuleState {
    if log == [] then NO_STATE else Stored(c, Run(c, log[..|log| - 1]), log[|log| - 1])
  }

  /** The report made by the last evaluation of a log. */
  function LastReport(c: Condition, log: seq<Observation>): Report
    requires log != []
  {
    Decide(c, Run(c, log[..|log| - 1]), log[|log| - 1]).report
  }

  /** The evaluator's clock runs after 1970 and never back. */
  ghost predicate InOrder(log: seq<Observation>) {
    && (forall i :: 0 <= i < |log| ==> log[i].at > 0)
    && forall i, j :: 0 <= i <= j < |log| ==> log[i].at <= log[j].at
  }

  // ---- What a rule is meant to report -------------------------------------------------

  /** A known value that meets the threshold. */
  predicate Hot(c: Condition, o: Observation) {
    o.known && o.value >= c.threshold
  }

  /** A known value below the threshold. */
  predicate Cold(c: Condition, o: Observation) {
    o.known && o.value < c.threshold
  }

  /** Every evaluation from `i` to `k` saw the threshold met, without a pause of more than 15
      seconds. */
  ghost predicate HotRun(c: Condition, log: seq<Observation>, i: int, k: int)
    requires 0 <= i <= k < |log|
  {
    && (forall j :: i <= j <= k ==> Hot(c, log[j]))
    && (forall j :: i < j <= k ==> log[j].at - log[j - 1].at <= 15)
  }

  /** At evaluation `k` the condition has held for the rule's duration. */
  ghost predicate Sustained(c: Condition, log: seq<Observation>, k: int)
    requires 0 <= k < |log|
  {
    exists i :: 0 <= i <= k && log[k].at - log[i].at >= c.duration && HotRun(c, log, i, k)
  }

  /** The alert is up after the first `n` evaluations: the condition was sustained at one of
      them, and no later one has seen it gone. */
  ghost predicate Alarmed(c: Condition, log: seq<Observation>, n: int)
    requires 0 <= n <= |log|
  {
    exists k :: 0 <= k < n && Sustained(c, log, k) && forall j :: k < j < n ==> !Cold(c, log[j])
  }

  /** What evaluation `k` is meant to report. */
  ghost function Expected(c: Condition, log: seq<Observation>, k: int): Report
    requires 0 <= k < |log|
  {
    if Sustained(c, log, k) && !Alarmed(c, log, k) then Firing
    else if Cold(c, log[k]) && Alarmed(c, log, k) then Recovered
    else Quiet
  }

  // ---- The machine does so ------------------------------------------------------------

  /** The evaluations from `i` to the last are a run of hot ones. */
  ghost predicate HotTail(c: Condition, log: seq<Observation>, i: int)
    requires 0 <= i < |log|
  {
    HotRun(c, log, i, |log| - 1)
  }

  /** The last evaluation continues the one before it, if that was hot. */
  predicate Joined(log: seq<Observation>) {
    |log| > 1 && log[|log| - 1].at - log[|log| - 2].at <= MAX_GAP
  }

  lemma TailStep(c: Condition, log: seq<Observation>)
    requires log != [] && Hot(c, log[|log| - 1])
    ensures forall j :: 0 <= j < |log| - 1 ==>
              (HotTail(c, log, j) <==> Joined(log) && HotTail(c, log[..|log| - 1], j))
  {
  }

  /** The first evaluation of the run of hot ones that ends with the last. */
  function RunStart(c: Condition, log: seq<Observation>): (i: nat)
    requires log != [] && Hot(c, log[|log| - 1])
    ensures i < |log| && HotTail(c, log, i)
    ensures forall j :: 0 <= j < |log| && HotTail(c, log, j) ==> i <= j
  {
    var n := |log| - 1;
    TailStep(c, log);
    if Joined(log) && Hot(c, log[n - 1]) then RunStart(c, log[..n]) else n
  }

  /** How the stored row encodes the log. */
  ghost predicate Tracks(c: Condition, st: RuleState, log: seq<Observation>) {
    && st.active == Alarmed(c, log, |log|)
    && (!st.active && (log == [] || !Hot(c, log[|log| - 1])) ==> st.since == 0)
    && (!st.active && log != [] && Hot(c, log[|log| - 1]) ==>
          st.since == log[RunStart(c, log)].at && st.lastEval == log[|log| - 1].at)
  }

  /** The condition is sustained when the current run of hot evaluations began early enough. */
  lemma SustainedFromRunStart(c: Condition, log: seq<Observation>)
    requires InOrder(log) && log != []
    ensures Sustained(c, log, |log| - 1) <==>
            Hot(c, log[|log| - 1]) && log[|log| - 1].at - log[RunStart(c, log)].at >= c.duration
  {
    var n := |log| - 1;
    if Sustained(c, log, n) {
      var i :| 0 <= i <= n && log[n].at - log[i].at >= c.duration && HotRun(c, log, i, n);
      assert HotTail(c, log, i);
    }
  }

  /** Evaluations before `k` do not depend on those after it. */
  lemma PrefixFacts(c: Condition, log: seq<Observation>, n: int)
    requires 0 <= n <= |log|
    ensures forall k :: 0 <= k < n ==> Sustained(c, log[..n], k) == Sustained(c, log, k)
    ensures forall m :: 0 <= m <= n ==> Alarmed(c, log[..n], m) == Alarmed(c, log, m)
  {
    forall k | 0 <= k < n
      ensures Sustained(c, log[..n], k) == Sustained(c, log, k)
    {
      assert forall i :: 0 <= i <= k ==> HotRun(c, log[..n], i, k) == HotRun(c, log, i, k);
    }
  }

  lemma SustainedIsHot(c: Condition, log: seq<Observation>, n: int)
    requires 0 <= n < |log| && Sustained(c, log, n)
    ensures Hot(c, log[n]) && !Cold(c, log[n])
  {
    var i :| 0 <= i <= n && log[n].at - log[i].at >= c.duration && HotRun(c, log, i, n);
  }

  /** Whether the alert is up changes only as expected. */
  lemma AlarmStep(c: Condition, log: seq<Observation>, n: int)
    requires 0 <= n < |log|
    ensures Alarmed(c, log, n + 1) <==>
            Expected(c, log, n) == Firing || (Alarmed(c, log, n) && Expected(c, log, n) != Recovered)
  {
    hide Sustained, Hot, Cold;
    if Sustained(c, log, n) {
      SustainedIsHot(c, log, n);
    }
    if Alarmed(c, log, n) && !Cold(c, log[n]) {
      var k :| 0 <= k < n && Sustained(c, log, k) && forall j :: k < j < n ==> !Cold(c, log[j]);
      assert forall j :: k < j < n + 1 ==> !Cold(c, log[j]);
    }
    if Alarmed(c, log, n + 1) && !Sustained(c, log, n) {
      var k :| 0 <= k < n + 1 && Sustained(c, log, k) && forall j :: k < j < n + 1 ==> !Cold(c, log[j]);
      assert k < n && !Cold(c, log[n]);
    }
  }

  /** One evaluation keeps the row in step with the log and reports what it should. */
  lemma DecideTracks(c: Condition, st: RuleState, log: seq<Observation>, o: Observation)
    requires InOrder(log + [o]) && Tracks(c, st, log)
    ensures Tracks(c, Stored(c, st, o), log + [o])
    ensures Decide(c, st, o).report == Expected(c, log + [o], |log|)
  {
    hide Alarmed, Sustained, HotTail;
    var longer := log + [o];
    var n := |log|;
    assert longer[..n] == log;
    PrefixFacts(c, longer, n);
    AlarmStep(c, longer, n);
    SustainedFromRunStart(c, longer);
    assert longer[n] == o;
    if n > 0 {
      assert longer[n - 1] == log[n - 1];
    }
  }

  lemma {:induction false} RunTracks(c: Condition, log: seq<Observation>)
    requires InOrder(log)
    ensures Tracks(c, Run(c, log), log)
  {
    if log != [] {
      var n := |log| - 1;
      RunTracks(c, log[..n]);
      assert log[..n] + [log[n]] == log;
      DecideTracks(c, Run(c, log[..n]), log[..n], log[n]);
    }
  }

  /** Over any log of evaluations since the last reset: an alert fires exactly when the
      condition has been met by every evaluation for the rule's duration, without a pause of
      more than 15 seconds, and no alert is up; it recovers exactly when one is up and a known
      value is below the threshold. */
  lemma ReportsAsExpected(c: Condition, log: seq<Observation>)
    requires InOrder(log) && log != []
    ensures LastReport(c, log) == Expected(c, log, |log| - 1)
    ensures Run(c, log).active == Alarmed(c, log, |log|)
  {
    hide Expected, Alarmed, Stored, Decide;
    var n := |log| - 1;
    RunTracks(c, log[..n]);
    RunTracks(c, log);
    assert log[..n] + [log[n]] == log;
    DecideTracks(c, Run(c, log[..n]), log[..n], log[n]);
  }

  // ---- Alternation --------------------------------------------------------------------

  /** The events of a log, oldest first. */
  function Events(c: Condition, log: seq<Observation>): seq<Report> {
    if log == [] then []
    else
      Events(c, log[..|log| - 1]) +
      if LastReport(c, log) == Quiet then [] else [LastReport(c, log)]
  }

  /** "Firing" and "recovered" take turns, "firing" first, for any observations and clock; an
      alert is up exactly when the last event was "firing". */
  lemma {:induction false} EventsAlternate(c: Condition, log: seq<Observation>)
    ensures var es := Events(c, log);
            && (forall i :: 0 <= i < |es| ==> es[i] == if i % 2 == 0 then Firing else Recovered)
            && Run(c, log).active == (|es| % 2 == 1)
  {
    if log != [] {
      EventsAlternate(c, log[..|log| - 1]);
    }
  }

  /** An evaluation without a value reports nothing, and neither raises nor clears an alert. */
  lemma UnknownIsQuiet(c: Condition, log: seq<Observation>)
    requires log != [] && !log[|log| - 1].known
    ensures LastReport(c, log) == Quiet
    ensures Run(c, log).active == Run(c, log[..|log| - 1]).active
  {
  }

  // ---- Skipping unchanged writes ------------------------------------------------------

  /** The evaluator that writes its state at every evaluation. */
  function EagerRun(c: Condition, log: seq<Observation>): RuleState {
    if log == [] then NO_STATE
    else Decide(c, EagerRun(c, log[..|log| - 1]), log[|log| - 1]).state
  }

  function EagerEvents(c: Condition, log: seq<Observation>): seq<Report> {
    if log == [] then []
    else
      var n := |log| - 1;
      var report := Decide(c, EagerRun(c, log[..n]), log[n]).report;
      EagerEvents(c, log[..n]) + if report == Quiet then [] else [report]
  }

  /** The rows that the two evaluators may hold at the same time: they differ only in how old
      an idle row is, or in when a run began that no longer matters. */
  ghost predicate SameMeaning(lazy: RuleState, eager: RuleState) {
    && lazy.active == eager.active
    && lazy.since == eager.since
    && (!lazy.active && lazy.since != 0 ==> lazy.lastEval == eager.lastEval)
  }

  /** Skipping the writes that change nothing loses no event and adds none, for every log of
      evaluations, even one whose clock runs back. */
  lemma {:induction false} SkippedWritesAreSilent(c: Condition, log: seq<Observation>)
    requires forall i :: 0 <= i < |log| ==> log[i].at > 0
    ensures Events(c, log) == EagerEvents(c, log)
    ensures SameMeaning(Run(c, log), EagerRun(c, log))
    ensures Run(c, log).lastEval >= 0
  {
    if log != [] {
      var n := |log| - 1;
      SkippedWritesAreSilent(c, log[..n]);
      assert log[n].at > 0;
    }
  }
}

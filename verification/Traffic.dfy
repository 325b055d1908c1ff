/** A machine's billing-cycle transfer: raw counter readings folded into saturating totals,
    and the same counters crossing the database.

    Readings carry the panel's clock, which is never before the Unix epoch, but need not be
    in order. */
module TrafficAccounting {
  import opened Calendar
  import opened Commons

  const MAX_INT64 := 0x7FFF_FFFF_FFFF_FFFF
  /** Go's zero `time.Time`, 1 January of year 1, in nanoseconds since the Unix epoch. */
  const ZERO_TIME := -62_135_596_800 * NANOS_PER_SECOND

  datatype CountMode = Unset | CountSum | CountOut | CountMax

  datatype Direction = In | Out

  /** The fields of the `Traffic` record that the code below reads or writes. */
  datatype Record = Record(
    cycleStart: int,
    inBytes: Uint64,
    outBytes: Uint64,
    lastRawIn: Uint64,
    lastRawOut: Uint64,
    hasRaw: bool,
    resetDay: int,
    countMode: CountMode)
  {
    function Total(d: Direction): Uint64 {
      if d == In then inBytes else outBytes
    }

    function LastRaw(d: Direction): Uint64 {
      if d == In then lastRawIn else lastRawOut
    }

    function Day(): int {
      if resetDay == 0 then 1 else resetDay
    }

    /** The operator's count mode, or the default. */
    function Mode(): CountMode {
      if countMode == Unset then CountSum else countMode
    }

    /** Totals that fit the database's signed integers. */
    predicate Bounded() {
      inBytes <= MAX_INT64 && outBytes <= MAX_INT64
    }

    /** Bytes counted against the quota, in the code's wrapping 64-bit arithmetic. */
    function Billed(): Uint64 {
      match countMode
      case CountOut => outBytes
      case CountMax => if outBytes > inBytes then outBytes else inBytes
      case _ => (inBytes + outBytes) % UINT64
    }
  }

  datatype Reading = Reading(rawIn: Uint64, rawOut: Uint64, at: nat) {
    function Raw(d: Direction): Uint64 {
      if d == In then rawIn else rawOut
    }
  }

  const FRESH := Record(ZERO_TIME, 0, 0, 0, 0, false, 0, Unset)

  function Min(a: int, b: int): int {
    if a < b then a else b
  }

  function Max(a: int, b: int): int {
    if a < b then b else a
  }

  function SqliteCounter(n: Uint64): Uint64 {
    if n > MAX_INT64 then MAX_INT64 else n
  }

  /** Saturating addition: never wraps, never leaves the signed range. */
  function AddCounter(a: Uint64, b: Uint64): (r: Uint64)
    ensures r == Min(MAX_INT64, Min(MAX_INT64, a) + b)
  {
    var a' := SqliteCounter(a);
    if b > MAX_INT64 - a' then MAX_INT64 else a' + b
  }

  /** A counter that went backwards was reset, so its value is the traffic since. */
  function Delta(prev: Uint64, cur: Uint64): (d: Uint64)
    ensures d <= cur
  {
    if cur < prev then cur else cur - prev
  }

  /** Going on from the previous reading, the delta leads to the current one; after a reset, the
      whole value is traffic since then. */
  lemma DeltaMeans(prev: Uint64, cur: Uint64)
    ensures cur >= prev ==> prev + Delta(prev, cur) == cur
    ensures cur < prev ==> Delta(prev, cur) == cur
  {
  }

  /** `rollCycle`: a later boundary starts a new cycle and keeps the raw baseline. */
  function Rolled(t: Record, now: int): Record {
    var start := CycleStart(now, t.resetDay);
    if start > t.cycleStart then t.(cycleStart := start, inBytes := 0, outBytes := 0) else t
  }

  /** What one call of `Accumulate` does to the record. */
  function Accumulated(t: Record, r: Reading): Record {
    var t1 := t.(resetDay := t.Day(), countMode := if t.countMode == Unset then CountSum else t.countMode);
    var t2 := if t1.cycleStart == ZERO_TIME then t1.(cycleStart := CycleStart(r.at, t1.resetDay)) else t1;
    var t3 := Rolled(t2, r.at);
    if !t3.hasRaw then
      t3.(lastRawIn := r.rawIn, lastRawOut := r.rawOut, hasRaw := true)
    else
      t3.(inBytes := AddCounter(t3.inBytes, Delta(t3.lastRawIn, r.rawIn)),
          outBytes := AddCounter(t3.outBytes, Delta(t3.lastRawOut, r.rawOut)),
          lastRawIn := r.rawIn,
          lastRawOut := r.rawOut)
  }

  /** The mutable accumulator of one machine. */
  class Traffic {
    var cycleStart: int
    var inBytes: Uint64
    var outBytes: Uint64
    var lastRawIn: Uint64
    var lastRawOut: Uint64
    var hasRaw: bool
    var resetDay: int
    var countMode: CountMode

    ghost function Value(): Record
      reads this
    {
      Record(cycleStart, inBytes, outBytes, lastRawIn, lastRawOut, hasRaw, resetDay, countMode)
    }

    constructor (t: Record)
      ensures Value() == t
    {
      cycleStart, inBytes, outBytes := t.cycleStart, t.inBytes, t.outBytes;
      lastRawIn, lastRawOut, hasRaw := t.lastRawIn, t.lastRawOut, t.hasRaw;
      resetDay, countMode := t.resetDay, t.countMode;
    }

    method RollCycle(now: int)
      modifies this
      ensures Value() == Rolled(old(Value()), now)
    {
      var start := CycleStart(now, resetDay);
      if start <= cycleStart {
        return;
      }
      cycleStart := start;
      inBytes, outBytes := 0, 0;
    }

    method Accumulate(rawIn: Uint64, rawOut: Uint64, now: nat)
      modifies this
      ensures Value() == Accumulated(old(Value()), Reading(rawIn, rawOut, now))
      ensures countMode == old(Value()).Mode() && resetDay == old(Value()).Day()
    {
      if resetDay == 0 {
        resetDay := 1;
      }
      if countMode == Unset {
        countMode := CountSum;
      }
      if cycleStart == ZERO_TIME {
        cycleStart := CycleStart(now, resetDay);
      }
      RollCycle(now);
      if !hasRaw {
        lastRawIn, lastRawOut, hasRaw := rawIn, rawOut, true;
        return;
      }
      inBytes := AddCounter(inBytes, Delta(lastRawIn, rawIn));
      outBytes := AddCounter(outBytes, Delta(lastRawOut, rawOut));
      lastRawIn, lastRawOut := rawIn, rawOut;
    }
  }

  // ---- Runs of readings ---------------------------------------------------------------

  function Run(t: Record, rs: seq<Reading>): Record {
    if rs == [] then t else Accumulated(Run(t, rs[..|rs| - 1]), rs[|rs| - 1])
  }

  /** The latest time seen in a run. */
  function Latest(rs: seq<Reading>): (m: nat)
    requires rs != []
    ensures forall r :: r in rs ==> r.at <= m
    ensures exists r :: r in rs && r.at == m
  {
    var last := rs[|rs| - 1];
    if |rs| == 1 then
      assert last in rs;
      last.at
    else
      var before := Latest(rs[..|rs| - 1]);
      assert forall r :: r in rs ==> r in rs[..|rs| - 1] || r == last;
      assert exists r :: r in rs[..|rs| - 1] && r.at == before && r in rs;
      assert last in rs;
      if before < last.at then last.at else before
  }

  ghost predicate InOrder(rs: seq<Reading>) {
    forall i, j :: 0 <= i < j < |rs| ==> rs[i].at <= rs[j].at
  }

  /** The traffic that reading `i` of a run reports: nothing for the very first baseline. */
  function Reported(t: Record, rs: seq<Reading>, i: nat, d: Direction): Uint64
    requires i < |rs|
  {
    if i > 0 then Delta(rs[i - 1].Raw(d), rs[i].Raw(d))
    else if t.hasRaw then Delta(t.LastRaw(d), rs[0].Raw(d))
    else 0
  }

  /** The cycle in force when a run starts: the stored one, or that of the first reading. */
  function FirstCycle(t: Record, rs: seq<Reading>): int
    requires rs != []
  {
    if t.cycleStart == ZERO_TIME then CycleStart(rs[0].at, t.Day()) else t.cycleStart
  }

  /** The cycle in force after a run: that of the latest time seen, unless the first one is
      still ahead of the clock. */
  function LastCycle(t: Record, rs: seq<Reading>): int
    requires rs != []
  {
    Max(FirstCycle(t, rs), CycleStart(Latest(rs), t.Day()))
  }

  /** The reports of a run that belong to the cycle starting at `cycle`: those of the readings
      by which the clock had reached it, or every one when no cycle has turned (`all`). */
  function Counted(t: Record, rs: seq<Reading>, d: Direction, cycle: int, all: bool): nat {
    if rs == [] then 0
    else
      Counted(t, rs[..|rs| - 1], d, cycle, all) +
      if all || Latest(rs) >= cycle then Reported(t, rs, |rs| - 1, d) else 0
  }

  /** Traffic carried over from before the run, unless a boundary has been crossed since. */
  function Carried(t: Record, rs: seq<Reading>, d: Direction): nat
    requires rs != []
  {
    if LastCycle(t, rs) == FirstCycle(t, rs) then t.Total(d) else 0
  }

  ghost predicate TotalIs(t: Record, rs: seq<Reading>, d: Direction)
    requires rs != []
  {
    Run(t, rs).Total(d) ==
    Min(MAX_INT64,
        Carried(t, rs, d) +
        Counted(t, rs, d, LastCycle(t, rs), LastCycle(t, rs) == FirstCycle(t, rs)))
  }

  /** A cycle of the panel's clock starts long after Go's zero time. */
  lemma CycleNotZero(at: nat, day: int)
    ensures CycleStart(at, day) > ZERO_TIME
  {
    hide CycleStart;
    CycleAge(at, day);
  }

  /** The latest time of a shorter run, and the delta of a longer one. */
  lemma CountedBeforeBoundary(t: Record, rs: seq<Reading>, d: Direction, cycle: int)
    requires rs != [] ==> Latest(rs) < cycle
    ensures Counted(t, rs, d, cycle, false) == 0
  {
    if |rs| > 1 {
      CountedBeforeBoundary(t, rs[..|rs| - 1], d, cycle);
    }
  }

  /** Reports depend on the start record only through its baseline, and on a run only up to
      the reading in question. */
  lemma CountedPrefix(t: Record, rs: seq<Reading>, r: Reading, d: Direction, cycle: int, all: bool)
    ensures Counted(t, rs + [r], d, cycle, all) ==
            Counted(t, rs, d, cycle, all) +
            if all || Latest(rs + [r]) >= cycle then Reported(t, rs + [r], |rs|, d) else 0
  {
    assert (rs + [r])[..|rs|] == rs;
  }

  /** What one reading does to a bounded record, said once for both directions. */
  lemma OneReading(t: Record, r: Reading, d: Direction)
    ensures var u := Accumulated(t, r);
            var cycle := FirstCycle(t, [r]);
            && u.hasRaw && u.LastRaw(d) == r.Raw(d) && u.resetDay == t.Day() && u.countMode == t.Mode()
            && u.cycleStart == Max(cycle, CycleStart(r.at, t.Day()))
            && u.cycleStart != ZERO_TIME
            && (t.Bounded() ==>
                  && u.Bounded()
                  && u.Total(d) == Min(MAX_INT64, (if u.cycleStart == cycle then t.Total(d) else 0)
                                                  + Reported(t, [r], 0, d)))
  {
    hide CycleStart;
    CycleNotZero(r.at, t.Day());
  }

  /** After a run the record holds the last reading as baseline, the configuration with its
      defaults, and the cycle of the latest time seen. */
  lemma {:induction false} RunBookkeeping(t: Record, rs: seq<Reading>, d: Direction)
    requires rs != []
    ensures var u := Run(t, rs);
            && u.hasRaw && u.LastRaw(d) == rs[|rs| - 1].Raw(d)
            && u.resetDay == t.Day() && u.countMode == t.Mode()
            && u.cycleStart == LastCycle(t, rs)
            && u.cycleStart != ZERO_TIME
  {
    hide CycleStart, Accumulated;
    var n := |rs| - 1;
    var before, r := rs[..n], rs[n];
    OneReading(Run(t, before), r, d);
    if n > 0 {
      RunBookkeeping(t, before, d);
      LatestStep(before, r);
      assert before + [r] == rs;
      CycleStartMonotone(r.at, Latest(rs), t.Day());
      CycleStartMonotone(Latest(before), Latest(rs), t.Day());
    }
  }

  lemma LatestStep(rs: seq<Reading>, r: Reading)
    requires rs != []
    ensures Latest(rs + [r]) == Max(Latest(rs), r.at)
  {
    assert (rs + [r])[..|rs|] == rs;
  }

  /** What the run `before` leaves standing when a reading opens or stays in `cycle`. */
  function Standing(t: Record, before: seq<Reading>, d: Direction, cycle: int): nat {
    if before == [] then t.Total(d)
    else if LastCycle(t, before) == cycle then
      Carried(t, before, d) + Counted(t, before, d, cycle, cycle == FirstCycle(t, before))
    else 0
  }

  /** The sum for a longer run: a reading that opens a cycle starts it with its own report. */
  lemma SumStep(t: Record, before: seq<Reading>, r: Reading, d: Direction)
    ensures var rs := before + [r];
            var cycle := LastCycle(t, rs);
            Carried(t, rs, d) + Counted(t, rs, d, cycle, cycle == FirstCycle(t, rs))
            == (if before == [] && cycle != FirstCycle(t, rs) then 0 else Standing(t, before, d, cycle))
               + Reported(t, rs, |before|, d)
  {
    hide CycleStart;
    var rs := before + [r];
    var cycle := LastCycle(t, rs);
    CountedPrefix(t, before, r, d, cycle, cycle == FirstCycle(t, rs));
    CycleStartIsLatest(Latest(rs), t.Day());
    if before != [] {
      LatestStep(before, r);
      CycleStartMonotone(Latest(before), Latest(rs), t.Day());
      if LastCycle(t, before) != cycle {
        CountedBeforeBoundary(t, before, d, cycle);
      }
    }
  }

  /** Each total is the saturated sum of the reports taken since the current boundary. This
      is for every start record within range and readings in any order of time; the report
      that straddles a boundary counts in the new cycle, because the reading that made it is
      the one that reaches the boundary. */
  lemma {:induction false} TotalsLaw(t: Record, rs: seq<Reading>, d: Direction)
    requires t.Bounded() && rs != []
    ensures TotalIs(t, rs, d)
    ensures Run(t, rs).Bounded()
  {
    hide CycleStart, Accumulated, Counted, Latest;
    var n := |rs| - 1;
    var before, r := rs[..n], rs[n];
    assert before + [r] == rs;
    SumStep(t, before, r, d);
    OneReading(Run(t, before), r, d);
    RunBookkeeping(t, rs, d);
    if n > 0 {
      TotalsLaw(t, before, d);
      RunBookkeeping(t, before, d);
    }
  }

  /** For a machine seen for the first time, and readings in order of time: each total is the
      saturated sum of the deltas of the readings taken at or after the current boundary. */
  lemma FreshTotals(rs: seq<Reading>, d: Direction)
    requires rs != [] && InOrder(rs)
    ensures var u := Run(FRESH, rs);
            && u.cycleStart == CycleStart(rs[|rs| - 1].at, 1)
            && u.Total(d) == Min(MAX_INT64, DeltasFrom(rs, d, u.cycleStart))
  {
    hide CycleStart, Accumulated, Run;
    TotalsLaw(FRESH, rs, d);
    RunBookkeeping(FRESH, rs, d);
    LatestInOrder(rs);
    CycleStartMonotone(rs[0].at, Latest(rs), 1);
    CycleStartIsLatest(rs[0].at, 1);
    var cycle := LastCycle(FRESH, rs);
    CountedInOrder(rs, d, cycle, cycle == FirstCycle(FRESH, rs));
  }

  /** The deltas of the readings taken at or after `cycle`. */
  function DeltasFrom(rs: seq<Reading>, d: Direction, cycle: int): nat {
    if |rs| <= 1 then 0
    else
      DeltasFrom(rs[..|rs| - 1], d, cycle) +
      if rs[|rs| - 1].at >= cycle then Delta(rs[|rs| - 2].Raw(d), rs[|rs| - 1].Raw(d)) else 0
  }

  lemma LatestInOrder(rs: seq<Reading>)
    requires rs != [] && InOrder(rs)
    ensures Latest(rs) == rs[|rs| - 1].at
  {
    assert rs[|rs| - 1] in rs;
    var r :| r in rs && r.at == Latest(rs);
  }

  lemma {:induction false} CountedInOrder(rs: seq<Reading>, d: Direction, cycle: int, all: bool)
    requires InOrder(rs)
    requires all && rs != [] ==> cycle <= rs[0].at
    ensures Counted(FRESH, rs, d, cycle, all) == DeltasFrom(rs, d, cycle)
  {
    hide Latest;
    if rs != [] {
      LatestInOrder(rs);
      CountedInOrder(rs[..|rs| - 1], d, cycle, all);
    }
  }

  /** What is billed after any run is what the mode that the record started with says, and the 64-bit
      sum never wraps. */
  lemma BilledNeverWraps(t: Record, rs: seq<Reading>)
    requires t.Bounded()
    ensures var u := Run(t, rs);
            u.Billed() == match t.countMode
                          case CountOut => u.outBytes
                          case CountMax => Max(u.inBytes, u.outBytes)
                          case _ => u.inBytes + u.outBytes
  {
    hide CycleStart, Accumulated;
    if rs != [] {
      TotalsLaw(t, rs, In);
      RunBookkeeping(t, rs, In);
    }
  }

  // ---- Lost readings and crashes ------------------------------------------------------

  /** A record that has taken a reading: configured, with a baseline, in a cycle whose start
      is a whole second. */
  ghost predicate Settled(t: Record) {
    && t.Bounded() && t.hasRaw && t.resetDay != 0 && t.countMode != Unset
    && t.cycleStart != ZERO_TIME && t.cycleStart % NANOS_PER_SECOND == 0
  }

  lemma RunSettles(t: Record, rs: seq<Reading>)
    requires t.Bounded() && t.cycleStart % NANOS_PER_SECOND == 0 && rs != []
    ensures Settled(Run(t, rs))
  {
    hide CycleStart;
    RunBookkeeping(t, rs, In);
    TotalsLaw(t, rs, In);
    WholeSeconds(rs[0].at, t.Day());
    WholeSeconds(Latest(rs), t.Day());
  }

  lemma WholeSeconds(now: int, day: int)
    ensures CycleStart(now, day) % NANOS_PER_SECOND == 0
  {
    hide CycleStart, MonthStart, Length, Midnight;
    var m := CycleMonth(now, day);
    var clamped := if day < 1 then 1 else if day > Length(m) then Length(m) else day;
    MidnightIsWhole(MonthStart(m) - 1 + clamped);
  }

  lemma MidnightIsWhole(day: int)
    ensures Midnight(day) % NANOS_PER_SECOND == 0
  {
    assert Midnight(day) == (day - EPOCH_DAY) * 86_400 * NANOS_PER_SECOND;
  }

  /** The readings of a run stay in one cycle, and the counters never go back. */
  ghost predicate Steady(t: Record, rs: seq<Reading>) {
    && (forall i :: 0 <= i < |rs| ==> CycleStart(rs[i].at, t.Day()) <= FirstCycle(t, rs))
    && (t.hasRaw ==> forall i :: 0 <= i < |rs| ==> t.lastRawIn <= rs[i].rawIn && t.lastRawOut <= rs[i].rawOut)
    && (forall i, j :: 0 <= i < j < |rs| ==> rs[i].rawIn <= rs[j].rawIn && rs[i].rawOut <= rs[j].rawOut)
  }

  lemma SkipOne(t: Record, lost: Reading, r: Reading)
    requires Settled(t) && Steady(t, [lost, r])
    ensures Accumulated(Accumulated(t, lost), r) == Accumulated(t, r)
  {
    hide CycleStart;
    var rs := [lost, r];
    assert rs[0] == lost && rs[1] == r;
    assert rs[0].rawIn <= rs[1].rawIn && rs[0].rawOut <= rs[1].rawOut;
  }

  /** Within a cycle, and while the counters do not go back, only the last reading matters to a
      record that has a baseline: losing any of the earlier ones leaves the same record. */
  lemma {:induction false} LostReadings(t: Record, rs: seq<Reading>)
    requires Settled(t) && Steady(t, rs) && rs != []
    ensures Run(t, rs) == Accumulated(t, rs[|rs| - 1])
  {
    hide Accumulated, CycleStart;
    var n := |rs| - 1;
    if n > 0 {
      LostReadings(t, rs[..n]);
      SkipOne(t, rs[n - 1], rs[n]);
    }
  }

  /** What the deltas of a run are measured from: the baseline, or else the first reading. */
  function Base(t: Record, rs: seq<Reading>, d: Direction): Uint64
    requires rs != []
  {
    if t.hasRaw then t.LastRaw(d) else rs[0].Raw(d)
  }

  lemma {:induction false} CountedTelescopes(t: Record, rs: seq<Reading>, d: Direction, cycle: int)
    requires Steady(t, rs) && rs != []
    ensures Counted(t, rs, d, cycle, true) == rs[|rs| - 1].Raw(d) - Base(t, rs, d)
  {
    hide CycleStart;
    var n := |rs| - 1;
    if n > 0 {
      CountedTelescopes(t, rs[..n], d, cycle);
      assert rs[n - 1].rawIn <= rs[n].rawIn && rs[n - 1].rawOut <= rs[n].rawOut;
    } else {
      assert rs[..0] == [];
    }
  }

  /** A steady run adds what the counter has moved since the base, with or without a baseline. */
  lemma SteadyTotal(t: Record, rs: seq<Reading>, d: Direction)
    requires t.Bounded() && Steady(t, rs) && rs != []
    ensures Run(t, rs).Total(d) == Min(MAX_INT64, t.Total(d) + (rs[|rs| - 1].Raw(d) - Base(t, rs, d)))
  {
    hide CycleStart, Run;
    TotalsLaw(t, rs, d);
    var r :| r in rs && r.at == Latest(rs);
    CountedTelescopes(t, rs, d, FirstCycle(t, rs));
  }

  /** Losing readings before `r` costs nothing, exactly when there is a baseline, or nothing moved
      since the first reading, or the total had saturated. */
  lemma LostExact(t: Record, lost: seq<Reading>, r: Reading, d: Direction)
    requires t.Bounded() && Steady(t, lost + [r])
    ensures Run(t, lost + [r]).Total(d) == Run(t, [r]).Total(d) <==>
            t.hasRaw || lost == [] || r.Raw(d) == lost[0].Raw(d) || t.Total(d) == MAX_INT64
  {
    hide CycleStart, Run;
    assert (lost + [r])[|lost|] == r;
    SteadyTotal(t, lost + [r], d);
    SteadyTotal(t, [r], d);
    FirstIsLeast(t, lost, r, d);
  }

  lemma FirstIsLeast(t: Record, lost: seq<Reading>, r: Reading, d: Direction)
    requires Steady(t, lost + [r])
    ensures Base(t, lost + [r], d) <= r.Raw(d)
    ensures !t.hasRaw ==> Base(t, lost + [r], d) == if lost == [] then r.Raw(d) else lost[0].Raw(d)
  {
    hide CycleStart;
    var rs := lost + [r];
    assert rs[|lost|] == r;
    if lost != [] {
      assert rs[0] == lost[0];
    }
  }

  /** The traffic columns of a machine's row. The counters are signed 64-bit integers. */
  datatype Row = Row(
    cycle: int,
    inBytes: Uint64,
    outBytes: Uint64,
    lastRawIn: Uint64,
    lastRawOut: Uint64,
    hasRaw: bool,
    resetDay: int,
    countMode: CountMode)

  function UnixSeconds(t: int): int {
    if t == ZERO_TIME then 0 else t / NANOS_PER_SECOND
  }

  /** The update that `SaveTraffic` makes; the configuration columns are not its own. */
  function Save(row: Row, t: Record): Row {
    row.(cycle := UnixSeconds(t.cycleStart),
         inBytes := SqliteCounter(t.inBytes),
         outBytes := SqliteCounter(t.outBytes),
         lastRawIn := SqliteCounter(t.lastRawIn),
         lastRawOut := SqliteCounter(t.lastRawOut),
         hasRaw := t.hasRaw)
  }

  /** The record that `scanMachine` reads back. */
  function Load(row: Row): Record {
    Record(if row.cycle > 0 then row.cycle * NANOS_PER_SECOND else ZERO_TIME,
           row.inBytes, row.outBytes, row.lastRawIn, row.lastRawOut, row.hasRaw,
           row.resetDay, row.countMode)
  }

  /** A record survives the database exactly when its counters fit a signed integer, its cycle is
      unset or started on a whole second after the first one of 1970, and the row has its
      configuration. */
  lemma SaveLoad(row: Row, t: Record)
    ensures Load(Save(row, t)) == t <==>
            && t.Bounded() && t.lastRawIn <= MAX_INT64 && t.lastRawOut <= MAX_INT64
            && (t.cycleStart == ZERO_TIME || (t.cycleStart > 0 && t.cycleStart % NANOS_PER_SECOND == 0))
            && row.resetDay == t.resetDay && row.countMode == t.countMode
  {
  }

  /** What the panel has after the readings `lost` and then `r`. */
  function Uninterrupted(t: Record, lost: seq<Reading>, r: Reading): Record {
    Run(t, lost + [r])
  }

  /** What it has when it saves `t`, then crashes and loses the readings `lost`, and takes `r`
      after the restart. */
  function Crashed(row: Row, t: Record, r: Reading): Record {
    Accumulated(Load(Save(row, t)), r)
  }

  /** A crash that loses the readings `lost` costs nothing. With a baseline: it fits a signed
      integer, or the total has saturated anyway. Without one, the next reading becomes the
      baseline: nothing was lost, or the counter has not moved since the first lost reading, or the
      total was saturated before. */
  predicate CrashIsFree(t: Record, lost: seq<Reading>, r: Reading, d: Direction) {
    if t.hasRaw then t.LastRaw(d) <= MAX_INT64 || t.Total(d) + (r.Raw(d) - t.LastRaw(d)) >= MAX_INT64
    else lost == [] || r.Raw(d) == lost[0].Raw(d) || t.Total(d) == MAX_INT64
  }

  /** What a restarted panel has after the reading `r`, which is still in the cycle. */
  lemma CrashedTotal(row: Row, t: Record, r: Reading, d: Direction)
    requires t.Bounded() && Load(row).Day() == t.Day()
    requires t.cycleStart != ZERO_TIME ==> CycleStart(r.at, t.Day()) <= t.cycleStart
    ensures Crashed(row, t, r).Total(d) ==
            Min(MAX_INT64, t.Total(d) + if t.hasRaw then Delta(SqliteCounter(t.LastRaw(d)), r.Raw(d)) else 0)
  {
    hide CycleStart, Accumulated;
    OneReading(Load(Save(row, t)), r, d);
    WholeSeconds(r.at, t.Day());
    CycleNotZero(r.at, t.Day());
  }

  /** For every record there can be, new or old, and readings of one cycle whose counters do not go
      back: a crash leaves the total that the uninterrupted panel has if and only if it is free.
      With a baseline nothing about the lost readings matters, nor how many there were, and the
      whole record is the same when it survives the database. */
  lemma CrashExact(row: Row, t: Record, lost: seq<Reading>, r: Reading, d: Direction)
    requires t.Bounded() && Steady(t, lost + [r]) && Load(row).Day() == t.Day()
    ensures Crashed(row, t, r).Total(d) == Uninterrupted(t, lost, r).Total(d) <==> CrashIsFree(t, lost, r, d)
    ensures Uninterrupted(t, lost, r).Total(d)
            == Min(MAX_INT64, t.Total(d) + (r.Raw(d) - Base(t, lost + [r], d)))
    ensures Settled(t) && Load(Save(row, t)) == t ==> Crashed(row, t, r) == Uninterrupted(t, lost, r)
  {
    hide CycleStart, Accumulated, Run;
    var rs := lost + [r];
    assert rs[|lost|] == r;
    SteadyTotal(t, rs, d);
    CrashedTotal(row, t, r, d);
    FirstIsLeast(t, lost, r, d);
    if Settled(t) {
      LostReadings(t, rs);
    }
  }

  /** The row of a machine that has just registered. */
  const NEW_ROW := Row(0, 0, 0, 0, 0, false, 1, CountSum)

  /** A crash before the first save of a new machine, at any time: the first reading is lost, so
      the next one becomes the baseline, and 100 bytes are not counted. */
  lemma CrashForgetsBaseline(at: nat)
    ensures var machine := Load(NEW_ROW);
            var lost, r := [Reading(0, 0, at)], Reading(100, 0, at);
            && Save(NEW_ROW, machine) == NEW_ROW && machine.LastRaw(In) <= MAX_INT64
            && Uninterrupted(machine, lost, r).inBytes == 100
            && Crashed(NEW_ROW, machine, r).inBytes == 0
  {
    hide CycleStart, Accumulated, Run;
    var lost, r := [Reading(0, 0, at)], Reading(100, 0, at);
    SteadyTotal(Load(NEW_ROW), lost + [r], In);
    CrashedTotal(NEW_ROW, Load(NEW_ROW), r, In);
  }

  /** A first reading beyond the signed range, taken at any time, and one a byte later. */
  function HugeBaseline(at: nat): Record {
    Run(FRESH, [Reading(MAX_INT64 + 1, 0, at)])
  }

  function HugeReading(at: nat): Reading {
    Reading(MAX_INT64 + 2, 0, at)
  }

  /** The other case in which a crash changes the total, for a machine that is new at any time: the
      counter has moved by one byte, and the restarted panel counts two. */
  lemma CrashOvercounts(at: nat)
    ensures Uninterrupted(HugeBaseline(at), [], HugeReading(at)).inBytes == 1
    ensures Crashed(NEW_ROW, HugeBaseline(at), HugeReading(at)).inBytes == 2
  {
    hide CycleStart, Accumulated, Run;
    var t, r := HugeBaseline(at), HugeReading(at);
    var first := [Reading(MAX_INT64 + 1, 0, at)];
    assert first[0] in first && Latest(first) == at;
    RunSettles(FRESH, first);
    RunBookkeeping(FRESH, first, In);
    RunBookkeeping(FRESH, first, Out);
    FreshTotals(first, In);
    CrashExact(NEW_ROW, t, [], r, In);
    CrashedTotal(NEW_ROW, t, r, In);
  }

  // ---- Editing a machine --------------------------------------------------------------

  /** The traffic fields of an accepted PATCH request. */
  datatype Patch = Patch(resetDay: Option<int>, countMode: Option<CountMode>)

  predicate Resets(p: Patch, t: Record) {
    p.resetDay.Some? && p.resetDay.value != t.resetDay
  }

  /** The configuration that a PATCH asks for, on a copy of the live record. */
  function Edited(p: Patch, t: Record, now: nat): Record {
    var t1 := if p.countMode.Some? then t.(countMode := p.countMode.value) else t;
    var t2 := if p.resetDay.Some? then t1.(resetDay := p.resetDay.value) else t1;
    if Resets(p, t) then t2.(cycleStart := CycleStart(now, t2.resetDay)) else t2
  }

  /** The row that `handlePatchServer` writes: the cycle of the live record in every case, the
      totals only when the reset day changed. */
  function PatchedRow(p: Patch, row: Row, t: Record, now: nat): Row {
    var e := Edited(p, t, now);
    row.(resetDay := e.resetDay, countMode := e.countMode, cycle := UnixSeconds(e.cycleStart),
         inBytes := if Resets(p, t) then 0 else row.inBytes,
         outBytes := if Resets(p, t) then 0 else row.outBytes)
  }

  /** The live record afterwards. */
  function PatchedRecord(p: Patch, t: Record, now: nat): Record {
    var e := Edited(p, t, now);
    var t1 := t.(resetDay := e.resetDay, countMode := e.countMode);
    if Resets(p, t) then t1.(cycleStart := e.cycleStart, inBytes := 0, outBytes := 0) else t1
  }

  /** A changed reset day starts an empty cycle, at the latest boundary of the new day, in memory
      and in the database; each keeps its own baseline, and the row's may be older. */
  lemma PatchResets(p: Patch, row: Row, t: Record, now: nat)
    requires p.resetDay.Some? && p.resetDay.value != t.resetDay
    ensures var u := PatchedRecord(p, t, now);
            && u.inBytes == 0 && u.outBytes == 0 && u.resetDay == p.resetDay.value
            && IsLatestBoundary(u.cycleStart, now, p.resetDay.value)
            && u.lastRawIn == t.lastRawIn && u.lastRawOut == t.lastRawOut && u.hasRaw == t.hasRaw
    ensures var l := Load(PatchedRow(p, row, t, now));
            && l.inBytes == 0 && l.outBytes == 0 && l.resetDay == p.resetDay.value
            && l.lastRawIn == row.lastRawIn && l.lastRawOut == row.lastRawOut && l.hasRaw == row.hasRaw
            && (PatchedRecord(p, t, now).cycleStart > 0 ==>
                  l.cycleStart == PatchedRecord(p, t, now).cycleStart)
  {
    hide CycleStart, Boundary;
    CycleStartIsLatest(now, p.resetDay.value);
    WholeSeconds(now, p.resetDay.value);
  }

  /** A PATCH sets what it asks for, in memory and in the database. One that keeps the reset day
      leaves the live totals and cycle alone, and no PATCH touches a baseline. */
  lemma PatchKeeps(p: Patch, row: Row, t: Record, now: nat)
    ensures var u, r := PatchedRecord(p, t, now), PatchedRow(p, row, t, now);
            && (p.countMode.Some? ==> u.countMode == p.countMode.value)
            && (p.countMode.None? ==> u.countMode == t.countMode)
            && (p.resetDay.Some? ==> u.resetDay == p.resetDay.value)
            && (p.resetDay.None? ==> u.resetDay == t.resetDay)
            && r.countMode == u.countMode && r.resetDay == u.resetDay
            && (p.resetDay == None || p.resetDay == Some(t.resetDay) ==>
                  && u.inBytes == t.inBytes && u.outBytes == t.outBytes && u.cycleStart == t.cycleStart
                  && r.inBytes == row.inBytes && r.outBytes == row.outBytes)
            && u.lastRawIn == t.lastRawIn && u.lastRawOut == t.lastRawOut && u.hasRaw == t.hasRaw
            && r.lastRawIn == row.lastRawIn && r.lastRawOut == row.lastRawOut && r.hasRaw == row.hasRaw
            && (r.cycle == if u.cycleStart == ZERO_TIME then 0 else u.cycleStart / NANOS_PER_SECOND)
  {
    hide CycleStart;
  }

  /** The traffic that a reading reports against a baseline, as far as a total can hold it. */
  function ReportFrom(hasRaw: bool, base: Uint64, raw: Uint64): Uint64 {
    if hasRaw then SqliteCounter(Delta(base, raw)) else 0
  }

  /** After a PATCH that changes the reset day, the next reading bills to the empty cycle what it
      reports against the live baseline; after a restart without another save, against the row's.
      Where both have a baseline, and the counter has not gone back and is in range, the two totals
      agree exactly when the baselines do. */
  lemma PatchResetThenCrash(p: Patch, row: Row, t: Record, now: nat, r: Reading, d: Direction)
    requires Resets(p, t)
    ensures var live := Accumulated(PatchedRecord(p, t, now), r).Total(d);
            var restarted := Accumulated(Load(PatchedRow(p, row, t, now)), r).Total(d);
            && live == ReportFrom(t.hasRaw, t.LastRaw(d), r.Raw(d))
            && restarted == ReportFrom(row.hasRaw, Load(row).LastRaw(d), r.Raw(d))
            && (t.hasRaw && row.hasRaw && t.LastRaw(d) <= r.Raw(d) <= MAX_INT64
                && Load(row).LastRaw(d) <= r.Raw(d) ==>
                  (live == restarted <==> t.LastRaw(d) == Load(row).LastRaw(d)))
  {
    hide CycleStart, Accumulated;
    OneReading(PatchedRecord(p, t, now), r, d);
    OneReading(Load(PatchedRow(p, row, t, now)), r, d);
  }

  /** A new machine is saved after its first reading and then moves 100 bytes; the reset day is
      changed. The live panel bills none of them to the new cycle, a restarted one bills all. */
  lemma PatchBillsOldTraffic(at: nat)
    ensures var readings := [Reading(0, 0, at), Reading(100, 0, at)];
            var row := Save(NEW_ROW, Run(FRESH, readings[..1]));
            var t := Run(FRESH, readings);
            var p := Patch(Some(2), None);
            && Resets(p, t)
            && Accumulated(PatchedRecord(p, t, at), readings[1]).inBytes == 0
            && Accumulated(Load(PatchedRow(p, row, t, at)), readings[1]).inBytes == 100
  {
    hide CycleStart, Accumulated, Run;
    var readings := [Reading(0, 0, at), Reading(100, 0, at)];
    var t := Run(FRESH, readings);
    RunBookkeeping(FRESH, readings[..1], In);
    RunBookkeeping(FRESH, readings, In);
    PatchResetThenCrash(Patch(Some(2), None), Save(NEW_ROW, Run(FRESH, readings[..1])), t, at, readings[1], In);
  }

  /** A row with this cycle column keeps its totals at the next reading, whose cycle starts at
      `next`: the column is empty, or that cycle is not a later one. */
  predicate Keeps(cycle: int, next: int) {
    cycle <= 0 || next <= cycle * NANOS_PER_SECOND
  }

  /** A PATCH that keeps the reset day moves the saved cycle to the live record's, but not the
      saved totals. If the panel then restarts without another save, the totals after the next
      reading are what they would have been without the PATCH exactly when the two cycles agree
      on keeping the saved total, or there is none, or the next reading saturates the total by
      itself. */
  lemma PatchThenCrash(p: Patch, row: Row, t: Record, now: nat, r: Reading, d: Direction)
    requires !Resets(p, t) && row.resetDay == t.resetDay
    requires Load(row).Bounded()
    ensures var patched := Accumulated(Load(PatchedRow(p, row, t, now)), r);
            var unpatched := Accumulated(Load(row), r);
            var next := CycleStart(r.at, t.Day());
            patched.Total(d) == unpatched.Total(d) <==>
            || (Keeps(UnixSeconds(t.cycleStart), next) <==> Keeps(row.cycle, next))
            || Load(row).Total(d) == 0
            || (row.hasRaw && Delta(Load(row).LastRaw(d), r.Raw(d)) >= MAX_INT64)
  {
    hide CycleStart, Accumulated;
    OneReading(Load(PatchedRow(p, row, t, now)), r, d);
    OneReading(Load(row), r, d);
    CycleNotZero(r.at, t.Day());
  }

  /** A machine has moved 100 bytes when its row is saved. */
  function Earlier(early: nat): Record {
    Run(FRESH, [Reading(0, 0, early), Reading(100, 0, early)])
  }

  lemma EarlierHas(early: nat)
    ensures var t := Earlier(early);
            t.inBytes == 100 && t.lastRawIn == 100 && t.hasRaw && t.resetDay == 1
            && t.cycleStart == CycleStart(early, 1) && Settled(t)
  {
    hide CycleStart, Accumulated, Run;
    var rs := [Reading(0, 0, early), Reading(100, 0, early)];
    FreshTotals(rs, In);
    RunBookkeeping(FRESH, rs, In);
    RunSettles(FRESH, rs);
    CycleStartIsLatest(early, 1);
    assert rs[..1] == [rs[0]];
    assert DeltasFrom(rs[..1], In, CycleStart(early, 1)) == 0;
  }

  /** The row is saved in one cycle, the live record has rolled into a later and still empty one,
      and a PATCH changes nothing: after a restart the 100 bytes count again. */
  lemma PatchRevivesOldCycle(early: nat, at: nat)
    requires early >= 31 * NANOS_PER_DAY && at >= early + 31 * NANOS_PER_DAY
    ensures var row := Save(NEW_ROW, Earlier(early));
            var r := Reading(100, 0, at);
            var live := Accumulated(Earlier(early), r);
            && Accumulated(live, r).inBytes == 0
            && Accumulated(Load(row), r).inBytes == 0
            && Accumulated(Load(PatchedRow(Patch(None, None), row, live, at)), r).inBytes == 100
  {
    hide CycleStart, Accumulated, Earlier, Settled;
    EarlierHas(early);
    CycleAge(early, 1);
    CycleAge(at, 1);
    WholeSeconds(early, 1);
    WholeSeconds(at, 1);
    var row := Save(NEW_ROW, Earlier(early));
    var r := Reading(100, 0, at);
    var live := Accumulated(Earlier(early), r);
    assert Earlier(early).Bounded() by {
      SettledIsBounded(Earlier(early));
    }
    OneReading(Earlier(early), r, In);
    OneReading(live, r, In);
    OneReading(Load(row), r, In);
    OneReading(Load(PatchedRow(Patch(None, None), row, live, at)), r, In);
  }

  lemma SettledIsBounded(t: Record)
    requires Settled(t)
    ensures t.Bounded()
  {
  }
}

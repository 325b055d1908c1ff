/** Service monitors: the scheduler with its sixteen slots, checks in flight, and the revision
    fence that keeps results of an edited monitor out of the table. */
module ServiceMonitors {
  import opened Commons

  const SLOTS := 16
  const MAX_MONITORS := 200

  datatype Kind = Http | Tcp | Ping

  /** What is checked, and how often. */
  datatype Spec = Spec(server: int, kind: Kind, target: string, interval: nat, enabled: bool)

  datatype Monitor = Monitor(spec: Spec, revision: nat)

  datatype Scheduled = Scheduled(revision: nat, at: int)

  predicate SameCheck(a: Spec, b: Spec) {
    a.server == b.server && a.kind == b.kind && a.target == b.target
  }

  // ---- The engine's bookkeeping -------------------------------------------------------

  datatype Books = Books(running: set<int>, occupied: nat, next: map<int, Scheduled>)

  const NO_BOOKS := Books({}, 0, map[])

  predicate CanAcquire(b: Books, id: int) {
    id !in b.running && b.occupied < SLOTS
  }

  function Acquire(b: Books, id: int): Books {
    b.(running := b.running + {id}, occupied := b.occupied + 1)
  }

  /** Enabled, and not waiting for the next start of this very revision. */
  predicate Due(b: Books, id: int, m: Monitor, now: int) {
    m.spec.enabled && !(id in b.next && b.next[id].revision == m.revision && now < b.next[id].at)
  }

  predicate Starts(b: Books, id: int, m: Monitor, now: int) {
    Due(b, id, m, now) && CanAcquire(b, id)
  }

  /** One monitor's turn in a scheduling pass. */
  function Considered(b: Books, id: int, m: Monitor, now: int): Books {
    if !Starts(b, id, m, now) then b
    else Acquire(b, id).(next := b.next[id := Scheduled(m.revision, now + m.spec.interval * NANOS_PER_SECOND)])
  }

  function Pruned(b: Books, known: set<int>): Books {
    b.(next := map i | i in b.next && i in known :: b.next[i])
  }

  /** The two halves of a release: the mark goes under the mutex, the slot afterwards. */
  function Unmark(b: Books, id: int): Books {
    b.(running := b.running - {id})
  }

  function Drained(b: Books): Books
    requires b.occupied > 0
  {
    b.(occupied := b.occupied - 1)
  }

  function AllConsidered(b: Books, items: seq<(int, Monitor)>, now: int): Books {
    if items == [] then b
    else
      var last := items[|items| - 1];
      Considered(AllConsidered(b, items[..|items| - 1], now), last.0, last.1, now)
  }

  /** The monitors that a pass starts, in order. */
  function Started(b: Books, items: seq<(int, Monitor)>, now: int): seq<int> {
    if items == [] then []
    else
      var last := items[|items| - 1];
      var before := items[..|items| - 1];
      Started(b, before, now) + if Starts(AllConsidered(b, before, now), last.0, last.1, now) then [last.0] else []
  }

  function Ids(items: seq<(int, Monitor)>): set<int> {
    set k | 0 <= k < |items| :: items[k].0
  }

  lemma IdsGrow(items: seq<(int, Monitor)>, k: nat)
    requires k < |items|
    ensures Ids(items[..k + 1]) == Ids(items[..k]) + {items[k].0}
  {
    assert items[..k + 1][k].0 in Ids(items[..k + 1]);
    assert forall j :: 0 <= j < k ==> items[..k + 1][j] == items[..k][j];
  }

  class Engine {
    var running: set<int>
    var occupied: nat
    var next: map<int, Scheduled>

    ghost function Value(): Books
      reads this
    {
      Books(running, occupied, next)
    }

    constructor ()
      ensures Value() == NO_BOOKS
    {
      running, occupied, next := {}, 0, map[];
    }

    method AcquireSlot(id: int) returns (ok: bool)
      modifies this`running, this`occupied
      ensures ok <==> CanAcquire(old(Value()), id)
      ensures Value() == if ok then Acquire(old(Value()), id) else old(Value())
    {
      if id in running || occupied >= SLOTS {
        return false;
      }
      occupied := occupied + 1;
      running := running + {id};
      return true;
    }

    /** One pass, undisturbed by releases: every monitor gets its turn in order, and the entries
        of monitors that are gone are dropped. */
    method Schedule(items: seq<(int, Monitor)>, now: int) returns (started: seq<int>)
      modifies this
      ensures Value() == Pruned(AllConsidered(old(Value()), items, now), Ids(items))
      ensures started == Started(old(Value()), items, now)
    {
      started := [];
      var known := {};
      ghost var was := Value();
      for k := 0 to |items|
        invariant Value() == AllConsidered(was, items[..k], now)
        invariant started == Started(was, items[..k], now)
        invariant known == Ids(items[..k])
      {
        var (id, m) := items[k];
        assert items[..k + 1][..k] == items[..k];
        IdsGrow(items, k);
        known := known + {id};
        if m.spec.enabled && !(id in next && next[id].revision == m.revision && now < next[id].at) {
          var ok := AcquireSlot(id);
          if ok {
            next := next[id := Scheduled(m.revision, now + m.spec.interval * NANOS_PER_SECOND)];
            started := started + [id];
          }
        }
      }
      assert items[..|items|] == items;
      ghost var full := next;
      var left := next.Keys;
      while left != {}
        invariant left <= next.Keys
        invariant next.Keys <= full.Keys
        invariant forall i :: i in next ==> next[i] == full[i]
        invariant forall i :: i in full && i !in left ==> (i in next <==> i in known)
        invariant running == AllConsidered(was, items, now).running
        invariant occupied == AllConsidered(was, items, now).occupied
        decreases left
      {
        EmptyOrNot(left);
        var id :| id in left;
        left := left - {id};
        if id !in known {
          next := next - {id};
        }
      }
      ghost var kept := map i | i in full && i in known :: full[i];
      forall i
        ensures i in next <==> i in kept
        ensures i in next ==> next[i] == kept[i]
      {
        assert i in full ==> i !in left;
      }
      assert next == kept;
    }

    /** The mark goes under the mutex; then a receive, which would block on an empty channel. */
    method ReleaseSlot(id: int)
      requires occupied > 0
      modifies this`running, this`occupied
      ensures Value() == Drained(Unmark(old(Value()), id))
    {
      running := running - {id};
      occupied := occupied - 1;
    }
  }

  /** A release undoes an acquire, and nobody else's. */
  lemma ReleaseUndoesAcquire(b: Books, id: int)
    requires CanAcquire(b, id)
    ensures Drained(Unmark(Acquire(b, id), id)) == b
  {
    assert b.running + {id} - {id} == b.running;
  }

  // ---- The system ---------------------------------------------------------------------

  datatype Phase = Checking | Saved | Unmarked

  /** A goroutine between its acquire and the end of its release, with the monitor row it read. */
  datatype Task = Task(id: int, m: Monitor, phase: Phase)

  /** A stored result, with the row that its check had read. */
  datatype Result = Result(checked: Monitor, value: int)

  /** The scheduler's pass: the rows still to consider and the ids the query returned. */
  datatype Pass = Idle | Scanning(now: int, left: map<int, Monitor>, known: set<int>)

  /** A start made by the scheduler since the panel came up. */
  datatype Start = Start(id: int, revision: nat, interval: nat, at: int)

  datatype World = World(
    monitors: map<int, Monitor>, nextId: int, results: map<int, seq<Result>>,
    books: Books, tasks: map<int, Task>, asked: map<int, (int, Monitor)>,
    pass: Pass, starts: seq<Start>)

  const FRESH := World(map[], 1, map[], NO_BOOKS, map[], map[], Idle, [])

  datatype Action =
    | Create(spec: Spec)
    | Edit(id: int, spec: Spec)
    | Remove(id: int)
    | Tick(now: int)
    | Consider(id: int, task: int)
    | Prune
    | Ask(task: int, id: int)
    | Grab(task: int)
    | Save(task: int, value: int, ok: bool)
    | Release(task: int)
    | Drain(task: int)
    | Restart

  function ResultsOf(w: World, id: int): seq<Result> {
    if id in w.results then w.results[id] else []
  }

  /** The conditional insert: only while the row still has the revision that the check read. */
  function Insert(w: World, id: int, m: Monitor, value: int): map<int, seq<Result>> {
    if id in w.monitors && w.monitors[id].revision == m.revision
    then w.results[id := ResultsOf(w, id) + [Result(m, value)]]
    else w.results
  }

  function Edited(w: World, id: int, spec: Spec): World
    requires id in w.monitors
  {
    var was := w.monitors[id];
    w.(monitors := w.monitors[id := Monitor(spec, was.revision + 1)],
       results := if SameCheck(was.spec, spec) then w.results else w.results - {id})
  }

  function Turn(w: World, id: int, task: int): World
    requires w.pass.Scanning? && id in w.pass.left
  {
    var m := w.pass.left[id];
    var now := w.pass.now;
    var w' := w.(pass := w.pass.(left := w.pass.left - {id}));
    if Starts(w.books, id, m, now)
    then w'.(books := Considered(w.books, id, m, now), tasks := w.tasks[task := Task(id, m, Checking)],
             starts := w.starts + [Start(id, m.revision, m.spec.interval, now)])
    else w'
  }

  /** Requests that change the monitor table. */
  function TableStep(w: World, a: Action): World {
    match a
    case Create(spec) =>
      if |w.monitors| >= MAX_MONITORS then w
      else w.(monitors := w.monitors[w.nextId := Monitor(spec, 1)], nextId := w.nextId + 1)
    case Edit(id, spec) =>
      if id in w.monitors then Edited(w, id, spec) else w
    case Remove(id) =>
      w.(monitors := w.monitors - {id}, results := w.results - {id})
    case _ => w
  }

  /** The scheduler's goroutine: it reads the table, considers every row, and forgets the
      monitors it did not see. */
  function PassStep(w: World, a: Action): World {
    match a
    case Tick(now) =>
      if w.pass.Idle? then w.(pass := Scanning(now, w.monitors, w.monitors.Keys)) else w
    case Consider(id, task) =>
      if w.pass.Scanning? && id in w.pass.left && task !in w.tasks then Turn(w, id, task) else w
    case Prune =>
      if w.pass.Scanning? && w.pass.left == map[]
      then w.(books := Pruned(w.books, w.pass.known), pass := Idle) else w
    case _ => w
  }

  /** A request to run a monitor now reads its row before it asks for a slot. */
  function AskStep(w: World, a: Action): World {
    match a
    case Ask(task, id) =>
      if id in w.monitors && task !in w.asked
      then w.(asked := w.asked[task := (id, w.monitors[id])]) else w
    case Grab(task) =>
      if task !in w.asked || task in w.tasks then w
      else
        var (id, m) := w.asked[task];
        var asked := w.asked - {task};
        if CanAcquire(w.books, id)
        then w.(asked := asked, books := Acquire(w.books, id), tasks := w.tasks[task := Task(id, m, Checking)])
        else w.(asked := asked)
    case _ => w
  }

  /** The end of a check: its result, then the two halves of the release. */
  function FinishStep(w: World, a: Action): World {
    match a
    case Save(task, value, ok) =>
      if task in w.tasks && w.tasks[task].phase.Checking?
      then w.(tasks := w.tasks[task := w.tasks[task].(phase := Saved)],
              results := if ok then Insert(w, w.tasks[task].id, w.tasks[task].m, value) else w.results)
      else w
    case Release(task) =>
      if task in w.tasks && w.tasks[task].phase.Saved?
      then w.(tasks := w.tasks[task := w.tasks[task].(phase := Unmarked)],
              books := Unmark(w.books, w.tasks[task].id))
      else w
    case Drain(task) =>
      if task in w.tasks && w.tasks[task].phase.Unmarked? && w.books.occupied > 0
      then w.(tasks := w.tasks - {task}, books := Drained(w.books))
      else w
    case _ => w
  }

  /** The panel comes up again: the tables are there, and nothing is in flight or scheduled. */
  function Restarted(w: World): World {
    FRESH.(monitors := w.monitors, nextId := w.nextId, results := w.results)
  }

  predicate OnTable(a: Action) {
    a.Create? || a.Edit? || a.Remove?
  }

  predicate OnPass(a: Action) {
    a.Tick? || a.Consider? || a.Prune?
  }

  /** A failed statement or an action whose moment has not come changes nothing. */
  function Next(w: World, a: Action): World {
    if a.Restart? then Restarted(w)
    else if OnTable(a) then TableStep(w, a)
    else if OnPass(a) then PassStep(w, a)
    else if a.Ask? || a.Grab? then AskStep(w, a)
    else FinishStep(w, a)
  }

  function Run(w: World, actions: seq<Action>): World
    decreases |actions|
  {
    if actions == [] then w else Run(Next(w, actions[0]), actions[1..])
  }

  // ---- Slots --------------------------------------------------------------------------

  /** Task `t` is marked as running monitor `id`. */
  predicate Marks(tasks: map<int, Task>, t: int, id: int) {
    t in tasks && !tasks[t].phase.Unmarked? && tasks[t].id == id
  }

  /** Every slot in use belongs to one goroutine, and the running marks are those of the
      goroutines that have not unmarked yet, no two for one monitor. */
  ghost predicate SlotsOk(running: set<int>, occupied: nat, tasks: map<int, Task>) {
    && occupied == |tasks| <= SLOTS
    && (forall t, id :: Marks(tasks, t, id) ==> id in running)
    && (forall id :: id in running ==> exists t :: Marks(tasks, t, id))
    && (forall s, t, id :: Marks(tasks, s, id) && Marks(tasks, t, id) ==> s == t)
  }

  lemma SlotTaken(running: set<int>, occupied: nat, tasks: map<int, Task>, task: int, id: int, m: Monitor)
    requires SlotsOk(running, occupied, tasks)
    requires id !in running && occupied < SLOTS && task !in tasks
    ensures SlotsOk(running + {id}, occupied + 1, tasks[task := Task(id, m, Checking)])
  {
    var tasks' := tasks[task := Task(id, m, Checking)];
    forall i | i in running + {id}
      ensures exists t :: Marks(tasks', t, i)
    {
      if i == id {
        assert Marks(tasks', task, i);
      } else {
        var t :| Marks(tasks, t, i);
        assert Marks(tasks', t, i);
      }
    }
    assert forall t, i :: Marks(tasks', t, i) ==> (t == task && i == id) || Marks(tasks, t, i);
    assert tasks'.Keys == tasks.Keys + {task};
  }

  lemma SlotSaved(running: set<int>, occupied: nat, tasks: map<int, Task>, task: int)
    requires SlotsOk(running, occupied, tasks)
    requires task in tasks && tasks[task].phase.Checking?
    ensures SlotsOk(running, occupied, tasks[task := tasks[task].(phase := Saved)])
  {
    var tasks' := tasks[task := tasks[task].(phase := Saved)];
    assert forall t, i :: Marks(tasks', t, i) <==> Marks(tasks, t, i);
    assert tasks'.Keys == tasks.Keys;
  }

  lemma SlotUnmarked(running: set<int>, occupied: nat, tasks: map<int, Task>, task: int)
    requires SlotsOk(running, occupied, tasks)
    requires task in tasks && tasks[task].phase.Saved?
    ensures SlotsOk(running - {tasks[task].id}, occupied, tasks[task := tasks[task].(phase := Unmarked)])
  {
    var id := tasks[task].id;
    var tasks' := tasks[task := tasks[task].(phase := Unmarked)];
    assert Marks(tasks, task, id);
    assert forall t, i :: Marks(tasks', t, i) <==> Marks(tasks, t, i) && t != task;
    forall i | i in running - {id}
      ensures exists t :: Marks(tasks', t, i)
    {
      var t :| Marks(tasks, t, i);
      assert Marks(tasks', t, i);
    }
    assert tasks'.Keys == tasks.Keys;
  }

  lemma SlotDrained(running: set<int>, occupied: nat, tasks: map<int, Task>, task: int)
    requires SlotsOk(running, occupied, tasks)
    requires task in tasks && tasks[task].phase.Unmarked?
    ensures occupied > 0
    ensures SlotsOk(running, occupied - 1, tasks - {task})
  {
    var tasks' := tasks - {task};
    assert tasks.Keys == tasks'.Keys + {task};
    forall i | i in running
      ensures exists t :: Marks(tasks', t, i)
    {
      var t :| Marks(tasks, t, i);
      assert Marks(tasks', t, i);
    }
    assert forall t, i :: Marks(tasks', t, i) ==> Marks(tasks, t, i);
  }

  lemma NothingInFlight()
    ensures SlotsOk({}, 0, map[])
  {
    assert forall t, id :: !Marks(map[], t, id);
  }

  /** The goroutine, monitor and row of a step that acquires a slot. */
  function Taker(w: World, a: Action): Option<(int, int, Monitor)> {
    if a.Consider? && w.pass.Scanning? && a.id in w.pass.left && a.task !in w.tasks
       && Starts(w.books, a.id, w.pass.left[a.id], w.pass.now)
    then Some((a.task, a.id, w.pass.left[a.id]))
    else if a.Grab? && a.task in w.asked && a.task !in w.tasks && CanAcquire(w.books, w.asked[a.task].0)
    then Some((a.task, w.asked[a.task].0, w.asked[a.task].1))
    else None
  }

  predicate Moves(w: World, a: Action) {
    || (a.Save? && a.task in w.tasks && w.tasks[a.task].phase.Checking?)
    || (a.Release? && a.task in w.tasks && w.tasks[a.task].phase.Saved?)
    || (a.Drain? && a.task in w.tasks && w.tasks[a.task].phase.Unmarked? && w.books.occupied > 0)
  }

  predicate SlotEffect(w: World, a: Action, w': World) {
    var (r, o, t) := (w.books.running, w.books.occupied, w.tasks);
    var (r', o', t') := (w'.books.running, w'.books.occupied, w'.tasks);
    match Taker(w, a)
    case Some((task, id, m)) =>
      && task !in t && CanAcquire(w.books, id)
      && r' == r + {id} && o' == o + 1 && t' == t[task := Task(id, m, Checking)]
    case None =>
      if !Moves(w, a) then r' == r && o' == o && t' == t
      else if a.Save? then r' == r && o' == o && t' == t[a.task := t[a.task].(phase := Saved)]
      else if a.Release? then
        r' == r - {t[a.task].id} && o' == o && t' == t[a.task := t[a.task].(phase := Unmarked)]
      else r' == r && o' == o - 1 && t' == t - {a.task}
  }

  lemma TableSlots(w: World, a: Action)
    requires OnTable(a)
    ensures SlotEffect(w, a, TableStep(w, a))
  {
  }

  lemma PassSlots(w: World, a: Action)
    requires OnPass(a)
    ensures SlotEffect(w, a, PassStep(w, a))
  {
  }

  lemma AskSlots(w: World, a: Action)
    requires a.Ask? || a.Grab?
    ensures SlotEffect(w, a, AskStep(w, a))
  {
  }

  lemma FinishSlots(w: World, a: Action)
    requires !OnTable(a) && !OnPass(a) && !a.Ask? && !a.Grab? && !a.Restart?
    ensures SlotEffect(w, a, FinishStep(w, a))
  {
  }

  lemma SlotEffects(w: World, a: Action)
    requires !a.Restart?
    ensures SlotEffect(w, a, Next(w, a))
  {
    hide SlotEffect, TableStep, PassStep, AskStep, FinishStep;
    if OnTable(a) {
      TableSlots(w, a);
    } else if OnPass(a) {
      PassSlots(w, a);
    } else if a.Ask? || a.Grab? {
      AskSlots(w, a);
    } else {
      FinishSlots(w, a);
    }
  }

  lemma SlotsFollow(w: World, a: Action, w': World)
    requires SlotsOk(w.books.running, w.books.occupied, w.tasks)
    requires SlotEffect(w, a, w')
    ensures SlotsOk(w'.books.running, w'.books.occupied, w'.tasks)
  {
    hide SlotsOk, Taker;
    var (r, o, t) := (w.books.running, w.books.occupied, w.tasks);
    match Taker(w, a)
    case Some((task, id, m)) =>
      SlotTaken(r, o, t, task, id, m);
    case None =>
      if Moves(w, a) {
        if a.Save? {
          SlotSaved(r, o, t, a.task);
        } else if a.Release? {
          SlotUnmarked(r, o, t, a.task);
        } else {
          SlotDrained(r, o, t, a.task);
        }
      }
  }

  lemma SlotsStayOk(w: World, a: Action)
    requires SlotsOk(w.books.running, w.books.occupied, w.tasks)
    ensures var w' := Next(w, a); SlotsOk(w'.books.running, w'.books.occupied, w'.tasks)
  {
    hide SlotsOk, SlotEffect, TableStep, PassStep, AskStep, FinishStep;
    if a.Restart? {
      NothingInFlight();
    } else {
      SlotEffects(w, a);
      SlotsFollow(w, a, Next(w, a));
    }
  }

  // ---- The revision fence -------------------------------------------------------------

  /** A row read earlier: never ahead of the table, and equal to it while the revision is. */
  predicate ReadEarlier(w: World, id: int, m: Monitor) {
    && id < w.nextId
    && (id in w.monitors ==>
          m.revision <= w.monitors[id].revision
          && (m.revision == w.monitors[id].revision ==> m == w.monitors[id]))
  }

  predicate TaskRead(w: World, t: int) {
    t in w.tasks ==> ReadEarlier(w, w.tasks[t].id, w.tasks[t].m)
  }

  predicate AskRead(w: World, t: int) {
    t in w.asked ==> ReadEarlier(w, w.asked[t].0, w.asked[t].1)
  }

  predicate PassRead(w: World, i: int) {
    w.pass.Scanning? && i in w.pass.left ==> ReadEarlier(w, i, w.pass.left[i])
  }

  ghost predicate TableOk(w: World) {
    forall i :: i in w.monitors ==> i < w.nextId
  }

  ghost predicate ReadsOk(w: World) {
    TableOk(w) && (forall t :: TaskRead(w, t)) && (forall t :: AskRead(w, t)) && (forall i :: PassRead(w, i))
  }

  /** Every stored result is of a check of what its monitor checks now. */
  ghost predicate ResultsCurrent(w: World) {
    forall i :: i in w.results ==>
      && i in w.monitors
      && forall k :: 0 <= k < |w.results[i]| ==>
           SameCheck(w.results[i][k].checked.spec, w.monitors[i].spec)
  }

  /** The table only moves forward: no id comes back, and every edit raises the revision. */
  lemma TableAdvances(w: World, a: Action, id: int, m: Monitor)
    requires TableOk(w) && ReadEarlier(w, id, m)
    ensures TableOk(Next(w, a)) && ReadEarlier(Next(w, a), id, m)
  {
  }

  lemma ReadStays(w: World, a: Action, id: int, m: Monitor)
    requires ReadEarlier(w, id, m) && !OnTable(a)
    ensures ReadEarlier(Next(w, a), id, m)
  {
  }

  /** The row of a goroutine is the one it had, one the pass holds, or one that a request read. */
  predicate ComesFrom(w: World, t: int, task: Task) {
    || (t in w.tasks && w.tasks[t].id == task.id && w.tasks[t].m == task.m)
    || (w.pass.Scanning? && task.id in w.pass.left && w.pass.left[task.id] == task.m)
    || (t in w.asked && w.asked[t] == (task.id, task.m))
  }

  lemma PassTask(w: World, a: Action, t: int)
    requires t in PassStep(w, a).tasks
    ensures ComesFrom(w, t, PassStep(w, a).tasks[t])
  {
  }

  lemma AskTask(w: World, a: Action, t: int)
    requires t in AskStep(w, a).tasks
    ensures ComesFrom(w, t, AskStep(w, a).tasks[t])
  {
  }

  lemma FinishTask(w: World, a: Action, t: int)
    requires t in FinishStep(w, a).tasks
    ensures ComesFrom(w, t, FinishStep(w, a).tasks[t])
  {
  }

  lemma TaskComesFrom(w: World, a: Action, t: int)
    requires t in Next(w, a).tasks
    ensures ComesFrom(w, t, Next(w, a).tasks[t])
  {
    hide PassStep, AskStep, FinishStep;
    if OnPass(a) {
      PassTask(w, a, t);
    } else if a.Ask? || a.Grab? {
      AskTask(w, a, t);
    } else if !OnTable(a) && !a.Restart? {
      FinishTask(w, a, t);
    }
  }

  lemma TaskStaysRead(w: World, a: Action, t: int)
    requires ReadsOk(w)
    ensures TaskRead(Next(w, a), t)
  {
    var w' := Next(w, a);
    hide Next, ReadEarlier;
    if t in w'.tasks {
      var (id, m) := (w'.tasks[t].id, w'.tasks[t].m);
      TaskComesFrom(w, a, t);
      assert TaskRead(w, t) && AskRead(w, t) && PassRead(w, id);
      if OnTable(a) {
        TableAdvances(w, a, id, m);
      } else {
        ReadStays(w, a, id, m);
      }
    }
  }

  lemma AskStaysRead(w: World, a: Action, t: int)
    requires ReadsOk(w)
    ensures AskRead(Next(w, a), t)
  {
    var w' := Next(w, a);
    assert AskRead(w, t);
    if t in w'.asked {
      var (id, m) := w'.asked[t];
      assert ReadEarlier(w, id, m);
      TableAdvances(w, a, id, m);
    }
  }

  lemma PassHolds(w: World, a: Action, i: int)
    requires OnPass(a) && TableOk(w) && PassRead(w, i)
    ensures PassRead(PassStep(w, a), i)
  {
  }

  /** Requests and checks leave the pass alone. */
  lemma OthersLeavePass(w: World, a: Action)
    requires !OnPass(a) && !a.Restart?
    ensures Next(w, a).pass == w.pass
  {
  }

  lemma PassStaysRead(w: World, a: Action, i: int)
    requires ReadsOk(w)
    ensures PassRead(Next(w, a), i)
  {
    assert TableOk(w) && PassRead(w, i);
    hide ReadsOk, TableOk, TableStep, PassStep, AskStep, FinishStep;
    if OnPass(a) {
      PassHolds(w, a, i);
    } else if !a.Restart? {
      OthersLeavePass(w, a);
      if w.pass.Scanning? && i in w.pass.left {
        hide Next, ReadEarlier;
        if OnTable(a) {
          TableAdvances(w, a, i, w.pass.left[i]);
        } else {
          ReadStays(w, a, i, w.pass.left[i]);
        }
      }
    }
  }

  lemma ReadsStayOk(w: World, a: Action)
    requires ReadsOk(w)
    ensures ReadsOk(Next(w, a))
  {
    var w' := Next(w, a);
    assert TableOk(w');
    forall t
      ensures TaskRead(w', t) && AskRead(w', t) && PassRead(w', t)
    {
      TaskStaysRead(w, a, t);
      AskStaysRead(w, a, t);
      PassStaysRead(w, a, t);
    }
    hide Next, TaskRead, AskRead, PassRead, TableOk;
  }

  lemma ResultsStayCurrent(w: World, a: Action)
    requires ReadsOk(w) && ResultsCurrent(w)
    ensures ResultsCurrent(Next(w, a))
  {
    if a.Save? {
      assert TaskRead(w, a.task);
    }
    hide TaskRead, AskRead, PassRead;
  }

  // ---- The schedule -------------------------------------------------------------------

  /** What the table of next starts remembers of a start: a later revision, or the earliest
      time for another one; or the monitor is gone. */
  predicate Remembered(w: World, s: Start) {
    && s.id < w.nextId
    && (if s.id in w.books.next then
          var n := w.books.next[s.id];
          s.revision < n.revision || (s.revision == n.revision && s.at + s.interval * NANOS_PER_SECOND <= n.at)
        else s.id !in w.monitors && (w.pass.Scanning? ==> s.id !in w.pass.left))
    && (w.pass.Scanning? && s.id in w.monitors ==> s.id in w.pass.known)
  }

  predicate EntryOk(w: World, i: int) {
    i in w.books.next ==>
      && i < w.nextId
      && (i in w.monitors ==> w.books.next[i].revision <= w.monitors[i].revision)
      && (w.pass.Scanning? && i in w.pass.left ==> w.books.next[i].revision <= w.pass.left[i].revision)
  }

  ghost predicate NextOk(w: World) {
    && (forall i :: EntryOk(w, i))
    && (w.pass.Scanning? ==> w.pass.left.Keys <= w.pass.known)
  }

  /** The entry was made by this start. */
  predicate Backs(s: Start, id: int, n: Scheduled) {
    s.id == id && s.revision == n.revision && n.at == s.at + s.interval * NANOS_PER_SECOND
  }

  ghost predicate Backed(w: World, i: int) {
    i in w.books.next ==> exists k :: 0 <= k < |w.starts| && Backs(w.starts[k], i, w.books.next[i])
  }

  ghost predicate StartsOk(w: World) {
    forall k :: 0 <= k < |w.starts| ==> Remembered(w, w.starts[k])
  }

  /** Any two starts of one revision of one monitor are at least its interval apart. */
  ghost predicate Spaced(starts: seq<Start>) {
    forall i, j :: 0 <= i < j < |starts| && starts[i].id == starts[j].id
                   && starts[i].revision == starts[j].revision ==>
                     starts[i].at + starts[i].interval * NANOS_PER_SECOND <= starts[j].at
  }

  /** Checks and releases leave the tables and the schedule alone. */
  lemma ChecksLeaveSchedule(w: World, a: Action)
    requires !OnTable(a) && !OnPass(a) && !a.Restart?
    ensures var w' := Next(w, a);
            w'.monitors == w.monitors && w'.nextId == w.nextId && w'.pass == w.pass
            && w'.books.next == w.books.next && w'.starts == w.starts
  {
  }

  lemma TableEntry(w: World, a: Action, i: int)
    requires OnTable(a) && TableOk(w) && EntryOk(w, i)
    ensures EntryOk(TableStep(w, a), i)
  {
  }

  lemma PassEntry(w: World, a: Action, i: int)
    requires OnPass(a) && PassRead(w, i) && EntryOk(w, i)
    ensures EntryOk(PassStep(w, a), i)
  {
  }

  lemma EntryStaysOk(w: World, a: Action, i: int)
    requires TableOk(w) && PassRead(w, i) && EntryOk(w, i)
    ensures EntryOk(Next(w, a), i)
  {
    hide TableStep, PassStep, AskStep, FinishStep, TableOk, PassRead;
    if OnTable(a) {
      TableEntry(w, a, i);
    } else if OnPass(a) {
      PassEntry(w, a, i);
    } else if !a.Restart? {
      ChecksLeaveSchedule(w, a);
    }
  }

  lemma NextStaysOk(w: World, a: Action)
    requires ReadsOk(w) && NextOk(w)
    ensures NextOk(Next(w, a))
  {
    var w' := Next(w, a);
    forall i
      ensures EntryOk(w', i)
    {
      assert PassRead(w, i) && EntryOk(w, i);
      EntryStaysOk(w, a, i);
    }
    hide EntryOk, PassRead;
    if !OnPass(a) && !a.Restart? {
      assert w'.pass == w.pass by {
        if !OnTable(a) {
          ChecksLeaveSchedule(w, a);
        }
      }
    }
  }

  lemma TableRemembers(w: World, a: Action, s: Start)
    requires OnTable(a) && TableOk(w) && Remembered(w, s)
    ensures Remembered(TableStep(w, a), s)
  {
  }

  lemma PassRemembers(w: World, a: Action, s: Start)
    requires OnPass(a) && EntryOk(w, s.id) && Remembered(w, s)
    requires w.pass.Scanning? ==> w.pass.left.Keys <= w.pass.known
    ensures Remembered(PassStep(w, a), s)
  {
  }

  lemma StillRemembered(w: World, a: Action, s: Start)
    requires TableOk(w) && EntryOk(w, s.id) && Remembered(w, s) && !a.Restart?
    requires w.pass.Scanning? ==> w.pass.left.Keys <= w.pass.known
    ensures Remembered(Next(w, a), s)
  {
    hide TableStep, PassStep, AskStep, FinishStep, TableOk, EntryOk;
    if OnTable(a) {
      TableRemembers(w, a, s);
    } else if OnPass(a) {
      PassRemembers(w, a, s);
    } else {
      ChecksLeaveSchedule(w, a);
    }
  }

  lemma NewStart(w: World, a: Action)
    requires a.Consider? ==> PassRead(w, a.id)
    requires !a.Restart?
    requires w.pass.Scanning? ==> w.pass.left.Keys <= w.pass.known
    ensures var w' := Next(w, a);
            w'.starts != w.starts ==>
              |w'.starts| == |w.starts| + 1 && w'.starts[..|w.starts|] == w.starts
              && Remembered(w', w'.starts[|w.starts|])
  {
  }

  lemma StartsStayOk(w: World, a: Action)
    requires ReadsOk(w) && NextOk(w) && StartsOk(w)
    ensures StartsOk(Next(w, a))
  {
    if a.Restart? {
      return;
    }
    if a.Consider? {
      assert PassRead(w, a.id);
    }
    NewStart(w, a);
    forall k | 0 <= k < |w.starts|
      ensures Remembered(Next(w, a), w.starts[k])
    {
      assert EntryOk(w, w.starts[k].id);
      StillRemembered(w, a, w.starts[k]);
    }
    hide Next, Remembered, TableOk, PassRead, TaskRead, AskRead, EntryOk;
  }

  lemma PassBacks(w: World, a: Action, i: int)
    requires OnPass(a) && Backed(w, i)
    ensures Backed(PassStep(w, a), i)
  {
    var w' := PassStep(w, a);
    if i in w'.books.next {
      if i in w.books.next && w'.books.next[i] == w.books.next[i] {
        var k :| 0 <= k < |w.starts| && Backs(w.starts[k], i, w.books.next[i]);
        assert w'.starts[k] == w.starts[k];
      } else {
        assert Backs(w'.starts[|w.starts|], i, w'.books.next[i]);
      }
    }
  }

  lemma StaysBacked(w: World, a: Action, i: int)
    requires Backed(w, i)
    ensures Backed(Next(w, a), i)
  {
    hide TableStep, PassStep, AskStep, FinishStep, Backed;
    if OnPass(a) {
      PassBacks(w, a, i);
    } else if a.Restart? {
      NothingBacked(w, i);
    } else {
      if OnTable(a) {
        TableLeavesStarts(w, a);
      } else {
        ChecksLeaveSchedule(w, a);
      }
      SameBacked(w, Next(w, a), i);
    }
  }

  lemma NothingBacked(w: World, i: int)
    ensures Backed(Restarted(w), i)
  {
  }

  lemma SameBacked(w: World, w': World, i: int)
    requires Backed(w, i) && w'.books.next == w.books.next && w'.starts == w.starts
    ensures Backed(w', i)
  {
  }

  lemma TableLeavesStarts(w: World, a: Action)
    requires OnTable(a)
    ensures Next(w, a).books == w.books && Next(w, a).starts == w.starts
  {
  }

  lemma StaysSpaced(w: World, a: Action)
    requires NextOk(w) && StartsOk(w) && Spaced(w.starts)
    ensures Spaced(Next(w, a).starts)
  {
    if a.Consider? {
      assert EntryOk(w, a.id);
    }
    hide EntryOk;
  }

  // ---- Every run ----------------------------------------------------------------------

  ghost predicate Inv(w: World) {
    && SlotsOk(w.books.running, w.books.occupied, w.tasks)
    && ReadsOk(w) && ResultsCurrent(w)
    && NextOk(w) && StartsOk(w) && Spaced(w.starts)
    && forall i :: Backed(w, i)
  }

  lemma {:induction false} RunKeepsInv(w: World, actions: seq<Action>)
    requires Inv(w)
    ensures Inv(Run(w, actions))
    decreases |actions|
  {
    if actions != [] {
      var a := actions[0];
      assert Inv(Next(w, a)) by {
        SlotsStayOk(w, a);
        ReadsStayOk(w, a);
        ResultsStayCurrent(w, a);
        NextStaysOk(w, a);
        StartsStayOk(w, a);
        StaysSpaced(w, a);
        forall i
          ensures Backed(Next(w, a), i)
        {
          assert Backed(w, i);
          StaysBacked(w, a, i);
        }
        hide Next, SlotsOk, ReadsOk, ResultsCurrent, NextOk, StartsOk, Spaced, Backed;
      }
      hide Next, Inv;
      RunKeepsInv(Next(w, a), actions[1..]);
    }
  }

  lemma FreshIsOk()
    ensures Inv(FRESH)
  {
    assert forall t, id :: !Marks(FRESH.tasks, t, id);
  }

  function Runners(tasks: map<int, Task>): set<int> {
    set t | t in tasks && !tasks[t].phase.Unmarked?
  }

  function Releasers(tasks: map<int, Task>): set<int> {
    set t | t in tasks && tasks[t].phase.Unmarked?
  }

  /** As many tasks mark monitors as there are marked monitors. */
  lemma {:induction false} OneMarkEach(tasks: map<int, Task>, runners: set<int>, running: set<int>)
    requires forall t :: t in runners ==> t in tasks && tasks[t].id in running
    requires forall s, t :: s in runners && t in runners && tasks[s].id == tasks[t].id ==> s == t
    requires forall id :: id in running ==> exists t :: t in runners && tasks[t].id == id
    ensures |runners| == |running|
    decreases runners
  {
    if forall t :: t !in runners {
      assert forall id :: id !in running;
      assert runners == {} && running == {};
    } else {
      var t :| t in runners;
      var id := tasks[t].id;
      forall i | i in running - {id}
        ensures exists s :: s in runners - {t} && tasks[s].id == i
      {
        var s :| s in runners && tasks[s].id == i;
        assert s in runners - {t};
      }
      OneMarkEach(tasks, runners - {t}, running - {id});
    }
  }

  lemma SlotCount(running: set<int>, occupied: nat, tasks: map<int, Task>)
    requires SlotsOk(running, occupied, tasks)
    ensures occupied == |running| + |Releasers(tasks)|
  {
    var runners := Runners(tasks);
    assert tasks.Keys == runners + Releasers(tasks);
    assert forall t :: t in runners <==> t in tasks && Marks(tasks, t, tasks[t].id);
    forall id | id in running
      ensures exists t :: t in runners && tasks[t].id == id
    {
      var t :| Marks(tasks, t, id);
      assert t in runners;
    }
    OneMarkEach(tasks, runners, running);
  }

  /** In every reachable state: the occupied slots are the running checks and the goroutines
      between the two halves of their release, at most sixteen; checks of one monitor never
      overlap; and the receive of a release never blocks. */
  lemma SlotsAreAccountedFor(actions: seq<Action>)
    ensures var w := Run(FRESH, actions);
            && w.books.occupied == |w.books.running| + |Releasers(w.tasks)| <= SLOTS
            && (forall s, t, id :: Marks(w.tasks, s, id) && Marks(w.tasks, t, id) ==> s == t)
            && (forall t :: t in w.tasks && w.tasks[t].phase.Unmarked? ==> t !in Next(w, Drain(t)).tasks)
  {
    FreshIsOk();
    RunKeepsInv(FRESH, actions);
    var w := Run(FRESH, actions);
    hide Run, Next, ReadsOk, ResultsCurrent, NextOk, StartsOk, Spaced;
    assert SlotsOk(w.books.running, w.books.occupied, w.tasks);
    hide Inv;
    SlotCount(w.books.running, w.books.occupied, w.tasks);
    forall t | t in w.tasks && w.tasks[t].phase.Unmarked?
      ensures t !in Next(w, Drain(t)).tasks
    {
      SlotDrained(w.books.running, w.books.occupied, w.tasks, t);
      SlotEffects(w, Drain(t));
    }
  }

  /** In every reachable state, restarts included, every stored result comes from a check of its monitor's current
      server, type and target, however edits and checks in flight interleave. */
  lemma ResultsAreCurrent(actions: seq<Action>, id: int, k: nat)
    requires k < |ResultsOf(Run(FRESH, actions), id)|
    ensures var w := Run(FRESH, actions);
            && id in w.monitors
            && SameCheck(ResultsOf(w, id)[k].checked.spec, w.monitors[id].spec)
  {
    FreshIsOk();
    RunKeepsInv(FRESH, actions);
    hide Run;
  }

  /** In every run, two scheduled starts of one revision of a monitor since the last restart are at
      least its interval apart, whatever the clock does. */
  lemma StartsAreSpaced(actions: seq<Action>, i: nat, j: nat)
    requires i < j < |Run(FRESH, actions).starts|
    requires var s := Run(FRESH, actions).starts; s[i].id == s[j].id && s[i].revision == s[j].revision
    ensures var s := Run(FRESH, actions).starts; s[i].at + s[i].interval * NANOS_PER_SECOND <= s[j].at
  {
    FreshIsOk();
    RunKeepsInv(FRESH, actions);
    hide Run;
  }

  /** Somebody edits or removes the monitor in these actions. */
  ghost predicate Touched(actions: seq<Action>, id: int) {
    exists k :: 0 <= k < |actions|
                && ((actions[k].Edit? && actions[k].id == id) || actions[k] == Remove(id))
  }

  lemma RevisionStep(w: World, a: Action, id: int)
    requires TableOk(w) && id in w.monitors
    ensures TableOk(Next(w, a))
    ensures ((a.Edit? && a.id == id) || a == Remove(id)) <==>
            !(id in Next(w, a).monitors && Next(w, a).monitors[id] == w.monitors[id])
    ensures id in Next(w, a).monitors ==> Next(w, a).monitors[id].revision >= w.monitors[id].revision
    ensures id in Next(w, a).monitors && Next(w, a).monitors[id] != w.monitors[id] ==>
              Next(w, a).monitors[id].revision > w.monitors[id].revision
    ensures id < Next(w, a).nextId
  {
  }

  /** The id was handed out, and its monitor is gone or beyond the revision. */
  ghost predicate Beyond(w: World, id: int, revision: nat) {
    TableOk(w) && id < w.nextId && (id in w.monitors ==> w.monitors[id].revision > revision)
  }

  lemma StaysBeyond(w: World, a: Action, id: int, revision: nat)
    requires Beyond(w, id, revision)
    ensures Beyond(Next(w, a), id, revision)
  {
  }

  /** A revision that has passed, or whose monitor is gone, does not come back. */
  lemma {:induction false} RevisionsDoNotReturn(w: World, actions: seq<Action>, id: int, revision: nat)
    requires Beyond(w, id, revision)
    ensures Beyond(Run(w, actions), id, revision)
    decreases |actions|
  {
    if actions != [] {
      StaysBeyond(w, actions[0], id, revision);
      hide Next, Beyond;
      RevisionsDoNotReturn(Next(w, actions[0]), actions[1..], id, revision);
    }
  }

  lemma {:induction false} RevisionStaysIffUntouched(w: World, actions: seq<Action>, id: int)
    requires TableOk(w) && id in w.monitors
    ensures var w' := Run(w, actions);
            (id in w'.monitors && w'.monitors[id].revision == w.monitors[id].revision) <==> !Touched(actions, id)
    decreases |actions|
  {
    if actions != [] {
      var a := actions[0];
      var rest := actions[1..];
      var w' := Next(w, a);
      RevisionStep(w, a, id);
      hide Next;
      if (a.Edit? && a.id == id) || a == Remove(id) {
        assert Touched(actions, id);
        RevisionsDoNotReturn(w', rest, id, w.monitors[id].revision);
      } else {
        RevisionStaysIffUntouched(w', rest, id);
        assert Touched(actions, id) <==> Touched(rest, id) by {
          if Touched(rest, id) {
            var k :| 0 <= k < |rest| && ((rest[k].Edit? && rest[k].id == id) || rest[k] == Remove(id));
            assert actions[k + 1] == rest[k];
          }
          if Touched(actions, id) {
            var k :| 0 <= k < |actions| && ((actions[k].Edit? && actions[k].id == id) || actions[k] == Remove(id));
            assert k > 0 && rest[k - 1] == actions[k];
          }
        }
      }
    }
  }

  /** The fence is exact: a check holds the row that the monitor had at `w`, and saves its result
      after any actions. Exactly this row and value are then added to the monitor's results, if and
      only if nobody edited or removed the monitor in between, and no other result changes. */
  lemma StoredIffUntouched(w: World, actions: seq<Action>, id: int, task: int, value: int)
    requires TableOk(w) && id in w.monitors
    requires var w' := Run(w, actions);
             task in w'.tasks && w'.tasks[task] == Task(id, w.monitors[id], Checking)
    ensures var w' := Run(w, actions);
            var stored := Next(w', Save(task, value, true)).results;
            && stored == (if Touched(actions, id) then w'.results
                          else w'.results[id := ResultsOf(w', id) + [Result(w.monitors[id], value)]])
  {
    RevisionStaysIffUntouched(w, actions, id);
    hide Run, Touched;
  }

  /** A check that failed, and every step that does not save one, adds no result; only edits and
      removals of a monitor take results away, and only its own. */
  lemma NothingElseStores(w: World, a: Action)
    requires !(a.Save? && a.ok)
    ensures var w' := Next(w, a);
            && (forall i :: i in w'.results ==> i in w.results && w'.results[i] == w.results[i])
            && (forall i :: i in w.results && i !in w'.results ==> (a.Edit? && a.id == i) || a == Remove(i))
  {
  }

  /** While there are fewer than 200 monitors, a new one gets an id that none has or had. */
  lemma CreateMeans(w: World, spec: Spec)
    requires TableOk(w)
    ensures var c := Next(w, Create(spec));
            if |w.monitors| >= 200 then c == w
            else
              && w.nextId !in w.monitors && c.nextId == w.nextId + 1 && c.results == w.results
              && c.monitors == w.monitors[w.nextId := Monitor(spec, 1)]
  {
    hide PassStep, AskStep, FinishStep;
  }

  /** An edit replaces the row, under the next revision, and keeps the monitor's results exactly when
      the same thing is checked. */
  lemma EditMeans(w: World, spec: Spec, id: int)
    ensures var e := Next(w, Edit(id, spec));
            if id !in w.monitors then e == w
            else
              && e.monitors == w.monitors[id := Monitor(spec, w.monitors[id].revision + 1)]
              && e.nextId == w.nextId
              && (forall i :: i in e.results <==>
                    i in w.results && (i == id ==>
                      spec.server == w.monitors[id].spec.server && spec.kind == w.monitors[id].spec.kind
                      && spec.target == w.monitors[id].spec.target))
              && (forall i :: i in e.results ==> e.results[i] == w.results[i])
  {
    hide PassStep, AskStep, FinishStep;
  }

  /** A removed monitor takes its results with it. */
  lemma RemoveMeans(w: World, id: int)
    ensures var r := Next(w, Remove(id));
            r.monitors == w.monitors - {id} && r.results == w.results - {id} && r.nextId == w.nextId
  {
    hide PassStep, AskStep, FinishStep;
  }

  /** An earlier start of this revision forbids another one now. */
  predicate Forbids(s: Start, id: int, revision: nat, now: int) {
    s.id == id && s.revision == revision && now < s.at + s.interval * NANOS_PER_SECOND
  }

  ghost predicate TooEarly(w: World, id: int, revision: nat, now: int) {
    exists k :: 0 <= k < |w.starts| && Forbids(w.starts[k], id, revision, now)
  }

  lemma DueIffNotTooEarly(w: World, id: int)
    requires Inv(w) && w.pass.Scanning? && id in w.pass.left && w.pass.left[id].spec.enabled
    ensures var m := w.pass.left[id];
            Due(w.books, id, m, w.pass.now) <==> !TooEarly(w, id, m.revision, w.pass.now)
  {
    var m := w.pass.left[id];
    var now := w.pass.now;
    hide SlotsOk, ReadsOk, ResultsCurrent, Spaced;
    assert EntryOk(w, id);
    if TooEarly(w, id, m.revision, now) {
      var k :| 0 <= k < |w.starts| && Forbids(w.starts[k], id, m.revision, now);
      assert Remembered(w, w.starts[k]);
    }
    if !Due(w.books, id, m, now) {
      assert Backed(w, id);
      var k :| 0 <= k < |w.starts| && Backs(w.starts[k], id, w.books.next[id]);
      assert Forbids(w.starts[k], id, m.revision, now);
    }
  }

  /** What a turn does, given whether it starts a check. */
  ghost predicate TurnDoes(w: World, w': World, id: int, task: int, starts: bool)
    requires w.pass.Scanning? && id in w.pass.left
  {
    var m := w.pass.left[id];
    && w'.pass == w.pass.(left := w.pass.left - {id})
    && if starts
       then
         && w'.tasks == w.tasks[task := Task(id, m, Checking)]
         && w'.starts == w.starts + [Start(id, m.revision, m.spec.interval, w.pass.now)]
         && w'.books.running == w.books.running + {id} && w'.books.occupied == w.books.occupied + 1
       else w'.tasks == w.tasks && w'.starts == w.starts && w'.books == w.books
  }

  lemma TurnStarts(w: World, id: int, task: int)
    requires w.pass.Scanning? && id in w.pass.left && task !in w.tasks
    ensures TurnDoes(w, Next(w, Consider(id, task)), id, task, Starts(w.books, id, w.pass.left[id], w.pass.now))
  {
    hide TableStep, AskStep, FinishStep;
  }

  /** The turn of a monitor in a pass of any run: a check of the row that was read is started, in a
      slot of its own, if and only if the monitor is enabled and not running, a slot is free, and no
      start of this revision was less than its interval ago. An edited monitor does not wait. */
  lemma TurnMeans(actions: seq<Action>, id: int, task: int)
    requires var w := Run(FRESH, actions); w.pass.Scanning? && id in w.pass.left && task !in w.tasks
    ensures var w := Run(FRESH, actions);
            var m := w.pass.left[id];
            TurnDoes(w, Next(w, Consider(id, task)), id, task,
                     m.spec.enabled && id !in w.books.running && w.books.occupied < 16
                     && !TooEarly(w, id, m.revision, w.pass.now))
  {
    FreshIsOk();
    RunKeepsInv(FRESH, actions);
    var w := Run(FRESH, actions);
    hide Run, Inv, TooEarly, TurnDoes, Next;
    TurnStarts(w, id, task);
    if w.pass.left[id].spec.enabled {
      DueIffNotTooEarly(w, id);
    }
  }

  /** The other steps of a check. A pass reads the table as it is; a request reads one row and then
      takes a slot of its own exactly when its monitor is not running and one is free; a check that
      has saved unmarks its monitor, and then gives its slot back. */
  lemma ChecksMean(w: World, now: int, task: int, id: int)
    ensures w.pass.Idle? ==> Next(w, Tick(now)) == w.(pass := Scanning(now, w.monitors, w.monitors.Keys))
    ensures id in w.monitors && task !in w.asked ==>
              Next(w, Ask(task, id)) == w.(asked := w.asked[task := (id, w.monitors[id])])
    ensures task in w.asked && task !in w.tasks ==>
              var (asked, m) := w.asked[task];
              var w' := Next(w, Grab(task));
              w'.asked == w.asked - {task} &&
              if asked !in w.books.running && w.books.occupied < 16
              then w'.tasks == w.tasks[task := Task(asked, m, Checking)]
                   && asked in w'.books.running && w'.books.occupied == w.books.occupied + 1
              else w'.tasks == w.tasks && w'.books == w.books
    ensures task in w.tasks && w.tasks[task].phase.Checking? ==>
              forall value, ok ::
                Next(w, Save(task, value, ok)).tasks == w.tasks[task := w.tasks[task].(phase := Saved)]
    ensures task in w.tasks && w.tasks[task].phase.Saved? ==>
              w.tasks[task].id !in Next(w, Release(task)).books.running
              && Next(w, Release(task)).tasks[task].phase.Unmarked?
  {
  }

  // ---- The pass as one loop -----------------------------------------------------------

  function Turns(items: seq<(int, Monitor)>, tasks: seq<int>): seq<Action>
    requires |tasks| == |items|
  {
    seq(|items|, k requires 0 <= k < |items| => Consider(items[k].0, tasks[k]))
  }

  lemma {:induction false} RunOneMore(w: World, actions: seq<Action>, a: Action)
    ensures Run(w, actions + [a]) == Next(Run(w, actions), a)
    decreases |actions|
  {
    hide Next;
    if actions == [] {
      assert (actions + [a])[1..] == [];
    } else {
      assert (actions + [a])[1..] == actions[1..] + [a];
      RunOneMore(Next(w, actions[0]), actions[1..], a);
    }
  }

  lemma RunNothing(w: World)
    ensures Run(w, []) == w
  {
  }

  /** The rows of a pass, each once, with a new goroutine for each. */
  ghost predicate Lists(w: World, items: seq<(int, Monitor)>, tasks: seq<int>) {
    && |tasks| == |items|
    && w.pass.Scanning? && w.pass.known == Ids(items)
    && (forall k :: 0 <= k < |items| ==> items[k].0 in w.pass.left && w.pass.left[items[k].0] == items[k].1)
    && (forall j, k :: 0 <= j < k < |items| ==> items[j].0 != items[k].0 && tasks[j] != tasks[k])
    && (forall k :: 0 <= k < |items| ==> tasks[k] !in w.tasks)
    && w.pass.left.Keys == Ids(items)
  }

  lemma OneTurn(w: World, id: int, task: int)
    requires w.pass.Scanning? && id in w.pass.left && task !in w.tasks
    ensures var w' := Next(w, Consider(id, task));
            && w'.books == Considered(w.books, id, w.pass.left[id], w.pass.now)
            && w'.pass == Scanning(w.pass.now, w.pass.left - {id}, w.pass.known)
            && w'.tasks.Keys <= w.tasks.Keys + {task}
  {
  }

  lemma {:induction false} TurnsFollow(w: World, items: seq<(int, Monitor)>, tasks: seq<int>, n: nat)
    requires Lists(w, items, tasks) && n <= |items|
    ensures var w' := Run(w, Turns(items, tasks)[..n]);
            && w'.books == AllConsidered(w.books, items[..n], w.pass.now)
            && w'.pass == Scanning(w.pass.now, w.pass.left - Ids(items[..n]), w.pass.known)
            && forall t :: t in w'.tasks ==> t in w.tasks || t in tasks[..n]
  {
    hide Next, Considered, Run;
    if n == 0 {
      assert Turns(items, tasks)[..0] == [];
      RunNothing(w);
      assert Ids(items[..0]) == {} && w.pass.left - {} == w.pass.left;
    } else {
      TurnsFollow(w, items, tasks, n - 1);
      var before := Turns(items, tasks)[..n - 1];
      var (id, m) := items[n - 1];
      var task := tasks[n - 1];
      assert Turns(items, tasks)[..n] == before + [Consider(id, task)];
      RunOneMore(w, before, Consider(id, task));
      var w1 := Run(w, before);
      assert id !in Ids(items[..n - 1]);
      assert task !in w1.tasks;
      OneTurn(w1, id, task);
      assert items[..n][..n - 1] == items[..n - 1];
      assert tasks[..n] == tasks[..n - 1] + [task];
      IdsGrow(items, n - 1);
      assert w.pass.left - Ids(items[..n - 1]) - {id} == w.pass.left - Ids(items[..n]);
    }
  }

  /** A pass that nothing interrupts does to the books what the scheduler's loop does. */
  lemma PassIsSchedule(w: World, items: seq<(int, Monitor)>, tasks: seq<int>)
    requires Lists(w, items, tasks)
    ensures var w' := Run(w, Turns(items, tasks) + [Prune]);
            w'.books == Pruned(AllConsidered(w.books, items, w.pass.now), Ids(items)) && w'.pass.Idle?
  {
    TurnsFollow(w, items, tasks, |items|);
    var turns := Turns(items, tasks);
    assert turns[..|items|] == turns && items[..|items|] == items;
    RunOneMore(w, turns, Prune);
    assert w.pass.left - Ids(items) == map[] by {
      assert (w.pass.left - Ids(items)).Keys == {};
    }
    hide Run;
  }
}

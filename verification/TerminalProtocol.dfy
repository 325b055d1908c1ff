/** Opening a terminal, step by step. A browser handler reserves a session and waits; the
    agent dials back, and its handler claims the session and passes its connection over a
    one-slot channel. Settings, deletion and shutdown close sessions meanwhile. The steps of
    all handlers interleave freely between lock operations.

    The state is kept session by session: a token is reserved by one browser handler, and the
    handlers that act on it afterwards are found by the token alone. `View` puts the registry
    together again. Handlers that have not reserved or claimed anything have no state: any
    request and any dial-back may arrive at any time. */
module TerminalProtocol {
  import opened Commons
  import opened TerminalRegistry

  /** Where the browser handler of a session is; from `Leaving` on only its deferred calls are
      left. */
  datatype BrowserPhase =
    | Owning                           // reserved, still holding the control lock
    | Tracked(ok: bool)                // tracked its own connection, holding the lock
    | Registered                       // the machine is to be looked up once more
    | Opening                          // waits for the agent's connection
    | Bridged(agent: Conn)             // copies frames
    | Leaving(held: Option<Conn>)      // closes the agent's connection, then releases
    | Returned

  /** Where the agent handler that claimed the session is. */
  datatype AgentPhase =
    | Unclaimed
    | Claimed
    | Verified                         // its identity is the machine's
    | Upgraded(conn: Conn)
    | Delivered(conn: Conn)            // passed over, not yet tracked
    | Refused                          // the channel was full
    | Ended

  /** One session. `delivered` is history: no step reads it. */
  datatype Session = Session(
    machine: int,
    owned: bool,
    pending: Option<int>,              // when it was reserved, until it is claimed
    conns: seq<Conn>,
    closed: set<Conn>,
    browserConn: Conn,
    browser: BrowserPhase,
    agentUuid: int,
    agent: AgentPhase,
    channel: Option<Conn>,
    delivered: Option<Conn>)
  {
    /** Beyond the last check that the machine exists. */
    predicate Proceeds() {
      browser.Opening? || browser.Bridged?
    }

    predicate HoldsLock() {
      browser.Owning? || browser.Tracked?
    }
  }

  datatype Lock =
    | Free
    | Checked(machine: int)            // a browser handler that has found terminals allowed
    | Holding(tok: Token)              // the browser handler of a new session
    | BySettings(mustClose: bool)
    | ByDelete(machine: int, removed: bool)

  /** The panel. `identity` gives the agent identity of every machine there has been; `gone` is
      history: the machines whose deletion has closed their sessions. */
  datatype Sys = Sys(
    clock: int,
    table: map<Token, Session>,
    lock: Lock,
    optionEnabled: bool,
    setting: bool,
    machines: set<int>,
    identity: map<int, int>,
    gone: set<int>)
  {
    predicate Allowed() {
      optionEnabled && setting
    }
  }

  // ---- Registry operations on one session ---------------------------------------------

  function Dropped(x: Session): Session {
    x.(owned := false, pending := None, conns := [], closed := x.closed + (set c | c in x.conns))
  }

  function Released(x: Session): Session {
    if x.owned then Dropped(x) else x
  }

  function WithConn(x: Session, conn: Conn): Session {
    if x.owned then x.(conns := x.conns + [conn]) else x.(closed := x.closed + {conn})
  }

  predicate Expired(x: Session, now: int) {
    x.pending.Some? && now - x.pending.value > TOKEN_TTL
  }

  /** The sessions that satisfy a condition are dropped: the stale ones, those of a machine, or
      (machine 0) all that are owned. */
  datatype Cull = StaleAt(now: int) | On(machine: int) {
    predicate Hits(x: Session) {
      match this
      case StaleAt(now) => Expired(x, now)
      case On(m) => x.owned && (m == 0 || x.machine == m)
    }
  }

  function Culled(table: map<Token, Session>, c: Cull): map<Token, Session> {
    map t | t in table :: if c.Hits(table[t]) then Dropped(table[t]) else table[t]
  }

  /** The registry that the sessions make up. */
  function View(table: map<Token, Session>): Sessions {
    Sessions(map t | t in table && table[t].owned :: table[t].machine,
             map t | t in table && table[t].pending.Some? :: Pending(table[t].machine, table[t].pending.value),
             map t | t in table && table[t].conns != [] :: table[t].conns,
             set t, c | t in table && c in table[t].closed :: c)
  }

  // ---- Steps --------------------------------------------------------------------------

  datatype Action =
    // a browser handler
    | TakeLock(machine: int)
    | MakeReservation(tok: Token, conn: Conn)
    | TrackBrowser(tok: Token)
    | Unlock(tok: Token)
    | LookUp(tok: Token)
    | Receive(tok: Token)
    | GiveUp(tok: Token)
    | CloseAgent(tok: Token)
    | MakeRelease(tok: Token)
    // an agent handler
    | MakeClaim(tok: Token, uuid: int)
    | Verify(tok: Token)
    | Upgrade(tok: Token, accepted: Option<Conn>)
    | Deliver(tok: Token)
    | TrackAgent(tok: Token)
    | ReleaseRefused(tok: Token)
    // everything else
    | LockSettings
    | StoreSetting(allowed: bool)
    | CloseAll
    | UnlockSettings
    | AddMachine(machine: int, uuid: int)
    | LockDelete(machine: int)
    | RemoveMachine
    | FailDelete
    | CloseSessions
    | Shutdown
    | Tick(now: int)
  {
    /** The steps of a handler on a session that exists. */
    predicate OnSession() {
      TrackBrowser? || Unlock? || LookUp? || Receive? || GiveUp? || CloseAgent? || MakeRelease?
      || MakeClaim? || Verify? || Upgrade? || Deliver? || TrackAgent? || ReleaseRefused?
    }
  }

  /** A step of `handleBrowserTerminal` after the reservation. */
  function BrowserStep(x: Session, found: bool, act: Action): Session {
    match x.browser
    case Owning =>
      if act.TrackBrowser? then WithConn(x, x.browserConn).(browser := Tracked(x.owned)) else x
    case Tracked(ok) =>
      if act.Unlock? then x.(browser := if ok then Registered else Leaving(None)) else x
    case Registered =>
      if act.LookUp? then x.(browser := if found then Opening else Leaving(None)) else x
    case Opening =>
      if act.GiveUp? then x.(browser := Leaving(None))
      else if act.Receive? && x.channel.Some? then x.(browser := Bridged(x.channel.value), channel := None)
      else x
    case Bridged(agent) => if act.GiveUp? then x.(browser := Leaving(Some(agent))) else x
    case Leaving(held) =>
      if act.CloseAgent? && held.Some? then
        x.(browser := Leaving(None), closed := x.closed + {held.value})
      else if act.MakeRelease? && held.None? then
        var y := Released(x);
        y.(browser := Returned, closed := y.closed + {x.browserConn})
      else x
    case Returned => x
  }

  /** A step of `handleAgentTerminal`. `expected` is the identity of the session's machine, if
      the machine exists. */
  function AgentStep(x: Session, expected: Option<int>, now: int, act: Action): Session {
    match x.agent
    case Unclaimed =>
      if !act.MakeClaim? || x.pending.None? then x
      else if Expired(x, now) then Dropped(x)
      else x.(pending := None, agent := Claimed, agentUuid := act.uuid)
    case Claimed =>
      if !act.Verify? then x
      else if expected == Some(x.agentUuid) then x.(agent := Verified)
      else Released(x).(agent := Ended)
    case Verified =>
      if !act.Upgrade? then x
      else if act.accepted.Some? then x.(agent := Upgraded(act.accepted.value))
      else Released(x).(agent := Ended)
    case Upgraded(conn) =>
      if !act.Deliver? then x
      else if x.channel.None? then
        x.(channel := Some(conn), agent := Delivered(conn), delivered := Some(conn))
      else x.(agent := Refused, closed := x.closed + {conn})
    case Delivered(conn) => if act.TrackAgent? then WithConn(x, conn).(agent := Ended) else x
    case Refused => if act.ReleaseRefused? then Released(x).(agent := Ended) else x
    case Ended => x
  }

  function ExpectedOf(s: Sys, x: Session): Option<int> {
    if x.machine in s.machines && x.machine in s.identity then Some(s.identity[x.machine]) else None
  }

  function SessionStep(s: Sys, x: Session, act: Action): Session {
    if act.MakeClaim? || act.Verify? || act.Upgrade? || act.Deliver? || act.TrackAgent? || act.ReleaseRefused?
    then AgentStep(x, ExpectedOf(s, x), s.clock, act)
    else BrowserStep(x, x.machine in s.machines, act)
  }

  /** One step; an action that is not possible changes nothing. */
  function Next(s: Sys, act: Action): Sys {
    if act.OnSession() then
      if act.tok !in s.table then s
      else
        var x := SessionStep(s, s.table[act.tok], act);
        s.(table := s.table[act.tok := x],
           lock := if s.table[act.tok].HoldsLock() && !x.HoldsLock() then Free else s.lock)
    else if act.MakeReservation? then
      ReservationStep(s, act.tok, act.conn)
    else
      PanelStep(s, act)
  }

  /** `reserve`, by a handler that holds the lock: expired sessions go, then the caps decide. */
  function ReservationStep(s: Sys, tok: Token, conn: Conn): Sys {
    if !s.lock.Checked? || tok in s.table then s
    else
      var table := Culled(s.table, StaleAt(s.clock));
      var view := View(table);
      if |view.owned| >= MAX_TOTAL || |TokensOf(view.owned, s.lock.machine)| >= MAX_PER_MACHINE then
        s.(table := table, lock := Free)
      else
        s.(table := table[tok := NewSession(s.lock.machine, s.clock, conn)], lock := Holding(tok))
  }

  function NewSession(machine: int, now: int, conn: Conn): Session {
    Session(machine, true, Some(now), [], {}, conn, Owning, 0, Unclaimed, None, None)
  }

  /** The control lock, settings, registration, deletion, shutdown and time. */
  function PanelStep(s: Sys, act: Action): Sys {
    match act
    case TakeLock(machine) =>
      if s.lock == Free && s.Allowed() && machine in s.identity then s.(lock := Checked(machine)) else s
    case LockSettings => if s.lock == Free then s.(lock := BySettings(false)) else s
    case StoreSetting(allowed) =>
      if s.lock == BySettings(false) then s.(setting := allowed, lock := BySettings(!allowed)) else s
    case CloseAll =>
      if s.lock == BySettings(true) then s.(table := Culled(s.table, On(0)), lock := BySettings(false)) else s
    case UnlockSettings => if s.lock == BySettings(false) then s.(lock := Free) else s
    case AddMachine(machine, uuid) =>
      if machine > 0 && machine !in s.identity then
        s.(machines := s.machines + {machine}, identity := s.identity[machine := uuid])
      else s
    case LockDelete(machine) =>
      if s.lock == Free && machine in s.machines then s.(lock := ByDelete(machine, false)) else s
    case RemoveMachine =>
      if s.lock.ByDelete? && !s.lock.removed then
        s.(machines := s.machines - {s.lock.machine}, lock := ByDelete(s.lock.machine, true))
      else s
    case FailDelete => if s.lock.ByDelete? && !s.lock.removed then s.(lock := Free) else s
    case CloseSessions =>
      if s.lock.ByDelete? && s.lock.removed then
        s.(table := Culled(s.table, On(s.lock.machine)), gone := s.gone + {s.lock.machine}, lock := Free)
      else s
    case Shutdown => s.(table := Culled(s.table, On(0)))
    case Tick(now) => if now >= s.clock then s.(clock := now) else s
    case _ => s
  }

  function Run(s: Sys, acts: seq<Action>): Sys {
    if acts == [] then s else Next(Run(s, acts[..|acts| - 1]), acts[|acts| - 1])
  }

  /** A started panel: no sessions, the lock free, any machines and settings. */
  ghost predicate Init(s: Sys) {
    && s.table == map[] && s.lock == Free && s.gone == {}
    && s.machines <= s.identity.Keys && (forall m :: m in s.identity ==> m > 0)
  }

  // ---- The sessions act on the registry as the registry's own operations do -----------

  /** A session that is not owned has nothing in the registry. */
  ghost predicate Tidy(x: Session) {
    (x.pending.Some? ==> x.owned) && (x.conns != [] ==> x.owned)
  }

  ghost predicate AllTidy(table: map<Token, Session>) {
    forall t :: t in table ==> Tidy(table[t])
  }

  /** The tokens that a cull hits. */
  function HitTokens(table: map<Token, Session>, c: Cull): set<Token> {
    set t | t in table && c.Hits(table[t])
  }

  lemma CulledEntry(table: map<Token, Session>, c: Cull, t: Token)
    requires AllTidy(table)
    ensures var v, w := View(Culled(table, c)), View(table);
            var kept := t !in HitTokens(table, c);
            && (t in v.owned <==> t in w.owned && kept) && (t in v.owned ==> v.owned[t] == w.owned[t])
            && (t in v.pending <==> t in w.pending && kept) && (t in v.pending ==> v.pending[t] == w.pending[t])
            && (t in v.connections <==> t in w.connections && kept)
            && (t in v.connections ==> v.connections[t] == w.connections[t])
  {
  }

  lemma CulledMaps(table: map<Token, Session>, c: Cull)
    requires AllTidy(table)
    ensures View(Culled(table, c)).owned == View(table).owned - HitTokens(table, c)
    ensures View(Culled(table, c)).pending == View(table).pending - HitTokens(table, c)
    ensures View(Culled(table, c)).connections == View(table).connections - HitTokens(table, c)
  {
    hide View, Culled, HitTokens, AllTidy;
    var v, w, hit := View(Culled(table, c)), View(table), HitTokens(table, c);
    forall t
      ensures t in v.owned <==> t in w.owned && t !in hit
      ensures t in v.pending <==> t in w.pending && t !in hit
      ensures t in v.connections <==> t in w.connections && t !in hit
      ensures t in v.owned ==> v.owned[t] == w.owned[t]
      ensures t in v.pending ==> v.pending[t] == w.pending[t]
      ensures t in v.connections ==> v.connections[t] == w.connections[t]
    {
      CulledEntry(table, c, t);
    }
    assert v.owned == w.owned - hit;
    assert v.pending == w.pending - hit;
    assert v.connections == w.connections - hit;
  }

  lemma CulledView(table: map<Token, Session>, c: Cull)
    requires AllTidy(table)
    ensures View(Culled(table, c)) == Without(View(table), HitTokens(table, c))
  {
    hide View, Culled, HitTokens, AllTidy;
    CulledMaps(table, c);
    ClosedByCull(table, c);
  }

  lemma ClosedByCull(table: map<Token, Session>, c: Cull)
    ensures View(Culled(table, c)).closed == View(table).closed + ConnsOf(View(table), HitTokens(table, c))
  {
    var culled := Culled(table, c);
    forall k | k in View(culled).closed
      ensures k in View(table).closed + ConnsOf(View(table), HitTokens(table, c))
    {
      var t :| t in culled && k in culled[t].closed;
      if k !in table[t].closed {
        assert t in HitTokens(table, c) && t in View(table).connections;
      }
    }
    forall k | k in View(table).closed
      ensures k in View(culled).closed
    {
      var t :| t in table && k in table[t].closed;
      assert k in culled[t].closed;
    }
    forall k | k in ConnsOf(View(table), HitTokens(table, c))
      ensures k in View(culled).closed
    {
      var t :| t in HitTokens(table, c) && t in View(table).connections && k in View(table).connections[t];
      assert k in culled[t].closed;
    }
  }

  /** `closeMachine` and the sweep of `reserve` are the registry's. */
  lemma CullsAreRegistryOperations(table: map<Token, Session>, id: int, now: int)
    requires AllTidy(table)
    ensures View(Culled(table, On(id))) == CloseMachine(View(table), id)
    ensures View(Culled(table, StaleAt(now))) == Without(View(table), StaleTokens(View(table), now))
  {
    hide View, Without, Culled;
    CulledView(table, On(id));
    CulledView(table, StaleAt(now));
    HitsOnView(table, id, now);
  }

  lemma HitsOnView(table: map<Token, Session>, id: int, now: int)
    ensures HitTokens(table, On(id)) == OnMachine(View(table), id)
    ensures HitTokens(table, StaleAt(now)) == StaleTokens(View(table), now)
  {
    var v := View(table);
    forall t
      ensures t in HitTokens(table, On(id)) <==> t in OnMachine(v, id)
      ensures t in HitTokens(table, StaleAt(now)) <==> t in StaleTokens(v, now)
    {
      assert t in v.owned <==> t in table && table[t].owned;
      assert t in v.pending <==> t in table && table[t].pending.Some?;
    }
  }

  /** Whether `reserve` succeeds, and what it does, are the registry's. */
  lemma ReservationIsRegistryOperation(s: Sys, tok: Token, conn: Conn)
    requires AllTidy(s.table) && s.lock.Checked? && tok !in s.table
    ensures var (sessions, r) := Reserve(View(s.table), tok, s.lock.machine, s.clock);
            && View(ReservationStep(s, tok, conn).table) == sessions
            && (r == Reserved <==> ReservationStep(s, tok, conn).lock == Holding(tok))
            && (r != Reserved <==> ReservationStep(s, tok, conn).lock == Free)
  {
    hide View, Without, Culled, StaleTokens, TokensOf, NewSession;
    var table := Culled(s.table, StaleAt(s.clock));
    CullsAreRegistryOperations(s.table, 0, s.clock);
    CulledKeys(s.table, StaleAt(s.clock));
    AddedView(table, tok, s.lock.machine, s.clock, conn);
  }

  lemma CulledKeys(table: map<Token, Session>, c: Cull)
    ensures Culled(table, c).Keys == table.Keys
  {
  }

  lemma AddedView(table: map<Token, Session>, tok: Token, machine: int, now: int, conn: Conn)
    requires tok !in table
    ensures var v := View(table);
            View(table[tok := NewSession(machine, now, conn)]) ==
            v.(owned := v.owned[tok := machine], pending := v.pending[tok := Pending(machine, now)])
  {
    var v := View(table);
    var w := View(table[tok := NewSession(machine, now, conn)]);
    assert w.owned == v.owned[tok := machine];
    assert w.pending == v.pending[tok := Pending(machine, now)];
    assert w.connections == v.connections;
    forall k | k in v.closed
      ensures k in w.closed
    {
      var t :| t in table && k in table[t].closed;
      assert t in table[tok := NewSession(machine, now, conn)];
    }
  }

  /** What a browser handler's step on a session does to the registry. */
  function BrowserEffect(v: Sessions, tok: Token, x: Session, act: Action): Sessions {
    if act.TrackBrowser? && x.browser.Owning? then Track(v, tok, x.browserConn).0
    else if act.CloseAgent? && x.browser.Leaving? && x.browser.held.Some? then Closing(v, x.browser.held.value)
    else if act.MakeRelease? && x.browser == Leaving(None) then Closing(Release(v, tok), x.browserConn)
    else v
  }

  /** The agent handler gives the session back: wrong machine, or no connection after all. */
  predicate ReleasesOn(x: Session, expected: Option<int>, act: Action) {
    || (act.Verify? && x.agent.Claimed? && expected != Some(x.agentUuid))
    || (act.Upgrade? && x.agent.Verified? && act.accepted.None?)
    || (act.ReleaseRefused? && x.agent.Refused?)
  }

  function AgentEffect(
    v: Sessions, tok: Token, x: Session, expected: Option<int>, now: int, act: Action): Sessions
  {
    if act.MakeClaim? && x.agent.Unclaimed? then Claim(v, tok, now).0
    else if ReleasesOn(x, expected, act) then Release(v, tok)
    else if act.Deliver? && x.agent.Upgraded? && x.channel.Some? then Closing(v, x.agent.conn)
    else if act.TrackAgent? && x.agent.Delivered? then Track(v, tok, x.agent.conn).0
    else v
  }

  function Closing(v: Sessions, conn: Conn): Sessions {
    v.(closed := v.closed + {conn})
  }

  /** The registry after one session's entry was replaced. */
  lemma ReplacedView(table: map<Token, Session>, tok: Token, y: Session)
    requires tok in table && table[tok].closed <= y.closed
    ensures var v, w := View(table), View(table[tok := y]);
            && w.owned == (if y.owned then v.owned[tok := y.machine] else v.owned - {tok})
            && w.pending == (if y.pending.Some? then v.pending[tok := Pending(y.machine, y.pending.value)]
                             else v.pending - {tok})
            && w.connections == (if y.conns != [] then v.connections[tok := y.conns] else v.connections - {tok})
            && w.closed == v.closed + y.closed
  {
    ReplacedOwned(table, tok, y);
    ReplacedPending(table, tok, y);
    ReplacedConns(table, tok, y);
    hide View;
    ReplacedClosed(table, tok, y);
  }

  lemma ReplacedOwned(table: map<Token, Session>, tok: Token, y: Session)
    requires tok in table
    ensures View(table[tok := y]).owned
            == if y.owned then View(table).owned[tok := y.machine] else View(table).owned - {tok}
  {
    var v, w := View(table).owned, View(table[tok := y]).owned;
    assert forall t :: t in w <==> if t == tok then y.owned else t in v;
  }

  lemma ReplacedPending(table: map<Token, Session>, tok: Token, y: Session)
    requires tok in table
    ensures View(table[tok := y]).pending
            == if y.pending.Some? then View(table).pending[tok := Pending(y.machine, y.pending.value)]
               else View(table).pending - {tok}
  {
    var v, w := View(table).pending, View(table[tok := y]).pending;
    assert forall t :: t in w <==> if t == tok then y.pending.Some? else t in v;
  }

  lemma ReplacedConns(table: map<Token, Session>, tok: Token, y: Session)
    requires tok in table
    ensures View(table[tok := y]).connections
            == if y.conns != [] then View(table).connections[tok := y.conns]
               else View(table).connections - {tok}
  {
    var v, w := View(table).connections, View(table[tok := y]).connections;
    assert forall t :: t in w <==> if t == tok then y.conns != [] else t in v;
  }

  lemma ReplacedClosed(table: map<Token, Session>, tok: Token, y: Session)
    requires tok in table && table[tok].closed <= y.closed
    ensures View(table[tok := y]).closed == View(table).closed + y.closed
  {
    var table' := table[tok := y];
    forall k | k in View(table).closed
      ensures k in View(table').closed
    {
      var t :| t in table && k in table[t].closed;
      assert t in table' && k in table'[t].closed;
    }
    forall k | k in y.closed
      ensures k in View(table').closed
    {
      assert tok in table' && k in table'[tok].closed;
    }
    forall k | k in View(table').closed
      ensures k in View(table).closed + y.closed
    {
      var t :| t in table' && k in table'[t].closed;
      assert t == tok || t in table;
    }
  }

  /** The entry of a session in the registry that the sessions make up. */
  lemma EntryOf(table: map<Token, Session>, tok: Token)
    requires tok in table
    ensures var v, x := View(table), table[tok];
            && (tok in v.owned <==> x.owned) && (x.owned ==> v.owned[tok] == x.machine)
            && (tok in v.pending <==> x.pending.Some?)
            && (x.pending.Some? ==> v.pending[tok] == Pending(x.machine, x.pending.value))
            && (tok in v.connections <==> x.conns != []) && (x.conns != [] ==> v.connections[tok] == x.conns)
            && x.closed <= v.closed
  {
    assert forall c :: c in table[tok].closed ==> c in View(table).closed;
  }

  /** The part of a session that the registry holds. */
  predicate SameEntry(x: Session, y: Session) {
    x.machine == y.machine && x.owned == y.owned && x.pending == y.pending && x.conns == y.conns
    && x.closed == y.closed
  }

  function AlsoClosed(x: Session, conns: set<Conn>): Session {
    x.(closed := x.closed + conns)
  }

  lemma ViewSame(table: map<Token, Session>, tok: Token, y: Session, conns: set<Conn>)
    requires tok in table && SameEntry(y, AlsoClosed(table[tok], conns))
    ensures View(table[tok := y]) == View(table).(closed := View(table).closed + conns)
  {
    hide View;
    EntryOf(table, tok);
    ReplacedView(table, tok, y);
  }

  lemma ViewReleased(table: map<Token, Session>, tok: Token, y: Session, conns: set<Conn>)
    requires tok in table && Tidy(table[tok]) && SameEntry(y, AlsoClosed(Released(table[tok]), conns))
    ensures View(table[tok := y])
            == Release(View(table), tok).(closed := Release(View(table), tok).closed + conns)
  {
    hide View;
    EntryOf(table, tok);
    ReplacedView(table, tok, y);
    ConnsOfOne(View(table), tok);
  }

  lemma ViewTracked(table: map<Token, Session>, tok: Token, y: Session, conn: Conn)
    requires tok in table && Tidy(table[tok]) && SameEntry(y, WithConn(table[tok], conn))
    ensures View(table[tok := y]) == Track(View(table), tok, conn).0
  {
    hide View;
    EntryOf(table, tok);
    ReplacedView(table, tok, y);
  }

  lemma ViewClaimed(table: map<Token, Session>, tok: Token, y: Session)
    requires tok in table && Tidy(table[tok]) && table[tok].pending.Some?
    requires SameEntry(y, table[tok].(pending := None))
    ensures View(table[tok := y]) == View(table).(pending := View(table).pending - {tok})
  {
    hide View;
    EntryOf(table, tok);
    ReplacedView(table, tok, y);
  }

  /** Every step on a session is an operation of the registry, applied to its token. */
  lemma BrowserIsRegistryOperation(table: map<Token, Session>, tok: Token, found: bool, act: Action)
    requires AllTidy(table) && tok in table
    ensures View(table[tok := BrowserStep(table[tok], found, act)]) ==
            BrowserEffect(View(table), tok, table[tok], act)
  {
    hide View, Release, Track;
    var x := table[tok];
    var y := BrowserStep(x, found, act);
    if act.TrackBrowser? && x.browser.Owning? {
      ViewTracked(table, tok, y, x.browserConn);
    } else if act.CloseAgent? && x.browser.Leaving? && x.browser.held.Some? {
      ViewSame(table, tok, y, {x.browser.held.value});
    } else if act.MakeRelease? && x.browser == Leaving(None) {
      ViewReleased(table, tok, y, {x.browserConn});
    } else {
      ViewSame(table, tok, y, {});
    }
  }

  lemma ClaimIsRegistryOperation(table: map<Token, Session>, tok: Token, expected: Option<int>, now: int, act: Action)
    requires AllTidy(table) && tok in table
    requires act.MakeClaim? && table[tok].agent.Unclaimed?
    ensures View(table[tok := AgentStep(table[tok], expected, now, act)]) == Claim(View(table), tok, now).0
  {
    hide View, Release;
    var x := table[tok];
    var y := AgentStep(x, expected, now, act);
    EntryOf(table, tok);
    if x.pending.None? {
      ViewSame(table, tok, y, {});
    } else if Expired(x, now) {
      ReleaseOwned(View(table), tok);
      ViewReleased(table, tok, y, {});
    } else {
      ViewClaimed(table, tok, y);
    }
  }

  lemma AgentIsRegistryOperation(
    table: map<Token, Session>, tok: Token, expected: Option<int>, now: int, act: Action)
    requires AllTidy(table) && tok in table
    ensures View(table[tok := AgentStep(table[tok], expected, now, act)]) ==
            AgentEffect(View(table), tok, table[tok], expected, now, act)
  {
    hide View, Release, Track, Claim;
    var x := table[tok];
    var y := AgentStep(x, expected, now, act);
    if act.MakeClaim? && x.agent.Unclaimed? {
      ClaimIsRegistryOperation(table, tok, expected, now, act);
    } else if ReleasesOn(x, expected, act) {
      ViewReleased(table, tok, y, {});
    } else if act.Deliver? && x.agent.Upgraded? && x.channel.Some? {
      ViewSame(table, tok, y, {x.agent.conn});
    } else if act.TrackAgent? && x.agent.Delivered? {
      ViewTracked(table, tok, y, x.agent.conn);
    } else {
      ViewSame(table, tok, y, {});
    }
  }

  lemma ReleaseOwned(v: Sessions, tok: Token)
    requires tok in v.owned
    ensures Release(v, tok) == Without(v, {tok})
  {
  }

  // ---- What every step keeps ----------------------------------------------------------

  predicate BeforeDelivery(p: AgentPhase) {
    p.Unclaimed? || p.Claimed? || p.Verified? || p.Upgraded?
  }

  /** The conditions on one session, given the identities of the machines. */
  ghost predicate SessionOk(x: Session, identity: map<int, int>) {
    && Tidy(x)
    && (x.pending.Some? ==> x.agent.Unclaimed?)
    && (x.browser.Returned? ==> !x.owned)
    && (BeforeDelivery(x.agent) ==> x.delivered.None?)
    && !x.agent.Refused?
    // what was delivered is what is in the channel and what either handler holds
    && (x.channel.Some? ==> x.channel == x.delivered)
    && (x.browser.Bridged? ==> x.delivered == Some(x.browser.agent))
    && (x.browser.Leaving? && x.browser.held.Some? ==> x.delivered == x.browser.held)
    && (x.agent.Delivered? ==> x.delivered == Some(x.agent.conn))
    // a delivered connection is closed, or registered with an owned session, or about to be
    && (x.delivered.Some? ==>
          || x.delivered.value in x.closed
          || (x.owned && x.delivered.value in x.conns)
          || x.agent.Delivered?)
    // it came from the agent of the session's machine
    && x.machine in identity
    && (x.agent.Verified? || x.agent.Upgraded? || x.delivered.Some? ==>
          identity[x.machine] == x.agentUuid)
  }

  ghost predicate SessionsOk(table: map<Token, Session>, identity: map<int, int>) {
    forall t :: t in table ==> SessionOk(table[t], identity)
  }

  /** The control lock is held by whoever thinks so, and then terminals are allowed. */
  ghost predicate LockOk(s: Sys) {
    && (forall t :: t in s.table && s.table[t].HoldsLock() ==> s.lock == Holding(t))
    && (s.lock.Holding? ==> s.lock.tok in s.table && s.table[s.lock.tok].HoldsLock())
    && (s.lock.Checked? ==> s.lock.machine in s.identity)
    && (s.lock.Checked? || s.lock.Holding? ==> s.Allowed())
    && (!s.Allowed() && s.lock != BySettings(true) ==> forall t :: t in s.table ==> !s.table[t].owned)
  }

  /** A session that has proceeded and is still owned is for a machine that exists, or whose
      deletion is just about to close it. */
  ghost predicate DeletionsOk(s: Sys) {
    && s.machines <= s.identity.Keys && s.gone <= s.identity.Keys && s.gone !! s.machines
    && (forall m :: m in s.identity ==> m > 0)
    && (s.lock.ByDelete? ==>
          && s.lock.machine in s.identity && s.lock.machine !in s.gone
          && (s.lock.removed ==> s.lock.machine !in s.machines))
    && (forall t :: t in s.table && s.table[t].owned && s.table[t].Proceeds() ==>
          s.table[t].machine in s.machines || s.lock == ByDelete(s.table[t].machine, true))
  }

  ghost predicate Inv(s: Sys) {
    SessionsOk(s.table, s.identity) && Capped(View(s.table)) && LockOk(s) && DeletionsOk(s)
  }

  lemma BrowserStepOk(x: Session, found: bool, act: Action, identity: map<int, int>)
    requires SessionOk(x, identity)
    ensures SessionOk(BrowserStep(x, found, act), identity)
  {
    match x.browser
    case Owning =>
    case Tracked(_) =>
    case Registered =>
    case Opening =>
    case Bridged(_) =>
    case Leaving(_) =>
    case Returned =>
  }

  lemma AgentStepOk(x: Session, expected: Option<int>, now: int, act: Action, identity: map<int, int>)
    requires SessionOk(x, identity)
    requires expected.Some? ==> expected.value == identity[x.machine]
    ensures SessionOk(AgentStep(x, expected, now, act), identity)
  {
  }

  lemma DroppedOk(x: Session, identity: map<int, int>)
    requires SessionOk(x, identity)
    ensures SessionOk(Dropped(x), identity)
  {
  }

  lemma SessionStepOk(s: Sys, x: Session, act: Action)
    requires SessionOk(x, s.identity)
    ensures SessionOk(SessionStep(s, x, act), s.identity)
  {
    hide SessionOk, AgentStep, BrowserStep;
    assert x.machine in s.identity by {
      MachineKnown(x, s.identity);
    }
    AgentStepOk(x, ExpectedOf(s, x), s.clock, act, s.identity);
    BrowserStepOk(x, x.machine in s.machines, act, s.identity);
  }

  lemma MachineKnown(x: Session, identity: map<int, int>)
    requires SessionOk(x, identity)
    ensures x.machine in identity && Tidy(x)
  {
  }

  lemma CulledOk(table: map<Token, Session>, c: Cull, identity: map<int, int>)
    requires SessionsOk(table, identity)
    ensures SessionsOk(Culled(table, c), identity)
  {
    hide SessionOk, Dropped;
    forall t | t in table
      ensures SessionOk(Culled(table, c)[t], identity)
    {
      DroppedOk(table[t], identity);
    }
  }

  lemma MoreIdentities(table: map<Token, Session>, identity: map<int, int>, machine: int, uuid: int)
    requires SessionsOk(table, identity) && machine !in identity
    ensures SessionsOk(table, identity[machine := uuid])
  {
  }

  lemma NewSessionOk(machine: int, now: int, conn: Conn, identity: map<int, int>)
    requires machine in identity
    ensures SessionOk(NewSession(machine, now, conn), identity)
  {
  }

  lemma NextSessionsOk(s: Sys, act: Action)
    requires SessionsOk(s.table, s.identity) && LockOk(s)
    ensures SessionsOk(Next(s, act).table, Next(s, act).identity)
  {
    hide SessionOk, SessionStep, Culled, View, NewSession;
    if act.OnSession() {
      if act.tok in s.table {
        SessionStepOk(s, s.table[act.tok], act);
      }
    } else if act.MakeReservation? {
      CulledOk(s.table, StaleAt(s.clock), s.identity);
      if s.lock.Checked? {
        NewSessionOk(s.lock.machine, s.clock, act.conn, s.identity);
      }
    } else {
      CulledOk(s.table, On(0), s.identity);
      if s.lock.ByDelete? {
        CulledOk(s.table, On(s.lock.machine), s.identity);
      }
      if act.AddMachine? && act.machine !in s.identity {
        MoreIdentities(s.table, s.identity, act.machine, act.uuid);
      }
    }
  }

  // The lock and the deletions need only a few facts about how a step changes a session.

  /** A step neither makes a session owned nor lets it proceed without the machine. */
  lemma SessionStepFacts(s: Sys, x: Session, act: Action)
    ensures var y := SessionStep(s, x, act);
            && y.machine == x.machine
            && (y.owned ==> x.owned)
            && (y.HoldsLock() ==> x.HoldsLock())
            && (y.Proceeds() && !x.Proceeds() ==> x.machine in s.machines)
  {
  }

  lemma CulledFacts(table: map<Token, Session>, c: Cull)
    ensures var u := Culled(table, c);
            && u.Keys == table.Keys
            && (forall t :: t in table ==>
                  && u[t].machine == table[t].machine && u[t].browser == table[t].browser
                  && u[t].delivered == table[t].delivered
                  && (u[t].owned ==> table[t].owned && !c.Hits(table[t])))
  {
  }

  lemma LockOkOnSession(s: Sys, act: Action)
    requires LockOk(s) && act.OnSession() && act.tok in s.table
    ensures LockOk(Next(s, act))
  {
    hide SessionStep;
    SessionStepFacts(s, s.table[act.tok], act);
  }

  lemma LockOkOnReservation(s: Sys, tok: Token, conn: Conn)
    requires LockOk(s)
    ensures LockOk(ReservationStep(s, tok, conn))
  {
    hide Culled, View;
    CulledFacts(s.table, StaleAt(s.clock));
  }

  predicate Culls(act: Action) {
    act.CloseAll? || act.CloseSessions? || act.Shutdown?
  }

  lemma LockOkOnClosing(s: Sys, act: Action)
    requires LockOk(s) && Culls(act)
    ensures LockOk(PanelStep(s, act))
  {
    hide Culled;
    CulledFacts(s.table, On(0));
    if s.lock.ByDelete? {
      CulledFacts(s.table, On(s.lock.machine));
    }
  }

  lemma LockOkOnRest(s: Sys, act: Action)
    requires LockOk(s) && !Culls(act)
    ensures LockOk(PanelStep(s, act))
  {
    hide Culled;
    assert PanelStep(s, act).table == s.table;
  }

  lemma LockOkOnPanel(s: Sys, act: Action)
    requires LockOk(s)
    ensures LockOk(PanelStep(s, act))
  {
    hide LockOk, PanelStep;
    if Culls(act) {
      LockOkOnClosing(s, act);
    } else {
      LockOkOnRest(s, act);
    }
  }

  lemma DeletionsOkOnSession(s: Sys, act: Action)
    requires DeletionsOk(s) && LockOk(s) && act.OnSession() && act.tok in s.table
    ensures DeletionsOk(Next(s, act))
  {
    hide SessionStep;
    SessionStepFacts(s, s.table[act.tok], act);
  }

  lemma DeletionsOkOnReservation(s: Sys, tok: Token, conn: Conn)
    requires DeletionsOk(s)
    ensures DeletionsOk(ReservationStep(s, tok, conn))
  {
    hide Culled, View;
    CulledFacts(s.table, StaleAt(s.clock));
  }

  lemma DeletionsOkOnPanel(s: Sys, act: Action)
    requires DeletionsOk(s)
    ensures DeletionsOk(PanelStep(s, act))
  {
    hide Culled;
    CulledFacts(s.table, On(0));
    if s.lock.ByDelete? {
      CulledFacts(s.table, On(s.lock.machine));
    }
  }

  // The caps, by way of the registry.

  lemma ViewConsistent(table: map<Token, Session>)
    requires AllTidy(table)
    ensures Consistent(View(table))
  {
  }

  /** Sessions that were given up do not break the caps. */
  lemma CappedByLoss(table: map<Token, Session>, later: map<Token, Session>)
    requires Capped(View(table))
    requires forall t :: t in later && later[t].owned ==>
               t in table && table[t].owned && table[t].machine == later[t].machine
    ensures Capped(View(later))
  {
    var v, w := View(table).owned, View(later).owned;
    forall t | t in w
      ensures t in v && v[t] == w[t]
    {
      assert t in later && later[t].owned;
    }
    SubsetSize(w.Keys, v.Keys);
    forall m
      ensures |TokensOf(w, m)| <= MAX_PER_MACHINE
    {
      assert forall t :: t in TokensOf(w, m) ==> t in TokensOf(v, m);
      SubsetSize(TokensOf(w, m), TokensOf(v, m));
    }
  }

  lemma NextCapped(s: Sys, act: Action)
    requires Capped(View(s.table)) && AllTidy(s.table)
    ensures Capped(View(Next(s, act).table))
  {
    hide SessionStep, Culled, View, Capped, Reserve, ReservationStep;
    if act.OnSession() {
      if act.tok in s.table {
        SessionStepFacts(s, s.table[act.tok], act);
        CappedByLoss(s.table, Next(s, act).table);
      }
    } else if act.MakeReservation? {
      ReservationCapped(s, act.tok, act.conn);
    } else {
      CulledFacts(s.table, On(0));
      CappedByLoss(s.table, Culled(s.table, On(0)));
      if s.lock.ByDelete? {
        CulledFacts(s.table, On(s.lock.machine));
        CappedByLoss(s.table, Culled(s.table, On(s.lock.machine)));
      }
    }
  }

  lemma ReservationCapped(s: Sys, tok: Token, conn: Conn)
    requires Capped(View(s.table)) && AllTidy(s.table)
    ensures Capped(View(ReservationStep(s, tok, conn).table))
  {
    if s.lock.Checked? && tok !in s.table {
      hide ReservationStep, Reserve, View, Consistent, Capped;
      ViewConsistent(s.table);
      ReservationIsRegistryOperation(s, tok, conn);
      NotInView(s.table, tok);
      ReserveKeeps(View(s.table), tok, s.lock.machine, s.clock);
    }
  }

  lemma NotInView(table: map<Token, Session>, tok: Token)
    requires tok !in table
    ensures tok !in View(table).owned
  {
  }

  lemma SessionsTidy(table: map<Token, Session>, identity: map<int, int>)
    requires SessionsOk(table, identity)
    ensures AllTidy(table)
  {
  }

  lemma NextKeepsInv(s: Sys, act: Action)
    requires Inv(s)
    ensures Inv(Next(s, act))
  {
    SessionsTidy(s.table, s.identity);
    NextSessionsOk(s, act);
    NextCapped(s, act);
    assert LockOk(Next(s, act)) && DeletionsOk(Next(s, act)) by {
      hide SessionsOk, Capped, View, LockOk, DeletionsOk, SessionStep, ReservationStep, PanelStep;
      if act.OnSession() {
        if act.tok in s.table {
          LockOkOnSession(s, act);
          DeletionsOkOnSession(s, act);
        }
      } else if act.MakeReservation? {
        LockOkOnReservation(s, act.tok, act.conn);
        DeletionsOkOnReservation(s, act.tok, act.conn);
      } else {
        LockOkOnPanel(s, act);
        DeletionsOkOnPanel(s, act);
      }
    }
  }

  lemma {:induction false} RunKeepsInv(s: Sys, acts: seq<Action>)
    requires Inv(s)
    ensures Inv(Run(s, acts))
  {
    hide Inv, Next;
    if acts != [] {
      RunKeepsInv(s, acts[..|acts| - 1]);
      NextKeepsInv(Run(s, acts[..|acts| - 1]), acts[|acts| - 1]);
    }
  }

  lemma InitInv(s: Sys)
    requires Init(s)
    ensures Inv(s)
  {
    var v := View(s.table);
    assert v.owned == map[];
    assert forall m :: TokensOf(v.owned, m) == {};
  }

  // ---- What holds of every run of a started panel --------------------------------------

  /** The registry always respects its caps, and a slot is only taken while the browser handler
      that will give it back is still there. */
  lemma SlotsAreAccountedFor(s: Sys, acts: seq<Action>)
    requires Init(s)
    ensures var r := Run(s, acts);
            && Consistent(View(r.table)) && Capped(View(r.table))
            && (forall t :: t in View(r.table).owned ==> t in r.table && !r.table[t].browser.Returned?)
  {
    hide Run;
    InitInv(s);
    RunKeepsInv(s, acts);
    SessionsTidy(Run(s, acts).table, Run(s, acts).identity);
    ViewConsistent(Run(s, acts).table);
  }

  /** The agent handler that is about to pass its connection on always finds the channel empty:
      the branch for a full one is never taken. */
  lemma ChannelIsFree(s: Sys, acts: seq<Action>, tok: Token)
    requires Init(s) && tok in Run(s, acts).table
    ensures var x := Run(s, acts).table[tok];
            (x.agent.Upgraded? ==> x.channel.None?) && !x.agent.Refused?
  {
    hide Run, LockOk, DeletionsOk, Capped;
    InitInv(s);
    RunKeepsInv(s, acts);
  }

  lemma SessionStepDelivered(s: Sys, x: Session, act: Action)
    requires SessionOk(x, s.identity) && x.delivered.Some?
    ensures SessionStep(s, x, act).delivered == x.delivered
  {
  }

  lemma NextKeepsDelivered(s: Sys, act: Action, tok: Token)
    requires SessionsOk(s.table, s.identity) && tok in s.table && s.table[tok].delivered.Some?
    ensures tok in Next(s, act).table && Next(s, act).table[tok].delivered == s.table[tok].delivered
  {
    hide SessionOk, SessionStep, Culled, View, NewSession;
    SessionStepDelivered(s, s.table[tok], act);
    NextOnOthers(s, act, tok);
  }

  /** What a step does to a session that it does not concern: at most it drops it. */
  lemma NextOnOthers(s: Sys, act: Action, tok: Token)
    requires tok in s.table
    ensures tok in Next(s, act).table
    ensures var x, y := s.table[tok], Next(s, act).table[tok];
            if act.OnSession() && act.tok == tok then y == SessionStep(s, x, act)
            else y.machine == x.machine && y.browser == x.browser && y.delivered == x.delivered
  {
    hide SessionStep, Culled, View, NewSession;
    if !act.OnSession() {
      if act.MakeReservation? {
        CulledOne(s.table, StaleAt(s.clock), tok);
      } else if act.CloseSessions? && s.lock.ByDelete? {
        CulledOne(s.table, On(s.lock.machine), tok);
      } else {
        CulledOne(s.table, On(0), tok);
      }
    }
  }

  lemma CulledOne(table: map<Token, Session>, c: Cull, tok: Token)
    requires tok in table
    ensures tok in Culled(table, c)
    ensures var x, y := table[tok], Culled(table, c)[tok];
            y.machine == x.machine && y.browser == x.browser && y.delivered == x.delivered
  {
  }

  /** A session is delivered at most one agent connection: once there is one, it stays the one,
      whatever any handler does. */
  lemma {:induction false} DeliveredOnce(s: Sys, acts: seq<Action>, tok: Token)
    requires Inv(s) && tok in s.table && s.table[tok].delivered.Some?
    ensures tok in Run(s, acts).table && Run(s, acts).table[tok].delivered == s.table[tok].delivered
  {
    hide Next;
    if acts != [] {
      var before := acts[..|acts| - 1];
      DeliveredOnce(s, before, tok);
      RunKeepsInv(s, before);
      NextKeepsDelivered(Run(s, before), acts[|acts| - 1], tok);
    }
  }

  /** Once both handlers of a session have returned, the agent's connection is closed, in
      whatever order they and the closers of sessions ran. */
  lemma NoConnectionLeaks(s: Sys, acts: seq<Action>, tok: Token)
    requires Init(s) && tok in Run(s, acts).table
    requires var x := Run(s, acts).table[tok];
             x.browser.Returned? && x.agent.Ended? && x.delivered.Some?
    ensures Run(s, acts).table[tok].delivered.value in View(Run(s, acts).table).closed
  {
    hide Run, LockOk, DeletionsOk, Capped;
    InitInv(s);
    RunKeepsInv(s, acts);
    EntryOf(Run(s, acts).table, tok);
  }

  /** Whenever the control lock is free and terminals are disallowed, no session is owned. */
  lemma DisallowedMeansNone(s: Sys, acts: seq<Action>)
    requires Init(s)
    requires Run(s, acts).lock == Free && !Run(s, acts).Allowed()
    ensures View(Run(s, acts).table).owned == map[]
  {
    hide Run, SessionsOk, DeletionsOk, Capped;
    InitInv(s);
    RunKeepsInv(s, acts);
    var owned := View(Run(s, acts).table).owned;
    forall t
      ensures t !in owned
    {
    }
    assert owned.Keys == {};
  }

  lemma GoneStaysGone(s: Sys, act: Action)
    ensures s.gone <= Next(s, act).gone
  {
    hide SessionStep, Culled, View, NewSession;
  }

  lemma PanelAddsNone(s: Sys, act: Action)
    ensures PanelStep(s, act).table.Keys == s.table.Keys
  {
    hide Culled;
    CulledKeys(s.table, On(0));
    if s.lock.ByDelete? {
      CulledKeys(s.table, On(s.lock.machine));
    }
  }

  /** A session that a step adds has not proceeded. */
  lemma NewSessionsWait(s: Sys, act: Action, tok: Token)
    requires tok !in s.table && tok in Next(s, act).table
    ensures !Next(s, act).table[tok].Proceeds()
  {
    hide SessionStep, View, Culled, PanelStep;
    CulledKeys(s.table, StaleAt(s.clock));
    PanelAddsNone(s, act);
  }

  lemma OwnedAndGone(s: Sys, tok: Token)
    requires Inv(s) && tok in s.table && s.table[tok].machine in s.gone && s.table[tok].owned
    ensures !s.table[tok].Proceeds()
  {
    hide SessionsOk, Capped, View, LockOk;
  }

  /** Once a machine's deletion has closed its sessions, in every run from there: a session for it
      that has not passed the last check never passes it, whether it was reserved before the
      deletion or is reserved afterwards; and one that had passed it holds no slot. */
  lemma {:induction false} DeletedMachinesStayShut(s: Sys, acts: seq<Action>, tok: Token, machine: int)
    requires Inv(s) && machine in s.gone
    ensures machine in Run(s, acts).gone
    ensures tok in Run(s, acts).table && Run(s, acts).table[tok].machine == machine ==>
              && (Run(s, acts).table[tok].Proceeds() ==> tok in s.table && s.table[tok].Proceeds())
              && (Run(s, acts).table[tok].owned ==> !Run(s, acts).table[tok].Proceeds())
  {
    hide Next, SessionStep, Inv;
    RunKeepsInv(s, acts);
    if acts != [] {
      var act := acts[|acts| - 1];
      var r := Run(s, acts[..|acts| - 1]);
      DeletedMachinesStayShut(s, acts[..|acts| - 1], tok, machine);
      RunKeepsInv(s, acts[..|acts| - 1]);
      GoneStaysGone(r, act);
      if tok in r.table {
        NextOnOthers(r, act, tok);
        SessionStepFacts(r, r.table[tok], act);
        GoneIsNotThere(r, machine);
      } else if tok in Run(s, acts).table {
        NewSessionsWait(r, act, tok);
      }
    }
    if tok in Run(s, acts).table && Run(s, acts).table[tok].machine == machine && Run(s, acts).table[tok].owned {
      OwnedAndGone(Run(s, acts), tok);
    }
  }

  lemma GoneIsNotThere(s: Sys, machine: int)
    requires Inv(s) && machine in s.gone
    ensures machine !in s.machines
  {
    hide SessionsOk, Capped, View, LockOk;
    assert machine !in s.gone * s.machines;
  }

  /** A browser is only ever bridged to the agent of the machine it asked for. */
  lemma BridgedToTheRightAgent(s: Sys, acts: seq<Action>, tok: Token)
    requires Init(s) && tok in Run(s, acts).table && Run(s, acts).table[tok].browser.Bridged?
    ensures var r := Run(s, acts);
            var x := r.table[tok];
            && x.delivered == Some(x.browser.agent)
            && x.machine in r.identity && x.agentUuid == r.identity[x.machine]
  {
    hide Run, LockOk, DeletionsOk, Capped;
    InitInv(s);
    RunKeepsInv(s, acts);
  }

  // ---- Settings -----------------------------------------------------------------------

  /** The step stores a setting. */
  predicate Stores(s: Sys, act: Action) {
    act.StoreSetting? && s.lock == BySettings(false)
  }

  predicate StoresAs(s: Sys, act: Action, allowed: bool) {
    act == StoreSetting(allowed) && s.lock == BySettings(false)
  }

  /** The last setting that a run stored, or the one it started with. */
  ghost predicate LastStored(s: Sys, acts: seq<Action>, allowed: bool) {
    || (s.setting == allowed && forall k :: 0 <= k < |acts| ==> !Stores(Run(s, acts[..k]), acts[k]))
    || exists k :: 0 <= k < |acts| && StoresAs(Run(s, acts[..k]), acts[k], allowed)
                   && forall j :: k < j < |acts| ==> !Stores(Run(s, acts[..j]), acts[j])
  }

  lemma SettingStep(s: Sys, act: Action)
    ensures Next(s, act).setting == (if Stores(s, act) then act.allowed else s.setting)
    ensures Next(s, act).optionEnabled == s.optionEnabled
  {
    hide SessionStep, Culled, View, NewSession;
  }

  lemma LastStoredStep(s: Sys, acts: seq<Action>, allowed: bool)
    requires acts != []
    ensures var n := |acts| - 1;
            if Stores(Run(s, acts[..n]), acts[n])
            then StoresAs(Run(s, acts[..n]), acts[n], allowed) ==> LastStored(s, acts, allowed)
            else LastStored(s, acts[..n], allowed) ==> LastStored(s, acts, allowed)
  {
    hide Run, Stores, StoresAs;
    var n := |acts| - 1;
    var before := acts[..n];
    assert forall k :: 0 <= k <= n ==> before[..k] == acts[..k];
    if !Stores(Run(s, before), acts[n]) && LastStored(s, before, allowed) {
      if exists k :: 0 <= k < n && StoresAs(Run(s, before[..k]), before[k], allowed)
                     && forall j :: k < j < n ==> !Stores(Run(s, before[..j]), before[j])
      {
        var k :| 0 <= k < n && StoresAs(Run(s, before[..k]), before[k], allowed)
                 && forall j :: k < j < n ==> !Stores(Run(s, before[..j]), before[j]);
        assert StoresAs(Run(s, acts[..k]), acts[k], allowed);
        assert forall j :: k < j < |acts| ==> !Stores(Run(s, acts[..j]), acts[j]);
      }
    }
  }

  /** Over any run: terminals are allowed if and only if the option is on and the last setting that
      was stored, or the first one if none was, allows them. */
  lemma {:induction false} AllowedMeans(s: Sys, acts: seq<Action>)
    ensures LastStored(s, acts, Run(s, acts).setting)
    ensures Run(s, acts).optionEnabled == s.optionEnabled
    ensures Run(s, acts).Allowed() <==> s.optionEnabled && LastStored(s, acts, true)
  {
    LastStoredIsOne(s, acts);
    hide Next, LastStored;
    if acts == [] {
      NothingStored(s);
    } else {
      var n := |acts| - 1;
      AllowedMeans(s, acts[..n]);
      SettingStep(Run(s, acts[..n]), acts[n]);
      LastStoredStep(s, acts, Run(s, acts).setting);
    }
  }

  lemma NothingStored(s: Sys)
    ensures LastStored(s, [], s.setting)
  {
  }

  /** There is only one last setting. */
  lemma LastStoredIsOne(s: Sys, acts: seq<Action>)
    ensures !(LastStored(s, acts, true) && LastStored(s, acts, false))
  {
    hide Run;
  }

  /** No step stores that terminals are allowed. */
  ghost predicate NeverAllows(s: Sys, acts: seq<Action>) {
    forall k :: 0 <= k < |acts| ==> !StoresAs(Run(s, acts[..k]), acts[k], true)
  }

  /** While terminals are disallowed and none is let through, the panel reserves no session. */
  lemma NothingReserved(s: Sys, act: Action)
    requires Inv(s) && !s.setting && !StoresAs(s, act, true)
    ensures !Next(s, act).setting && Next(s, act).table.Keys == s.table.Keys
  {
    hide SessionsOk, Capped, DeletionsOk, SessionStep, Culled, View, PanelStep;
    CulledKeys(s.table, StaleAt(s.clock));
    PanelAddsNone(s, act);
    SettingStep(s, act);
  }

  /** From the moment a save has stored that terminals are disallowed, in every run until one stores
      that they are allowed: they are not, no session is reserved, and whenever the lock is free none
      is owned. */
  lemma {:induction false} DisallowingCloses(s: Sys, acts: seq<Action>)
    requires Inv(s) && s.lock == BySettings(false) && NeverAllows(Next(s, StoreSetting(false)), acts)
    ensures var r := Run(Next(s, StoreSetting(false)), acts);
            && !r.setting && !r.Allowed() && Inv(r)
            && r.table.Keys == s.table.Keys
            && (r.lock == Free ==> forall t :: t in r.table ==> !r.table[t].owned)
  {
    var stored := Next(s, StoreSetting(false));
    NextKeepsInv(s, StoreSetting(false));
    assert !stored.setting && stored.table == s.table;
    if acts != [] {
      var n := |acts| - 1;
      assert NeverAllows(stored, acts[..n]) by {
        assert forall k :: 0 <= k < n ==> acts[..n][..k] == acts[..k];
      }
      assert !StoresAs(Run(stored, acts[..n]), acts[n], true);
      hide Next, Inv;
      DisallowingCloses(s, acts[..n]);
      NothingReserved(Run(stored, acts[..n]), acts[n]);
      NextKeepsInv(Run(stored, acts[..n]), acts[n]);
    }
    hide Next, Inv;
    LockMeans(Run(stored, acts));
  }

  lemma LockMeans(s: Sys)
    requires Inv(s) && !s.setting
    ensures s.lock == Free ==> forall t :: t in s.table ==> !s.table[t].owned
  {
    hide SessionsOk, Capped, DeletionsOk;
  }

  // ---- A terminal opens and closes ----------------------------------------------------

  /** The session after steps of its own two handlers, while nothing else happens. */
  function Walk(s: Sys, x: Session, acts: seq<Action>): Session {
    if acts == [] then x else SessionStep(s, Walk(s, x, acts[..|acts| - 1]), acts[|acts| - 1])
  }

  predicate SameSurroundings(s: Sys, r: Sys) {
    r.machines == s.machines && r.identity == s.identity && r.clock == s.clock
  }

  lemma OwnStep(s: Sys, r: Sys, act: Action)
    requires act.OnSession() && act.tok in r.table && SameSurroundings(s, r)
    ensures act.tok in Next(r, act).table && SameSurroundings(s, Next(r, act))
    ensures Next(r, act).table[act.tok] == SessionStep(s, r.table[act.tok], act)
  {
  }

  lemma {:induction false} RunIsWalk(s: Sys, tok: Token, acts: seq<Action>)
    requires tok in s.table && forall k :: 0 <= k < |acts| ==> acts[k].OnSession() && acts[k].tok == tok
    ensures tok in Run(s, acts).table && SameSurroundings(s, Run(s, acts))
    ensures Run(s, acts).table[tok] == Walk(s, s.table[tok], acts)
  {
    hide Next, SessionStep;
    if acts != [] {
      var n := |acts| - 1;
      RunIsWalk(s, tok, acts[..n]);
      OwnStep(s, Run(s, acts[..n]), acts[n]);
    }
  }

  lemma WalkOne(s: Sys, x: Session, acts: seq<Action>, act: Action)
    ensures Walk(s, x, acts + [act]) == SessionStep(s, Walk(s, x, acts), act)
  {
    hide SessionStep;
    assert (acts + [act])[..|acts|] == acts;
  }

  /** The handlers' steps while a reserved session is opened by agent `uuid` over connection `conn`. */
  function OpeningSteps(tok: Token, uuid: int, conn: Conn): seq<Action> {
    [TrackBrowser(tok), Unlock(tok), LookUp(tok), MakeClaim(tok, uuid), Verify(tok), Upgrade(tok, Some(conn)),
     Deliver(tok), TrackAgent(tok), Receive(tok)]
  }

  function ClosingSteps(tok: Token): seq<Action> {
    [GiveUp(tok), CloseAgent(tok), MakeRelease(tok)]
  }

  /** With the machine there and its own agent dialling back, a new session ends up bridged to the
      agent's connection, with both connections tracked. */
  lemma SessionOpens(s: Sys, x: Session, tok: Token, uuid: int, conn: Conn)
    requires x == NewSession(x.machine, s.clock, x.browserConn)
    requires x.machine in s.machines && x.machine in s.identity && s.identity[x.machine] == uuid
    ensures Walk(s, x, OpeningSteps(tok, uuid, conn)) ==
            x.(browser := Bridged(conn), agent := Ended, agentUuid := uuid, pending := None,
               delivered := Some(conn), conns := [x.browserConn, conn])
  {
    var acts := OpeningSteps(tok, uuid, conn);
    var x1 := x.(browser := Tracked(true), conns := [x.browserConn]);
    var x3 := x1.(browser := Opening);
    var x4 := x3.(pending := None, agent := Claimed, agentUuid := uuid);
    var x6 := x4.(agent := Upgraded(conn));
    var x7 := x4.(agent := Delivered(conn), channel := Some(conn), delivered := Some(conn));
    var x8 := x7.(agent := Ended, conns := [x.browserConn, conn]);
    assert SessionStep(s, x, acts[0]) == x1;
    assert SessionStep(s, x1, acts[1]) == x1.(browser := Registered);
    assert SessionStep(s, x1.(browser := Registered), acts[2]) == x3;
    assert SessionStep(s, x3, acts[3]) == x4;
    assert SessionStep(s, x4, acts[4]) == x4.(agent := Verified);
    assert SessionStep(s, x4.(agent := Verified), acts[5]) == x6;
    assert SessionStep(s, x6, acts[6]) == x7;
    assert SessionStep(s, x7, acts[7]) == x8;
    assert SessionStep(s, x8, acts[8]) == x8.(browser := Bridged(conn), channel := None);
    hide SessionStep;
    forall k | 0 <= k < 9
      ensures Walk(s, x, acts[..k + 1]) == SessionStep(s, Walk(s, x, acts[..k]), acts[k])
    {
      assert acts[..k + 1] == acts[..k] + [acts[k]];
      WalkOne(s, x, acts[..k], acts[k]);
    }
    assert Walk(s, x, acts[..0]) == x;
    assert acts[..9] == acts;
  }

  /** A bridged session that ends gives its slot back, and both its connections are closed. */
  lemma SessionCloses(s: Sys, x: Session, tok: Token)
    requires x.browser.Bridged?
    ensures var y := Walk(s, x, ClosingSteps(tok));
            && y.browser == Returned && !y.owned && y.pending == (if x.owned then None else x.pending)
            && x.browser.agent in y.closed && x.browserConn in y.closed && x.closed <= y.closed
            && (x.owned ==> y.conns == [] && forall c :: c in x.conns ==> c in y.closed)
  {
    var acts := ClosingSteps(tok);
    forall k | 0 <= k < 3
      ensures Walk(s, x, acts[..k + 1]) == SessionStep(s, Walk(s, x, acts[..k]), acts[k])
    {
      assert acts[..k + 1] == acts[..k] + [acts[k]];
      WalkOne(s, x, acts[..k], acts[k]);
    }
    assert acts[..3] == acts;
  }

  /** A panel with room opens a terminal: from a free lock, with terminals allowed and a machine that
      is there, the reservation succeeds, and after the handlers' steps the browser is bridged to the
      agent's connection and the lock is free again. */
  lemma TerminalOpens(s: Sys, machine: int, tok: Token, browser: Conn, conn: Conn)
    requires Inv(s) && s.lock == Free && s.Allowed() && machine in s.machines && tok !in s.table
    requires var owned := View(Culled(s.table, StaleAt(s.clock))).owned;
             |owned| < MAX_TOTAL && |TokensOf(owned, machine)| < MAX_PER_MACHINE
    ensures machine in s.identity
    ensures var reserved := Next(Next(s, TakeLock(machine)), MakeReservation(tok, browser));
            var r := Run(reserved, OpeningSteps(tok, s.identity[machine], conn));
            && reserved.lock == Holding(tok) && tok in r.table && r.table[tok].owned
            && r.table[tok].browser == Bridged(conn) && r.table[tok].conns == [browser, conn]
  {
    assert machine in s.identity by {
      hide SessionsOk, Capped, View, LockOk;
    }
    hide View, Culled, Inv;
    var locked := Next(s, TakeLock(machine));
    assert locked == s.(lock := Checked(machine));
    var reserved := Next(locked, MakeReservation(tok, browser));
    assert reserved == ReservationStep(locked, tok, browser);
    assert tok in reserved.table && reserved.table[tok] == NewSession(machine, s.clock, browser)
           && reserved.lock == Holding(tok) && SameSurroundings(s, reserved);
    hide Next, Run;
    SessionOpens(reserved, reserved.table[tok], tok, s.identity[machine], conn);
    RunIsWalk(reserved, tok, OpeningSteps(tok, s.identity[machine], conn));
  }

  /** A waiting browser gets the connection that was delivered to it. */
  lemma WaitingBrowserReceives(s: Sys, tok: Token)
    requires Inv(s) && tok in s.table && s.table[tok].browser.Opening? && s.table[tok].channel.Some?
    ensures var x := s.table[tok];
            var y := Next(s, Receive(tok)).table[tok];
            y.browser == Bridged(x.channel.value) && y.channel.None? && x.delivered == x.channel
  {
    hide Capped, View, LockOk, DeletionsOk;
    assert SessionOk(s.table[tok], s.identity);
  }

  /** A handler that fails gives the slot back: the agent's, when it has the wrong identity, the
      machine is gone, or no connection comes about, and the browser's, when it stops waiting. */
  lemma FailuresGiveBack(s: Sys, x: Session, tok: Token, uuid: int)
    ensures x.agent.Claimed?
            && !(x.machine in s.machines && x.machine in s.identity && s.identity[x.machine] == x.agentUuid) ==>
              var y := SessionStep(s, x, Verify(tok)); !y.owned && y.agent == Ended
    ensures x.agent.Verified? ==>
              var y := SessionStep(s, x, Upgrade(tok, None)); !y.owned && y.agent == Ended
    ensures x.agent.Unclaimed? && x.pending.Some? && s.clock - x.pending.value > TOKEN_TTL ==>
              var y := SessionStep(s, x, MakeClaim(tok, uuid)); !y.owned && y.pending == None && y.agent == Unclaimed
    ensures x.browser == Registered && x.machine !in s.machines ==>
              SessionStep(s, x, LookUp(tok)).browser == Leaving(None)
    ensures x.browser == Tracked(false) ==> SessionStep(s, x, Unlock(tok)).browser == Leaving(None)
    ensures x.browser == Opening ==> SessionStep(s, x, GiveUp(tok)) == x.(browser := Leaving(None))
    ensures x.browser == Leaving(None) ==>
              var y := SessionStep(s, x, MakeRelease(tok));
              !y.owned && y.browser == Returned && x.browserConn in y.closed
  {
  }

  /** Saving that terminals are disallowed, deleting a machine, and shutting down close the sessions
      concerned and no others; a delete that fails closes none. */
  lemma ClosersMean(s: Sys, tok: Token)
    requires tok in s.table
    ensures !Next(s, Shutdown).table[tok].owned
    ensures s.lock == BySettings(true) ==>
              Next(s, CloseAll).lock == BySettings(false) && !Next(s, CloseAll).table[tok].owned
    ensures s.lock.ByDelete? && s.lock.removed && s.lock.machine != 0 ==>
              var r := Next(s, CloseSessions);
              && r.lock == Free && s.lock.machine in r.gone
              && (if s.table[tok].machine == s.lock.machine then !r.table[tok].owned else r.table[tok] == s.table[tok])
    ensures s.lock.ByDelete? && !s.lock.removed ==> Next(s, FailDelete) == s.(lock := Free)
    ensures s.lock.ByDelete? && !s.lock.removed ==>
              Next(s, RemoveMachine)
              == s.(machines := s.machines - {s.lock.machine}, lock := ByDelete(s.lock.machine, true))
  {
    hide SessionStep, View, NewSession;
  }

  /** The other steps: taking the lock for a request, a save or a delete, registering a machine, and
      the clock. */
  lemma PanelMeans(s: Sys, machine: int, uuid: int, now: int)
    ensures s.lock == Free && s.Allowed() && machine in s.identity ==>
              Next(s, TakeLock(machine)) == s.(lock := Checked(machine))
    ensures s.lock == Free && !s.Allowed() ==> Next(s, TakeLock(machine)) == s
    ensures s.lock == Free ==> Next(s, LockSettings) == s.(lock := BySettings(false))
    ensures s.lock == BySettings(false) ==> Next(s, UnlockSettings) == s.(lock := Free)
    ensures s.lock == Free && machine in s.machines ==>
              Next(s, LockDelete(machine)) == s.(lock := ByDelete(machine, false))
    ensures machine > 0 && machine !in s.identity ==>
              Next(s, AddMachine(machine, uuid))
              == s.(machines := s.machines + {machine}, identity := s.identity[machine := uuid])
    ensures now >= s.clock ==> Next(s, Tick(now)) == s.(clock := now)
  {
    hide SessionStep, View, NewSession, Culled;
  }
}

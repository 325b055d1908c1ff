/** The registry of terminal sessions: three maps and two counters kept in step.

    Tokens, machines and connections are numbers; a token is never minted twice. Times are in
    seconds. Closing a connection is recorded in a set. */
module TerminalRegistry {
  import opened Commons

  const TOKEN_TTL := 30
  const MAX_PER_MACHINE := 4
  const MAX_TOTAL := 16

  type Token = int
  type Conn = int

  datatype Pending = Pending(machine: int, created: int)

  datatype Reservation = Reserved | TooMany | TooManyHere

  /** The sessions, without the counters. */
  datatype Sessions = Sessions(
    owned: map<Token, int>,
    pending: map<Token, Pending>,
    connections: map<Token, seq<Conn>>,
    closed: set<Conn>)

  const NO_SESSIONS := Sessions(map[], map[], map[], {})

  function TokensOf(owned: map<Token, int>, machine: int): set<Token> {
    set t | t in owned && owned[t] == machine
  }

  function ConnsOf(s: Sessions, tokens: set<Token>): set<Conn> {
    set t, c | t in tokens && t in s.connections && c in s.connections[t] :: c
  }

  /** The given sessions are gone: their tokens are free and their connections closed. */
  function Without(s: Sessions, tokens: set<Token>): Sessions {
    Sessions(s.owned - tokens, s.pending - tokens, s.connections - tokens, s.closed + ConnsOf(s, tokens))
  }

  predicate Stale(p: Pending, now: int) {
    now - p.created > TOKEN_TTL
  }

  function StaleTokens(s: Sessions, now: int): set<Token> {
    set t | t in s.pending && Stale(s.pending[t], now)
  }

  /** Expired reservations go first; then the caps decide. */
  function Reserve(s: Sessions, tok: Token, machine: int, now: int): (Sessions, Reservation) {
    var s1 := Without(s, StaleTokens(s, now));
    if |s1.owned| >= MAX_TOTAL then (s1, TooMany)
    else if |TokensOf(s1.owned, machine)| >= MAX_PER_MACHINE then (s1, TooManyHere)
    else (s1.(owned := s1.owned[tok := machine], pending := s1.pending[tok := Pending(machine, now)]),
          Reserved)
  }

  /** A token can be claimed once, and only while it is fresh. */
  function Claim(s: Sessions, tok: Token, now: int): (Sessions, Option<Pending>) {
    if tok !in s.pending then (s, None)
    else if Stale(s.pending[tok], now) then (Without(s, {tok}), None)
    else (s.(pending := s.pending - {tok}), Some(s.pending[tok]))
  }

  function Release(s: Sessions, tok: Token): Sessions {
    if tok in s.owned then Without(s, {tok}) else s
  }

  /** A connection joins its session, or is closed when the session is gone. */
  function Track(s: Sessions, tok: Token, conn: Conn): (Sessions, bool) {
    if tok !in s.owned then (s.(closed := s.closed + {conn}), false)
    else
      var conns := if tok in s.connections then s.connections[tok] else [];
      (s.(connections := s.connections[tok := conns + [conn]]), true)
  }

  /** Machine 0 stands for all of them. */
  function OnMachine(s: Sessions, id: int): set<Token> {
    set t | t in s.owned && (id == 0 || s.owned[t] == id)
  }

  function CloseMachine(s: Sessions, id: int): Sessions {
    Without(s, OnMachine(s, id))
  }

  /** Pending tokens are owned, by the same machine, and so are tokens with connections. */
  ghost predicate Consistent(s: Sessions) {
    && (forall t :: t in s.pending ==> t in s.owned && s.owned[t] == s.pending[t].machine)
    && (forall t :: t in s.connections ==> t in s.owned)
  }

  /** The caps hold. */
  ghost predicate Capped(s: Sessions) {
    |s.owned| <= MAX_TOTAL && forall m :: |TokensOf(s.owned, m)| <= MAX_PER_MACHINE
  }

  /** The counter of a machine, as the map reads. */
  function At(counts: map<int, nat>, machine: int): nat {
    if machine in counts then counts[machine] else 0
  }

  /** The counters say exactly how many tokens are owned, with no zero entries. */
  ghost predicate Counted(owned: map<Token, int>, perMachine: map<int, nat>, total: nat) {
    && total == |owned|
    && (forall m :: At(perMachine, m) == |TokensOf(owned, m)|)
    && (forall m :: m in perMachine ==> perMachine[m] > 0)
  }

  lemma WithoutTwice(s: Sessions, a: set<Token>, b: set<Token>)
    ensures Without(Without(s, a), b) == Without(s, a + b)
  {
    assert s.owned - a - b == s.owned - (a + b);
    assert s.pending - a - b == s.pending - (a + b);
    assert s.connections - a - b == s.connections - (a + b);
    ConnsSplit(s, a, b);
  }

  lemma ConnsOfOne(s: Sessions, tok: Token)
    ensures ConnsOf(s, {tok}) == if tok in s.connections then (set c | c in s.connections[tok]) else {}
  {
    forall c | tok in s.connections && c in s.connections[tok]
      ensures c in ConnsOf(s, {tok})
    {
      assert tok in {tok};
    }
  }

  lemma WithoutNone(s: Sessions)
    ensures Without(s, {}) == s
  {
  }

  lemma ConnsSplit(s: Sessions, a: set<Token>, b: set<Token>)
    ensures ConnsOf(s, a) + ConnsOf(Without(s, a), b) == ConnsOf(s, a + b)
  {
    forall c | c in ConnsOf(s, a + b)
      ensures c in ConnsOf(s, a) + ConnsOf(Without(s, a), b)
    {
      var t :| t in a + b && t in s.connections && c in s.connections[t];
      assert t in a || t in Without(s, a).connections;
    }
  }

  /** Losing one owned token takes one from its machine and from the total. */
  lemma OneLess(owned: map<Token, int>, tok: Token)
    requires tok in owned
    ensures |owned - {tok}| == |owned| - 1
    ensures forall m :: |TokensOf(owned - {tok}, m)|
                        == |TokensOf(owned, m)| - if owned[tok] == m then 1 else 0
  {
    assert (owned - {tok}).Keys == owned.Keys - {tok};
    forall m
      ensures |TokensOf(owned - {tok}, m)| == |TokensOf(owned, m)| - if owned[tok] == m then 1 else 0
    {
      if owned[tok] == m {
        assert TokensOf(owned - {tok}, m) == TokensOf(owned, m) - {tok};
      } else {
        assert TokensOf(owned - {tok}, m) == TokensOf(owned, m);
      }
    }
  }

  lemma OneMore(owned: map<Token, int>, tok: Token, machine: int)
    requires tok !in owned
    ensures |owned[tok := machine]| == |owned| + 1
    ensures forall m :: |TokensOf(owned[tok := machine], m)|
                        == |TokensOf(owned, m)| + if machine == m then 1 else 0
  {
    assert owned[tok := machine] - {tok} == owned;
    OneLess(owned[tok := machine], tok);
  }

  /** Exact counters stay exact when one more token is counted. */
  lemma CountedMore(owned: map<Token, int>, counts: map<int, nat>, total: nat, tok: Token, machine: int)
    requires Counted(owned, counts, total) && tok !in owned
    ensures Counted(owned[tok := machine], counts[machine := At(counts, machine) + 1], total + 1)
  {
    hide TokensOf;
    OneMore(owned, tok, machine);
    var counts' := counts[machine := At(counts, machine) + 1];
    forall m
      ensures At(counts', m) == |TokensOf(owned[tok := machine], m)|
    {
      assert At(counts, m) == |TokensOf(owned, m)|;
    }
  }

  /** Exact counters stay exact when one fewer is counted; the guards of `drop` do not act. */
  lemma CountedLess(owned: map<Token, int>, before: map<int, nat>, after: map<int, nat>, total: nat, tok: Token)
    requires Counted(owned, before, total) && tok in owned
    requires forall m :: At(after, m) ==
                         At(before, m) - if m == owned[tok] && At(before, m) > 0 then 1 else 0
    requires forall m :: m in after ==> after[m] > 0
    ensures total > 0 && Counted(owned - {tok}, after, total - 1)
  {
    OneLess(owned, tok);
    assert tok in TokensOf(owned, owned[tok]);
    hide TokensOf, At;
    forall m
      ensures At(after, m) == |TokensOf(owned - {tok}, m)|
    {
      assert At(before, m) == |TokensOf(owned, m)|;
    }
  }

  lemma NoZeroEntries(owned: map<Token, int>, counts: map<int, nat>, total: nat)
    requires Counted(owned, counts, total)
    ensures forall m :: m in counts ==> counts[m] > 0
  {
  }

  /** Fewer sessions stay within the caps. */
  lemma WithoutKeeps(s: Sessions, tokens: set<Token>)
    requires Consistent(s)
    ensures Consistent(Without(s, tokens))
    ensures Capped(s) ==> Capped(Without(s, tokens))
  {
    var s' := Without(s, tokens);
    SubsetSize(s'.owned.Keys, s.owned.Keys);
    forall m
      ensures |TokensOf(s'.owned, m)| <= |TokensOf(s.owned, m)|
    {
      SubsetSize(TokensOf(s'.owned, m), TokensOf(s.owned, m));
    }
  }

  lemma SubsetSize(a: set<Token>, b: set<Token>)
    requires a <= b
    ensures |a| <= |b|
  {
    assert b == a + (b - a);
  }

  /** Every registry operation keeps the maps consistent and the caps. */
  lemma ReserveKeeps(s: Sessions, tok: Token, machine: int, now: int)
    requires Consistent(s) && Capped(s) && tok !in s.owned
    ensures Consistent(Reserve(s, tok, machine, now).0)
    ensures Capped(Reserve(s, tok, machine, now).0)
  {
    hide TokensOf, Without, StaleTokens;
    var s' := Reserve(s, tok, machine, now).0;
    var s1 := Without(s, StaleTokens(s, now));
    WithoutKeeps(s, StaleTokens(s, now));
    assert tok !in s1.owned by {
      WithoutOwned(s, StaleTokens(s, now));
    }
    OneMore(s1.owned, tok, machine);
    forall m
      ensures |TokensOf(s'.owned, m)| <= MAX_PER_MACHINE
    {
      assert |TokensOf(s1.owned, m)| <= MAX_PER_MACHINE;
    }
  }

  /** The reservation, said about the sessions that the sweep leaves. */
  lemma ReserveOn(s: Sessions, swept: Sessions, tok: Token, machine: int, now: int)
    requires swept == Without(s, StaleTokens(s, now))
    ensures Reserve(s, tok, machine, now) ==
            if |swept.owned| >= MAX_TOTAL then (swept, TooMany)
            else if |TokensOf(swept.owned, machine)| >= MAX_PER_MACHINE then (swept, TooManyHere)
            else (Sessions(swept.owned[tok := machine], swept.pending[tok := Pending(machine, now)],
                           swept.connections, swept.closed), Reserved)
  {
  }

  lemma WithoutOwned(s: Sessions, tokens: set<Token>)
    ensures Without(s, tokens).owned == s.owned - tokens
    ensures Without(s, tokens).pending == s.pending - tokens
  {
  }

  lemma ClaimKeeps(s: Sessions, tok: Token, now: int)
    requires Consistent(s) && Capped(s)
    ensures Consistent(Claim(s, tok, now).0)
    ensures Capped(Claim(s, tok, now).0)
  {
    WithoutKeeps(s, {tok});
  }

  /** The sessions that a reservation finds: owned, and not an expired reservation. */
  predicate Lives(s: Sessions, t: Token, now: int) {
    t in s.owned && !(t in s.pending && now - s.pending[t].created > 30)
  }

  function Living(s: Sessions, now: int): set<Token> {
    set t | t in s.owned && Lives(s, t, now)
  }

  function LivingOn(s: Sessions, machine: int, now: int): set<Token> {
    set t | t in s.owned && Lives(s, t, now) && s.owned[t] == machine
  }

  lemma SweepLeavesLiving(s: Sessions, machine: int, now: int)
    requires Consistent(s)
    ensures var s1 := Without(s, StaleTokens(s, now));
            && s1.owned.Keys == Living(s, now) && TokensOf(s1.owned, machine) == LivingOn(s, machine, now)
            && (forall t :: t in s1.owned ==> t in s.owned && s1.owned[t] == s.owned[t])
            && (forall t :: t in s1.connections ==> t in s.owned)
  {
  }

  /** A reservation succeeds exactly while fewer than sixteen sessions live, and fewer than four of
      the machine. */
  lemma ReserveMeans(s: Sessions, tok: Token, machine: int, now: int)
    requires Consistent(s)
    ensures var r := Reserve(s, tok, machine, now).1;
            && (r == Reserved <==> |Living(s, now)| < 16 && |LivingOn(s, machine, now)| < 4)
            && (r == TooMany <==> |Living(s, now)| >= 16)
  {
    hide Without, StaleTokens, Reserve, Living, LivingOn, TokensOf, Consistent;
    var s1 := Without(s, StaleTokens(s, now));
    ReserveOn(s, s1, tok, machine, now);
    SweepLeavesLiving(s, machine, now);
    assert |s1.owned| == |s1.owned.Keys|;
  }

  /** The new session is then owned, pending from now, and without connections; and whether or not
      there is one, exactly the expired reservations go. */
  lemma ReserveLeaves(s: Sessions, tok: Token, machine: int, now: int)
    requires Consistent(s) && tok !in s.owned
    ensures var (s', r) := Reserve(s, tok, machine, now);
            && (forall t :: t != tok ==> (t in s'.owned <==> t in Living(s, now)))
            && (forall t :: t != tok && t in s'.owned ==> s'.owned[t] == s.owned[t])
            && (tok in s'.owned <==> r == Reserved)
            && (r == Reserved ==> s'.owned[tok] == machine && tok in s'.pending
                                  && s'.pending[tok] == Pending(machine, now) && tok !in s'.connections)
  {
    hide Without, StaleTokens, Reserve, Living, LivingOn, TokensOf, Consistent;
    var s1 := Without(s, StaleTokens(s, now));
    ReserveOn(s, s1, tok, machine, now);
    SweepLeavesLiving(s, machine, now);
    assert forall t :: t in s1.owned <==> t in s1.owned.Keys;
  }

  /** A claim succeeds exactly on a reservation of at most thirty seconds, keeps its slot, and uses
      the token up; an older one loses its slot. */
  lemma ClaimMeans(s: Sessions, tok: Token, now: int)
    requires Consistent(s)
    ensures var (s', p) := Claim(s, tok, now);
            && (p.Some? <==> tok in s.pending && now - s.pending[tok].created <= 30)
            && (p.Some? ==> p.value == s.pending[tok] && tok in s'.owned)
            && tok !in s'.pending
            && (tok in s.pending && p.None? ==> tok !in s'.owned)
            && (forall t :: t != tok ==> (t in s'.owned <==> t in s.owned) && (t in s'.pending <==> t in s.pending))
  {
  }

  /** Releasing, and closing a machine or all of them, free exactly the sessions concerned and close
      all their connections. */
  lemma FreeingMeans(s: Sessions, tok: Token, id: int)
    requires Consistent(s)
    ensures var s' := Release(s, tok);
            && (forall t :: t in s'.owned <==> t in s.owned && t != tok)
            && (tok in s.connections ==> forall c :: c in s.connections[tok] ==> c in s'.closed)
            && tok !in s'.pending && tok !in s'.connections
    ensures var s' := CloseMachine(s, id);
            && (forall t :: t in s'.owned <==> t in s.owned && id != 0 && s.owned[t] != id)
            && (forall t :: t in s.owned && (id == 0 || s.owned[t] == id) ==>
                  && t !in s'.pending && t !in s'.connections
                  && (t in s.connections ==> forall c :: c in s.connections[t] ==> c in s'.closed))
  {
  }

  /** A connection is tracked exactly for an owned session, and closed otherwise. */
  lemma TrackMeans(s: Sessions, tok: Token, conn: Conn)
    ensures var (s', ok) := Track(s, tok, conn);
            && (ok <==> tok in s.owned)
            && (ok ==> tok in s'.connections && conn in s'.connections[tok]
                       && (tok in s.connections ==> forall c :: c in s.connections[tok] ==> c in s'.connections[tok]))
            && (!ok ==> conn in s'.closed)
            && s'.owned == s.owned && s'.pending == s.pending
  {
    if tok in s.owned {
      var conns := if tok in s.connections then s.connections[tok] else [];
      assert (conns + [conn])[|conns|] == conn;
    }
  }

  lemma CountersRead(owned: map<Token, int>, counts: map<int, nat>, total: nat, machine: int)
    requires Counted(owned, counts, total)
    ensures total == |owned| && At(counts, machine) == |TokensOf(owned, machine)|
  {
  }

  /** The registry itself. */
  class Registry {
    var pending: map<Token, Pending>
    var owned: map<Token, int>
    var connections: map<Token, seq<Conn>>
    var perMachine: map<int, nat>
    var total: nat
    var closed: set<Conn>

    ghost function Value(): Sessions
      reads this
    {
      Sessions(owned, pending, connections, closed)
    }

    ghost predicate Valid()
      reads this
    {
      Consistent(Value()) && Capped(Value()) && Counted(owned, perMachine, total)
    }

    constructor ()
      ensures Valid() && Value() == NO_SESSIONS
    {
      pending, owned, connections, perMachine := map[], map[], map[], map[];
      total, closed := 0, {};
    }

    /** Decrements the counters, without ever taking them below zero. */
    method Drop(machine: int)
      modifies this`perMachine, this`total
      ensures total == if old(total) > 0 then old(total) - 1 else 0
      ensures forall m :: At(perMachine, m) ==
                          At(old(perMachine), m) - if m == machine && At(old(perMachine), m) > 0 then 1 else 0
      ensures (forall m :: m in old(perMachine) ==> old(perMachine)[m] > 0) ==>
                forall m :: m in perMachine ==> perMachine[m] > 0
    {
      if machine in perMachine && perMachine[machine] > 0 {
        perMachine := perMachine[machine := perMachine[machine] - 1];
        if perMachine[machine] == 0 {
          perMachine := perMachine - {machine};
        }
      }
      if total > 0 {
        total := total - 1;
      }
    }

    /** Forgets one session and closes what is connected to it. The guards of `Drop` never
        act here: the counters were exact. */
    method Forget(tok: Token, machine: int)
      requires Valid() && tok in owned && owned[tok] == machine
      modifies this
      ensures Valid() && Value() == Without(old(Value()), {tok})
    {
      hide Consistent, Capped, Counted, At;
      NoZeroEntries(owned, perMachine, total);
      WithoutKeeps(Value(), {tok});
      ghost var before := Value();
      pending := pending - {tok};
      owned := owned - {tok};
      if tok in connections {
        closed := closed + set c | c in connections[tok];
      }
      connections := connections - {tok};
      ConnsOfOne(before, tok);
      Drop(machine);
      CountedLess(before.owned, old(perMachine), perMachine, old(total), tok);
    }

    /** Forgets every expired reservation. */
    method Sweep(now: int)
      requires Valid()
      modifies this
      ensures Valid() && Value() == Without(old(Value()), StaleTokens(old(Value()), now))
    {
      hide Capped, Counted, Without, TokensOf;
      ghost var start := Value();
      ghost var gone: set<Token> := {};
      var todo := pending.Keys;
      WithoutNone(start);
      while todo != {}
        invariant Valid() && Value() == Without(start, gone)
        invariant gone <= StaleTokens(start, now) <= gone + todo
        invariant todo !! gone && todo <= start.pending.Keys
        decreases |todo|
      {
        EmptyOrNot(todo);
        var t :| t in todo;
        WithoutOwned(start, gone);
        var p := pending[t];
        todo := todo - {t};
        if now - p.created > TOKEN_TTL {
          WithoutTwice(start, gone, {t});
          Forget(t, p.machine);
          gone := gone + {t};
        }
      }
      assert gone == StaleTokens(start, now);
    }

    method ReserveSession(tok: Token, machine: int, now: int) returns (r: Reservation)
      requires Valid() && tok !in owned
      modifies this
      ensures Valid()
      ensures (Value(), r) == Reserve(old(Value()), tok, machine, now)
    {
      hide Consistent, Capped, Counted, Without, TokensOf, StaleTokens, Reserve, At;
      ghost var start := Value();
      ReserveKeeps(start, tok, machine, now);
      WithoutOwned(start, StaleTokens(start, now));
      Sweep(now);
      ReserveOn(start, Value(), tok, machine, now);
      CountersRead(owned, perMachine, total, machine);
      if total >= MAX_TOTAL {
        return TooMany;
      }
      if At(perMachine, machine) >= MAX_PER_MACHINE {
        return TooManyHere;
      }
      Admit(tok, machine, now);
      return Reserved;
    }

    /** Adds a reservation and counts it. */
    method Admit(tok: Token, machine: int, now: int)
      requires Counted(owned, perMachine, total) && tok !in owned
      modifies this`pending, this`owned, this`perMachine, this`total
      ensures Counted(owned, perMachine, total)
      ensures owned == old(owned)[tok := machine]
      ensures pending == old(pending)[tok := Pending(machine, now)]
    {
      hide Counted, At;
      CountedMore(owned, perMachine, total, tok, machine);
      pending := pending[tok := Pending(machine, now)];
      owned := owned[tok := machine];
      perMachine := perMachine[machine := At(perMachine, machine) + 1];
      total := total + 1;
    }

    method ClaimSession(tok: Token, now: int) returns (p: Option<Pending>)
      requires Valid()
      modifies this
      ensures Valid()
      ensures (Value(), p) == Claim(old(Value()), tok, now)
    {
      if tok !in pending {
        return None;
      }
      var found := pending[tok];
      if now - found.created > TOKEN_TTL {
        Forget(tok, found.machine);
        return None;
      }
      pending := pending - {tok};
      return Some(found);
    }

    /** Callers give a session back with the machine that they reserved it for. */
    method ReleaseSession(tok: Token, machine: int)
      requires Valid() && (tok in owned ==> owned[tok] == machine)
      modifies this
      ensures Valid() && Value() == Release(old(Value()), tok)
    {
      if tok in owned {
        Forget(tok, machine);
      }
    }

    method TrackConn(tok: Token, conn: Conn) returns (ok: bool)
      requires Valid()
      modifies this
      ensures Valid()
      ensures (Value(), ok) == Track(old(Value()), tok, conn)
    {
      if tok !in owned {
        closed := closed + {conn};
        return false;
      }
      var conns := if tok in connections then connections[tok] else [];
      connections := connections[tok := conns + [conn]];
      return true;
    }

    method CloseSessions(id: int)
      requires Valid()
      modifies this
      ensures Valid() && Value() == CloseMachine(old(Value()), id)
    {
      hide Capped, Counted, Without, TokensOf;
      ghost var start := Value();
      ghost var gone: set<Token> := {};
      var todo := owned.Keys;
      WithoutNone(start);
      while todo != {}
        invariant Valid() && Value() == Without(start, gone)
        invariant gone <= OnMachine(start, id) <= gone + todo
        invariant todo !! gone && todo <= start.owned.Keys
        decreases |todo|
      {
        EmptyOrNot(todo);
        var t :| t in todo;
        WithoutOwned(start, gone);
        var machine := owned[t];
        todo := todo - {t};
        if !(id != 0 && machine != id) {
          WithoutTwice(start, gone, {t});
          Forget(t, machine);
          gone := gone + {t};
        }
      }
      assert gone == OnMachine(start, id);
    }
  }
}

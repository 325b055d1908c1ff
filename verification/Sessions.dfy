/** Logins: the bounded store of session tokens, and the throttle on password attempts.

    Tokens, addresses and channels are numbers, times are in nanoseconds. A freshly minted
    token is neither empty nor in use. */
module LoginSessions {
  import opened Commons

  const SESSION_TTL := 7 * 24 * 3600 * NANOS_PER_SECOND
  const MIN_INTERVAL := NANOS_PER_SECOND
  const HOUR := 3600 * NANOS_PER_SECOND
  const MAX_SESSIONS := 256
  const MAX_TRIES := 1024

  type Token = int
  type Address = int
  type Channel = int

  const EMPTY_TOKEN: Token := 0

  // ---- Sessions -----------------------------------------------------------------------

  datatype Session = Session(expires: int, done: Channel, timer: bool)

  /** The sessions, the channels made so far, numbered from zero, and those closed. */
  datatype Sessions = Sessions(tokens: map<Token, Session>, made: nat, closed: set<Channel>)

  const NO_SESSIONS := Sessions(map[], 0, {})

  function DoneOf(s: Sessions, gone: set<Token>): set<Channel> {
    set t | t in gone && t in s.tokens :: s.tokens[t].done
  }

  /** Tokens leave the map and their channels are closed. */
  function Leave(s: Sessions, gone: set<Token>): Sessions {
    Sessions(s.tokens - gone, s.made, s.closed + DoneOf(s, gone))
  }

  function Expired(s: Sessions, now: int): set<Token> {
    set t | t in s.tokens && now >= s.tokens[t].expires
  }

  /** None expires earlier. */
  ghost predicate Oldest(s: Sessions, tok: Token) {
    tok in s.tokens && forall t :: t in s.tokens ==> s.tokens[tok].expires <= s.tokens[t].expires
  }

  /** What a login may evict: nothing while there is room, otherwise a session that expires
      first. */
  ghost predicate MayEvict(s: Sessions, evict: Option<Token>) {
    if |s.tokens| < MAX_SESSIONS then evict == None else evict.Some? && Oldest(s, evict.value)
  }

  function Evicted(evict: Option<Token>): set<Token> {
    if evict.Some? then {evict.value} else {}
  }

  function Issue(s: Sessions, evict: Option<Token>, tok: Token, now: int): Sessions {
    var s1 := Leave(s, Evicted(evict));
    var s2 := Leave(s1, Expired(s1, now));
    s2.(tokens := s2.tokens[tok := Session(now + SESSION_TTL, s2.made, false)], made := s2.made + 1)
  }

  predicate Live(s: Sessions, tok: Token, now: int) {
    tok != EMPTY_TOKEN && tok in s.tokens && now < s.tokens[tok].expires
  }

  /** Asking for a session that has expired removes it. */
  function Check(s: Sessions, tok: Token, now: int): Sessions {
    if tok != EMPTY_TOKEN && tok in s.tokens && !Live(s, tok, now) then Leave(s, {tok}) else s
  }

  /** A long-lived channel's claim on its session starts the session's timer once. */
  function Watch(s: Sessions, tok: Token, now: int): Sessions {
    if tok !in s.tokens then s
    else if s.tokens[tok].expires - now <= 0 then Leave(s, {tok})
    else s.(tokens := s.tokens[tok := s.tokens[tok].(timer := true)])
  }

  predicate Owns(tokens: map<Token, Session>, t: Token, c: Channel) {
    t in tokens && tokens[t].done == c
  }

  /** Every channel made is open exactly as long as its session is in the map, and no two
      sessions share one. */
  ghost predicate ChannelsOk(tokens: map<Token, Session>, made: nat, closed: set<Channel>) {
    && (forall c :: c in closed ==> 0 <= c < made)
    && (forall t, c :: Owns(tokens, t, c) ==> 0 <= c < made && c !in closed)
    && (forall t, u, c :: Owns(tokens, t, c) && Owns(tokens, u, c) ==> t == u)
    && (forall c :: 0 <= c < made && c !in closed ==> exists t :: Owns(tokens, t, c))
  }

  ghost predicate Sound(s: Sessions) {
    && |s.tokens| <= MAX_SESSIONS
    && EMPTY_TOKEN !in s.tokens
    && ChannelsOk(s.tokens, s.made, s.closed)
  }

  lemma ChannelsLeave(s: Sessions, gone: set<Token>)
    requires ChannelsOk(s.tokens, s.made, s.closed)
    ensures var s' := Leave(s, gone); ChannelsOk(s'.tokens, s'.made, s'.closed)
  {
    var s' := Leave(s, gone);
    assert forall t, c :: Owns(s'.tokens, t, c) <==> Owns(s.tokens, t, c) && t !in gone;
    forall t, c | Owns(s'.tokens, t, c)
      ensures 0 <= c < s'.made && c !in s'.closed
    {
      if c in DoneOf(s, gone) {
        var u :| u in gone && u in s.tokens && s.tokens[u].done == c;
        assert Owns(s.tokens, u, c);
      }
    }
    forall c | 0 <= c < s'.made && c !in s'.closed
      ensures exists t :: Owns(s'.tokens, t, c)
    {
      var t :| Owns(s.tokens, t, c);
      assert Owns(s'.tokens, t, c);
    }
    forall c | c in DoneOf(s, gone)
      ensures 0 <= c < s'.made
    {
      var u :| u in gone && u in s.tokens && s.tokens[u].done == c;
      assert Owns(s.tokens, u, c);
    }
  }

  lemma LeaveShrinks(s: Sessions, gone: set<Token>)
    ensures |Leave(s, gone).tokens| <= |s.tokens|
    ensures gone * s.tokens.Keys != {} ==> |Leave(s, gone).tokens| < |s.tokens|
  {
    var left := Leave(s, gone).tokens;
    assert s.tokens.Keys == left.Keys + (gone * s.tokens.Keys);
  }

  lemma LeaveKeepsSound(s: Sessions, gone: set<Token>)
    requires Sound(s)
    ensures Sound(Leave(s, gone))
    ensures Leave(s, gone).tokens.Keys <= s.tokens.Keys
  {
    ChannelsLeave(s, gone);
    LeaveShrinks(s, gone);
    hide ChannelsOk;
  }

  lemma ChannelMade(s: Sessions, tok: Token, expires: int)
    requires ChannelsOk(s.tokens, s.made, s.closed) && tok !in s.tokens
    ensures ChannelsOk(s.tokens[tok := Session(expires, s.made, false)], s.made + 1, s.closed)
  {
    var tokens' := s.tokens[tok := Session(expires, s.made, false)];
    assert forall t, c :: Owns(tokens', t, c) <==> (t == tok && c == s.made) || Owns(s.tokens, t, c);
    forall c | 0 <= c < s.made + 1 && c !in s.closed
      ensures exists t :: Owns(tokens', t, c)
    {
      if c == s.made {
        assert Owns(tokens', tok, c);
      } else {
        var t :| Owns(s.tokens, t, c);
        assert Owns(tokens', t, c);
      }
    }
  }

  lemma EvictMakesRoom(s: Sessions, evict: Option<Token>)
    requires |s.tokens| <= MAX_SESSIONS && MayEvict(s, evict)
    ensures |Leave(s, Evicted(evict)).tokens| < MAX_SESSIONS
  {
    LeaveShrinks(s, Evicted(evict));
    if evict.Some? {
      assert evict.value in Evicted(evict) * s.tokens.Keys;
    }
  }

  lemma MintKeepsSound(s: Sessions, tok: Token, expires: int)
    requires Sound(s) && |s.tokens| < MAX_SESSIONS && tok !in s.tokens && tok != EMPTY_TOKEN
    ensures Sound(s.(tokens := s.tokens[tok := Session(expires, s.made, false)], made := s.made + 1))
  {
    ChannelMade(s, tok, expires);
    hide ChannelsOk;
    assert s.tokens[tok := Session(expires, s.made, false)].Keys == s.tokens.Keys + {tok};
  }

  lemma IssueKeepsSound(s: Sessions, evict: Option<Token>, tok: Token, now: int)
    requires Sound(s) && MayEvict(s, evict) && tok !in s.tokens && tok != EMPTY_TOKEN
    ensures Sound(Issue(s, evict, tok, now))
  {
    EvictMakesRoom(s, evict);
    hide Sound, Leave, Evicted, Expired, MayEvict;
    var s1 := Leave(s, Evicted(evict));
    LeaveKeepsSound(s, Evicted(evict));
    LeaveKeepsSound(s1, Expired(s1, now));
    LeaveShrinks(s1, Expired(s1, now));
    MintKeepsSound(Leave(s1, Expired(s1, now)), tok, now + SESSION_TTL);
  }

  lemma WatchKeepsSound(s: Sessions, tok: Token, now: int)
    requires Sound(s)
    ensures Sound(Watch(s, tok, now))
  {
    LeaveKeepsSound(s, {tok});
    if tok in s.tokens && s.tokens[tok].expires - now > 0 {
      var tokens' := s.tokens[tok := s.tokens[tok].(timer := true)];
      assert tokens'.Keys == s.tokens.Keys;
      assert forall t, c :: Owns(tokens', t, c) <==> Owns(s.tokens, t, c);
    }
  }

  /** A login evicts an unexpired session only when no session has expired. */
  lemma EvictionIsFair(s: Sessions, evict: Option<Token>, now: int)
    requires MayEvict(s, evict) && evict.Some? && now < s.tokens[evict.value].expires
    ensures |s.tokens| >= 256 && Expired(s, now) == {}
  {
    forall t | t in s.tokens
      ensures t !in Expired(s, now)
    {
      assert s.tokens[evict.value].expires <= s.tokens[t].expires;
    }
    assert Expired(s, now) == {};
  }

  lemma LeaveMore(s: Sessions, gone: set<Token>, tok: Token)
    ensures Leave(Leave(s, gone), {tok}) == Leave(s, gone + {tok})
  {
    assert s.tokens - gone - {tok} == s.tokens - (gone + {tok});
    var s1 := Leave(s, gone);
    forall c
      ensures c in DoneOf(s, gone) + DoneOf(s1, {tok}) <==> c in DoneOf(s, gone + {tok})
    {
      if c in DoneOf(s, gone + {tok}) && c !in DoneOf(s, gone) {
        var t :| t in gone + {tok} && t in s.tokens && s.tokens[t].done == c;
        assert t == tok && t in s1.tokens;
      }
    }
    assert DoneOf(s, gone) + DoneOf(s1, {tok}) == DoneOf(s, gone + {tok});
  }

  lemma LeaveNone(s: Sessions, gone: set<Token>)
    requires forall t :: t in gone ==> t !in s.tokens
    ensures Leave(s, gone) == s
  {
    var left := s.tokens - gone;
    forall t
      ensures t in left.Keys <==> t in s.tokens.Keys
    {
      assert t in s.tokens ==> t !in gone;
    }
    assert forall t :: t in left ==> left[t] == s.tokens[t];
    assert left == s.tokens;
    assert DoneOf(s, gone) == {};
  }

  // ---- Password attempts --------------------------------------------------------------

  type Tries = map<Address, int>

  predicate Young(tries: Tries, a: Address, now: int) {
    a in tries && now - tries[a] < MIN_INTERVAL
  }

  /** The entries younger than the interval. */
  function Recent(tries: Tries, now: int): set<Address> {
    set a | a in tries && Young(tries, a, now)
  }

  function Keep(tries: Tries, kept: set<Address>): Tries {
    map a | a in tries && a in kept :: tries[a]
  }

  /** A full table is swept before the attempt is looked at. */
  function Swept(tries: Tries, now: int): Tries {
    if |tries| >= MAX_TRIES then Keep(tries, Recent(tries, now)) else tries
  }

  predicate Admits(tries: Tries, a: Address, now: int) {
    var swept := Swept(tries, now);
    |swept| < MAX_TRIES && !Young(swept, a, now)
  }

  function AfterTry(tries: Tries, a: Address, now: int): Tries {
    if Admits(tries, a, now) then Swept(tries, now)[a := now] else Swept(tries, now)
  }

  /** A login drops the entries older than an hour. */
  function AfterLogin(tries: Tries, now: int): Tries {
    map a | a in tries && !(now - tries[a] > HOUR) :: tries[a]
  }

  // ---- The store ----------------------------------------------------------------------

  class SessionStore {
    var tokens: map<Token, Session>
    var lastTry: Tries
    var made: nat
    var closed: set<Channel>

    ghost function Value(): Sessions
      reads this
    {
      Sessions(tokens, made, closed)
    }

    constructor ()
      ensures Value() == NO_SESSIONS && Sound(Value()) && lastTry == map[]
    {
      tokens, lastTry, made, closed := map[], map[], 0, {};
      new;
      assert forall t, c :: !Owns(tokens, t, c);
    }

    /** Closing a channel twice would be a fatal error; it never happens. */
    method RevokeLocked(tok: Token)
      requires Sound(Value())
      modifies this`tokens, this`closed
      ensures Sound(Value()) && Value() == Leave(old(Value()), {tok})
    {
      LeaveKeepsSound(Value(), {tok});
      if tok in tokens {
        var session := tokens[tok];
        tokens := tokens - {tok};
        assert Owns(old(tokens), tok, session.done);
        assert session.done !in closed;
        closed := closed + {session.done};
        assert DoneOf(old(Value()), {tok}) == {session.done};
      } else {
        LeaveNone(Value(), {tok});
      }
    }

    /** The session that expires first. */
    method FindOldest() returns (oldest: Token)
      requires |tokens| >= MAX_SESSIONS
      ensures Oldest(Value(), oldest)
    {
      var todo := tokens.Keys;
      EmptyOrNot(todo);
      oldest :| oldest in todo;
      while todo != {}
        invariant todo <= tokens.Keys && oldest in tokens
        invariant forall t :: t in tokens && t !in todo ==> tokens[oldest].expires <= tokens[t].expires
        decreases todo
      {
        EmptyOrNot(todo);
        var t :| t in todo;
        todo := todo - {t};
        if tokens[t].expires < tokens[oldest].expires {
          oldest := t;
        }
      }
    }

    method SweepExpired(now: int)
      requires Sound(Value())
      modifies this`tokens, this`closed
      ensures Sound(Value()) && Value() == Leave(old(Value()), Expired(old(Value()), now))
    {
      hide Sound;
      ghost var was := Value();
      ghost var gone := {};
      var todo := tokens.Keys;
      LeaveNone(was, {});
      while todo != {}
        invariant Sound(Value())
        invariant todo <= was.tokens.Keys
        invariant gone == Expired(was, now) - todo
        invariant Value() == Leave(was, gone)
        decreases todo
      {
        EmptyOrNot(todo);
        var t :| t in todo;
        assert t in tokens && tokens[t] == was.tokens[t];
        todo := todo - {t};
        if now >= tokens[t].expires {
          RevokeLocked(t);
          LeaveMore(was, gone, t);
          gone := gone + {t};
        }
      }
      assert gone == Expired(was, now);
    }

    /** Keeps the entries younger than the limit. */
    method SweepTries(now: int, limit: int)
      modifies this`lastTry
      ensures lastTry == map a | a in old(lastTry) && now - old(lastTry)[a] < limit :: old(lastTry)[a]
    {
      ghost var was := lastTry;
      var todo := lastTry.Keys;
      while todo != {}
        invariant todo <= lastTry.Keys <= was.Keys
        invariant forall a :: a in lastTry ==> lastTry[a] == was[a]
        invariant forall a :: a in was && a !in todo ==> (a in lastTry <==> now - was[a] < limit)
        decreases todo
      {
        EmptyOrNot(todo);
        var a :| a in todo;
        todo := todo - {a};
        if now - lastTry[a] >= limit {
          lastTry := lastTry - {a};
        }
      }
      ghost var kept := map a | a in was && now - was[a] < limit :: was[a];
      assert lastTry.Keys == kept.Keys by {
        assert forall a :: a in lastTry.Keys <==> a in kept.Keys;
      }
      assert forall a :: a in kept ==> kept[a] == lastTry[a];
      assert lastTry == kept;
    }

    method IssueToken(tok: Token, now: int) returns (ghost evict: Option<Token>)
      requires Sound(Value()) && tok !in tokens && tok != EMPTY_TOKEN
      modifies this
      ensures Sound(Value()) && MayEvict(old(Value()), evict)
      ensures Value() == Issue(old(Value()), evict, tok, now)
      ensures lastTry == AfterLogin(old(lastTry), now)
    {
      hide Sound, Leave;
      ghost var was := Value();
      evict := None;
      if |tokens| >= MAX_SESSIONS {
        var oldest := FindOldest();
        evict := Some(oldest);
        RevokeLocked(oldest);
        assert Evicted(evict) == {oldest};
      } else {
        LeaveNone(Value(), Evicted(evict));
      }
      assert Value() == Leave(was, Evicted(evict));
      IssueKeepsSound(was, evict, tok, now);
      SweepExpired(now);
      SweepTries(now, HOUR + 1);
      assert lastTry == AfterLogin(old(lastTry), now);
      tokens := tokens[tok := Session(now + SESSION_TTL, made, false)];
      made := made + 1;
    }

    method Valid(tok: Token, now: int) returns (ok: bool)
      requires Sound(Value())
      modifies this`tokens, this`closed
      ensures Sound(Value()) && Value() == Check(old(Value()), tok, now)
      ensures ok <==> Live(old(Value()), tok, now)
    {
      if tok == EMPTY_TOKEN || tok !in tokens {
        return false;
      }
      if now >= tokens[tok].expires {
        RevokeLocked(tok);
        return false;
      }
      return true;
    }

    /** The channel that closes when the session ends, if it has not ended. */
    method SessionDone(tok: Token, now: int) returns (done: Option<Channel>)
      requires Sound(Value())
      modifies this`tokens, this`closed
      ensures Sound(Value()) && Value() == Watch(old(Value()), tok, now)
      ensures done.Some? <==> Live(old(Value()), tok, now)
      ensures done.Some? ==> tok in tokens && tokens[tok].done == done.value && done.value !in closed
    {
      if tok !in tokens {
        return None;
      }
      if tokens[tok].expires - now <= 0 {
        RevokeLocked(tok);
        return None;
      }
      WatchKeepsSound(Value(), tok, now);
      tokens := tokens[tok := tokens[tok].(timer := true)];
      assert Owns(tokens, tok, tokens[tok].done);
      return Some(tokens[tok].done);
    }

    /** Shutting down closes every channel there is. */
    method Close()
      requires Sound(Value())
      modifies this`tokens, this`closed
      ensures Sound(Value()) && Value() == Leave(old(Value()), old(tokens).Keys)
      ensures tokens == map[] && forall c :: 0 <= c < made ==> c in closed
    {
      ghost var was := Value();
      ghost var gone := {};
      var todo := tokens.Keys;
      LeaveNone(was, {});
      while todo != {}
        invariant Sound(Value())
        invariant todo <= was.tokens.Keys
        invariant gone == was.tokens.Keys - todo
        invariant Value() == Leave(was, gone)
        decreases todo
      {
        EmptyOrNot(todo);
        var t :| t in todo;
        todo := todo - {t};
        RevokeLocked(t);
        LeaveMore(was, gone, t);
        gone := gone + {t};
      }
      assert gone == was.tokens.Keys;
      assert tokens == map[];
      assert forall t, c :: !Owns(tokens, t, c);
    }

    method Throttle(a: Address, now: int) returns (ok: bool)
      modifies this`lastTry
      ensures ok <==> Admits(old(lastTry), a, now)
      ensures lastTry == AfterTry(old(lastTry), a, now)
    {
      if |lastTry| >= MAX_TRIES {
        SweepTries(now, MIN_INTERVAL);
        assert lastTry == Swept(old(lastTry), now);
        if |lastTry| >= MAX_TRIES {
          return false;
        }
      }
      if a in lastTry && now - lastTry[a] < MIN_INTERVAL {
        return false;
      }
      lastTry := lastTry[a := now];
      return true;
    }
  }

  // ---- What each operation leaves -----------------------------------------------------

  /** A login leaves the new session, for a week, and of the others exactly those that are neither
      evicted nor expired. */
  lemma IssueMeans(s: Sessions, evict: Option<Token>, tok: Token, now: int)
    requires tok !in s.tokens
    ensures var s' := Issue(s, evict, tok, now);
            && (forall t :: t in s'.tokens <==>
                  t == tok || (t in s.tokens && evict != Some(t) && now < s.tokens[t].expires))
            && s'.tokens[tok] == Session(now + 7 * 24 * 3600 * NANOS_PER_SECOND, s.made, false)
            && (forall t :: t in s'.tokens && t != tok ==> s'.tokens[t] == s.tokens[t])
  {
  }

  /** Asking for a session removes it when it has expired, and changes nothing else. */
  lemma CheckMeans(s: Sessions, tok: Token, now: int)
    requires Sound(s)
    ensures var s' := Check(s, tok, now);
            && (forall t :: t in s'.tokens <==> t in s.tokens && !(t == tok && now >= s.tokens[t].expires))
            && (forall t :: t in s'.tokens ==> s'.tokens[t] == s.tokens[t])
  {
  }

  /** A channel that claims a session starts its timer, so that it ends even if nobody asks; an
      expired one is removed; and nothing else changes. */
  lemma WatchMeans(s: Sessions, tok: Token, now: int)
    ensures var s' := Watch(s, tok, now);
            && (forall t :: t in s'.tokens <==> t in s.tokens && !(t == tok && now >= s.tokens[t].expires))
            && (forall t :: t in s'.tokens ==>
                  s'.tokens[t] == if t == tok then s.tokens[t].(timer := true) else s.tokens[t])
  {
  }

  /** A login leaves the attempts of the last hour, and no others, in the throttle's table. */
  lemma LoginSweepsTries(tries: Tries, now: int)
    ensures var left := AfterLogin(tries, now);
            && (forall a :: a in left <==> a in tries && now - tries[a] <= HOUR)
            && (forall a :: a in left ==> left[a] == tries[a])
  {
  }

  // ---- Histories of sessions ----------------------------------------------------------

  datatype Event =
    | Login(evict: Option<Token>, tok: Token, at: int)
    | Asked(tok: Token, at: int)
    | Watched(tok: Token, at: int)
    | Fired(tok: Token, at: int)
    | Revoked(tok: Token)
    | Closed

  function Apply(s: Sessions, e: Event): Sessions {
    match e
    case Login(evict, tok, at) => Issue(s, evict, tok, at)
    case Asked(tok, at) => Check(s, tok, at)
    case Watched(tok, at) => Watch(s, tok, at)
    case Fired(tok, _) => Leave(s, {tok})
    case Revoked(tok) => Leave(s, {tok})
    case Closed => Leave(s, s.tokens.Keys)
  }

  function After(events: seq<Event>): Sessions {
    if events == [] then NO_SESSIONS else Apply(After(events[..|events| - 1]), events[|events| - 1])
  }

  /** A timer fires no earlier than its session expires. */
  predicate NotEarly(s: Sessions, e: Event) {
    e.Fired? && e.tok in s.tokens ==> s.tokens[e.tok].expires <= e.at
  }

  /** Tokens are minted once, evictions are those the store may make, and no timer is early. */
  ghost predicate Possible(events: seq<Event>) {
    && (forall k :: 0 <= k < |events| && events[k].Login? ==>
          events[k].tok != EMPTY_TOKEN && MayEvict(After(events[..k]), events[k].evict))
    && (forall k :: 0 <= k < |events| ==> NotEarly(After(events[..k]), events[k]))
    && (forall j, k :: 0 <= j < k < |events| && events[j].Login? && events[k].Login? ==>
          events[j].tok != events[k].tok)
  }

  predicate Timed(e: Event) {
    e.Login? || e.Asked? || e.Watched? || e.Fired?
  }

  /** The clock does not go back, and reads `now` last. */
  ghost predicate Clock(events: seq<Event>, n: int, now: int)
    requires 0 <= n <= |events|
  {
    && (forall k :: 0 <= k < n && Timed(events[k]) ==> events[k].at <= now)
    && (forall j, k :: 0 <= j < k < n && Timed(events[j]) && Timed(events[k]) ==> events[j].at <= events[k].at)
  }

  predicate Ends(e: Event, tok: Token) {
    e == Revoked(tok) || e.Closed? || (e.Login? && e.evict == Some(tok))
  }

  /** The token was issued less than a week ago and nobody has revoked or evicted it since. */
  ghost predicate Current(events: seq<Event>, n: int, tok: Token, now: int)
    requires 0 <= n <= |events|
  {
    exists k :: 0 <= k < n && events[k].Login? && events[k].tok == tok && now < events[k].at + SESSION_TTL
                && forall j :: k < j < n ==> !Ends(events[j], tok)
  }

  lemma CurrentStep(events: seq<Event>, n: int, tok: Token, now: int)
    requires 0 <= n < |events|
    ensures Current(events, n + 1, tok, now) <==>
              || (events[n].Login? && events[n].tok == tok && now < events[n].at + SESSION_TTL)
              || (Current(events, n, tok, now) && !Ends(events[n], tok))
  {
    if Current(events, n, tok, now) && !Ends(events[n], tok) {
      var k :| 0 <= k < n && events[k].Login? && events[k].tok == tok && now < events[k].at + SESSION_TTL
               && forall j :: k < j < n ==> !Ends(events[j], tok);
      assert forall j :: k < j < n + 1 ==> !Ends(events[j], tok);
    }
    if Current(events, n + 1, tok, now)
       && !(events[n].Login? && events[n].tok == tok && now < events[n].at + SESSION_TTL)
    {
      var k :| 0 <= k < n + 1 && events[k].Login? && events[k].tok == tok && now < events[k].at + SESSION_TTL
               && forall j :: k < j < n + 1 ==> !Ends(events[j], tok);
      assert k < n && !Ends(events[n], tok);
    }
  }

  /** One event, seen by one token at a later time. */
  lemma LiveStep(s: Sessions, e: Event, tok: Token, now: int)
    requires Timed(e) ==> e.at <= now
    requires e.Login? ==> e.tok != EMPTY_TOKEN && e.tok !in s.tokens
    requires NotEarly(s, e)
    ensures Live(Apply(s, e), tok, now) <==>
              || (e.Login? && e.tok == tok && now < e.at + SESSION_TTL)
              || (Live(s, tok, now) && !Ends(e, tok))
  {
  }

  lemma TokensComeFrom(s: Sessions, e: Event, t: Token)
    requires t in Apply(s, e).tokens
    ensures t in s.tokens || (e.Login? && t == e.tok)
  {
  }

  lemma {:induction false} TokensWereIssued(events: seq<Event>, n: int, t: Token)
    requires 0 <= n <= |events| && t in After(events[..n]).tokens
    ensures exists k :: 0 <= k < n && events[k].Login? && events[k].tok == t
  {
    assert n > 0;
    assert events[..n][..n - 1] == events[..n - 1];
    var before := After(events[..n - 1]);
    TokensComeFrom(before, events[n - 1], t);
    hide Apply;
    if t in before.tokens {
      TokensWereIssued(events, n - 1, t);
    }
  }

  /** A token that is issued now was not in the map. */
  lemma MintedOnce(events: seq<Event>, n: int)
    requires 0 <= n < |events| && Possible(events) && events[n].Login?
    ensures events[n].tok !in After(events[..n]).tokens
  {
    hide After;
    if events[n].tok in After(events[..n]).tokens {
      TokensWereIssued(events, n, events[n].tok);
    }
  }

  /** In every history of the store: a session is valid exactly when its token was issued less
      than a week ago and has not been revoked or evicted since. The sweeps, the timers and the
      checks that remove expired sessions change no answer. */
  lemma {:induction false} ValidMeansCurrent(events: seq<Event>, n: int, tok: Token, now: int)
    requires 0 <= n <= |events| && Possible(events) && Clock(events, n, now)
    ensures Live(After(events[..n]), tok, now) <==> Current(events, n, tok, now)
  {
    if n > 0 {
      hide Apply;
      var e := events[n - 1];
      ValidMeansCurrent(events, n - 1, tok, now);
      if e.Login? {
        MintedOnce(events, n - 1);
      }
      assert events[..n][..n - 1] == events[..n - 1];
      CurrentStep(events, n - 1, tok, now);
      LiveStep(After(events[..n - 1]), e, tok, now);
    }
  }

  lemma ApplyKeepsSound(s: Sessions, e: Event)
    requires Sound(s)
    requires e.Login? ==> MayEvict(s, e.evict) && e.tok !in s.tokens && e.tok != EMPTY_TOKEN
    ensures Sound(Apply(s, e))
  {
    hide Sound, Leave, Issue, Watch, MayEvict;
    match e
    case Login(evict, tok, at) => IssueKeepsSound(s, evict, tok, at);
    case Asked(tok, at) => LeaveKeepsSound(s, {tok});
    case Watched(tok, at) => WatchKeepsSound(s, tok, at);
    case Fired(tok, _) => LeaveKeepsSound(s, {tok});
    case Revoked(tok) => LeaveKeepsSound(s, {tok});
    case Closed => LeaveKeepsSound(s, s.tokens.Keys);
  }

  /** In every history: at most 256 sessions, and each channel ever made is closed exactly when
      its session is no longer in the map. */
  lemma {:induction false} HistoryKeepsSound(events: seq<Event>)
    requires Possible(events)
    ensures Sound(After(events))
  {
    var n := |events|;
    if n == 0 {
      assert forall t, c :: !Owns(map[], t, c);
    } else {
      var before := events[..n - 1];
      assert Possible(before) by {
        forall k | 0 <= k < n - 1
          ensures before[..k] == events[..k]
        {
        }
      }
      HistoryKeepsSound(before);
      if events[n - 1].Login? {
        MintedOnce(events, n - 1);
      }
      ApplyKeepsSound(After(before), events[n - 1]);
    }
  }

  /** A closed channel stays closed, and a channel closes in the very step in which its session
      leaves the map. */
  lemma ClosedOnLeaving(s: Sessions, e: Event, tok: Token)
    requires Sound(s) && tok in s.tokens
    requires e.Login? ==> MayEvict(s, e.evict) && e.tok !in s.tokens && e.tok != EMPTY_TOKEN
    ensures s.closed <= Apply(s, e).closed
    ensures tok in Apply(s, e).tokens ==> Apply(s, e).tokens[tok].done == s.tokens[tok].done
    ensures tok !in Apply(s, e).tokens <==> s.tokens[tok].done in Apply(s, e).closed
  {
    ApplyKeepsSound(s, e);
    var s' := Apply(s, e);
    if tok in s'.tokens {
      assert Owns(s'.tokens, tok, s.tokens[tok].done);
    }
  }

  // ---- Histories of attempts ----------------------------------------------------------

  datatype Attempt = Try(a: Address, at: int) | Sweep(at: int)

  function Table(ops: seq<Attempt>): Tries {
    if ops == [] then map[]
    else
      var tries := Table(ops[..|ops| - 1]);
      match ops[|ops| - 1]
      case Try(a, at) => AfterTry(tries, a, at)
      case Sweep(at) => AfterLogin(tries, at)
  }

  predicate Admitted(ops: seq<Attempt>, k: int)
    requires 0 <= k < |ops|
  {
    ops[k].Try? && Admits(Table(ops[..k]), ops[k].a, ops[k].at)
  }

  /** The addresses with an admitted attempt within the last second. */
  function Busy(ops: seq<Attempt>, now: int): set<Address> {
    set k | 0 <= k < |ops| && Admitted(ops, k) && now - ops[k].at < NANOS_PER_SECOND :: ops[k].a
  }

  ghost predicate InOrder(ops: seq<Attempt>) {
    forall j, k :: 0 <= j < k < |ops| ==> ops[j].at <= ops[k].at
  }

  lemma BusyStep(ops: seq<Attempt>, now: int)
    requires |ops| > 0
    ensures var n := |ops| - 1;
            Busy(ops, now) == Busy(ops[..n], now) +
                              if Admitted(ops, n) && now - ops[n].at < MIN_INTERVAL then {ops[n].a} else {}
  {
    var n := |ops| - 1;
    forall k | 0 <= k < n
      ensures ops[..n][k] == ops[k] && Admitted(ops[..n], k) == Admitted(ops, k)
    {
      assert ops[..n][..k] == ops[..k];
    }
    forall a | a in Busy(ops, now)
      ensures a in Busy(ops[..n], now) || (Admitted(ops, n) && now - ops[n].at < MIN_INTERVAL && a == ops[n].a)
    {
      var k :| 0 <= k < |ops| && Admitted(ops, k) && now - ops[k].at < MIN_INTERVAL && a == ops[k].a;
      if k < n {
        assert Admitted(ops[..n], k);
      }
    }
    forall a | a in Busy(ops[..n], now)
      ensures a in Busy(ops, now)
    {
      var k :| 0 <= k < n && Admitted(ops[..n], k) && now - ops[..n][k].at < MIN_INTERVAL && a == ops[..n][k].a;
      assert Admitted(ops, k);
    }
  }

  lemma KeepShrinks(tries: Tries, kept: set<Address>)
    ensures |Keep(tries, kept)| <= |tries|
  {
    var left := Keep(tries, kept);
    assert tries.Keys == left.Keys + (tries.Keys - kept);
    assert left.Keys !! tries.Keys - kept;
  }

  /** Dropping entries that are old already changes no later view of the last second. */
  lemma SweepsAreInvisible(tries: Tries, at: int, now: int)
    requires at <= now
    ensures Recent(Swept(tries, at), now) == Recent(tries, now)
    ensures Recent(AfterLogin(tries, at), now) == Recent(tries, now)
    ensures |Swept(tries, at)| <= |tries| && |AfterLogin(tries, at)| <= |tries|
  {
    KeepShrinks(tries, Recent(tries, at));
    var young := set a | a in tries && !(at - tries[a] > HOUR);
    KeepShrinks(tries, young);
    assert AfterLogin(tries, at) == Keep(tries, young);
  }

  lemma RecentPut(tries: Tries, a: Address, at: int, now: int)
    requires at <= now && !Young(tries, a, at)
    ensures Recent(tries[a := at], now) == Recent(tries, now) + if now - at < MIN_INTERVAL then {a} else {}
    ensures |tries[a := at]| <= |tries| + 1
  {
    assert tries[a := at].Keys == tries.Keys + {a};
    forall b
      ensures Young(tries[a := at], b, now) <==> Young(tries, b, now) || (b == a && now - at < MIN_INTERVAL)
    {
    }
    hide Young;
  }

  lemma TryStep(tries: Tries, a: Address, at: int, now: int)
    requires at <= now && |tries| <= MAX_TRIES
    ensures Recent(AfterTry(tries, a, at), now) ==
            Recent(tries, now) + if Admits(tries, a, at) && now - at < MIN_INTERVAL then {a} else {}
    ensures |AfterTry(tries, a, at)| <= MAX_TRIES
  {
    hide Swept, Recent;
    SweepsAreInvisible(tries, at, now);
    if Admits(tries, a, at) {
      RecentPut(Swept(tries, at), a, at, now);
    }
  }

  /** The table knows exactly the addresses of the last second, and stays within its bound. */
  lemma {:induction false} TableKnowsBusy(ops: seq<Attempt>, now: int)
    requires InOrder(ops) && (ops != [] ==> ops[|ops| - 1].at <= now)
    ensures Recent(Table(ops), now) == Busy(ops, now)
    ensures |Table(ops)| <= MAX_TRIES
  {
    if ops != [] {
      var n := |ops| - 1;
      var before := ops[..n];
      TableKnowsBusy(before, now);
      BusyStep(ops, now);
      hide Busy, Recent, AfterTry, AfterLogin, Admits;
      match ops[n]
      case Try(a, at) => TryStep(Table(before), a, at, now);
      case Sweep(at) => SweepsAreInvisible(Table(before), at, now);
    }
  }

  lemma AdmitsByRecent(tries: Tries, a: Address, now: int)
    ensures Admits(tries, a, now) <==> a !in Recent(tries, now) && |Recent(tries, now)| < MAX_TRIES
  {
    var recent := Recent(tries, now);
    SweepsAreInvisible(tries, now, now);
    hide Young;
    assert a in Recent(Swept(tries, now), now) <==> a in Swept(tries, now) && Young(Swept(tries, now), a, now);
    assert recent <= tries.Keys;
    if |tries| >= MAX_TRIES {
      assert Swept(tries, now).Keys == recent;
    } else {
      assert tries.Keys == recent + (tries.Keys - recent);
    }
  }

  /** In every history, whatever was swept: an attempt is admitted exactly when its address has
      had no admitted attempt within the last second, and fewer than 1024 addresses have. */
  lemma AdmittedMeans(ops: seq<Attempt>, a: Address, now: int)
    requires InOrder(ops) && (ops != [] ==> ops[|ops| - 1].at <= now)
    ensures Admits(Table(ops), a, now) <==> a !in Busy(ops, now) && |Busy(ops, now)| < 1024
  {
    TableKnowsBusy(ops, now);
    AdmitsByRecent(Table(ops), a, now);
    hide Busy, Recent, Admits;
  }

  /** Two admitted attempts from one address are at least a second apart. */
  lemma AttemptsAreSpaced(ops: seq<Attempt>, j: int, k: int)
    requires InOrder(ops) && 0 <= j < k < |ops|
    requires Admitted(ops, j) && Admitted(ops, k) && ops[j].a == ops[k].a
    ensures ops[k].at - ops[j].at >= NANOS_PER_SECOND
  {
    var before := ops[..k];
    AdmittedMeans(before, ops[k].a, ops[k].at);
    assert before[..j] == ops[..j];
    assert Admitted(before, j);
    assert before[j] == ops[j];
  }
}

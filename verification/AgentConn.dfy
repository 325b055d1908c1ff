/** One agent connection's requests and replies: the table of pending replies, and the
    goroutines that wait for them, time out, and hand them over. */
module AgentConnection {
  import opened Commons

  datatype FrameType = TaskResult | TerminalResult | Other

  /** A frame from the agent. An empty id is no id. */
  datatype Envelope = Envelope(id: Option<Uint64>, typ: FrameType, payload: int)

  /** What is awaited, and the channel, named after the request that made it. */
  datatype Entry = Entry(want: FrameType, ch: int)

  // ---- The table ----------------------------------------------------------------------

  datatype Book = Book(pending: map<Uint64, Entry>, nextID: Uint64)

  /** Request ids count up and wrap around. */
  function Following(n: Uint64): Uint64 {
    (n + 1) % UINT64
  }

  function Entered(b: Book, want: FrameType, ch: int): Book {
    var id := Following(b.nextID);
    Book(b.pending[id := Entry(want, ch)], id)
  }

  /** A frame answers an entry only with its id and the type that was asked for. */
  predicate Answers(b: Book, env: Envelope) {
    env.id.Some? && env.id.value in b.pending && b.pending[env.id.value].want == env.typ
  }

  function Without(b: Book, id: Uint64): Book {
    b.(pending := b.pending - {id})
  }

  class AgentConn {
    var pending: map<Uint64, Entry>
    var nextID: Uint64

    ghost function Value(): Book
      reads this
    {
      Book(pending, nextID)
    }

    constructor ()
      ensures Value() == Book(map[], 0)
    {
      pending, nextID := map[], 0;
    }

    /** The first critical section of a request. */
    method Register(want: FrameType, ch: int) returns (id: Uint64)
      modifies this
      ensures Value() == Entered(old(Value()), want, ch)
      ensures id == nextID && pending[id] == Entry(want, ch)
    {
      nextID := if nextID == UINT64 - 1 then 0 else nextID + 1;
      id := nextID;
      pending := pending[id := Entry(want, ch)];
    }

    method Forget(id: Uint64)
      modifies this`pending
      ensures Value() == Without(old(Value()), id)
    {
      pending := pending - {id};
    }

    /** The critical section of resolving a reply: the channel to hand it to, if it is awaited. */
    method Take(env: Envelope) returns (ch: Option<int>)
      modifies this`pending
      ensures ch.Some? <==> Answers(old(Value()), env)
      ensures ch.Some? ==> old(pending)[env.id.value].ch == ch.value
      ensures Value() == if ch.Some? then Without(old(Value()), env.id.value) else old(Value())
    {
      if env.id == None {
        return None;
      }
      var id := env.id.value;
      if id in pending && pending[id].want == env.typ {
        ch := Some(pending[id].ch);
        pending := pending - {id};
      } else {
        ch := None;
      }
    }
  }

  // ---- The goroutines -----------------------------------------------------------------

  datatype Stage = Registered | Waiting | Forgetting | Done(result: Option<Envelope>)

  /** A request with its one-slot channel, how often its entry was removed, and whether a reply
      removed it. */
  datatype Request = Request(id: Uint64, want: FrameType, stage: Stage, slot: Option<Envelope>,
                             removals: nat, answered: bool)

  /** `reader` is the reply that the connection's reader has taken off the table and not yet
      handed over. */
  datatype World = World(book: Book, requests: map<int, Request>, reader: Option<(int, Envelope)>)

  const OPENED := World(Book(map[], 0), map[], None)

  datatype Action =
    | Ask(r: int, want: FrameType)
    | Sent(r: int, ok: bool)
    | Receive(r: int)
    | GiveUp(r: int)
    | Forget(r: int)
    | Take(env: Envelope)
    | HandOver

  function Removed(requests: map<int, Request>, r: int, answered: bool): map<int, Request> {
    if r !in requests then requests
    else requests[r := requests[r].(removals := requests[r].removals + 1, answered := answered)]
  }

  function AskStep(w: World, r: int, want: FrameType): World {
    if r in w.requests then w
    else
      var book := Entered(w.book, want, r);
      w.(book := book, requests := w.requests[r := Request(book.nextID, want, Registered, None, 0, false)])
  }

  /** The requester's own steps. A timeout, a closed connection and a cancelled context all give
      up in the same way. */
  function OwnStep(w: World, r: int, a: Action): World {
    if r !in w.requests then w
    else
      var q := w.requests[r];
      match (a, q.stage)
      case (Sent(_, ok), Registered) =>
        w.(requests := w.requests[r := q.(stage := if ok then Waiting else Forgetting)])
      case (Receive(_), Waiting) =>
        if q.slot.Some? then w.(requests := w.requests[r := q.(stage := Done(q.slot), slot := None)]) else w
      case (GiveUp(_), Waiting) =>
        w.(requests := w.requests[r := q.(stage := Forgetting)])
      case (Forget(_), Forgetting) =>
        var requests := w.requests[r := q.(stage := Done(None))];
        w.(book := Without(w.book, q.id),
           requests := if q.id in w.book.pending
                       then Removed(requests, w.book.pending[q.id].ch, false) else requests)
      case _ => w
  }

  function TakeStep(w: World, env: Envelope): World {
    if w.reader.Some? || !Answers(w.book, env) then w
    else
      var ch := w.book.pending[env.id.value].ch;
      World(Without(w.book, env.id.value), Removed(w.requests, ch, true), Some((ch, env)))
  }

  /** A non-blocking send: a full channel drops the reply. */
  function HandOverStep(w: World): World {
    if w.reader.None? then w
    else
      var (r, env) := w.reader.value;
      if r in w.requests && w.requests[r].slot.None?
      then w.(requests := w.requests[r := w.requests[r].(slot := Some(env))], reader := None)
      else w.(reader := None)
  }

  function Next(w: World, a: Action): World {
    match a
    case Ask(r, want) => AskStep(w, r, want)
    case Take(env) => TakeStep(w, env)
    case HandOver => HandOverStep(w)
    case _ => OwnStep(w, a.r, a)
  }

  function Run(w: World, actions: seq<Action>): World
    decreases |actions|
  {
    if actions == [] then w else Run(Next(w, actions[0]), actions[1..])
  }

  /** The id that a new request would get is not that of an unfinished one. */
  ghost predicate Unused(w: World) {
    forall r :: r in w.requests && w.requests[r].id == Following(w.book.nextID) ==> w.requests[r].stage.Done?
  }

  /** A new request that takes the id of an unfinished one. */
  ghost predicate Collides(w: World, a: Action) {
    a.Ask? && a.r !in w.requests && !Unused(w)
  }

  /** Every request of the run found its id unused. */
  ghost predicate NoCollision(w: World, actions: seq<Action>)
    decreases |actions|
  {
    actions == [] || (!Collides(w, actions[0]) && NoCollision(Next(w, actions[0]), actions[1..]))
  }

  // ---- What every step keeps ----------------------------------------------------------

  predicate Pends(w: World, r: int) {
    r in w.requests && w.requests[r].id in w.book.pending && w.book.pending[w.requests[r].id].ch == r
  }

  predicate Held(w: World, r: int) {
    w.reader.Some? && w.reader.value.0 == r
  }

  predicate Received(q: Request) {
    q.stage.Done? && q.stage.result.Some?
  }

  predicate Matches(q: Request, env: Envelope) {
    env.id == Some(q.id) && env.typ == q.want
  }

  /** One request: its entry goes before it returns and before a reply is under way, and a reply
      that removed it is its own, and is with the reader, in its channel, or received. */
  predicate RequestOk(w: World, r: int) {
    r in w.requests ==>
      var q := w.requests[r];
      && (Pends(w, r) ==> !q.stage.Done? && q.removals == 0 && !q.answered)
      && (q.answered <==> Held(w, r) || q.slot.Some? || Received(q))
      && !(Held(w, r) && q.slot.Some?)
      && !(Received(q) && (Held(w, r) || q.slot.Some?))
      && (Held(w, r) ==> Matches(q, w.reader.value.1))
      && (q.slot.Some? ==> Matches(q, q.slot.value))
      && (Received(q) ==> Matches(q, q.stage.result.value))
  }

  /** One entry: it belongs to the request that made it. */
  predicate EntryOk(w: World, id: Uint64) {
    id in w.book.pending ==>
      var e := w.book.pending[id];
      e.ch in w.requests && w.requests[e.ch].id == id && w.requests[e.ch].want == e.want
  }

  ghost predicate Inv(w: World) {
    && (forall r :: RequestOk(w, r))
    && (forall id: Uint64 :: EntryOk(w, id))
    && (w.reader.Some? ==> w.reader.value.0 in w.requests)
  }

  lemma EntryStaysOk(w: World, a: Action, id: Uint64)
    requires EntryOk(w, id)
    ensures EntryOk(Next(w, a), id)
  {
  }

  lemma RequestStaysOk(w: World, a: Action, r: int)
    requires Inv(w)
    ensures RequestOk(Next(w, a), r)
  {
    assert RequestOk(w, r);
    if r in w.requests {
      assert EntryOk(w, w.requests[r].id);
    }
    if a.Take? && a.env.id.Some? {
      assert EntryOk(w, a.env.id.value);
    }
    if a.Forget? && a.r in w.requests {
      assert EntryOk(w, w.requests[a.r].id);
    }
    assert w.reader.Some? ==> w.reader.value.0 in w.requests;
    hide EntryOk, Inv;
  }

  lemma StepKeepsInv(w: World, a: Action)
    requires Inv(w)
    ensures Inv(Next(w, a))
  {
    var w' := Next(w, a);
    forall r
      ensures RequestOk(w', r)
    {
      RequestStaysOk(w, a, r);
    }
    forall id: Uint64
      ensures EntryOk(w', id)
    {
      assert EntryOk(w, id);
      EntryStaysOk(w, a, id);
    }
    assert w'.reader.Some? ==> w'.reader.value.0 in w'.requests by {
      if a.Take? && a.env.id.Some? {
        assert EntryOk(w, a.env.id.value);
      }
    }
    hide RequestOk, EntryOk, Next;
  }

  lemma {:induction false} RunKeepsInv(w: World, actions: seq<Action>)
    requires Inv(w)
    ensures Inv(Run(w, actions))
    decreases |actions|
  {
    if actions != [] {
      StepKeepsInv(w, actions[0]);
      hide Next, Inv;
      RunKeepsInv(Next(w, actions[0]), actions[1..]);
    }
  }

  // ---- What holds of every run --------------------------------------------------------

  /** In every interleaving: a waiter receives only a reply with its own id and the type it asked
      for. */
  lemma RepliesMatch(actions: seq<Action>, r: int)
    ensures var w := Run(OPENED, actions);
            r in w.requests && Received(w.requests[r]) ==>
              Matches(w.requests[r], w.requests[r].stage.result.value)
  {
    RunKeepsInv(OPENED, actions);
    hide Run;
    assert RequestOk(Run(OPENED, actions), r);
  }

  /** In every interleaving: no entry is left of a request that has returned, and every entry
      belongs to a request that has not, with the id and the type it asked for. */
  lemma NoEntryOutlivesItsRequest(actions: seq<Action>, r: int, id: Uint64)
    ensures var w := Run(OPENED, actions);
            && (r in w.requests && w.requests[r].stage.Done? ==> !Pends(w, r))
            && (id in w.book.pending ==>
                  var e := w.book.pending[id];
                  e.ch in w.requests && !w.requests[e.ch].stage.Done?
                  && w.requests[e.ch].id == id && w.requests[e.ch].want == e.want)
  {
    RunKeepsInv(OPENED, actions);
    var w := Run(OPENED, actions);
    hide Run;
    assert RequestOk(w, r) && EntryOk(w, id);
    if id in w.book.pending {
      assert RequestOk(w, w.book.pending[id].ch);
    }
  }

  /** In every interleaving: a reply that answered a request is never dropped. The channel it is
      handed to is empty, and afterwards it is there. */
  lemma NoReplyIsDropped(actions: seq<Action>)
    requires Run(OPENED, actions).reader.Some?
    ensures var w := Run(OPENED, actions);
            var (r, env) := w.reader.value;
            && r in w.requests && w.requests[r].slot.None?
            && Next(w, HandOver).requests[r].slot == Some(env)
  {
    RunKeepsInv(OPENED, actions);
    var w := Run(OPENED, actions);
    hide Run;
    assert RequestOk(w, w.reader.value.0);
  }

  function Unfinished(w: World): set<int> {
    set r | r in w.requests && !w.requests[r].stage.Done?
  }

  lemma {:induction false} OwnersOutnumber(pending: map<Uint64, Entry>, ids: set<Uint64>, owners: set<int>)
    requires forall id :: id in ids ==> id in pending && pending[id].ch in owners
    requires forall i, j :: i in ids && j in ids && pending[i].ch == pending[j].ch ==> i == j
    ensures |ids| <= |owners|
    decreases ids
  {
    if id :| id in ids {
      OwnersOutnumber(pending, ids - {id}, owners - {pending[id].ch});
    }
  }

  /** In every interleaving: the table never holds more entries than there are requests in
      flight. */
  lemma TableIsBounded(actions: seq<Action>)
    ensures var w := Run(OPENED, actions); |w.book.pending| <= |Unfinished(w)|
  {
    RunKeepsInv(OPENED, actions);
    var w := Run(OPENED, actions);
    hide Run;
    var ids := w.book.pending.Keys;
    forall id: Uint64 | id in ids
      ensures w.book.pending[id].ch in Unfinished(w)
      ensures w.requests[w.book.pending[id].ch].id == id
    {
      assert EntryOk(w, id) && RequestOk(w, w.book.pending[id].ch);
    }
    hide Inv, RequestOk, EntryOk;
    OwnersOutnumber(w.book.pending, ids, Unfinished(w));
  }

  // ---- What the steps do --------------------------------------------------------------

  /** A new request takes the next id and has its entry on the table; once sent it waits, and if it
      cannot be sent, or gives up, it forgets its id and returns without a reply, even when one has
      come meanwhile. */
  lemma RequesterMeans(w: World, r: int, want: FrameType)
    ensures r !in w.requests ==>
              var w' := Next(w, Ask(r, want));
              var id := (w.book.nextID + 1) % UINT64;
              && w'.requests == w.requests[r := Request(id, want, Registered, None, 0, false)]
              && w'.book.nextID == id && id in w'.book.pending && w'.book.pending[id] == Entry(want, r)
              && (forall i :: i != id ==> (i in w'.book.pending <==> i in w.book.pending))
              && (forall i :: i != id && i in w.book.pending ==> w'.book.pending[i] == w.book.pending[i])
    ensures r in w.requests && w.requests[r].stage.Registered? ==>
              && Next(w, Sent(r, true)) == w.(requests := w.requests[r := w.requests[r].(stage := Waiting)])
              && Next(w, Sent(r, false)) == w.(requests := w.requests[r := w.requests[r].(stage := Forgetting)])
    ensures r in w.requests && w.requests[r].stage.Waiting? ==>
              Next(w, GiveUp(r)) == w.(requests := w.requests[r := w.requests[r].(stage := Forgetting)])
    ensures r in w.requests && w.requests[r].stage.Forgetting? ==>
              var w' := Next(w, Forget(r));
              && w'.requests[r].stage == Done(None) && w.requests[r].id !in w'.book.pending
              && (forall i :: i != w.requests[r].id ==> (i in w'.book.pending <==> i in w.book.pending))
  {
  }

  /** A frame without an id, with one that nobody asked under, or of another type than was asked for
      changes nothing; one that answers takes its entry off the table and is handed to the channel
      of the request that made it. */
  lemma FrameMeans(w: World, env: Envelope)
    requires w.reader == None
    ensures var asked := env.id.Some? && env.id.value in w.book.pending
                         && w.book.pending[env.id.value].want == env.typ;
            var w' := Next(w, Take(env));
            if !asked then w' == w
            else w'.reader == Some((w.book.pending[env.id.value].ch, env))
                 && w'.book == w.book.(pending := w.book.pending - {env.id.value})
  {
  }

  // ---- Every entry is removed exactly once --------------------------------------------

  /** The entry is on the table, or it was removed once. */
  predicate Accounted(w: World, r: int) {
    r in w.requests ==> w.requests[r].removals + (if Pends(w, r) then 1 else 0) == 1
  }

  ghost predicate AllAccounted(w: World) {
    forall r :: Accounted(w, r)
  }

  /** A new request whose id is still on the table. */
  predicate Overwrites(w: World, a: Action) {
    a.Ask? && a.r !in w.requests && Following(w.book.nextID) in w.book.pending
  }

  predicate NoOverwrite(w: World, actions: seq<Action>)
    decreases |actions|
  {
    actions == [] || (!Overwrites(w, actions[0]) && NoOverwrite(Next(w, actions[0]), actions[1..]))
  }

  lemma StaysAccounted(w: World, a: Action, r: int)
    requires Inv(w) && Accounted(w, r) && !Overwrites(w, a)
    ensures Accounted(Next(w, a), r)
  {
    assert RequestOk(w, r);
    if r in w.requests {
      assert EntryOk(w, w.requests[r].id);
    }
    if a.Take? && a.env.id.Some? {
      assert EntryOk(w, a.env.id.value);
    }
    if a.Forget? && a.r in w.requests {
      assert EntryOk(w, w.requests[a.r].id);
    }
    hide Inv, EntryOk;
  }

  /** The entry is neither on the table nor was it ever removed. */
  predicate Lost(w: World, r: int) {
    r in w.requests && w.requests[r].removals == 0 && !Pends(w, r)
  }

  lemma StaysLost(w: World, a: Action, r: int)
    requires Inv(w) && Lost(w, r)
    ensures Lost(Next(w, a), r)
  {
    if a.Take? && a.env.id.Some? {
      assert EntryOk(w, a.env.id.value);
    }
    if a.Forget? && a.r in w.requests {
      assert EntryOk(w, w.requests[a.r].id);
    }
    hide Inv, EntryOk;
  }

  lemma {:induction false} LostForGood(w: World, actions: seq<Action>, r: int)
    requires Inv(w) && Lost(w, r)
    ensures Lost(Run(w, actions), r)
    decreases |actions|
  {
    if actions != [] {
      StepKeepsInv(w, actions[0]);
      StaysLost(w, actions[0], r);
      hide Next, Inv, Lost;
      LostForGood(Next(w, actions[0]), actions[1..], r);
    }
  }

  lemma OverwriteLoses(w: World, a: Action)
    requires Inv(w) && Overwrites(w, a)
    ensures Lost(Next(w, a), w.book.pending[Following(w.book.nextID)].ch)
  {
    var id := Following(w.book.nextID);
    assert EntryOk(w, id) && RequestOk(w, w.book.pending[id].ch);
  }

  /** In every run: each entry is on the table or was removed exactly once, if and only if no
      request took an id that was still on the table. */
  lemma {:induction false} EntriesComeAndGo(w: World, actions: seq<Action>)
    requires Inv(w) && AllAccounted(w)
    ensures AllAccounted(Run(w, actions)) <==> NoOverwrite(w, actions)
    decreases |actions|
  {
    if actions != [] {
      var a := actions[0];
      var w' := Next(w, a);
      StepKeepsInv(w, a);
      hide Next, Inv;
      if Overwrites(w, a) {
        var s := w.book.pending[Following(w.book.nextID)].ch;
        OverwriteLoses(w, a);
        LostForGood(w', actions[1..], s);
        assert !Accounted(Run(w, actions), s);
      } else {
        forall r
          ensures Accounted(w', r)
        {
          assert Accounted(w, r);
          StaysAccounted(w, a, r);
        }
        EntriesComeAndGo(w', actions[1..]);
      }
    }
  }

  /** An id on the table is that of an unfinished request, so avoiding those is enough. */
  lemma {:induction false} NoCollisionNoOverwrite(w: World, actions: seq<Action>)
    requires Inv(w) && NoCollision(w, actions)
    ensures NoOverwrite(w, actions)
    decreases |actions|
  {
    if actions != [] {
      var a := actions[0];
      var id := Following(w.book.nextID);
      assert EntryOk(w, id);
      if id in w.book.pending {
        assert RequestOk(w, w.book.pending[id].ch);
      }
      StepKeepsInv(w, a);
      hide Next, Inv;
      NoCollisionNoOverwrite(Next(w, a), actions[1..]);
    }
  }

  // ---- Every reply reaches its waiter -------------------------------------------------

  /** A request that still waits for a reply has its entry on the table. */
  predicate Reachable(w: World, r: int) {
    r in w.requests && !w.requests[r].answered && (w.requests[r].stage.Registered? || w.requests[r].stage.Waiting?)
    ==> Pends(w, r)
  }

  /** The promise: whoever still waits can be answered. */
  ghost predicate Good(w: World) {
    forall r :: Reachable(w, r)
  }

  /** What the promise is worth: the reply to a waiting request, when it comes, is received by
      that request. */
  lemma ReplyReachesItsWaiter(w: World, r: int, env: Envelope)
    requires Inv(w) && Good(w) && w.reader == None
    requires r in w.requests && w.requests[r].stage.Waiting? && !w.requests[r].answered
    requires Matches(w.requests[r], env)
    ensures var w' := Next(Next(Next(w, Take(env)), HandOver), Receive(r));
            r in w'.requests && w'.requests[r].stage == Done(Some(env))
  {
    assert Reachable(w, r) && RequestOk(w, r) && EntryOk(w, w.requests[r].id);
  }

  /** No two unfinished requests have the same id. */
  predicate Apart(w: World, r: int, s: int) {
    (r in w.requests && s in w.requests && w.requests[r].id == w.requests[s].id
     && !w.requests[r].stage.Done? && !w.requests[s].stage.Done?) ==> r == s
  }

  /** While the request is unfinished and unanswered its entry is on the table. */
  predicate Exact(w: World, r: int) {
    r in w.requests && !w.requests[r].stage.Done? && !w.requests[r].answered ==> Pends(w, r)
  }

  ghost predicate Strong(w: World) {
    Inv(w) && (forall r :: Exact(w, r)) && (forall r, s :: Apart(w, r, s))
  }

  lemma StaysApart(w: World, a: Action, r: int, s: int)
    requires Apart(w, r, s) && !Collides(w, a)
    ensures Apart(Next(w, a), r, s)
  {
  }

  lemma StaysExact(w: World, a: Action, r: int)
    requires Strong(w) && !Collides(w, a)
    ensures Exact(Next(w, a), r)
  {
    assert Exact(w, r) && RequestOk(w, r);
    if r in w.requests {
      var id := w.requests[r].id;
      assert EntryOk(w, id);
      if id in w.book.pending {
        assert Apart(w, r, w.book.pending[id].ch) && RequestOk(w, w.book.pending[id].ch);
      }
    }
    if a.Take? && a.env.id.Some? {
      assert EntryOk(w, a.env.id.value);
    }
    if a.Forget? && a.r in w.requests {
      assert Apart(w, r, a.r) && EntryOk(w, w.requests[a.r].id);
    }
    hide EntryOk, Inv, RequestOk;
  }

  lemma StepKeepsStrong(w: World, a: Action)
    requires Strong(w) && !Collides(w, a)
    ensures Strong(Next(w, a))
  {
    var w' := Next(w, a);
    StepKeepsInv(w, a);
    forall r
      ensures Exact(w', r)
    {
      StaysExact(w, a, r);
    }
    forall r, s
      ensures Apart(w', r, s)
    {
      assert Apart(w, r, s);
      StaysApart(w, a, r, s);
    }
    hide Inv, Exact, Apart, Next;
  }

  lemma {:induction false} RunKeepsStrong(w: World, actions: seq<Action>)
    requires Strong(w) && NoCollision(w, actions)
    ensures Strong(Run(w, actions))
    decreases |actions|
  {
    if actions != [] {
      StepKeepsStrong(w, actions[0]);
      hide Next, Strong, Unused;
      RunKeepsStrong(Next(w, actions[0]), actions[1..]);
    }
  }

  lemma StrongIsGood(w: World)
    requires Strong(w)
    ensures Good(w)
  {
    forall r
      ensures Reachable(w, r)
    {
      assert Exact(w, r);
    }
  }

  ghost predicate AskFree(actions: seq<Action>) {
    forall k :: 0 <= k < |actions| ==> !actions[k].Ask?
  }

  lemma {:induction false} AskFreeNeverCollides(w: World, actions: seq<Action>)
    requires AskFree(actions)
    ensures NoCollision(w, actions)
    decreases |actions|
  {
    if actions != [] {
      hide Next;
      AskFreeNeverCollides(Next(w, actions[0]), actions[1..]);
    }
  }

  /** How the unfinished owner of the id, by giving up, takes the new request's entry away; if it
      is itself unanswered, it has already lost its own. */
  function Harm(q: Request, s: int): seq<Action> {
    match q.stage
    case Registered => if q.answered then [Sent(s, false), Forget(s)] else []
    case Waiting => if q.answered then [GiveUp(s), Forget(s)] else []
    case _ => [Forget(s)]
  }

  lemma RunOne(w: World, a: Action)
    ensures Run(w, [a]) == Next(w, a)
  {
    hide Next;
    assert [a][1..] == [];
  }

  lemma RunTwo(w: World, a: Action, b: Action)
    ensures Run(w, [a, b]) == Next(Next(w, a), b)
  {
    hide Next;
    assert [a, b][1..] == [b];
    RunOne(Next(w, a), b);
  }

  /** A request that takes the id of an unfinished one can leave somebody waiting for ever. */
  lemma CollisionHarms(w: World, r: int, want: FrameType, s: int)
    requires Strong(w) && r !in w.requests
    requires s in w.requests && w.requests[s].id == Following(w.book.nextID) && !w.requests[s].stage.Done?
    ensures AskFree(Harm(w.requests[s], s))
    ensures !Good(Run(Next(w, Ask(r, want)), Harm(w.requests[s], s)))
  {
    var w1 := Next(w, Ask(r, want));
    var q := w.requests[s];
    assert Exact(w, s) && RequestOk(w, s);
    if !q.answered && !q.stage.Forgetting? {
      assert !Reachable(w1, s);
    } else if q.stage.Forgetting? {
      RunOne(w1, Forget(s));
      assert !Reachable(Next(w1, Forget(s)), r);
    } else {
      var give := if q.stage.Registered? then Sent(s, false) else GiveUp(s);
      RunTwo(w1, give, Forget(s));
      assert !Reachable(Next(Next(w1, give), Forget(s)), r);
    }
  }

  /** The promise stands until the next request is made, whatever happens. */
  ghost predicate Fine(w: World) {
    forall rest :: AskFree(rest) ==> Good(Run(w, rest))
  }

  lemma StrongIsFine(w: World)
    requires Strong(w)
    ensures Fine(w)
  {
    hide Run, Strong;
    forall rest | AskFree(rest)
      ensures Good(Run(w, rest))
    {
      AskFreeNeverCollides(w, rest);
      RunKeepsStrong(w, rest);
      StrongIsGood(Run(w, rest));
    }
  }

  /** The condition for one request: everyone can be answered, whatever happens until the next
      request is made, if and only if the id it takes is not that of an unfinished one. */
  lemma AskIsHarmlessIff(w: World, r: int, want: FrameType)
    requires Strong(w) && r !in w.requests
    ensures Fine(Next(w, Ask(r, want))) <==> Unused(w)
  {
    hide Next, Run, Strong;
    if Unused(w) {
      StepKeepsStrong(w, Ask(r, want));
      StrongIsFine(Next(w, Ask(r, want)));
    } else {
      var s :| s in w.requests && w.requests[s].id == Following(w.book.nextID) && !w.requests[s].stage.Done?;
      CollisionHarms(w, r, want, s);
    }
  }

  lemma PrefixOfRun(w: World, actions: seq<Action>, n: nat)
    requires n < |actions|
    ensures Run(w, actions[..n + 1]) == Run(Next(w, actions[0]), actions[1..][..n])
  {
    hide Next;
    assert actions[..n + 1][1..] == actions[1..][..n];
  }

  /** The condition for a whole run: after each of its prefixes the promise stands until the next
      request, if and only if none of its requests takes the id of an unfinished one. */
  lemma {:induction false} PromiseIffNoCollision(w: World, actions: seq<Action>)
    requires Strong(w)
    ensures NoCollision(w, actions) <==> forall n: nat :: n <= |actions| ==> Fine(Run(w, actions[..n]))
    decreases |actions|
  {
    StrongIsFine(w);
    if actions == [] {
      assert forall n: nat :: n <= 0 ==> actions[..n] == [];
    } else {
      var a := actions[0];
      var w' := Next(w, a);
      assert Run(w, actions[..0]) == w;
      hide Fine, Strong, Next, Unused;
      PrefixOfRun(w, actions, 0);
      assert Run(w, actions[..1]) == Run(w', []) == w';
      if Collides(w, a) {
        AskIsHarmlessIff(w, a.r, a.want);
        assert a == Ask(a.r, a.want);
        assert !Fine(Run(w, actions[..1]));
      } else {
        StepKeepsStrong(w, a);
        PromiseIffNoCollision(w', actions[1..]);
        forall n: nat | n < |actions|
          ensures Run(w, actions[..n + 1]) == Run(w', actions[1..][..n])
        {
          PrefixOfRun(w, actions, n);
        }
        if NoCollision(w', actions[1..]) {
          forall n: nat | n <= |actions|
            ensures Fine(Run(w, actions[..n]))
          {
            if n > 0 {
              assert Run(w, actions[..n]) == Run(w', actions[1..][..n - 1]);
            }
          }
        } else {
          var n: nat :| n <= |actions[1..]| && !Fine(Run(w', actions[1..][..n]));
          assert !Fine(Run(w, actions[..n + 1]));
        }
      }
    }
  }

  /** Every run of a connection starts so. */
  lemma OpenedIsStrong()
    ensures Strong(OPENED) && AllAccounted(OPENED)
  {
  }

  /** On every connection: each entry is on the table or was removed exactly once, if and only if no
      request took an id still on the table; and throughout, everyone who waits can be answered, if
      and only if no request took the id of an unfinished one. */
  lemma ConnectionPromises(actions: seq<Action>)
    ensures AllAccounted(Run(OPENED, actions)) <==> NoOverwrite(OPENED, actions)
    ensures (forall n: nat :: n <= |actions| ==> Fine(Run(OPENED, actions[..n]))) <==> NoCollision(OPENED, actions)
  {
    OpenedIsStrong();
    EntriesComeAndGo(OPENED, actions);
    PromiseIffNoCollision(OPENED, actions);
    hide Run, Fine, AllAccounted, NoCollision, NoOverwrite;
  }

  // ---- When ids are reused ------------------------------------------------------------

  /** The requests that a run makes. */
  function Asked(actions: seq<Action>): nat {
    if actions == [] then 0 else Asked(actions[1..]) + if actions[0].Ask? then 1 else 0
  }

  lemma LowIdsStayLow(w: World, a: Action)
    requires w.book.nextID < UINT64 - 1
    requires forall r :: r in w.requests ==> 1 <= w.requests[r].id <= w.book.nextID
    ensures var w' := Next(w, a);
            && w.book.nextID <= w'.book.nextID <= w.book.nextID + (if a.Ask? then 1 else 0)
            && forall r :: r in w'.requests ==> 1 <= w'.requests[r].id <= w'.book.nextID
  {
  }

  /** A connection that makes fewer than 2^64 requests never reuses an id too early. */
  lemma {:induction false} FewRequestsNeverCollide(w: World, actions: seq<Action>)
    requires w.book.nextID + Asked(actions) < UINT64
    requires forall r :: r in w.requests ==> 1 <= w.requests[r].id <= w.book.nextID
    ensures NoCollision(w, actions)
    decreases |actions|
  {
    if actions != [] {
      var a := actions[0];
      if w.book.nextID < UINT64 - 1 {
        LowIdsStayLow(w, a);
      } else {
        assert Next(w, a).book.nextID == w.book.nextID;
        assert forall r :: r in Next(w, a).requests ==>
                             r in w.requests && Next(w, a).requests[r].id == w.requests[r].id;
      }
      hide Next;
      FewRequestsNeverCollide(Next(w, a), actions[1..]);
    }
  }

  lemma {:induction false} RunMore(w: World, before: seq<Action>, after: seq<Action>)
    ensures Run(w, before + after) == Run(Run(w, before), after)
    decreases |before|
  {
    hide Next;
    if before == [] {
      assert before + after == after;
    } else {
      assert (before + after)[1..] == before[1..] + after;
      RunMore(Next(w, before[0]), before[1..], after);
    }
  }

  /** Request 0 waits while `n` others are made and fail to be sent. */
  function Failures(n: nat): seq<Action> {
    if n == 0 then [Ask(0, TaskResult), Sent(0, true)]
    else Failures(n - 1) + [Ask(n, TaskResult), Sent(n, false), Forget(n)]
  }

  lemma OneFailure(w: World, r: int)
    requires r !in w.requests && Following(w.book.nextID) !in w.book.pending
    ensures var w' := Run(w, [Ask(r, TaskResult), Sent(r, false), Forget(r)]);
            && w'.book == Book(w.book.pending, Following(w.book.nextID))
            && w'.reader == w.reader
            && w'.requests == w.requests[r := Request(Following(w.book.nextID), TaskResult, Done(None), None, 1, false)]
  {
    var actions := [Ask(r, TaskResult), Sent(r, false), Forget(r)];
    var id := Following(w.book.nextID);
    assert actions[1..] == [Sent(r, false), Forget(r)] && actions[1..][1..] == [Forget(r)];
    var w1 := Next(w, actions[0]);
    var w2 := Next(w1, actions[1]);
    var w3 := Next(w2, actions[2]);
    assert Run(w, actions) == w3 by {
      hide Next;
      assert [Forget(r)][1..] == [];
      assert Run(w2, [Forget(r)]) == Run(w3, []) == w3;
      assert Run(w1, actions[1..]) == Run(w2, [Forget(r)]);
    }
    assert w1.book.pending - {id} == w.book.pending;
  }

  lemma FailuresStart()
    ensures Run(OPENED, Failures(0)) == World(Book(map[1 := Entry(TaskResult, 0)], 1),
                                              map[0 := Request(1, TaskResult, Waiting, None, 0, false)], None)
  {
    var actions := Failures(0);
    assert actions[1..] == [Sent(0, true)] && actions[1..][1..] == [];
    var w1 := Next(OPENED, actions[0]);
    var w2 := Next(w1, actions[1]);
    assert Run(OPENED, actions) == w2 by {
      hide Next;
      assert Run(w2, []) == w2;
    }
  }

  lemma {:induction false} FailuresCount(n: nat)
    requires n < UINT64
    ensures var w := Run(OPENED, Failures(n));
            && w.book == Book(map[1 := Entry(TaskResult, 0)], (1 + n) % UINT64) && w.reader == None
            && (forall r :: r in w.requests <==> 0 <= r <= n)
            && w.requests[0] == Request(1, TaskResult, Waiting, None, 0, false)
  {
    hide Next, Run;
    if n == 0 {
      FailuresStart();
    } else {
      FailuresCount(n - 1);
      var more := [Ask(n, TaskResult), Sent(n, false), Forget(n)];
      RunMore(OPENED, Failures(n - 1), more);
      OneFailure(Run(OPENED, Failures(n - 1)), n);
    }
  }

  /** With 2^64 requests made while one is still waiting, the next overwrites its entry, which is
      then never removed, and gets its reply. */
  lemma ReusedIdStealsTheReply(env: Envelope)
    requires env.id == Some(1) && env.typ == TaskResult
    ensures var w := Next(Run(OPENED, Failures(UINT64 - 1)), Ask(UINT64, TaskResult));
            && 0 in w.requests && w.requests[0].stage == Waiting && w.requests[0].removals == 0 && !Pends(w, 0)
            && !Good(w) && !AllAccounted(w)
            && Next(w, Take(env)).reader == Some((UINT64, env))
  {
    hide Run;
    FailuresCount(UINT64 - 1);
    var w := Next(Run(OPENED, Failures(UINT64 - 1)), Ask(UINT64, TaskResult));
    assert !Reachable(w, 0) && !Accounted(w, 0);
  }
}

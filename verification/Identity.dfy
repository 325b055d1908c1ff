/** Who may speak for a machine: the credential table, the machine rows, the live fleet and the
    connections, changed step by step under the identity lock. */
module Identities {
  import opened Commons
  import opened FleetHub

  type Token = int

  /** What the credential table keeps of a token. Hashing is taken to be injective; the row a
      delete leaves for a machine that never bound a token matches no token at all. */
  datatype Hash = NoHash | Of(token: Token)

  datatype Credential = Credential(hash: Hash, revoked: bool)

  datatype Row = Row(uuid: Uuid, facts: Facts)

  /** The two tables. `ids` is the unique index on the uuid column, and row ids are never used
      twice. */
  datatype Tables = Tables(creds: map<Uuid, Credential>, rows: map<int, Row>, ids: map<Uuid, int>,
                           nextId: int)

  const NO_TABLES := Tables(map[], map[], map[], 1)

  predicate Revoked(t: Tables, uuid: Uuid) {
    uuid in t.creds && t.creds[uuid].revoked
  }

  predicate BoundTo(t: Tables, uuid: Uuid, token: Token) {
    uuid in t.creds && t.creds[uuid].hash == Of(token)
  }

  /** The check before the upgrade, made without any lock: a known identity needs its own
      unrevoked token, an unknown one the shared enrolment key. */
  predicate AuthAgent(t: Tables, uuid: Uuid, token: Token, key: bool) {
    if uuid in t.creds then !t.creds[uuid].revoked && t.creds[uuid].hash == Of(token) else key
  }

  function Bind(t: Tables, uuid: Uuid, token: Token): Tables {
    if uuid in t.creds then t else t.(creds := t.creds[uuid := Credential(Of(token), false)])
  }

  /** A known identity keeps its row id and its name. */
  function Register(t: Tables, uuid: Uuid, facts: Facts): Tables {
    if uuid in t.ids && t.ids[uuid] in t.rows then
      var id := t.ids[uuid];
      t.(rows := t.rows[id := Row(uuid, facts.(name := t.rows[id].facts.name))])
    else
      t.(rows := t.rows[t.nextId := Row(uuid, facts)], ids := t.ids[uuid := t.nextId],
         nextId := t.nextId + 1)
  }

  function Delete(t: Tables, id: int): Tables {
    if id !in t.rows then t
    else
      var uuid := t.rows[id].uuid;
      var hash := if uuid in t.creds then t.creds[uuid].hash else NoHash;
      t.(creds := t.creds[uuid := Credential(hash, true)], rows := t.rows - {id},
         ids := t.ids - {uuid})
  }

  /** The two indexes of the machine table agree, and no revoked identity has a row. */
  ghost predicate Sound(t: Tables) {
    && (forall i :: i in t.rows ==>
          i < t.nextId && t.rows[i].uuid in t.ids && t.ids[t.rows[i].uuid] == i)
    && (forall u :: u in t.ids ==>
          t.ids[u] in t.rows && t.rows[t.ids[u]].uuid == u && !Revoked(t, u))
  }

  // ---- The store ----------------------------------------------------------------------

  /** The statements, in order, with the failures a database can answer each of them with. */
  class Store {
    var creds: map<Uuid, Credential>
    var rows: map<int, Row>
    var ids: map<Uuid, int>
    var nextId: int

    ghost function Value(): Tables
      reads this
    {
      Tables(creds, rows, ids, nextId)
    }

    constructor ()
      ensures Value() == NO_TABLES && Sound(Value())
    {
      creds, rows, ids, nextId := map[], map[], map[], 1;
    }

    /** Whatever the database does, success means that the token is the one bound to the
        identity, unrevoked, and that an existing credential was left as it was. */
    method BindCredential(uuid: Uuid, token: Token, wrote: bool, read: bool) returns (ok: bool)
      requires Sound(Value())
      modifies this`creds
      ensures Sound(Value())
      ensures Value() == if wrote then Bind(old(Value()), uuid, token) else old(Value())
      ensures ok <==> wrote && read && !Revoked(Value(), uuid) && BoundTo(Value(), uuid, token)
      ensures ok && uuid in old(creds) ==> old(creds)[uuid] == Credential(Of(token), false)
    {
      if !wrote {
        return false;
      }
      if uuid !in creds {
        creds := creds[uuid := Credential(Of(token), false)];
      }
      if !read {
        return false;
      }
      var stored := creds[uuid];
      return !stored.revoked && stored.hash == Of(token);
    }

    method RegisterMachine(uuid: Uuid, facts: Facts, wrote: bool, read: bool)
      returns (row: Option<(int, Row)>)
      requires Sound(Value())
      modifies this`rows, this`ids, this`nextId
      ensures !Revoked(Value(), uuid) ==> Sound(Value())
      ensures Value() == if wrote then Register(old(Value()), uuid, facts) else old(Value())
      ensures row.Some? <==> wrote && read
      ensures row.Some? ==>
                var (id, r) := row.value;
                && id in rows && rows[id] == r && r.uuid == uuid && ids[uuid] == id
                && (uuid in old(ids) ==> id == old(ids)[uuid])
                && (uuid !in old(ids) ==> id !in old(rows) && r.facts == facts)
                && (uuid in old(ids) ==> r.facts == facts.(name := old(rows)[id].facts.name))
    {
      if !wrote {
        return None;
      }
      if uuid in ids {
        var id := ids[uuid];
        rows := rows[id := Row(uuid, facts.(name := rows[id].facts.name))];
      } else {
        rows := rows[nextId := Row(uuid, facts)];
        ids := ids[uuid := nextId];
        nextId := nextId + 1;
      }
      if !read {
        return None;
      }
      return Some((ids[uuid], rows[ids[uuid]]));
    }

    /** Revokes and deletes in one transaction, which applies as a whole or not at all. */
    method DeleteMachine(id: int, commit: bool) returns (ok: bool)
      requires Sound(Value())
      modifies this`creds, this`rows, this`ids
      ensures Sound(Value())
      ensures Value() == if commit then Delete(old(Value()), id) else old(Value())
      ensures ok <==> commit && id in old(rows)
      ensures ok ==> Revoked(Value(), old(rows)[id].uuid)
    {
      if id !in rows || !commit {
        return false;
      }
      var uuid := rows[id].uuid;
      if uuid in creds {
        creds := creds[uuid := creds[uuid].(revoked := true)];
      } else {
        creds := creds[uuid := Credential(NoHash, true)];
      }
      rows := rows - {id};
      ids := ids - {uuid};
      return true;
    }
  }

  // ---- The system ---------------------------------------------------------------------

  /** How far the handler that holds the lock has come. */
  datatype Stage = Entered | Bound | Stored(id: int) | Listed(id: int) | Welcomed(id: int) | Attached(id: int)

  datatype Lock =
    | Free
    | Held(c: Conn, stage: Stage)
    | Deleting(id: int)
    | Removing(id: int, uuid: Uuid)

  datatype Status = Waiting | Inside | Serving(id: int) | Gone

  /** One agent connection past the unlocked check, with the identity and token it came with. */
  datatype Handler = Handler(uuid: Uuid, token: Token, facts: Facts, status: Status)

  datatype World = World(t: Tables, fleet: Fleet, lock: Lock, handlers: map<Conn, Handler>)

  datatype Action =
    | Arrive(c: Conn, header: Uuid, token: Token, key: bool, hello: Uuid, facts: Facts)
    | Enter(c: Conn)
    | BindToken(wrote: bool, read: bool)
    | RegisterHello(wrote: bool, read: bool)
    | PutLive
    | Welcome(sent: bool)
    | AttachLive
    | Unlock
    | Leave(c: Conn)
    | BeginDelete(id: int)
    | CommitDelete(commit: bool)
    | RemoveLive
    | Restart

  function Moved(w: World, c: Conn, status: Status): map<Conn, Handler>
    requires c in w.handlers
  {
    w.handlers[c := w.handlers[c].(status := status)]
  }

  /** A handler that fails under the lock lets it go and returns. */
  function GiveUp(w: World, c: Conn): World
    requires c in w.handlers
  {
    w.(lock := Free, handlers := Moved(w, c, Gone))
  }

  /** The part of the agent handler that runs under the lock. */
  function Locked(w: World, a: Action): World
    requires w.lock.Held? && w.lock.c in w.handlers
  {
    var c := w.lock.c;
    var h := w.handlers[c];
    match (a, w.lock.stage)
    case (BindToken(wrote, read), Entered) =>
      var t := if wrote then Bind(w.t, h.uuid, h.token) else w.t;
      var w' := w.(t := t);
      if wrote && read && BoundTo(t, h.uuid, h.token) && !Revoked(t, h.uuid)
      then w'.(lock := Held(c, Bound)) else GiveUp(w', c)
    case (RegisterHello(wrote, read), Bound) =>
      var t := if wrote then Register(w.t, h.uuid, h.facts) else w.t;
      var w' := w.(t := t);
      if wrote && read && h.uuid in t.ids then w'.(lock := Held(c, Stored(t.ids[h.uuid]))) else GiveUp(w', c)
    case (PutLive, Stored(id)) =>
      var facts := if id in w.t.rows then w.t.rows[id].facts else h.facts;
      w.(fleet := Put(w.fleet, id, h.uuid, facts), lock := Held(c, Listed(id)))
    case (Welcome(sent), Listed(id)) =>
      if sent then w.(lock := Held(c, Welcomed(id))) else GiveUp(w, c)
    case (AttachLive, Welcomed(id)) =>
      w.(fleet := Attach(w.fleet, id, c), lock := Held(c, Attached(id)), handlers := Moved(w, c, Serving(id)))
    case (Unlock, Attached(id)) => w.(lock := Free)
    case _ => w
  }

  /** Steps of the other goroutines. A step whose moment has not come changes nothing. */
  function Next(w: World, a: Action): World {
    match a
    case Arrive(c, header, token, key, hello, facts) =>
      if c !in w.handlers && AuthAgent(w.t, header, token, key) && hello == header
      then w.(handlers := w.handlers[c := Handler(hello, token, facts, Waiting)]) else w
    case Enter(c) =>
      if w.lock.Free? && c in w.handlers && w.handlers[c].status.Waiting?
      then w.(lock := Held(c, Entered), handlers := Moved(w, c, Inside)) else w
    case Leave(c) =>
      if c in w.handlers && w.handlers[c].status.Serving? && !(w.lock.Held? && w.lock.c == c)
      then w.(fleet := Detach(w.fleet, w.handlers[c].status.id, c), handlers := Moved(w, c, Gone)) else w
    case BeginDelete(id) =>
      if w.lock.Free? then w.(lock := Deleting(id)) else w
    case CommitDelete(commit) =>
      if !w.lock.Deleting? then w
      else if commit && w.lock.id in w.t.rows
      then w.(t := Delete(w.t, w.lock.id), lock := Removing(w.lock.id, w.t.rows[w.lock.id].uuid))
      else w.(lock := Free)
    case RemoveLive =>
      if !w.lock.Removing? then w
      else w.(fleet := Close(w.fleet, w.lock.id), lock := Free)
    case Restart =>
      World(w.t, Fleet(map i | i in w.t.rows :: Entry(w.t.rows[i].uuid, w.t.rows[i].facts, None), w.fleet.told),
            Free, map c | c in w.handlers :: w.handlers[c].(status := Gone))
    case _ =>
      if w.lock.Held? && w.lock.c in w.handlers then Locked(w, a) else w
  }

  /** Removing a machine tells its connection to close. */
  function Close(f: Fleet, id: int): Fleet {
    var conn := CurrentConn(f, id);
    var f' := Remove(f, id);
    if conn.Some? then f'.(told := f'.told + {conn.value}) else f'
  }

  function Run(w: World, actions: seq<Action>): World
    decreases |actions|
  {
    if actions == [] then w else Run(Next(w, actions[0]), actions[1..])
  }

  /** A panel that has just loaded its tables. */
  ghost predicate Started(w: World) {
    && Sound(w.t) && w.lock == Free && w.handlers == map[]
    && w.fleet.entries == map i | i in w.t.rows :: Entry(w.t.rows[i].uuid, w.t.rows[i].facts, None)
  }

  // ---- What every step keeps ----------------------------------------------------------

  /** A live machine has its row, unless it is the one whose delete is about to remove it. */
  predicate HasRow(w: World, id: int)
    requires id in w.fleet.entries
  {
    || (id in w.t.rows && w.t.rows[id].uuid == w.fleet.entries[id].uuid)
    || w.lock == Removing(id, w.fleet.entries[id].uuid)
  }

  /** The current connection of a machine belongs to a handler serving that identity. */
  predicate ConnOk(w: World, id: int)
    requires id in w.fleet.entries
  {
    var e := w.fleet.entries[id];
    e.conn.Some? ==>
      && e.conn.value in w.handlers
      && w.handlers[e.conn.value].status == Serving(id)
      && w.handlers[e.conn.value].uuid == e.uuid
  }

  ghost predicate FleetOk(w: World) {
    forall i :: i in w.fleet.entries ==> HasRow(w, i) && ConnOk(w, i)
  }

  ghost predicate HandlersOk(w: World) {
    forall c :: c in w.handlers && w.handlers[c].status.Serving? ==>
                  BoundTo(w.t, w.handlers[c].uuid, w.handlers[c].token)
  }

  predicate LockOk(w: World) {
    match w.lock
    case Held(c, stage) =>
      && c in w.handlers
      && (w.handlers[c].status == if stage.Attached? then Serving(stage.id) else Inside)
      && var h := w.handlers[c];
         && (!stage.Entered? ==> BoundTo(w.t, h.uuid, h.token) && !Revoked(w.t, h.uuid))
         && (stage.Stored? || stage.Listed? || stage.Welcomed? || stage.Attached? ==>
               stage.id in w.t.rows && w.t.rows[stage.id].uuid == h.uuid)
         && (stage.Listed? || stage.Welcomed? || stage.Attached? ==> stage.id in w.fleet.entries)
    case Removing(id, uuid) => id !in w.t.rows && Revoked(w.t, uuid)
    case _ => true
  }

  ghost predicate Inv(w: World) {
    Sound(w.t) && FleetOk(w) && HandlersOk(w) && LockOk(w)
  }

  lemma StartsWell(w: World)
    requires Started(w)
    ensures Inv(w)
  {
  }

  lemma TablesStaySound(w: World, a: Action)
    requires Inv(w)
    ensures Sound(Next(w, a).t)
  {
  }

  lemma FleetStaysOk(w: World, a: Action)
    requires Inv(w)
    ensures FleetOk(Next(w, a))
  {
  }

  lemma HandlersStayOk(w: World, a: Action)
    requires Inv(w)
    ensures HandlersOk(Next(w, a))
  {
  }

  lemma LockStaysOk(w: World, a: Action)
    requires Inv(w)
    ensures LockOk(Next(w, a))
  {
  }

  lemma {:induction false} RunKeepsInv(w: World, actions: seq<Action>)
    requires Inv(w)
    ensures Inv(Run(w, actions))
    decreases |actions|
  {
    if actions != [] {
      var a := actions[0];
      assert Inv(Next(w, a)) by {
        TablesStaySound(w, a);
        FleetStaysOk(w, a);
        HandlersStayOk(w, a);
        LockStaysOk(w, a);
      }
      hide Next, Inv;
      RunKeepsInv(Next(w, a), actions[1..]);
    }
  }

  // ---- The lock -----------------------------------------------------------------------

  /** The holder's own next step. */
  predicate HoldersTurn(lock: Lock, a: Action) {
    match lock
    case Free => false
    case Deleting(_) => a.CommitDelete?
    case Removing(_, _) => a.RemoveLive?
    case Held(_, stage) =>
      match stage
      case Entered => a.BindToken?
      case Bound => a.RegisterHello?
      case Stored(_) => a.PutLive?
      case Listed(_) => a.Welcome?
      case Welcomed(_) => a.AttachLive?
      case Attached(_) => a.Unlock?
  }

  /** The steps that the holder still needs, at most. */
  function StepsLeft(lock: Lock): nat {
    match lock
    case Free => 0
    case Deleting(_) => 2
    case Removing(_, _) => 1
    case Held(_, stage) =>
      match stage
      case Entered => 6
      case Bound => 5
      case Stored(_) => 4
      case Listed(_) => 3
      case Welcomed(_) => 2
      case Attached(_) => 1
  }

  /** Only the holder's own steps move a held lock, and each of them, whether it fails or not,
      brings it closer to being free: after six at most it is. */
  lemma HolderLetsGo(w: World, a: Action)
    requires Inv(w) && !w.lock.Free?
    ensures HoldersTurn(w.lock, a) ==> StepsLeft(Next(w, a).lock) < StepsLeft(w.lock)
    ensures !HoldersTurn(w.lock, a) && !a.Restart? ==> Next(w, a).lock == w.lock
  {
  }

  // ---- Credentials are for ever -------------------------------------------------------

  /** Every credential of `t` is still there in `u` with the same hash, and revoked if it was. */
  ghost predicate KeptIn(t: Tables, u: Tables) {
    forall x :: x in t.creds ==>
                  x in u.creds && u.creds[x].hash == t.creds[x].hash
                  && (t.creds[x].revoked ==> u.creds[x].revoked)
  }

  lemma StepKeepsCredentials(w: World, a: Action)
    ensures KeptIn(w.t, Next(w, a).t)
  {
  }

  /** Whatever happens, from any state: the hash bound to an identity never changes, and a
      revoked identity stays revoked. */
  lemma {:induction false} CredentialsAreForever(w: World, actions: seq<Action>)
    ensures KeptIn(w.t, Run(w, actions).t)
    decreases |actions|
  {
    if actions != [] {
      StepKeepsCredentials(w, actions[0]);
      hide Next;
      CredentialsAreForever(Next(w, actions[0]), actions[1..]);
    }
  }

  /** In every run, all the connections that ever serve one identity came with the same token:
      the shared key never replaces a bound credential. */
  lemma OneTokenPerIdentity(w: World, actions: seq<Action>, c1: Conn, c2: Conn)
    requires Inv(w)
    requires c1 in w.handlers && w.handlers[c1].status.Serving?
    requires var w' := Run(w, actions);
             c2 in w'.handlers && w'.handlers[c2].status.Serving?
             && w'.handlers[c2].uuid == w.handlers[c1].uuid
    ensures Run(w, actions).handlers[c2].token == w.handlers[c1].token
  {
    CredentialsAreForever(w, actions);
    RunKeepsInv(w, actions);
    hide Run;
  }

  // ---- Who is let in ------------------------------------------------------------------

  /** A new connection gets a handler exactly when it says hello as the identity it authenticated as,
      and that identity either has a credential, unrevoked, and this is its token, or has none, and
      the enrolment key was right. */
  lemma ArrivalMeans(w: World, c: Conn, header: Uuid, token: Token, key: bool, hello: Uuid, facts: Facts)
    requires c !in w.handlers
    ensures var w' := Next(w, Arrive(c, header, token, key, hello, facts));
            var admitted := hello == header &&
              (if header in w.t.creds then w.t.creds[header] == Credential(Of(token), false) else key);
            w' == if admitted then w.(handlers := w.handlers[c := Handler(hello, token, facts, Waiting)]) else w
  {
  }

  /** A connection came for the identity with this token and the right enrolment key. */
  predicate Vouches(a: Action, uuid: Uuid, token: Token) {
    a.Arrive? && a.header == uuid && a.hello == uuid && a.token == token && a.key
  }

  /** The token is neither bound to the identity nor is anyone inside who could bind it. */
  ghost predicate Stranger(w: World, uuid: Uuid, token: Token) {
    && !BoundTo(w.t, uuid, token)
    && forall c :: c in w.handlers ==> !(w.handlers[c].uuid == uuid && w.handlers[c].token == token)
  }

  lemma StaysStranger(w: World, a: Action, uuid: Uuid, token: Token)
    requires Stranger(w, uuid, token) && !Vouches(a, uuid, token)
    ensures Stranger(Next(w, a), uuid, token)
  {
  }

  lemma {:induction false} NobodyVouches(w: World, actions: seq<Action>, uuid: Uuid, token: Token)
    requires Stranger(w, uuid, token)
    requires forall k :: 0 <= k < |actions| ==> !Vouches(actions[k], uuid, token)
    ensures Stranger(Run(w, actions), uuid, token)
    decreases |actions|
  {
    if actions != [] {
      StaysStranger(w, actions[0], uuid, token);
      hide Next, Stranger, Vouches;
      NobodyVouches(Next(w, actions[0]), actions[1..], uuid, token);
    }
  }

  /** In every run from the start of the panel: a token that was not bound to an identity then is
      bound, or serves, only if a connection came for that identity with that token and the right
      enrolment key. */
  lemma KeyIsNeeded(w: World, actions: seq<Action>, uuid: Uuid, token: Token)
    requires Started(w) && !BoundTo(w.t, uuid, token)
    requires var w' := Run(w, actions);
             BoundTo(w'.t, uuid, token)
             || exists c :: c in w'.handlers && w'.handlers[c].uuid == uuid && w'.handlers[c].token == token
    ensures exists k :: 0 <= k < |actions| && Vouches(actions[k], uuid, token)
  {
    hide Vouches, Run;
    if forall k :: 0 <= k < |actions| ==> !Vouches(actions[k], uuid, token) {
      NobodyVouches(w, actions, uuid, token);
    }
  }

  // ---- What the steps do --------------------------------------------------------------

  /** Each step of the handler that holds the lock, when nothing fails, and what it leaves when
      something does: it goes, and the lock with it. */
  lemma LockedStepsMean(w: World, c: Conn)
    requires Inv(w) && w.lock.Held? && w.lock.c == c
    ensures var h := w.handlers[c];
            var stage := w.lock.stage;
            && (stage.Entered? ==>
                  forall wrote, read ::
                    var w' := Next(w, BindToken(wrote, read));
                    if wrote && read && (h.uuid in w.t.creds ==> w.t.creds[h.uuid] == Credential(Of(h.token), false))
                    then w'.lock == Held(c, Bound) && BoundTo(w'.t, h.uuid, h.token)
                    else w'.lock == Free && w'.handlers[c].status == Gone && (!wrote ==> w'.t == w.t))
            && (stage.Listed? ==>
                  && Next(w, Welcome(true)) == w.(lock := Held(c, Welcomed(stage.id)))
                  && Next(w, Welcome(false)).lock == Free && Next(w, Welcome(false)).handlers[c].status == Gone
                  && Next(w, Welcome(false)).fleet == w.fleet)
            && (stage.Welcomed? ==>
                  CurrentConn(Next(w, AttachLive).fleet, stage.id) == Some(c)
                  && Next(w, AttachLive).handlers[c].status == Serving(stage.id))
            && (stage.Attached? ==> Next(w, Unlock) == w.(lock := Free))
  {
  }

  lemma RegisteringMeans(w: World, c: Conn, wrote: bool, read: bool)
    requires Inv(w) && w.lock == Held(c, Bound)
    ensures var uuid := w.handlers[c].uuid;
            var w' := Next(w, RegisterHello(wrote, read));
            && (if wrote && read
                then uuid in w'.t.ids && w'.lock == Held(c, Stored(w'.t.ids[uuid]))
                else w'.lock == Free && w'.handlers[c].status == Gone)
            && (wrote ==> uuid in w'.t.ids && (uuid in w.t.ids ==> w'.t.ids[uuid] == w.t.ids[uuid]))
            && (!wrote ==> w'.t == w.t)
            && (forall i :: i in w.t.rows && w.t.rows[i].uuid != uuid ==> i in w'.t.rows && w'.t.rows[i] == w.t.rows[i])
  {
  }

  lemma ListingMeans(w: World, c: Conn, id: int)
    requires Inv(w) && w.lock == Held(c, Stored(id))
    ensures var w' := Next(w, PutLive);
            && w'.lock == Held(c, Listed(id)) && id in w'.fleet.entries
            && w'.fleet.entries[id].uuid == w.handlers[c].uuid && w'.fleet.entries[id].facts == w.t.rows[id].facts
            && CurrentConn(w'.fleet, id) == CurrentConn(w.fleet, id)
            && (forall i :: i != id && i in w.fleet.entries ==>
                  i in w'.fleet.entries && w'.fleet.entries[i] == w.fleet.entries[i])
  {
  }

  /** The steps outside the lock: a waiting handler enters when it is free; a serving one that ends
      takes its machine offline only if it is the current one; a delete begins when the lock is free,
      and its transaction revokes and removes, or frees the lock; a restart brings every row back
      offline and ends every handler. */
  lemma OtherStepsMean(w: World, c: Conn, id: int)
    ensures c in w.handlers && w.handlers[c].status == Waiting && w.lock == Free ==>
              Next(w, Enter(c)).lock == Held(c, Entered) && Next(w, Enter(c)).handlers[c].status == Inside
    ensures c in w.handlers && w.handlers[c].status == Serving(id) && !(w.lock.Held? && w.lock.c == c) ==>
              var w' := Next(w, Leave(c));
              w'.handlers[c].status == Gone
              && CurrentConn(w'.fleet, id) ==
                 if CurrentConn(w.fleet, id) == Some(c) then None else CurrentConn(w.fleet, id)
    ensures w.lock == Free ==> Next(w, BeginDelete(id)) == w.(lock := Deleting(id))
    ensures w.lock == Deleting(id) ==>
              var w' := Next(w, CommitDelete(true));
              if id in w.t.rows
              then w'.lock == Removing(id, w.t.rows[id].uuid) && Revoked(w'.t, w.t.rows[id].uuid)
                   && w'.t.rows == w.t.rows - {id}
              else w' == w.(lock := Free)
    ensures w.lock == Deleting(id) ==> Next(w, CommitDelete(false)) == w.(lock := Free)
    ensures var w' := Next(w, Restart);
            && w'.t == w.t && w'.lock == Free
            && w'.fleet.entries.Keys == w.t.rows.Keys
            && (forall i :: i in w.t.rows ==> w'.fleet.entries[i] == Entry(w.t.rows[i].uuid, w.t.rows[i].facts, None))
            && (forall h :: h in w.handlers ==> h in w'.handlers && w'.handlers[h].status == Gone)
  {
  }

  // ---- Attached connections -----------------------------------------------------------

  /** In every reachable state, every attached connection is served by a handler of that machine,
      and its token is the one bound to the machine's identity. Its credential is revoked exactly
      in the window between the transaction of that machine's own delete and its removal from the
      hub; a delete of another machine has no such window for it. */
  lemma AttachedMeansBound(w: World, actions: seq<Action>, id: int, c: Conn)
    requires Started(w) && CurrentConn(Run(w, actions).fleet, id) == Some(c)
    ensures var w' := Run(w, actions);
            && c in w'.handlers && w'.handlers[c].status == Serving(id)
            && w'.fleet.entries[id].uuid == w'.handlers[c].uuid
            && BoundTo(w'.t, w'.handlers[c].uuid, w'.handlers[c].token)
            && (Revoked(w'.t, w'.handlers[c].uuid) <==> w'.lock.Removing? && w'.lock.id == id)
            && (id in w'.t.rows <==> !(w'.lock.Removing? && w'.lock.id == id))
            && (id in w'.t.rows ==> w'.t.rows[id].uuid == w'.handlers[c].uuid)
  {
    StartsWell(w);
    RunKeepsInv(w, actions);
    var w' := Run(w, actions);
    hide Run;
    assert HasRow(w', id) && ConnOk(w', id);
  }

  /** The store's row ids and identities reach the hub one to one: no two live machines share an
      identity, and what the agent handler puts into the hub is what the hub's own contract asks
      of its caller. */
  lemma HubIsOneToOne(w: World, actions: seq<Action>, i: int, j: int)
    requires Started(w)
    ensures var w' := Run(w, actions);
            && ((i in w'.fleet.entries && j in w'.fleet.entries
                 && w'.fleet.entries[i].uuid == w'.fleet.entries[j].uuid) ==> i == j)
            && ((w'.lock.Held? && w'.lock.stage == Stored(i)) ==>
                  && w'.lock.c in w'.handlers
                  && var uuid := w'.handlers[w'.lock.c].uuid;
                     ((j in w'.fleet.entries && w'.fleet.entries[j].uuid == uuid) ==> j == i)
                     && (i in w'.fleet.entries ==> w'.fleet.entries[i].uuid == uuid))
  {
    StartsWell(w);
    RunKeepsInv(w, actions);
    hide Run;
  }

  // ---- Deleted machines ---------------------------------------------------------------

  /** Nothing of the identity is left: it is revoked and has no row and no live machine. */
  ghost predicate Shut(w: World, uuid: Uuid) {
    && Revoked(w.t, uuid)
    && (forall i :: i in w.t.rows ==> w.t.rows[i].uuid != uuid)
    && (forall i :: i in w.fleet.entries ==> w.fleet.entries[i].uuid != uuid)
  }

  /** The connections that serve the identity. */
  predicate Serves(w: World, c: Conn, uuid: Uuid) {
    c in w.handlers && w.handlers[c].uuid == uuid && w.handlers[c].status.Serving?
  }

  /** Removing the live machine completes its delete: nothing of it is left, and the connection
      it had is told to close. A restart in between completes it as well. */
  lemma DeleteShuts(w: World, a: Action)
    requires Inv(w) && w.lock.Removing? && (a.RemoveLive? || a.Restart?)
    ensures var w' := Next(w, a);
            && w'.lock.Free? && Shut(w', w.lock.uuid)
            && (a.RemoveLive? ==>
                  forall c :: CurrentConn(w.fleet, w.lock.id) == Some(c) ==> c in w'.fleet.told)
  {
    var w' := Next(w, a);
    if a.RemoveLive? {
      forall i | i in w'.fleet.entries
        ensures w'.fleet.entries[i].uuid != w.lock.uuid
      {
        assert HasRow(w, i);
      }
    }
  }

  lemma StaysShut(w: World, a: Action, uuid: Uuid)
    requires Inv(w) && Shut(w, uuid)
    ensures Shut(Next(w, a), uuid)
    ensures forall c :: Serves(Next(w, a), c, uuid) ==> Serves(w, c, uuid)
  {
  }

  /** After a delete, in every run: the identity is never registered, put into the hub or
      attached again, and no handler comes to serve it, whether it passed the unlocked check
      before the delete or arrives later. */
  lemma {:induction false} DeletedMachinesStayGone(w: World, actions: seq<Action>, uuid: Uuid)
    requires Inv(w) && Shut(w, uuid)
    ensures Shut(Run(w, actions), uuid)
    ensures forall c :: Serves(Run(w, actions), c, uuid) ==> Serves(w, c, uuid)
    decreases |actions|
  {
    if actions != [] {
      var a := actions[0];
      StaysShut(w, a, uuid);
      RunKeepsInv(w, [a]);
      assert Run(w, [a]) == Next(w, a) by {
        assert [a][1..] == [];
      }
      hide Next, Inv, Shut, Serves;
      DeletedMachinesStayGone(Next(w, a), actions[1..], uuid);
    }
  }

  /** From the start of the panel: once the transaction of a delete has been applied, and the
      handler has removed the live machine or the panel was restarted before it could, no state
      of any run has a row, a live machine or an attached connection for that identity. */
  lemma DeleteIsFinal(w: World, before: seq<Action>, a: Action, after: seq<Action>)
    requires Started(w) && Run(w, before).lock.Removing? && (a.RemoveLive? || a.Restart?)
    ensures var uuid := Run(w, before).lock.uuid;
            var w' := Run(Next(Run(w, before), a), after);
            && Shut(w', uuid)
            && forall id, c :: CurrentConn(w'.fleet, id) == Some(c) ==>
                                 c in w'.handlers && w'.handlers[c].uuid != uuid
  {
    StartsWell(w);
    RunKeepsInv(w, before);
    var deleted := Run(w, before);
    var uuid := deleted.lock.uuid;
    DeleteShuts(deleted, a);
    RunKeepsInv(deleted, [a]);
    assert Run(deleted, [a]) == Next(deleted, a) by {
      assert [a][1..] == [];
    }
    var shut := Next(deleted, a);
    DeletedMachinesStayGone(shut, after, uuid);
    RunKeepsInv(shut, after);
    hide Run, Next;
    var w' := Run(shut, after);
    forall id, c | CurrentConn(w'.fleet, id) == Some(c)
      ensures c in w'.handlers && w'.handlers[c].uuid != uuid
    {
      assert id in w'.fleet.entries && ConnOk(w', id);
    }
  }

  // ---- The window of a delete ---------------------------------------------------------

  const EMPTY_PANEL := World(NO_TABLES, NO_FLEET, Free, map[])
  const FACTS := Facts("", "", "")

  /** Identity 5 comes with token 9 on connection 7, is registered as machine 1 and attached, and
      the transaction of the machine's delete is applied. */
  const REGISTERING := [Arrive(7, 5, 9, true, 5, FACTS), Enter(7), BindToken(true, true), RegisterHello(true, true)]
  const ATTACHING := [PutLive, Welcome(true), AttachLive, Unlock]
  const DELETING := [BeginDelete(1), CommitDelete(true)]

  /** The panel while it enrols identity 5. */
  function Enrolling(rows: map<int, Row>, ids: map<Uuid, int>, next: int, live: map<int, Entry>, lock: Lock,
                     status: Status): World
  {
    World(Tables(map[5 := Credential(Of(9), false)], rows, ids, next), Fleet(live, {}), lock,
          map[7 := Handler(5, 9, FACTS, status)])
  }

  function Registered(live: map<int, Entry>, lock: Lock, status: Status): World {
    Enrolling(map[1 := Row(5, FACTS)], map[5 := 1], 2, live, lock, status)
  }

  lemma RunFirst(w: World, a: Action, rest: seq<Action>)
    ensures Run(w, [a] + rest) == Run(Next(w, a), rest)
  {
    hide Next;
    assert ([a] + rest)[1..] == rest;
  }

  lemma {:induction false} RunMore(w: World, before: seq<Action>, after: seq<Action>)
    ensures Run(w, before + after) == Run(Run(w, before), after)
    decreases |before|
  {
    hide Next;
    if before == [] {
      assert before + after == after;
    } else {
      assert (before + after)[1..] == before[1..] + after;
      RunMore(Next(w, before[0]), before[1..], after);
    }
  }

  lemma RunRegistering()
    ensures Run(EMPTY_PANEL, REGISTERING) == Registered(map[], Held(7, Stored(1)), Inside)
  {
    var arrived := EMPTY_PANEL.(handlers := map[7 := Handler(5, 9, FACTS, Waiting)]);
    var entered := EMPTY_PANEL.(lock := Held(7, Entered), handlers := map[7 := Handler(5, 9, FACTS, Inside)]);
    var bound := Enrolling(map[], map[], 1, map[], Held(7, Bound), Inside);
    assert Next(EMPTY_PANEL, REGISTERING[0]) == arrived;
    assert Next(arrived, REGISTERING[1]) == entered;
    assert Next(entered, REGISTERING[2]) == bound;
    assert Next(bound, REGISTERING[3]) == Registered(map[], Held(7, Stored(1)), Inside);
    hide Next;
    RunFirst(bound, REGISTERING[3], []);
    RunFirst(entered, REGISTERING[2], REGISTERING[3..]);
    RunFirst(arrived, REGISTERING[1], REGISTERING[2..]);
    RunFirst(EMPTY_PANEL, REGISTERING[0], REGISTERING[1..]);
  }

  lemma RunAttaching()
    ensures Run(Registered(map[], Held(7, Stored(1)), Inside), ATTACHING)
            == Registered(map[1 := Entry(5, FACTS, Some(7))], Free, Serving(1))
  {
    var stored := Registered(map[], Held(7, Stored(1)), Inside);
    var listed := Registered(map[1 := Entry(5, FACTS, None)], Held(7, Listed(1)), Inside);
    var welcomed := Registered(map[1 := Entry(5, FACTS, None)], Held(7, Welcomed(1)), Inside);
    var attached := Registered(map[1 := Entry(5, FACTS, Some(7))], Held(7, Attached(1)), Serving(1));
    assert Next(stored, ATTACHING[0]) == listed;
    assert Next(listed, ATTACHING[1]) == welcomed;
    assert Next(welcomed, ATTACHING[2]) == attached;
    assert Next(attached, ATTACHING[3]) == Registered(map[1 := Entry(5, FACTS, Some(7))], Free, Serving(1));
    hide Next;
    RunFirst(attached, ATTACHING[3], []);
    RunFirst(welcomed, ATTACHING[2], ATTACHING[3..]);
    RunFirst(listed, ATTACHING[1], ATTACHING[2..]);
    RunFirst(stored, ATTACHING[0], ATTACHING[1..]);
  }

  lemma RunDeleting()
    ensures var enrolled := Registered(map[1 := Entry(5, FACTS, Some(7))], Free, Serving(1));
            var w := Run(enrolled, DELETING);
            w.fleet == enrolled.fleet && w.handlers == enrolled.handlers && Revoked(w.t, 5)
  {
    var enrolled := Registered(map[1 := Entry(5, FACTS, Some(7))], Free, Serving(1));
    var locked := enrolled.(lock := Deleting(1));
    assert Next(enrolled, DELETING[0]) == locked;
    var deleted := Next(locked, DELETING[1]);
    assert deleted.fleet == enrolled.fleet && deleted.handlers == enrolled.handlers && Revoked(deleted.t, 5);
    hide Next;
    RunFirst(locked, DELETING[1], []);
    RunFirst(enrolled, DELETING[0], DELETING[1..]);
  }

  /** The window is there: a run of a panel that starts empty, after which a connection is
      attached whose credential is revoked. */
  lemma RevokedWhileAttached()
    ensures Started(EMPTY_PANEL)
    ensures var w := Run(EMPTY_PANEL, REGISTERING + ATTACHING + DELETING);
            && CurrentConn(w.fleet, 1) == Some(7)
            && 7 in w.handlers && w.handlers[7].status == Serving(1) && Revoked(w.t, w.handlers[7].uuid)
  {
    hide Next, Run;
    RunRegistering();
    RunAttaching();
    RunDeleting();
    RunMore(EMPTY_PANEL, REGISTERING, ATTACHING);
    RunMore(EMPTY_PANEL, REGISTERING + ATTACHING, DELETING);
  }
}

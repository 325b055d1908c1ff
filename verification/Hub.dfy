/** The live fleet: machines indexed by id and by uuid, each with its current agent
    connection. Connections and identities are numbers. */
module FleetHub {
  import opened Commons

  type Uuid = int
  type Conn = int

  /** What a reconnecting agent may refresh. */
  datatype Facts = Facts(name: string, host: string, version: string)

  datatype Entry = Entry(uuid: Uuid, facts: Facts, conn: Option<Conn>)

  /** The fleet as a value: one entry per machine id, and the connections told to close because
      another one replaced them. */
  datatype Fleet = Fleet(entries: map<int, Entry>, told: set<Conn>)

  const NO_FLEET := Fleet(map[], {})

  /** A known machine keeps its connection and identity; only its facts are refreshed. */
  function Put(f: Fleet, id: int, uuid: Uuid, facts: Facts): Fleet {
    f.(entries := f.entries[id := if id in f.entries then f.entries[id].(facts := facts)
                                  else Entry(uuid, facts, None)])
  }

  /** The connection that a new one for the machine replaces. */
  function Replaced(f: Fleet, id: int, c: Conn): set<Conn> {
    if id in f.entries && f.entries[id].conn.Some? then {f.entries[id].conn.value} - {c} else {}
  }

  function Attach(f: Fleet, id: int, c: Conn): Fleet {
    if id !in f.entries then f
    else Fleet(f.entries[id := f.entries[id].(conn := Some(c))], f.told + Replaced(f, id, c))
  }

  /** Only the current connection can take its machine offline. */
  function Detach(f: Fleet, id: int, c: Conn): Fleet {
    if id in f.entries && f.entries[id].conn == Some(c) then
      f.(entries := f.entries[id := f.entries[id].(conn := None)])
    else f
  }

  function Remove(f: Fleet, id: int): Fleet {
    f.(entries := f.entries - {id})
  }

  function CurrentConn(f: Fleet, id: int): Option<Conn> {
    if id in f.entries then f.entries[id].conn else None
  }

  // ---- The hub ------------------------------------------------------------------------

  class Machine {
    const id: int
    const uuid: Uuid
    var facts: Facts
    var conn: Option<Conn>

    constructor (id: int, uuid: Uuid, facts: Facts)
      ensures this.id == id && this.uuid == uuid && this.facts == facts && conn == None
    {
      this.id, this.uuid, this.facts, this.conn := id, uuid, facts, None;
    }

    ghost function Value(): Entry
      reads this
    {
      Entry(uuid, facts, conn)
    }
  }

  class Hub {
    var byID: map<int, Machine>
    var byUUID: map<Uuid, Machine>
    var told: set<Conn>

    ghost function Machines(): set<Machine>
      reads this
    {
      byID.Values
    }

    /** The two indexes are each other's inverse. */
    ghost predicate Valid()
      reads this
    {
      && (forall i :: i in byID ==>
            && byID[i].id == i
            && byID[i].uuid in byUUID && byUUID[byID[i].uuid] == byID[i])
      && (forall u :: u in byUUID ==>
            byUUID[u].uuid == u && byUUID[u].id in byID && byID[byUUID[u].id] == byUUID[u])
    }

    ghost function Value(): Fleet
      reads this, Machines()
    {
      Fleet(map i | i in byID :: byID[i].Value(), told)
    }

    constructor ()
      ensures Valid() && Value() == NO_FLEET && Machines() == {}
    {
      byID, byUUID, told := map[], map[], {};
    }

    /** The store gives an identity one id, and an id one identity. */
    method PutMachine(id: int, uuid: Uuid, facts: Facts)
      requires Valid()
      requires id in byID <==> uuid in byUUID
      requires id in byID ==> byID[id].uuid == uuid
      modifies this`byID, this`byUUID, Machines()
      ensures Valid() && fresh(Machines() - old(Machines()))
      ensures Value() == Put(old(Value()), id, uuid, facts)
      ensures id in byID && byID[id].uuid == uuid && byID[id].facts == facts
      ensures id in old(byID) ==> byID[id] == old(byID)[id] && byID[id].conn == old(byID[id].conn)
    {
      if id in byID {
        byID[id].facts := facts;
        forall i | i in byID
          ensures Value().entries[i] == Put(old(Value()), id, uuid, facts).entries[i]
        {
          assert byID[i].id == i;
        }
        assert Value().entries == Put(old(Value()), id, uuid, facts).entries;
        return;
      }
      var m := new Machine(id, uuid, facts);
      byID := byID[id := m];
      byUUID := byUUID[uuid := m];
      assert forall i :: i in old(byID) ==> byID[i] == old(byID)[i];
      assert Value().entries == Put(old(Value()), id, uuid, facts).entries;
    }

    method AttachConn(id: int, c: Conn)
      requires Valid()
      modifies this`told, Machines()
      ensures Valid() && Machines() == old(Machines())
      ensures Value() == Attach(old(Value()), id, c)
    {
      if id !in byID {
        return;
      }
      var m := byID[id];
      var replaced := m.conn;
      m.conn := Some(c);
      if replaced.Some? && replaced != Some(c) {
        told := told + {replaced.value};
      }
      forall i | i in byID
        ensures Value().entries[i] == Attach(old(Value()), id, c).entries[i]
      {
        assert byID[i].id == i;
      }
      assert Value().entries == Attach(old(Value()), id, c).entries;
    }

    method DetachConn(id: int, c: Conn)
      requires Valid()
      modifies Machines()
      ensures Valid() && Machines() == old(Machines())
      ensures Value() == Detach(old(Value()), id, c)
    {
      if id in byID && byID[id].conn == Some(c) {
        byID[id].conn := None;
        forall i | i in byID
          ensures Value().entries[i] == Detach(old(Value()), id, c).entries[i]
        {
          assert byID[i].id == i;
        }
        assert Value().entries == Detach(old(Value()), id, c).entries;
      }
    }

    method RemoveMachine(id: int) returns (c: Option<Conn>)
      requires Valid()
      modifies this`byID, this`byUUID
      ensures Valid() && Machines() <= old(Machines())
      ensures Value() == Remove(old(Value()), id)
      ensures c == CurrentConn(old(Value()), id)
    {
      if id !in byID {
        assert old(Value()).entries - {id} == old(Value()).entries;
        return None;
      }
      var m := byID[id];
      byID := byID - {id};
      byUUID := byUUID - {m.uuid};
      assert Value().entries == Remove(old(Value()), id).entries;
      return m.conn;
    }

    /** Looking a machine up by identity finds the machine with that identity. */
    method GetByUUID(uuid: Uuid) returns (id: Option<int>)
      requires Valid()
      ensures id.None? <==> forall i :: i in Value().entries ==> Value().entries[i].uuid != uuid
      ensures id.Some? ==> id.value in Value().entries && Value().entries[id.value].uuid == uuid
    {
      if uuid in byUUID {
        id := Some(byUUID[uuid].id);
        assert Value().entries[id.value].uuid == uuid;
      } else {
        id := None;
        assert forall i :: i in Value().entries ==> Value().entries[i].uuid == byID[i].uuid;
      }
    }
  }

  // ---- Histories ----------------------------------------------------------------------

  datatype Op =
    | OpPut(id: int, uuid: Uuid, facts: Facts)
    | OpAttach(id: int, c: Conn)
    | OpDetach(id: int, c: Conn)
    | OpRemove(id: int)

  function Apply(f: Fleet, op: Op): Fleet {
    match op
    case OpPut(id, uuid, facts) => Put(f, id, uuid, facts)
    case OpAttach(id, c) => Attach(f, id, c)
    case OpDetach(id, c) => Detach(f, id, c)
    case OpRemove(id) => Remove(f, id)
  }

  function After(ops: seq<Op>): Fleet {
    if ops == [] then NO_FLEET else Apply(After(ops[..|ops| - 1]), ops[|ops| - 1])
  }

  /** The machine is known after the first `n` operations: put, and not removed since. */
  ghost predicate Known(ops: seq<Op>, n: int, id: int)
    requires 0 <= n <= |ops|
  {
    exists k :: 0 <= k < n && ops[k].OpPut? && ops[k].id == id
                && forall j :: k < j < n ==> !(ops[j].OpRemove? && ops[j].id == id)
  }

  /** The connection `c` is the latest one attached to the known machine, and neither its own
      detach nor a removal has come since. */
  ghost predicate Latest(ops: seq<Op>, n: int, id: int, c: Conn)
    requires 0 <= n <= |ops|
  {
    exists k :: 0 <= k < n && ops[k] == OpAttach(id, c) && Known(ops, k, id)
                && forall j :: k < j < n ==> !Ends(ops[j], id, c)
  }

  predicate Ends(op: Op, id: int, c: Conn) {
    (op.OpAttach? && op.id == id) || op == OpDetach(id, c) || op == OpRemove(id)
  }

  lemma KnownStep(ops: seq<Op>, n: int, id: int)
    requires 0 <= n < |ops|
    ensures Known(ops, n + 1, id) <==>
            (ops[n].OpPut? && ops[n].id == id) || (Known(ops, n, id) && ops[n] != OpRemove(id))
  {
    if Known(ops, n, id) && ops[n] != OpRemove(id) {
      var k :| 0 <= k < n && ops[k].OpPut? && ops[k].id == id
               && forall j :: k < j < n ==> !(ops[j].OpRemove? && ops[j].id == id);
      assert forall j :: k < j < n + 1 ==> !(ops[j].OpRemove? && ops[j].id == id);
    }
    if Known(ops, n + 1, id) && !(ops[n].OpPut? && ops[n].id == id) {
      var k :| 0 <= k < n + 1 && ops[k].OpPut? && ops[k].id == id
               && forall j :: k < j < n + 1 ==> !(ops[j].OpRemove? && ops[j].id == id);
      assert k < n && ops[n] != OpRemove(id);
    }
  }

  lemma LatestStep(ops: seq<Op>, n: int, id: int, c: Conn)
    requires 0 <= n < |ops|
    ensures Latest(ops, n + 1, id, c) <==>
            || (ops[n] == OpAttach(id, c) && Known(ops, n, id))
            || (Latest(ops, n, id, c) && !Ends(ops[n], id, c))
  {
    if Latest(ops, n, id, c) && !Ends(ops[n], id, c) {
      var k :| 0 <= k < n && ops[k] == OpAttach(id, c) && Known(ops, k, id)
               && forall j :: k < j < n ==> !Ends(ops[j], id, c);
      assert forall j :: k < j < n + 1 ==> !Ends(ops[j], id, c);
    }
    if Latest(ops, n + 1, id, c) && !(ops[n] == OpAttach(id, c) && Known(ops, n, id)) {
      var k :| 0 <= k < n + 1 && ops[k] == OpAttach(id, c) && Known(ops, k, id)
               && forall j :: k < j < n + 1 ==> !Ends(ops[j], id, c);
      assert k < n && !Ends(ops[n], id, c);
    }
  }

  /** Under any sequence of operations: a machine is in the hub exactly when it was put and not
      removed since, and its connection is the latest one attached to it if that one's own
      detach has not run, and none otherwise. */
  lemma {:induction false} ConnIsLatest(ops: seq<Op>, n: int, id: int)
    requires 0 <= n <= |ops|
    ensures id in After(ops[..n]).entries <==> Known(ops, n, id)
    ensures forall c :: CurrentConn(After(ops[..n]), id) == Some(c) <==> Latest(ops, n, id, c)
  {
    if n > 0 {
      var before := After(ops[..n - 1]);
      assert ops[..n][..n - 1] == ops[..n - 1];
      ConnIsLatest(ops, n - 1, id);
      KnownStep(ops, n - 1, id);
      forall c
        ensures CurrentConn(After(ops[..n]), id) == Some(c) <==> Latest(ops, n, id, c)
      {
        LatestStep(ops, n - 1, id, c);
        NoLatestOnUnknown(ops, n - 1, id, c);
      }
    }
  }

  /** An unknown machine has no connection to speak of. */
  lemma {:induction false} NoLatestOnUnknown(ops: seq<Op>, n: int, id: int, c: Conn)
    requires 0 <= n <= |ops|
    ensures Latest(ops, n, id, c) ==> Known(ops, n, id)
  {
    if n > 0 {
      NoLatestOnUnknown(ops, n - 1, id, c);
      LatestStep(ops, n - 1, id, c);
      KnownStep(ops, n - 1, id);
    }
  }

  /** A connection is told to close exactly when another one was attached in its place. */
  lemma {:induction false} ToldWhenReplaced(ops: seq<Op>, n: int, c: Conn)
    requires 0 <= n <= |ops|
    ensures c in After(ops[..n]).told <==>
            exists k :: 0 <= k < n && ops[k].OpAttach? && ops[k].c != c && Latest(ops, k, ops[k].id, c)
  {
    if n > 0 {
      assert ops[..n][..n - 1] == ops[..n - 1];
      ToldWhenReplaced(ops, n - 1, c);
      var op := ops[n - 1];
      if op.OpAttach? {
        ConnIsLatest(ops, n - 1, op.id);
      }
    }
  }
}

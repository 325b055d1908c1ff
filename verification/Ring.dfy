/** The fixed ring of a machine's recent samples. */
module SampleRing {
  import opened Commons

  const RING_SIZE := 120

  /** The last 120 of the samples, or all of them while they are fewer. */
  function Tail<T>(samples: seq<T>): seq<T> {
    if |samples| <= 120 then samples else samples[|samples| - 120..]
  }

  /** The last 120 samples are stored in different places. */
  lemma OtherPlace(j: nat, k: nat)
    requires j < k < j + RING_SIZE
    ensures j % RING_SIZE != k % RING_SIZE
  {
  }

  lemma NextPlace(k: nat)
    ensures (k % RING_SIZE + 1) % RING_SIZE == (k + 1) % RING_SIZE
  {
  }

  /** Where the sample `i` places after the oldest one kept is stored. */
  lemma Place(pushed: nat, n: nat, i: nat)
    requires n <= pushed && n <= RING_SIZE
    ensures var start := (pushed % RING_SIZE - n + RING_SIZE) % RING_SIZE;
            (start + i) % RING_SIZE == (pushed - n + i) % RING_SIZE
  {
    var turns := pushed / RING_SIZE;
    var x := pushed % RING_SIZE - n + RING_SIZE;
    assert pushed - n + i == x + i + (turns - 1) * RING_SIZE;
  }

  class Ring<T(0)> {
    const buf: array<T>
    var next: int
    var n: int
    /** Everything ever pushed, in order. */
    ghost var pushed: seq<T>

    ghost predicate Valid()
      reads this, buf
    {
      && buf.Length == RING_SIZE
      && n == |Tail(pushed)|
      && next == |pushed| % RING_SIZE
      && forall k :: |pushed| - n <= k < |pushed| ==> buf[k % RING_SIZE] == pushed[k]
    }

    constructor ()
      ensures Valid() && pushed == [] && fresh(buf)
    {
      buf := new T[RING_SIZE];
      next, n, pushed := 0, 0, [];
    }

    method Push(s: T)
      requires Valid()
      modifies this`next, this`n, this`pushed, buf
      ensures Valid() && pushed == old(pushed) + [s]
    {
      ghost var m := |pushed|;
      buf[next] := s;
      next := (next + 1) % RING_SIZE;
      if n < RING_SIZE {
        n := n + 1;
      }
      pushed := pushed + [s];
      NextPlace(m);
      assert buf[m % RING_SIZE] == s;
      forall k | |pushed| - n <= k < m
        ensures buf[k % RING_SIZE] == pushed[k]
      {
        OtherPlace(k, m);
        assert buf[k % RING_SIZE] == old(buf[k % RING_SIZE]);
      }
    }

    /** The recent samples, oldest first. */
    method Snapshot() returns (out: seq<T>)
      requires Valid()
      ensures out == Tail(pushed)
    {
      out := [];
      var start := (next - n + RING_SIZE) % RING_SIZE;
      ghost var first := |pushed| - n;
      for i := 0 to n
        invariant out == pushed[first..first + i]
      {
        Place(|pushed|, n, i);
        assert buf[(start + i) % RING_SIZE] == pushed[first + i];
        out := out + [buf[(start + i) % RING_SIZE]];
      }
      assert pushed[first..] == Tail(pushed);
    }

    method Latest() returns (s: Option<T>)
      requires Valid()
      ensures pushed == [] ==> s == None
      ensures pushed != [] ==> s == Some(pushed[|pushed| - 1])
    {
      if n == 0 {
        return None;
      }
      assert (next - 1 + RING_SIZE) % RING_SIZE == (|pushed| - 1) % RING_SIZE;
      return Some(buf[(next - 1 + RING_SIZE) % RING_SIZE]);
    }
  }
}

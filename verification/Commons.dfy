/** What several modules share. */
module Commons {

  const NANOS_PER_SECOND := 1_000_000_000

  const UINT64 := 0x1_0000_0000_0000_0000

  type Uint64 = n: int | 0 <= n < UINT64

  datatype Option<+T> = None | Some(value: T)

  /** A set without elements is the empty set; what a loop needs to pick its next element. */
  lemma EmptyOrNot(s: set<int>)
    ensures s == {} || exists x :: x in s
  {
    if forall x :: x !in s {
      assert s == {};
    }
  }
}

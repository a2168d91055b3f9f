/** The disk: block files and the commits of the database.  The writes of a database transaction
    go to a batch in memory and do not fail; only its commit can. */
module Storage {

  /** `works` says which of the accesses succeed, in the order in which they are made. */
  class Device {
    const works: nat -> bool
    var nAccesses: nat

    constructor (outcomes: nat -> bool)
      ensures works == outcomes && nAccesses == 0
    {
      works, nAccesses := outcomes, 0;
    }

    /** All accesses from number `i` up to but not including number `j` succeeded. */
    ghost predicate Worked(i: nat, j: nat) {
      i <= j && forall k | i <= k < j :: works(k)
    }

    method Access() returns (ok: bool)
      modifies this`nAccesses
      ensures nAccesses == old(nAccesses) + 1 && ok == works(old(nAccesses))
    {
      ok, nAccesses := works(nAccesses), nAccesses + 1;
    }
  }
}

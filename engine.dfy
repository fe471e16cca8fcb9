/** The storage engine and the worker clock, reduced to what the benchmark
    observes of them.

    A transaction reads and writes a private copy of the tables (its staged
    image, which gives read-your-writes); committing either installs that
    image or refuses it. The engine may also raise an abort exception while a
    transaction runs. Where the state an exception leaves depends on where it
    is thrown, the model meets it at the operation that throws (`MayRaise`):
    Delivery, whose cursors outlive an abort, and NewOrder, whose clock
    reading comes after its first reads and staged writes. Elsewhere nothing
    outside the staged image changes between the throw and the commit, and
    the exception is reported at commit time. The engine refuses or aborts
    only finitely often, which `abortBudget` counts. */
module Engine {
  import opened Schema

  datatype Verdict =
    | Accepted    // commit_txn returned true
    | Refused     // commit_txn returned false
    | Raised      // an abort exception was thrown inside the transaction

  class Store {
    var tables: Tables
    var abortBudget: nat

    constructor (t: Tables, budget: nat)
      ensures tables == t && abortBudget == budget
    {
      tables := t;
      abortBudget := budget;
    }

    /** Ends a transaction whose staged image is `staged`. */
    method Commit(staged: Tables) returns (v: Verdict)
      modifies this
      ensures v == Accepted ==> tables == staged && abortBudget == old(abortBudget)
      ensures v != Accepted ==> tables == old(tables) && abortBudget < old(abortBudget)
    {
      if abortBudget == 0 {
        v := Accepted;
      } else {
        v :| true;
      }
      if v == Accepted {
        tables := staged;
      } else {
        abortBudget := abortBudget - 1;
      }
    }

    /** An operation inside a transaction, which may throw the abort
        exception; the committed tables are untouched either way. */
    method MayRaise() returns (raised: bool)
      modifies this
      ensures tables == old(tables)
      ensures raised ==> abortBudget < old(abortBudget)
      ensures !raised ==> abortBudget == old(abortBudget)
    {
      if abortBudget == 0 {
        raised := false;
      } else {
        raised :| true;
      }
      if raised {
        abortBudget := abortBudget - 1;
      }
    }
  }

  const TimeModulus: int := 0x1_0000_0000

  newtype uint32 = x: int | 0 <= x < 0x1_0000_0000

  /** The per-thread millisecond stand-in: an unsigned 32-bit counter that
      returns its value and then increments it. */
  class Clock {
    var now: uint32

    constructor ()
      ensures now == 0
    {
      now := 0;
    }

    method Tick() returns (t: int)
      modifies this
      ensures t == old(now) as int && 0 <= t < TimeModulus
      ensures now as int == (t + 1) % TimeModulus
    {
      t := now as int;
      now := ((t + 1) % TimeModulus) as uint32;
    }
  }
}

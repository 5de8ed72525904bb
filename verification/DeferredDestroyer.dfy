/** The queue behind a client that is destroyed from its own callback. */
module DeferredDestroyer {

  /** The inside of a client whose owner is gone: its worker may still run the callback that destroyed it. */
  class Retired {
    var workerJoined: bool
    var released: bool

    constructor ()
      ensures !workerJoined && !released
    {
      workerJoined, released := false, false;
    }

    /** stop() from the destroyer's thread returns when the worker has been joined. */
    method Stop()
      requires !released
      modifies this
      ensures workerJoined && !released
    {
      workerJoined := true;
    }

    /** Gives the storage back, once, and not before the join. */
    method Release()
      requires workerJoined && !released
      modifies this
      ensures workerJoined && released
    {
      released := true;
    }
  }

  class Destroyer {
    var pending: seq<Retired>
    ghost var enqueued: seq<Retired> // everything ever handed over
    ghost var done: seq<Retired>     // everything stopped and released

    /** What was handed over is released after its join or still waiting unreleased, in the order it came. */
    ghost predicate Valid()
      reads this, enqueued
    {
      enqueued == done + pending &&
      (forall i, j | 0 <= i < j < |enqueued| :: enqueued[i] != enqueued[j]) &&
      (forall i | 0 <= i < |done| :: enqueued[i].workerJoined && enqueued[i].released) &&
      (forall i | |done| <= i < |enqueued| :: !enqueued[i].released)
    }

    constructor ()
      ensures Valid() && enqueued == []
    {
      pending, enqueued, done := [], [], [];
    }

    method Enqueue(value: Retired)
      requires Valid() && !value.released && value !in enqueued
      modifies this
      ensures Valid() && enqueued == old(enqueued) + [value] && done == old(done)
    {
      pending := pending + [value];
      enqueued := enqueued + [value];
    }

    /** One turn of the endless loop, once something is pending: the next client is stopped, and released after that. */
    method DestroyNext()
      requires Valid() && pending != []
      modifies this, pending[0]
      ensures Valid() && enqueued == old(enqueued) && done == old(done) + [old(pending)[0]]
      ensures pending == old(pending)[1..]
    {
      var value := pending[0];
      assert value == enqueued[|done|];
      pending := pending[1..];
      value.Stop();
      value.Release();
      done := done + [value];
    }

    /** The loop until it has to wait again: everything handed over is released, each after its join. */
    method DestroyPending()
      requires Valid()
      modifies this, pending
      ensures Valid() && pending == [] && enqueued == old(enqueued) && done == enqueued
    {
      while pending != []
        invariant Valid() && enqueued == old(enqueued)
        invariant forall value | value in pending :: value in old(pending)
        decreases |pending|
      {
        assert pending[0] in pending;
        DestroyNext();
      }
    }
  }
}

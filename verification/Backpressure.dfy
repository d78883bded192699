/** Bounded concurrency (lib/jobs/backpressure.js). */
module Backpressure {

  class Semaphore {
    const maxConcurrent: nat
    var active: nat

    constructor (maxConcurrent: nat)
      ensures this.maxConcurrent == maxConcurrent && active == 0
    {
      this.maxConcurrent := maxConcurrent;
      active := 0;
    }

    /** Grants a permit exactly when one is free. */
    method TryAcquire() returns (ok: bool)
      modifies this
      ensures ok <==> old(active) < maxConcurrent
      ensures active == (if ok then old(active) + 1 else old(active))
    {
      if active >= maxConcurrent {
        return false;
      }
      active := active + 1;
      return true;
    }

    method Release()
      modifies this
      ensures active == (if old(active) == 0 then 0 else old(active) - 1)
    {
      var lower := active - 1;
      active := if lower < 0 then 0 else lower;
    }
  }
}

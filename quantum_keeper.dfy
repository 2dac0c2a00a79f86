/** An abstract model of tlm_utils::tlm_quantumkeeper (IEEE 1666-2011,
    clause 16.2) as the initiator uses it: a local time offset that the actor
    runs ahead of global time, and a fixed quantum bounding that offset. The
    kernel's global time is a ghost field that only `Sync` advances. */
module QuantumKeeper {

  class Keeper {
    const quantum: nat
    var localTime: nat
    ghost var globalTime: nat

    /** set_global_quantum at construction; the local offset starts at zero. */
    constructor (globalQuantum: nat)
      ensures quantum == globalQuantum && localTime == 0 && globalTime == 0
    {
      quantum := globalQuantum;
      localTime := 0;
      globalTime := 0;
    }

    /** reset: drops any local offset. */
    method Reset()
      modifies this`localTime
      ensures localTime == 0
    {
      localTime := 0;
    }

    /** get_local_time: reads the offset and changes nothing. */
    method GetLocalTime() returns (t: nat)
      ensures t == localTime
    {
      t := localTime;
    }

    /** set: the offset becomes exactly `t`, as reported by the target. */
    method Set(t: nat)
      modifies this`localTime
      ensures localTime == t
    {
      localTime := t;
    }

    /** inc: charges `t` of the actor's own computation to the offset. */
    method Inc(t: nat)
      modifies this`localTime
      ensures localTime == old(localTime) + t
    {
      localTime := localTime + t;
    }

    /** need_sync: the actor has run a whole quantum ahead of global time. */
    method NeedSync() returns (b: bool)
      ensures b <==> localTime >= quantum
    {
      b := localTime >= quantum;
    }

    /** sync: waits until global time reaches the actor's projected time
        (global time plus the offset), then starts a new window at zero. */
    method Sync()
      modifies this`localTime, this`globalTime
      ensures globalTime == old(globalTime) + old(localTime)
      ensures localTime == 0
    {
      globalTime := globalTime + localTime;
      localTime := 0;
    }
  }
}

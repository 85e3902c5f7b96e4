/**
 The process-local admission primitives (internal/reliability/restart_admission.go, reliability.go):
 a gate whose leases are returned once, and a limiter whose slots are not.
*/
module Admission {
  class AdmissionGate {
    var active: nat
    var sealed: bool

    constructor ()
      ensures active == 0 && !sealed
    {
      active, sealed := 0, false;
    }

    method Acquire() returns (ok: bool)
      modifies this`active
      ensures ok == !sealed && active == old(active) + if ok then 1 else 0
    {
      if sealed { return false; }
      active := active + 1;
      ok := true;
    }

    /** Seals only an idle process: no lease, no seal, and nothing the owner still calls busy. */
    method BeginRestart(busy: bool) returns (finish: Handoff?)
      modifies this`sealed
      ensures finish != null <==> !old(sealed) && active == 0 && !busy
      ensures finish != null ==> fresh(finish) && finish.gate == this && !finish.finished
      ensures sealed == (old(sealed) || finish != null)
    {
      if sealed || active != 0 || busy { return null; }
      sealed := true;
      finish := new Handoff(this);
    }
  }

  /** What BeginRestart hands out: a callback that settles the handoff once. */
  class Handoff {
    const gate: AdmissionGate
    var finished: bool

    constructor (gate: AdmissionGate)
      ensures this.gate == gate && !finished
    {
      this.gate, finished := gate, false;
    }

    /** The first call decides whether the gate stays sealed; no later one reopens it. */
    method Finish(keep: bool)
      modifies this, gate`sealed
      ensures finished
      ensures gate.sealed == if old(finished) then old(gate.sealed) else keep && old(gate.sealed)
    {
      if !finished {
        finished := true;
        if !keep { gate.sealed := false; }
      }
    }
  }

  /** What Acquire hands out: a release function that runs once. */
  class Lease {
    const gate: AdmissionGate
    var returned: bool

    constructor (gate: AdmissionGate)
      ensures this.gate == gate && !returned
    {
      this.gate, returned := gate, false;
    }

    method End()
      requires !returned ==> gate.active > 0
      modifies this, gate`active
      ensures returned && gate.active == old(gate.active) - (if old(returned) then 0 else 1)
    {
      if !returned {
        gate.active := gate.active - 1;
        returned := true;
      }
    }
  }

  class Limiter {
    const capacity: nat
    var active: nat

    constructor (capacity: nat)
      ensures this.capacity == capacity && active == 0
    {
      this.capacity, active := capacity, 0;
    }

    /** Waits for a slot; the wait may be given up. */
    method Acquire(granted: bool) returns (ok: bool)
      modifies this`active
      ensures ok == (granted && old(active) < capacity)
      ensures active == old(active) + if ok then 1 else 0
    {
      ok := granted && active < capacity;
      if ok { active := active + 1; }
    }

    method Release()
      modifies this`active
      ensures active == if old(active) == 0 then 0 else old(active) - 1
    {
      if active > 0 { active := active - 1; }
    }
  }
}

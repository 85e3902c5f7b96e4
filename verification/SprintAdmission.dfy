/**
 Reserving capacity as the handlers do it (cmd/bt-dashboard/sprint_admission.go,
 execution_admission.go, pipeline_handlers.go): what every path through admission takes and gives
 back. DashboardProtocol interleaves the same steps.
*/
module SprintAdmission {
  import opened Admission
  import opened Common
  import opened TaskStore

  datatype Decision = Abandon | Hand(batch: seq<Task>)

  /** How far an admission gets before the environment stops it. */
  datatype World = World(expired: bool, granted: bool, submitted: bool)

  class SprintReservation {
    const lease: Lease
    const limiter: Limiter
    /** The once of the decision, and the one-slot channel. */
    var decided: bool
    var channel: seq<Decision>
    /** The once of the release function. */
    var released: bool

    ghost predicate Valid()
      reads this, lease
    {
      && |channel| <= 1 && (channel != [] ==> decided)
      && (released <==> lease.returned)
    }

    /** Its slot and its lease are still counted. */
    ghost predicate Holds()
      reads this, lease, lease.gate, limiter
    {
      !released ==> limiter.active > 0 && lease.gate.active > 0
    }

    constructor (lease: Lease, limiter: Limiter)
      requires !lease.returned
      ensures Valid() && !decided && !released && channel == [] && this.lease == lease && this.limiter == limiter
    {
      this.lease, this.limiter := lease, limiter;
      decided, channel, released := false, [], false;
    }

    /** Gives the slot and the lease back, the first time it is called. */
    method Release()
      requires Valid() && Holds()
      modifies this`released, lease, lease.gate`active, limiter`active
      ensures Valid() && released
      ensures limiter.active == old(limiter.active) - (if old(released) then 0 else 1)
      ensures lease.gate.active == old(lease.gate.active) - (if old(released) then 0 else 1)
    {
      if !released {
        released := true;
        limiter.Release();
        lease.End();
      }
    }

    /** Undecided, the reservation is abandoned and its capacity returned; after a start the
        deferred abort changes nothing. */
    method Abort()
      requires Valid() && Holds()
      modifies this`decided, this`channel, this`released, lease, lease.gate`active, limiter`active
      ensures Valid() && decided
      ensures old(decided) ==>
                && channel == old(channel) && released == old(released)
                && limiter.active == old(limiter.active) && lease.gate.active == old(lease.gate.active)
      ensures !old(decided) ==>
                && channel == [Abandon] && released
                && limiter.active == old(limiter.active) - (if old(released) then 0 else 1)
                && lease.gate.active == old(lease.gate.active) - (if old(released) then 0 else 1)
    {
      if !decided {
        decided := true;
        channel := [Abandon];
        Release();
      }
    }

    method Start(batch: seq<Task>)
      requires Valid()
      modifies this`decided, this`channel
      ensures Valid() && decided && channel == if old(decided) then old(channel) else [Hand(batch)]
    {
      if !decided {
        decided := true;
        channel := [Hand(batch)];
      }
    }

    /** The queued callback: takes the one decision, executes a handed batch, and releases. */
    method Callback() returns (executed: Option<seq<Task>>)
      requires Valid() && Holds() && channel != []
      modifies this`channel, this`released, lease, lease.gate`active, limiter`active
      ensures Valid() && released && channel == []
      ensures executed == if old(channel)[0].Hand? then Some(old(channel)[0].batch) else None
      ensures limiter.active == old(limiter.active) - (if old(released) then 0 else 1)
      ensures lease.gate.active == old(lease.gate.active) - (if old(released) then 0 else 1)
    {
      var decision := channel[0];
      channel := [];
      executed := if decision.Hand? then Some(decision.batch) else None;
      Release();
    }
  }

  /** Either everything is reserved, or nothing is: a refused lease, an expired request, a slot
      never granted and a refused submit all leave gate and limiter as they were, although the
      last one returns its lease twice. */
  method ReserveSprint(gate: AdmissionGate, limiter: Limiter, w: World) returns (r: SprintReservation?)
    modifies gate`active, limiter`active
    ensures r == null ==> gate.active == old(gate.active) && limiter.active == old(limiter.active)
    ensures r == null <==> gate.sealed || w.expired || !w.granted || old(limiter.active) >= limiter.capacity || !w.submitted
    ensures r != null ==>
              && fresh(r) && fresh(r.lease) && r.lease.gate == gate && r.limiter == limiter
              && r.Valid() && r.Holds() && !r.decided && !r.released && r.channel == []
              && gate.active == old(gate.active) + 1 && limiter.active == old(limiter.active) + 1
  {
    var ok := gate.Acquire();
    if !ok { return null; }
    var lease := new Lease(gate);
    if w.expired {
      lease.End();
      return null;
    }
    var slot := limiter.Acquire(w.granted);
    if !slot {
      lease.End();
      return null;
    }
    var reservation := new SprintReservation(lease, limiter);
    if !w.submitted {
      reservation.Release();
      lease.End();
      return null;
    }
    return reservation;
  }

  /** The whole handler after its reservation: without a batch the deferred abort returns the
      capacity before the handler does; with one it stays held by the callback, which runs
      exactly that batch. */
  method AdmitBatch(r: SprintReservation, approved: seq<Task>)
    requires r.Valid() && r.Holds() && !r.decided && !r.released && r.channel == []
    modifies r`decided, r`channel, r`released, r.lease, r.lease.gate`active, r.limiter`active
    ensures r.Valid() && r.decided
    ensures approved == [] ==>
              && r.released && r.channel == [Abandon]
              && r.lease.gate.active == old(r.lease.gate.active) - 1 && r.limiter.active == old(r.limiter.active) - 1
    ensures approved != [] ==>
              && !r.released && r.channel == [Hand(approved)]
              && r.lease.gate.active == old(r.lease.gate.active) && r.limiter.active == old(r.limiter.active)
  {
    if approved != [] { r.Start(approved); }
    r.Abort();
  }

  /** An agent run: slot and lease are given back by the callback itself, whether it runs, finds
      its deadline passed or panics, and never by a waiter that gave up. */
  method ExecuteAgent(gate: AdmissionGate, limiter: Limiter, w: World) returns (transferred: bool, lease: Lease?)
    modifies gate`active, limiter`active
    ensures transferred <==> lease != null
    ensures transferred <==> !gate.sealed && !w.expired && w.granted && old(limiter.active) < limiter.capacity && w.submitted
    ensures !transferred ==> gate.active == old(gate.active) && limiter.active == old(limiter.active)
    ensures transferred ==>
              && fresh(lease) && lease.gate == gate && !lease.returned
              && gate.active == old(gate.active) + 1 && limiter.active == old(limiter.active) + 1
  {
    var ok := gate.Acquire();
    if !ok { return false, null; }
    var held := new Lease(gate);
    if w.expired {
      held.End();
      return false, null;
    }
    var slot := limiter.Acquire(w.granted);
    if !slot {
      held.End();
      return false, null;
    }
    if !w.submitted {
      limiter.Release();
      held.End();
      return false, null;
    }
    return true, held;
  }

  method AgentCallback(lease: Lease, limiter: Limiter)
    requires !lease.returned && lease.gate.active > 0 && limiter.active > 0
    modifies lease, lease.gate`active, limiter`active
    ensures lease.returned
    ensures lease.gate.active == old(lease.gate.active) - 1 && limiter.active == old(limiter.active) - 1
  {
    limiter.Release();
    lease.End();
  }
}

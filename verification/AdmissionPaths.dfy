/**
 The protocol's steps, taken by one request without interruption, are the handlers' methods:
 each path through SprintAdmission has its run in DashboardProtocol, with the same effect on the
 gate, the limiter and the reservation.
*/
module AdmissionPaths {
  import opened DashboardProtocol
  import SprintAdmission

  type World = SprintAdmission.World

  ghost function Asks(s: State, id: Id, m: ReserveMove): State { Try(s, Step(id, ReserveStep(m))) }
  ghost function Frees(s: State, id: Id, m: ReleaseMove): State { Try(s, Step(id, ReleaseStep(m))) }
  ghost function Decides(s: State, id: Id, m: ClaimMove): State { Try(s, Step(id, ClaimStep(m))) }

  /** What the methods count, against another moment: so much more of each. */
  predicate Counted(s: State, t: State, leases: int, slots: int) {
    && t.gate.active == s.gate.active + leases && t.gate.sealed == s.gate.sealed
    && t.limiter.used == s.limiter.used + slots && t.limiter.capacity == s.limiter.capacity
  }

  /** Everything is granted: the condition under which reserveSprint and an agent run get on. */
  predicate Granted(s: State, w: World) { !s.gate.sealed && !w.expired && w.granted && HasRoom(s.limiter) && w.submitted }

  // ---- reserveSprint ---------------------------------------------------------------------------

  /** A refused submit: the reservation's release, then the handler's own second release. */
  ghost function Unwound(s: State, id: Id): State {
    Frees(Frees(Frees(Asks(s, id, RefuseSubmit), id, FreeReservedSlot), id, EndReservation), id, UnwindDone)
  }

  ghost function ReserveRun(s: State, id: Id, w: World): State {
    if s.gate.sealed then Asks(s, id, RefuseLease)
    else
      var leased := Asks(s, id, TakeLease);
      if w.expired || !w.granted || !HasRoom(s.limiter) then Asks(leased, id, AbandonLease)
      else
        var slotted := Asks(leased, id, TakeSlot);
        if w.submitted then Asks(slotted, id, AcceptSubmit) else Unwound(slotted, id)
  }

  lemma LeaseTaken(s: State, id: Id)
    requires Inv(s) && !s.gate.sealed && (At(s, id).pc.Unreserved? || At(s, id).pc == Entered(AgentRoute))
    ensures var route := if At(s, id).pc.Unreserved? then SprintRoute else AgentRoute;
      var t := Asks(s, id, TakeLease);
      && At(t, id) == Proc(At(s, id).key, Leased(route), NoWork, NoReservation)
      && Counted(s, t, 1, 0) && WorkLease(id) in t.gate.leases && t.limiter == s.limiter && t.shared == s.shared
  {
    assert LocalInv(s, id);
  }

  lemma SlotTaken(s: State, id: Id)
    requires At(s, id).pc.Leased? && !At(s, id).pc.route.PipelineRoute? && HasRoom(s.limiter)
    ensures var p, t := At(s, id), Asks(s, id, TakeSlot);
      && At(t, id) == Proc(p.key, Slotted(p.pc.route), p.work,
                           if p.pc.route.SprintRoute? then Reservation(false, [], 0, Held) else NoReservation)
      && Counted(s, t, 0, 1) && t.gate == s.gate && t.shared == s.shared
  {}

  lemma SprintUnwinds(s: State, id: Id)
    requires At(s, id) == Proc(At(s, id).key, Slotted(SprintRoute), NoWork, Reservation(false, [], 0, Held))
    requires WorkLease(id) in s.gate.leases && s.limiter.used > 0
    ensures var t := Unwound(s, id);
      At(t, id).pc.Exiting? && At(t, id).work.NoWork? && At(t, id).res == Reservation(false, [], 0, Released) && Counted(s, t, -1, -1)
  {
    var p := At(s, id);
    var a := Asks(s, id, RefuseSubmit);
    assert At(a, id) == p.(pc := Unwinding(SprintRoute));
    var b := Frees(a, id, FreeReservedSlot);
    assert At(b, id) == p.(pc := Unwinding(SprintRoute), res := p.res.(release := SlotBack)) && b.gate == s.gate;
    var c := Frees(b, id, EndReservation);
    assert At(c, id) == p.(pc := Unwinding(SprintRoute), res := p.res.(release := Released));
    assert WorkLease(id) !in c.gate.leases && Counted(s, c, -1, -1);
  }

  /** The run has the effect SprintAdmission.ReserveSprint promises: everything reserved under the
      same condition, or gate and limiter as they were. */
  lemma ReserveRunAgrees(s: State, id: Id, w: World)
    requires Inv(s) && At(s, id).pc.Unreserved?
    ensures var t := ReserveRun(s, id, w);
      if Granted(s, w) then
        Counted(s, t, 1, 1) && At(t, id) == Proc(At(s, id).key, Reserved, Queued, Reservation(false, [], 0, Held))
      else Counted(s, t, 0, 0) && At(t, id).pc.Exiting? && At(t, id).work.NoWork?
  {
    assert LocalInv(s, id);
    if !s.gate.sealed {
      LeaseTaken(s, id);
      var leased := Asks(s, id, TakeLease);
      if !(w.expired || !w.granted || !HasRoom(s.limiter)) {
        SlotTaken(leased, id);
        var slotted := Asks(leased, id, TakeSlot);
        if !w.submitted { SprintUnwinds(slotted, id); }
      }
    }
  }

  // ---- the rest of the handler ---------------------------------------------------------------------

  /** With a published batch: the send, the unlock and the deferred abort. */
  ghost function StartRun(s: State, id: Id): State {
    Decides(Decides(Decides(s, id, SendBatch), id, UnlockStarted), id, AbortNoop)
  }

  /** Without one: the deferred abort and its release. */
  ghost function AbortRun(s: State, id: Id): State {
    Decides(Frees(Frees(Decides(s, id, AbortSends), id, FreeReservedSlot), id, EndReservation), id, LeaveDrained)
  }

  /** SprintAdmission.AdmitBatch: a started batch keeps its capacity, an aborted one has returned
      it before the handler leaves. */
  lemma StartRunAgrees(s: State, id: Id)
    requires Inv(s) && At(s, id).pc.Published?
    ensures var p, t := At(s, id), StartRun(s, id);
      && Counted(s, t, 0, 0) && At(t, id).pc.Exiting?
      && At(t, id).res == Reservation(true, [Hand(p.pc.batch)], 0, Held)
  {
    assert LocalInv(s, id);
    var p := At(s, id);
    assert p.res == Reservation(false, [], 0, Held) && [] + [Hand(p.pc.batch)] == [Hand(p.pc.batch)];
    var a := Decides(s, id, SendBatch);
    assert At(a, id) == Proc(p.key, Started, p.work, Reservation(true, [Hand(p.pc.batch)], 0, Held));
    var b := Decides(a, id, UnlockStarted);
    assert At(b, id) == At(a, id).(pc := Settling);
  }

  lemma Aborts(s: State, id: Id)
    requires At(s, id).pc.Settling? && At(s, id).res == Reservation(false, [], 0, Held)
    requires WorkLease(id) in s.gate.leases && s.limiter.used > 0
    ensures var t := AbortRun(s, id);
      Counted(s, t, -1, -1) && At(t, id).pc.Exiting? && At(t, id).res == Reservation(true, [Abandon], 0, Released)
  {
    var p := At(s, id);
    assert [] + [Abandon] == [Abandon];
    var a := Decides(s, id, AbortSends);
    assert At(a, id) == Proc(p.key, Draining, p.work, Reservation(true, [Abandon], 0, Held));
    var b := Frees(a, id, FreeReservedSlot);
    assert At(b, id) == At(a, id).(res := Reservation(true, [Abandon], 0, SlotBack)) && b.gate == s.gate;
    var c := Frees(b, id, EndReservation);
    assert At(c, id) == At(a, id).(res := Reservation(true, [Abandon], 0, Released));
  }

  lemma AbortRunAgrees(s: State, id: Id)
    requires Inv(s) && At(s, id).pc.Settling? && At(s, id).res.Reservation? && !At(s, id).res.decided
    ensures var t := AbortRun(s, id);
      && Counted(s, t, -1, -1) && At(t, id).pc.Exiting?
      && At(t, id).res == Reservation(true, [Abandon], 0, Released)
  {
    assert LocalInv(s, id);
    assert id in s.limiter.held;
    Aborts(s, id);
  }

  // ---- agent runs ------------------------------------------------------------------------------------

  ghost function AgentRun(s: State, id: Id, w: World): State {
    if s.gate.sealed then Asks(s, id, RefuseLease)
    else
      var leased := Asks(s, id, TakeLease);
      if w.expired || !w.granted || !HasRoom(s.limiter) then Asks(leased, id, AbandonLease)
      else
        var slotted := Asks(leased, id, TakeSlot);
        if w.submitted then Asks(slotted, id, AcceptSubmit)
        else Asks(Frees(Asks(slotted, id, RefuseSubmit), id, UnwindSlot), id, AbandonLease)
  }

  lemma AgentUnwinds(s: State, id: Id)
    requires At(s, id) == Proc(At(s, id).key, Slotted(AgentRoute), NoWork, NoReservation)
    requires WorkLease(id) in s.gate.leases && s.limiter.used > 0
    ensures var t := Asks(Frees(Asks(s, id, RefuseSubmit), id, UnwindSlot), id, AbandonLease);
      At(t, id).pc.Departing? && At(t, id).work.NoWork? && Counted(s, t, -1, -1)
  {
    var p := At(s, id);
    var a := Asks(s, id, RefuseSubmit);
    assert At(a, id) == p.(pc := Unwinding(AgentRoute)) && a.gate == s.gate;
    var b := Frees(a, id, UnwindSlot);
    assert At(b, id) == p.(pc := Unslotted) && b.gate == s.gate;
  }

  /** SprintAdmission.ExecuteAgent: transferred to its callback with slot and lease held, or
      refused with both as they were. */
  lemma AgentRunAgrees(s: State, id: Id, w: World)
    requires Inv(s) && At(s, id).pc == Entered(AgentRoute)
    ensures var t := AgentRun(s, id, w);
      if Granted(s, w) then
        Counted(s, t, 1, 1) && At(t, id) == Proc(At(s, id).key, Waiting, AgentQueued, NoReservation)
      else Counted(s, t, 0, 0) && At(t, id).pc.Departing? && At(t, id).work.NoWork?
  {
    assert LocalInv(s, id);
    if !s.gate.sealed {
      LeaseTaken(s, id);
      var leased := Asks(s, id, TakeLease);
      if !(w.expired || !w.granted || !HasRoom(s.limiter)) {
        SlotTaken(leased, id);
        var slotted := Asks(leased, id, TakeSlot);
        if !w.submitted { AgentUnwinds(slotted, id); }
      }
    }
  }
}

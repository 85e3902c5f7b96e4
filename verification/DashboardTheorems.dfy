/** What holds on every run of the dashboard protocol, whatever its requests interleave. */
module DashboardTheorems {
  import opened Common
  import opened TaskStore
  import opened SprintState
  import opened DashboardProtocol
  import DashboardSafety
  import Idempotency

  ghost function StateAfter(capacity: Option<nat>, owner: nat, steps: seq<Step>): State { Exec(Initial(capacity, owner), steps) }

  lemma RunInv(capacity: Option<nat>, owner: nat, steps: seq<Step>)
    ensures Inv(StateAfter(capacity, owner, steps))
  {
    DashboardSafety.InitialInv(capacity, owner);
    DashboardSafety.ReachableInv(Initial(capacity, owner), steps);
  }

  // ---- one batch at a time -------------------------------------------------------------

  /** At most one claimed batch is being executed, and the sprint is Running while it is,
      although the state lock is given up between the Running check and the claim. */
  lemma OneBatchAtATime(capacity: Option<nat>, owner: nat, steps: seq<Step>, i: Id, j: Id)
    ensures var s := StateAfter(capacity, owner, steps);
      && (Batching(At(s, i).work) ==> s.shared.sprint.running && s.shared.live == Some(i))
      && (Batching(At(s, i).work) && Batching(At(s, j).work) ==> i == j)
  {
    var s := StateAfter(capacity, owner, steps);
    RunInv(capacity, owner, steps);
    assert LocalInv(s, i) && LocalInv(s, j);
  }

  /** The state mutex has one holder, and so has the sprint admission. */
  lemma LocksExclude(capacity: Option<nat>, owner: nat, steps: seq<Step>, i: Id, j: Id)
    ensures var s := StateAfter(capacity, owner, steps);
      && (HoldsLock(At(s, i).pc) && HoldsLock(At(s, j).pc) ==> i == j)
      && (InSprintGate(At(s, i).pc) && InSprintGate(At(s, j).pc) ==> i == j)
  {
    var s := StateAfter(capacity, owner, steps);
    RunInv(capacity, owner, steps);
    assert LocalInv(s, i) && LocalInv(s, j);
  }

  /** From the Running check to the publication, across the gap without the state lock, nothing
      runs, nothing is uncertain, nothing retained is uncommitted and the key stays unknown. */
  lemma WindowStaysClean(capacity: Option<nat>, owner: nat, steps: seq<Step>, id: Id)
    requires InWindow(At(StateAfter(capacity, owner, steps), id).pc)
    ensures var s := StateAfter(capacity, owner, steps);
      s.shared.live.None? && Clean(s.shared, At(s, id).key) && s.shared.admission == Some(id)
  {
    RunInv(capacity, owner, steps);
    assert LocalInv(StateAfter(capacity, owner, steps), id);
  }

  /** When a batch is published no batch is live, nothing is uncertain, every diagnostic that
      is about to be cleared has been committed, and the key is still unknown: a retry cannot
      have been answered meanwhile, and the age list is never indexed while empty. */
  lemma PublishLosesNothing(capacity: Option<nat>, owner: nat, steps: seq<Step>, id: Id, job: nat)
    requires CanClaim(StateAfter(capacity, owner, steps), id, PublishBatch(job))
    ensures var s := StateAfter(capacity, owner, steps);
      && s.shared.live.None? && Clean(s.shared, At(s, id).key)
      && (|s.shared.idem.jobs| >= Idempotency.LIMIT ==> s.shared.idem.order != [])
      && Remember(s.shared.idem, At(s, id).key, job) == Idempotency.Admit(s.shared.idem, At(s, id).key, job)
      && forall task :: Retained(s.shared.sprint.diagnostics, task) == 0
  {
    var s := StateAfter(capacity, owner, steps);
    RunInv(capacity, owner, steps);
    assert LocalInv(s, id);
    Idempotency.AdmitKeepsValid(s.shared.idem, At(s, id).key, job);
    var ds := s.shared.sprint.diagnostics;
    forall task ensures Retained(ds, task) == 0 { CommittedRetainNothing(ds, |ds|, task); }
  }

  /** Replays answer from a memory that stays a duplicate-free bijection of bounded size. */
  lemma ReplayMemoryStaysValid(capacity: Option<nat>, owner: nat, steps: seq<Step>)
    ensures Idempotency.Valid(StateAfter(capacity, owner, steps).shared.idem)
  {
    RunInv(capacity, owner, steps);
  }

  // ---- uncertainty is final --------------------------------------------------------------

  lemma UncertainCheck(s: State, id: Id, m: CheckMove)
    requires CanCheck(s, id, m) && s.shared.sprint.uncertain
    ensures Check(s, id, m).shared.sprint.uncertain && Check(s, id, m).shared.begun == s.shared.begun
  {}

  /** A request that was let through before is stopped too: the window is clean to its end. */
  lemma UncertainClaim(s: State, id: Id, m: ClaimMove)
    requires CanClaim(s, id, m) && LocalInv(s, id) && s.shared.sprint.uncertain
    ensures Claims(s, id, m).shared.sprint.uncertain && Claims(s, id, m).shared.begun == s.shared.begun
  {}

  lemma UncertainCall(s: State, id: Id, m: CallbackMove)
    requires CanCall(s, id, m) && s.shared.sprint.uncertain
    ensures Call(s, id, m).shared.sprint.uncertain && Call(s, id, m).shared.begun == s.shared.begun
  {}

  predicate TouchesSprint(m: Move) { m.CheckStep? || m.ClaimStep? || m.CallbackStep? }

  lemma OtherMovesKeepSprint(s: State, a: Step)
    requires Enabled(s, a) && !TouchesSprint(a.move)
    ensures Apply(s, a).shared.sprint == s.shared.sprint && Apply(s, a).shared.begun == s.shared.begun
    ensures Apply(s, a).shared.live == s.shared.live && Apply(s, a).shared.origin == s.shared.origin
  {}

  lemma UncertainStep(s: State, a: Step)
    requires Inv(s) && s.shared.sprint.uncertain
    ensures Try(s, a).shared.sprint.uncertain && Try(s, a).shared.begun == s.shared.begun
  {
    if Enabled(s, a) {
      assert LocalInv(s, a.id);
      match a.move
      case CheckStep(m) => UncertainCheck(s, a.id, m);
      case ClaimStep(m) => UncertainClaim(s, a.id, m);
      case CallbackStep(m) => UncertainCall(s, a.id, m);
      case _ => OtherMovesKeepSprint(s, a);
    }
  }

  /** Once a result's outcome is unknown, no further batch is ever published. */
  lemma {:induction false} UncertaintyIsFinal(capacity: Option<nat>, owner: nat, steps: seq<Step>, later: seq<Step>)
    requires StateAfter(capacity, owner, steps).shared.sprint.uncertain
    ensures var s, t := StateAfter(capacity, owner, steps), Exec(StateAfter(capacity, owner, steps), later);
      t.shared.sprint.uncertain && t.shared.begun == s.shared.begun
  {
    if later != [] {
      var s := StateAfter(capacity, owner, steps);
      var before := later[..|later| - 1];
      UncertaintyIsFinal(capacity, owner, steps, before);
      RunInv(capacity, owner, steps);
      DashboardSafety.ReachableInv(s, before);
      UncertainStep(Exec(s, before), later[|later| - 1]);
    }
  }

  // ---- one writer --------------------------------------------------------------------------

  lemma OthersOnlyRead(s: State, id: Id, m: Move)
    requires GlobalInv(s) && LocalInv(s, id) && s.shared.live.Some? && s.shared.live != Some(id)
    requires Enabled(s, Step(id, m)) && TouchesSprint(m)
    ensures Apply(s, Step(id, m)).shared.sprint == s.shared.sprint && Apply(s, Step(id, m)).shared.origin == s.shared.origin
  {}

  /** While a batch is live only its own callback changes the sprint state, so what
      SprintExecution proves about a batch running alone holds between all other steps. */
  lemma LiveBatchIsSoleWriter(capacity: Option<nat>, owner: nat, steps: seq<Step>, a: Step)
    requires StateAfter(capacity, owner, steps).shared.live.Some? && StateAfter(capacity, owner, steps).shared.live != Some(a.id)
    ensures var s := StateAfter(capacity, owner, steps); Try(s, a).shared.sprint == s.shared.sprint
  {
    var s := StateAfter(capacity, owner, steps);
    RunInv(capacity, owner, steps);
    assert LocalInv(s, a.id);
    if Enabled(s, a) {
      if TouchesSprint(a.move) { OthersOnlyRead(s, a.id, a.move); } else { OtherMovesKeepSprint(s, a); }
    }
  }

  // ---- capacity --------------------------------------------------------------------------

  predicate Finished(p: Proc) {
    (p.pc.Outside? || p.pc.Gone?) && (p.work.NoWork? || p.work.Drained? || p.work.AgentDone? || p.work.PipelineDone?)
  }

  /** A slot is never given back twice; a finished request has given back exactly what it took
      and holds no lease; the limiter never exceeds its capacity. */
  lemma SlotsAreReturnedOnce(capacity: Option<nat>, owner: nat, steps: seq<Step>, id: Id)
    ensures var s := StateAfter(capacity, owner, steps);
      && Releases(s.limiter, id) <= (if id in s.limiter.taken then 1 else 0)
      && (id in s.limiter.held ==> Releases(s.limiter, id) == 0 && s.limiter.used > 0)
      && (Finished(At(s, id)) ==>
            && Releases(s.limiter, id) == (if id in s.limiter.taken then 1 else 0)
            && id !in s.limiter.held
            && RequestLease(id) !in s.gate.leases && WorkLease(id) !in s.gate.leases)
      && s.limiter.used == |s.limiter.held|
      && (capacity.Some? ==> s.limiter.used <= capacity.value)
  {
    var s := StateAfter(capacity, owner, steps);
    RunInv(capacity, owner, steps);
    assert LocalInv(s, id);
    CapacityIsFixed(Initial(capacity, owner), steps);
    if id in s.limiter.held { assert s.limiter.held != {}; }
  }

  lemma {:induction false} CapacityIsFixed(s: State, steps: seq<Step>)
    ensures Exec(s, steps).limiter.capacity == s.limiter.capacity
  {
    if steps != [] { CapacityIsFixed(s, steps[..|steps| - 1]); }
  }

  // ---- the decision ------------------------------------------------------------------------

  /** A reservation's channel carries at most one decision and a send never waits; once the
      request has gone, an accepted callback has been sent exactly one; and what a callback
      executes is the batch it was handed, never an abandoned one. */
  lemma OneDecision(capacity: Option<nat>, owner: nat, steps: seq<Step>, id: Id)
    ensures var p := At(StateAfter(capacity, owner, steps), id);
      && (p.res.Reservation? ==>
            && |p.res.sent| <= 1 && p.res.received <= |p.res.sent|
            && (p.res.decided <==> |p.res.sent| == 1)
            && (p.pc.Published? || (p.pc.Settling? && !p.res.decided) ==> HasSpace(p.res)))
      && (p.pc.Gone? && SprintWork(p.work) ==> p.res.Reservation? && |p.res.sent| == 1)
      && (Batching(p.work) ==> p.res.Reservation? && |p.res.sent| == 1 && p.res.sent[0].Hand?)
  {
    RunInv(capacity, owner, steps);
    assert LocalInv(StateAfter(capacity, owner, steps), id);
  }

  // ---- restart ---------------------------------------------------------------------------------

  predicate Executes(p: Proc) {
    || Batching(p.work) || p.work.AgentStarted? || p.work.AgentRunning? || p.work.AgentSettling?
    || p.work.PipelineRunning? || p.work.PipelineCleanup?
  }

  /** Every execution, attached or detached, holds a lease, so a sealed gate means that nothing
      runs, no request is inside and no capacity is held. */
  lemma SealedMeansIdle(capacity: Option<nat>, owner: nat, steps: seq<Step>, id: Id)
    requires StateAfter(capacity, owner, steps).gate.sealed
    ensures var s := StateAfter(capacity, owner, steps);
      && !Executes(At(s, id)) && (At(s, id).pc.Outside? || At(s, id).pc.Gone?)
      && s.limiter.used == 0 && !s.shared.sprint.running && s.shared.lock.None? && s.shared.admission.None?
  {
    var s := StateAfter(capacity, owner, steps);
    RunInv(capacity, owner, steps);
    assert LocalInv(s, id);
    NoLeaseMeansIdle(capacity, owner, steps);
  }

  /** A sprint callback that has nothing left but to take its abandonment, or to return. */
  predicate OnlyDrains(p: Proc) {
    && p.res.Reservation? && p.res.release.Released?
    && (p.work.Releasing? || ((p.work.Queued? || p.work.Listening?) && p.res.sent == [Abandon]))
  }

  predicate CallbackIsOver(w: Work) { w.NoWork? || w.Drained? || w.AgentDone? || w.PipelineDone? }

  /** Of the restart check's further diagnostics only the worker pool can still be busy when no
      lease is out, and only with callbacks that were abandoned or are about to return. The
      protocol lets a restart begin even then; the pool check may put it off. */
  lemma LeaselessCallbacksOnlyDrain(capacity: Option<nat>, owner: nat, steps: seq<Step>, id: Id)
    requires StateAfter(capacity, owner, steps).gate.active == 0
    ensures var p := At(StateAfter(capacity, owner, steps), id);
      (CallbackIsOver(p.work) || OnlyDrains(p)) && !Executes(p)
  {
    var s := StateAfter(capacity, owner, steps);
    RunInv(capacity, owner, steps);
    assert s.gate.leases == {};
    assert LocalInv(s, id);
  }

  /** The other diagnostics add nothing: without leases no slot is held, no sprint runs and the
      state lock is free, so taking it under the gate cannot deadlock. */
  lemma NoLeaseMeansIdle(capacity: Option<nat>, owner: nat, steps: seq<Step>)
    requires StateAfter(capacity, owner, steps).gate.active == 0
    ensures var s := StateAfter(capacity, owner, steps);
      s.limiter.used == 0 && !s.shared.sprint.running && s.shared.lock.None? && s.shared.admission.None?
  {
    var s := StateAfter(capacity, owner, steps);
    RunInv(capacity, owner, steps);
    assert s.gate.leases == {};
    forall id: Id
      ensures id !in s.limiter.held && s.shared.live != Some(id) && s.shared.lock != Some(id) && s.shared.admission != Some(id)
    {
      assert LocalInv(s, id);
    }
    assert s.limiter.held == {};
  }

  /** Behind the middleware a second lease is never refused: the request's own lease keeps the
      gate open until the work lease is taken. */
  lemma NestedLeaseIsNeverRefused(capacity: Option<nat>, owner: nat, steps: seq<Step>, id: Id)
    ensures !CanReserve(StateAfter(capacity, owner, steps), id, RefuseLease)
  {
    var s := StateAfter(capacity, owner, steps);
    RunInv(capacity, owner, steps);
    assert LocalInv(s, id);
  }

  /** Without any lease a request has only the tail of a callback left: one that was abandoned
      and drains, or one that has released everything. */
  predicate DrainsOnly(m: Move) { m.CallbackStep? && (m.callback.TakeCallback? || m.callback.Receive? || m.callback.FinishCallback?) }

  lemma LeaselessMoves(s: State, a: Step)
    requires s.gate.sealed && LocalInv(s, a.id) && Enabled(s, a)
    requires RequestLease(a.id) !in s.gate.leases && WorkLease(a.id) !in s.gate.leases
    ensures a.move.RestartStep? || DrainsOnly(a.move)
  {}

  lemma DrainingChangesNothing(s: State, a: Step)
    requires Enabled(s, a) && DrainsOnly(a.move)
    ensures var t := Apply(s, a); t.gate == s.gate && t.shared == s.shared && t.limiter == s.limiter
  {}

  lemma KeptStep(s: State, a: Step)
    requires Inv(s) && s.gate.seal.Some? && s.gate.seal.value.kept
    ensures var t := Try(s, a); t.gate == s.gate && t.shared == s.shared && t.limiter == s.limiter
  {
    if Enabled(s, a) {
      assert LocalInv(s, a.id);
      LeaselessMoves(s, a);
      if DrainsOnly(a.move) { DrainingChangesNothing(s, a); }
    }
  }

  /** A kept seal is never opened again, and from then on nothing runs: the gate, the limiter
      and the sprint stay as they are until the process exits. */
  lemma {:induction false} KeptSealIsFinal(capacity: Option<nat>, owner: nat, steps: seq<Step>, later: seq<Step>, id: Id)
    requires var seal := StateAfter(capacity, owner, steps).gate.seal; seal.Some? && seal.value.kept
    ensures var s, t := StateAfter(capacity, owner, steps), Exec(StateAfter(capacity, owner, steps), later);
      t.gate == s.gate && t.shared == s.shared && t.limiter == s.limiter && !Executes(At(t, id))
  {
    var s := StateAfter(capacity, owner, steps);
    RunInv(capacity, owner, steps);
    DashboardSafety.ReachableInv(s, later);
    assert LocalInv(Exec(s, later), id);
    if later != [] {
      var before := later[..|later| - 1];
      KeptSealIsFinal(capacity, owner, steps, before, id);
      DashboardSafety.ReachableInv(s, before);
      KeptStep(Exec(s, before), later[|later| - 1]);
    }
  }

  // ---- progress -----------------------------------------------------------------------------

  ghost predicate CanMove(s: State, id: Id) { exists m: Move :: Enabled(s, Step(id, m)) }

  lemma RepairIsPossible(ds: seq<Diagnostic>) returns (after: seq<Diagnostic>)
    ensures Reconciled(ds, after, |ds|, None)
  {
    after := seq(|ds|, i requires 0 <= i < |ds| => Repaired(ds[i]));
  }

  lemma CheckingMoves(s: State, id: Id)
    requires At(s, id).pc.Checking?
    ensures CanMove(s, id)
  {
    var sp := s.shared.sprint;
    if Idempotency.Lookup(s.shared.idem, At(s, id).key).Some? {
      assert Enabled(s, Step(id, CheckStep(ReplayKey)));
    } else if sp.running {
      assert Enabled(s, Step(id, CheckStep(SeeRunning)));
    } else if sp.uncertain {
      assert Enabled(s, Step(id, CheckStep(FailReconcile(sp.diagnostics, 0, None))));
    } else {
      var after := RepairIsPossible(sp.diagnostics);
      assert Enabled(s, Step(id, CheckStep(PassReconcile(after))));
    }
  }

  /** Whoever holds the state mutex can give it back without waiting for anybody. */
  lemma HolderMoves(s: State, id: Id)
    requires LocalInv(s, id) && HoldsLock(At(s, id).pc)
    ensures CanMove(s, id)
  {
    match At(s, id).pc
    case Checking => CheckingMoves(s, id);
    case Checked => assert Enabled(s, Step(id, CheckStep(UnlockChecked)));
    case Claiming => assert Enabled(s, Step(id, ClaimStep(ClaimNothing)));
    case Claimed(_) => assert Enabled(s, Step(id, ClaimStep(PublishBatch(0))));
    case Published(_) => assert Enabled(s, Step(id, ClaimStep(SendBatch)));
    case Started => assert Enabled(s, Step(id, ClaimStep(UnlockStarted)));
  }

  /** A release function in progress runs to its end. */
  lemma ReleaserMoves(s: State, id: Id)
    requires LocalInv(s, id) && Draws(At(s, id))
    ensures CanMove(s, id)
  {
    var p := At(s, id);
    if p.res.release.Held? {
      assert Enabled(s, Step(id, ReleaseStep(FreeReservedSlot)));
    } else if p.res.release.SlotBack? {
      assert Enabled(s, Step(id, ReleaseStep(EndReservation)));
    } else if p.pc.Draining? {
      assert Enabled(s, Step(id, ClaimStep(LeaveDrained)));
    } else if p.pc.Unwinding? {
      assert Enabled(s, Step(id, ReleaseStep(UnwindDone)));
    } else {
      assert Enabled(s, Step(id, CallbackStep(FinishCallback)));
    }
  }

  predicate WaitsForLock(p: Proc) {
    p.pc.Admitted? || p.pc.Reserved? || (p.work.Executing? && p.work.batch != []) || p.work.Noting? || p.work.Closing?
  }

  lemma FrontMoves(s: State, id: Id)
    requires GlobalInv(s) && LocalInv(s, id) && !At(s, id).pc.Outside? && !At(s, id).pc.Gone?
    requires !HoldsLock(At(s, id).pc) && !Draws(At(s, id)) && (WaitsForLock(At(s, id)) ==> IsFree(s))
    ensures CanMove(s, id)
  {
    var p := At(s, id);
    match p.pc
    case Entered(_) => assert Enabled(s, Step(id, RequestStep(GiveUp)));
    case Admitted => assert Enabled(s, Step(id, CheckStep(LockState)));
    case Unreserved => assert Enabled(s, Step(id, ReserveStep(TakeLease)));
    case Leased(_) => assert Enabled(s, Step(id, ReserveStep(AbandonLease)));
    case Slotted(_) => assert Enabled(s, Step(id, ReserveStep(AcceptSubmit)));
    case Unwinding(_) => assert Enabled(s, Step(id, ReleaseStep(UnwindSlot)));
    case Unslotted => assert Enabled(s, Step(id, ReserveStep(AbandonLease)));
    case Reserved => assert Enabled(s, Step(id, CheckStep(LockState)));
    case Settling =>
      if p.res.decided { assert Enabled(s, Step(id, ClaimStep(AbortNoop))); }
      else { assert Enabled(s, Step(id, ClaimStep(AbortSends))); }
    case Waiting => assert Enabled(s, Step(id, DetachedStep(StopWaiting)));
    case Exiting => assert Enabled(s, Step(id, RequestStep(ReleaseAdmission)));
    case Departing => assert Enabled(s, Step(id, RequestStep(Depart)));
  }

  /** One way the executor can answer for a task. */
  function SomeEnd(t: Task): Entry {
    RanEntry(t, World(None, false, false, Some(Run("", "success", "")), None, map[], Io(None, None, None)), None)
  }

  lemma DetachedWorkMoves(s: State, id: Id)
    requires AgentWork(At(s, id).work) || PipelineWork(At(s, id).work)
    requires !CallbackIsOver(At(s, id).work)
    ensures CanMove(s, id)
  {
    match At(s, id).work
    case AgentQueued => assert Enabled(s, Step(id, DetachedStep(StartAgent)));
    case AgentStarted => assert Enabled(s, Step(id, DetachedStep(RunAgent)));
    case AgentRunning => assert Enabled(s, Step(id, DetachedStep(EndAgent)));
    case AgentSettling => assert Enabled(s, Step(id, DetachedStep(FreeAgentSlot)));
    case AgentReturned => assert Enabled(s, Step(id, DetachedStep(AnswerAgent)));
    case AgentAnswered => assert Enabled(s, Step(id, DetachedStep(EndAgentLease)));
    case PipelineRunning => assert Enabled(s, Step(id, DetachedStep(EndPipeline)));
    case PipelineCleanup => assert Enabled(s, Step(id, DetachedStep(CleanPipeline)));
  }

  lemma WorkMoves(s: State, id: Id)
    requires LocalInv(s, id) && At(s, id).pc.Gone? && !Finished(At(s, id))
    requires !Draws(At(s, id)) && (WaitsForLock(At(s, id)) ==> IsFree(s))
    ensures CanMove(s, id)
  {
    match At(s, id).work
    case Queued => assert Enabled(s, Step(id, CallbackStep(TakeCallback)));
    case Listening => assert Enabled(s, Step(id, CallbackStep(Receive)));
    case Executing(_, batch) =>
      if batch == [] { assert Enabled(s, Step(id, CallbackStep(FinishTasks))); }
      else { assert Enabled(s, Step(id, CallbackStep(BeginTask))); }
    case Running(_, task, _) => assert Enabled(s, Step(id, CallbackStep(EndTask(SomeEnd(task)))));
    case Noting(_, _, _, _) => assert Enabled(s, Step(id, CallbackStep(NoteTask)));
    case Closing(_, _) => assert Enabled(s, Step(id, CallbackStep(CloseBatch)));
    case _ => DetachedWorkMoves(s, id);
  }

  /** No deadlock: an unfinished request can move, or waits only for the state mutex, whose
      holder can. In particular an aborted callback, a full channel and a sealed gate never
      block anybody. */
  lemma NobodyIsStuck(capacity: Option<nat>, owner: nat, steps: seq<Step>, id: Id)
    requires !Finished(At(StateAfter(capacity, owner, steps), id))
    ensures var s := StateAfter(capacity, owner, steps);
      CanMove(s, id) || (WaitsForLock(At(s, id)) && s.shared.lock.Some? && CanMove(s, s.shared.lock.value))
  {
    var s := StateAfter(capacity, owner, steps);
    RunInv(capacity, owner, steps);
    assert LocalInv(s, id);
    if s.shared.lock.Some? {
      assert LocalInv(s, s.shared.lock.value);
      HolderMoves(s, s.shared.lock.value);
    }
    var p := At(s, id);
    if !HoldsLock(p.pc) && (WaitsForLock(p) ==> IsFree(s)) {
      if Draws(p) { ReleaserMoves(s, id); }
      else if p.pc.Gone? { WorkMoves(s, id); }
      else { FrontMoves(s, id); }
    }
  }
}

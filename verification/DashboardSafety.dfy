/** Every step of the dashboard protocol keeps its invariant, and what that gives on all runs. */
module DashboardSafety {
  import opened Common
  import opened DashboardProtocol

  lemma RequestOthers(s: State, id: Id, m: RequestMove, j: Id)
    requires GlobalInv(s) && LocalInv(s, id) && LocalInv(s, j) && CanRequest(s, id, m) && j != id
    ensures ViewOf(Request(s, id, m), j) == ViewOf(s, j)
  {}

  lemma EnterAndDepart(s: State, id: Id, m: RequestMove)
    requires LocalInv(s, id) && CanRequest(s, id, m) && (m.Enter? || m.Depart?)
    ensures LocalInv(Request(s, id, m), id)
  {}

  lemma AdmissionMoves(s: State, id: Id, m: RequestMove)
    requires LocalInv(s, id) && CanRequest(s, id, m) && !(m.Enter? || m.Depart?)
    ensures LocalInv(Request(s, id, m), id)
  {}

  lemma RequestSelf(s: State, id: Id, m: RequestMove)
    requires LocalInv(s, id) && CanRequest(s, id, m)
    ensures LocalInv(Request(s, id, m), id)
  {
    if m.Enter? || m.Depart? { EnterAndDepart(s, id, m); } else { AdmissionMoves(s, id, m); }
  }

  lemma RequestGlobal(s: State, id: Id, m: RequestMove)
    requires GlobalInv(s) && LocalInv(s, id) && CanRequest(s, id, m)
    ensures GlobalInv(Request(s, id, m))
  {}

  lemma CheckOthers(s: State, id: Id, m: CheckMove, j: Id)
    requires GlobalInv(s) && LocalInv(s, id) && LocalInv(s, j) && CanCheck(s, id, m) && j != id
    ensures ViewOf(Check(s, id, m), j) == ViewOf(s, j)
  {}

  lemma CheckSelf(s: State, id: Id, m: CheckMove)
    requires LocalInv(s, id) && CanCheck(s, id, m)
    ensures LocalInv(Check(s, id, m), id)
  {}

  lemma CheckGlobal(s: State, id: Id, m: CheckMove)
    requires GlobalInv(s) && LocalInv(s, id) && CanCheck(s, id, m)
    ensures GlobalInv(Check(s, id, m))
  {}

  lemma ReserveOthers(s: State, id: Id, m: ReserveMove, j: Id)
    requires GlobalInv(s) && LocalInv(s, id) && LocalInv(s, j) && CanReserve(s, id, m) && j != id
    ensures ViewOf(Reserve(s, id, m), j) == ViewOf(s, j)
  {}

  lemma LeaseMoves(s: State, id: Id, m: ReserveMove)
    requires LocalInv(s, id) && CanReserve(s, id, m) && (m.TakeLease? || m.RefuseLease?)
    ensures LocalInv(Reserve(s, id, m), id)
  {}

  lemma LeaseAbandoned(s: State, id: Id, m: ReserveMove)
    requires LocalInv(s, id) && CanReserve(s, id, m) && m.AbandonLease?
    ensures LocalInv(Reserve(s, id, m), id)
  {}

  lemma SlotTaken(s: State, id: Id, m: ReserveMove)
    requires LocalInv(s, id) && CanReserve(s, id, m) && m.TakeSlot?
    ensures LocalInv(Reserve(s, id, m), id)
  {}

  lemma CallbackSubmitted(s: State, id: Id, m: ReserveMove)
    requires LocalInv(s, id) && CanReserve(s, id, m) && (m.AcceptSubmit? || m.RefuseSubmit?)
    ensures LocalInv(Reserve(s, id, m), id)
  {}

  lemma PipelineLaunched(s: State, id: Id, m: ReserveMove)
    requires LocalInv(s, id) && CanReserve(s, id, m) && m.LaunchPipeline?
    ensures LocalInv(Reserve(s, id, m), id)
  {}

  lemma ReserveSelf(s: State, id: Id, m: ReserveMove)
    requires LocalInv(s, id) && CanReserve(s, id, m)
    ensures LocalInv(Reserve(s, id, m), id)
  {
    if m.TakeLease? || m.RefuseLease? {
      LeaseMoves(s, id, m);
    } else if m.AbandonLease? {
      LeaseAbandoned(s, id, m);
    } else if m.TakeSlot? {
      SlotTaken(s, id, m);
    } else if m.LaunchPipeline? {
      PipelineLaunched(s, id, m);
    } else {
      CallbackSubmitted(s, id, m);
    }
  }

  lemma ReserveGlobal(s: State, id: Id, m: ReserveMove)
    requires GlobalInv(s) && LocalInv(s, id) && CanReserve(s, id, m)
    ensures GlobalInv(Reserve(s, id, m))
  {}

  lemma ReleaseOthers(s: State, id: Id, m: ReleaseMove, j: Id)
    requires GlobalInv(s) && LocalInv(s, id) && LocalInv(s, j) && CanRelease(s, id, m) && j != id
    ensures ViewOf(GiveBack(s, id, m), j) == ViewOf(s, j)
  {}

  lemma Unwinds(s: State, id: Id, m: ReleaseMove)
    requires LocalInv(s, id) && CanRelease(s, id, m) && (m.UnwindSlot? || m.UnwindDone?)
    ensures LocalInv(GiveBack(s, id, m), id)
  {}

  lemma ReservationReleases(s: State, id: Id, m: ReleaseMove)
    requires LocalInv(s, id) && CanRelease(s, id, m) && !(m.UnwindSlot? || m.UnwindDone?)
    ensures LocalInv(GiveBack(s, id, m), id)
  {}

  lemma ReleaseSelf(s: State, id: Id, m: ReleaseMove)
    requires LocalInv(s, id) && CanRelease(s, id, m)
    ensures LocalInv(GiveBack(s, id, m), id)
  {
    if m.UnwindSlot? || m.UnwindDone? { Unwinds(s, id, m); } else { ReservationReleases(s, id, m); }
  }

  lemma ReleaseGlobal(s: State, id: Id, m: ReleaseMove)
    requires GlobalInv(s) && LocalInv(s, id) && CanRelease(s, id, m)
    ensures GlobalInv(GiveBack(s, id, m))
  {}

  lemma ClaimOthers(s: State, id: Id, m: ClaimMove, j: Id)
    requires GlobalInv(s) && LocalInv(s, id) && LocalInv(s, j) && CanClaim(s, id, m) && j != id
    ensures ViewOf(Claims(s, id, m), j) == ViewOf(s, j)
  {}

  lemma BatchClaims(s: State, id: Id, m: ClaimMove)
    requires LocalInv(s, id) && CanClaim(s, id, m) && (m.Claim? || m.ClaimNothing? || m.PublishBatch?)
    ensures LocalInv(Claims(s, id, m), id)
  {}

  lemma DecisionsSent(s: State, id: Id, m: ClaimMove)
    requires LocalInv(s, id) && CanClaim(s, id, m) && (m.SendBatch? || m.AbortSends?)
    ensures LocalInv(Claims(s, id, m), id)
  {}

  lemma HandlerLeaves(s: State, id: Id, m: ClaimMove)
    requires LocalInv(s, id) && CanClaim(s, id, m) && (m.UnlockStarted? || m.AbortNoop? || m.LeaveDrained?)
    ensures LocalInv(Claims(s, id, m), id)
  {}

  lemma ClaimSelf(s: State, id: Id, m: ClaimMove)
    requires LocalInv(s, id) && CanClaim(s, id, m)
    ensures LocalInv(Claims(s, id, m), id)
  {
    if m.Claim? || m.ClaimNothing? || m.PublishBatch? {
      BatchClaims(s, id, m);
    } else if m.SendBatch? || m.AbortSends? {
      DecisionsSent(s, id, m);
    } else {
      HandlerLeaves(s, id, m);
    }
  }

  lemma ClaimGlobal(s: State, id: Id, m: ClaimMove)
    requires GlobalInv(s) && LocalInv(s, id) && CanClaim(s, id, m)
    ensures GlobalInv(Claims(s, id, m))
  {}

  lemma CallbackOthers(s: State, id: Id, m: CallbackMove, j: Id)
    requires GlobalInv(s) && LocalInv(s, id) && LocalInv(s, j) && CanCall(s, id, m) && j != id
    ensures ViewOf(Call(s, id, m), j) == ViewOf(s, j)
  {}

  lemma TaskMoves(s: State, id: Id, m: CallbackMove)
    requires LocalInv(s, id) && CanCall(s, id, m) && (m.BeginTask? || m.EndTask? || m.PanicTask? || m.EndBudget? || m.NoteTask?)
    ensures LocalInv(Call(s, id, m), id)
  {}

  lemma DecisionMoves(s: State, id: Id, m: CallbackMove)
    requires LocalInv(s, id) && CanCall(s, id, m) && (m.TakeCallback? || m.Receive?)
    ensures LocalInv(Call(s, id, m), id)
  {}

  lemma ClosingMoves(s: State, id: Id, m: CallbackMove)
    requires LocalInv(s, id) && CanCall(s, id, m) && (m.FinishTasks? || m.CloseBatch?)
    ensures LocalInv(Call(s, id, m), id)
  {}

  lemma LastCallbackMove(s: State, id: Id, m: CallbackMove)
    requires LocalInv(s, id) && CanCall(s, id, m) && m.FinishCallback?
    ensures LocalInv(Call(s, id, m), id)
  {}

  lemma CallbackSelf(s: State, id: Id, m: CallbackMove)
    requires LocalInv(s, id) && CanCall(s, id, m)
    ensures LocalInv(Call(s, id, m), id)
  {
    if m.TakeCallback? || m.Receive? {
      DecisionMoves(s, id, m);
    } else if m.FinishCallback? {
      LastCallbackMove(s, id, m);
    } else if m.FinishTasks? || m.CloseBatch? {
      ClosingMoves(s, id, m);
    } else {
      TaskMoves(s, id, m);
    }
  }

  lemma CallbackGlobal(s: State, id: Id, m: CallbackMove)
    requires GlobalInv(s) && LocalInv(s, id) && CanCall(s, id, m)
    ensures GlobalInv(Call(s, id, m))
  {}

  lemma DetachedOthers(s: State, id: Id, m: DetachedMove, j: Id)
    requires GlobalInv(s) && LocalInv(s, id) && LocalInv(s, j) && CanDetached(s, id, m) && j != id
    ensures ViewOf(Detached(s, id, m), j) == ViewOf(s, j)
  {}

  lemma AgentSlotReturns(s: State, id: Id, m: DetachedMove)
    requires LocalInv(s, id) && CanDetached(s, id, m) && m.FreeAgentSlot?
    ensures LocalInv(Detached(s, id, m), id)
  {}

  lemma WorkLeaseReturns(s: State, id: Id, m: DetachedMove)
    requires LocalInv(s, id) && CanDetached(s, id, m) && (m.EndAgentLease? || m.CleanPipeline?)
    ensures LocalInv(Detached(s, id, m), id)
  {}

  lemma AgentRuns(s: State, id: Id, m: DetachedMove)
    requires LocalInv(s, id) && CanDetached(s, id, m)
    requires m.StartAgent? || m.RunAgent? || m.ExpireAgent? || m.EndAgent? || m.AnswerAgent?
    ensures LocalInv(Detached(s, id, m), id)
  {}

  lemma WaiterAndPipelineMoves(s: State, id: Id, m: DetachedMove)
    requires LocalInv(s, id) && CanDetached(s, id, m) && (m.StopWaiting? || m.EndPipeline?)
    ensures LocalInv(Detached(s, id, m), id)
  {}

  lemma DetachedSelf(s: State, id: Id, m: DetachedMove)
    requires LocalInv(s, id) && CanDetached(s, id, m)
    ensures LocalInv(Detached(s, id, m), id)
  {
    if m.FreeAgentSlot? {
      AgentSlotReturns(s, id, m);
    } else if m.EndAgentLease? || m.CleanPipeline? {
      WorkLeaseReturns(s, id, m);
    } else if m.StopWaiting? || m.EndPipeline? {
      WaiterAndPipelineMoves(s, id, m);
    } else {
      AgentRuns(s, id, m);
    }
  }

  lemma DetachedGlobal(s: State, id: Id, m: DetachedMove)
    requires GlobalInv(s) && LocalInv(s, id) && CanDetached(s, id, m)
    ensures GlobalInv(Detached(s, id, m))
  {}

  lemma RestartOthers(s: State, id: Id, m: RestartMove, j: Id)
    requires GlobalInv(s) && LocalInv(s, id) && LocalInv(s, j) && CanRestart(s, id, m) && j != id
    ensures ViewOf(Restart(s, id, m), j) == ViewOf(s, j)
  {}

  lemma RestartSelf(s: State, id: Id, m: RestartMove)
    requires LocalInv(s, id) && CanRestart(s, id, m)
    ensures LocalInv(Restart(s, id, m), id)
  {}

  lemma RestartGlobal(s: State, id: Id, m: RestartMove)
    requires GlobalInv(s) && LocalInv(s, id) && CanRestart(s, id, m)
    ensures GlobalInv(Restart(s, id, m))
  {}

  // ---- all steps together ---------------------------------------------------------------

  lemma SelfKept(s: State, a: Step)
    requires LocalInv(s, a.id) && Enabled(s, a)
    ensures LocalInv(Apply(s, a), a.id)
  {
    match a.move
    case RequestStep(m) => RequestSelf(s, a.id, m);
    case CheckStep(m) => CheckSelf(s, a.id, m);
    case ReserveStep(m) => ReserveSelf(s, a.id, m);
    case ReleaseStep(m) => ReleaseSelf(s, a.id, m);
    case ClaimStep(m) => ClaimSelf(s, a.id, m);
    case CallbackStep(m) => CallbackSelf(s, a.id, m);
    case DetachedStep(m) => DetachedSelf(s, a.id, m);
    case RestartStep(m) => RestartSelf(s, a.id, m);
  }

  predicate HandlerMove(m: Move) { m.RequestStep? || m.CheckStep? || m.ReserveStep? || m.ClaimStep? }

  lemma HandlersKeepOthers(s: State, a: Step, j: Id)
    requires GlobalInv(s) && LocalInv(s, a.id) && LocalInv(s, j) && Enabled(s, a) && j != a.id && HandlerMove(a.move)
    ensures ViewOf(Apply(s, a), j) == ViewOf(s, j)
  {
    match a.move
    case RequestStep(m) => RequestOthers(s, a.id, m, j);
    case CheckStep(m) => CheckOthers(s, a.id, m, j);
    case ReserveStep(m) => ReserveOthers(s, a.id, m, j);
    case ClaimStep(m) => ClaimOthers(s, a.id, m, j);
  }

  lemma CallbacksKeepOthers(s: State, a: Step, j: Id)
    requires GlobalInv(s) && LocalInv(s, a.id) && LocalInv(s, j) && Enabled(s, a) && j != a.id && !HandlerMove(a.move)
    ensures ViewOf(Apply(s, a), j) == ViewOf(s, j)
  {
    match a.move
    case ReleaseStep(m) => ReleaseOthers(s, a.id, m, j);
    case CallbackStep(m) => CallbackOthers(s, a.id, m, j);
    case DetachedStep(m) => DetachedOthers(s, a.id, m, j);
    case RestartStep(m) => RestartOthers(s, a.id, m, j);
  }

  lemma OthersKept(s: State, a: Step, j: Id)
    requires GlobalInv(s) && LocalInv(s, a.id) && LocalInv(s, j) && Enabled(s, a) && j != a.id
    ensures ViewOf(Apply(s, a), j) == ViewOf(s, j) && LocalInv(Apply(s, a), j)
  {
    if HandlerMove(a.move) { HandlersKeepOthers(s, a, j); } else { CallbacksKeepOthers(s, a, j); }
  }

  lemma GlobalKept(s: State, a: Step)
    requires GlobalInv(s) && LocalInv(s, a.id) && Enabled(s, a)
    ensures GlobalInv(Apply(s, a))
  {
    match a.move
    case RequestStep(m) => RequestGlobal(s, a.id, m);
    case CheckStep(m) => CheckGlobal(s, a.id, m);
    case ReserveStep(m) => ReserveGlobal(s, a.id, m);
    case ReleaseStep(m) => ReleaseGlobal(s, a.id, m);
    case ClaimStep(m) => ClaimGlobal(s, a.id, m);
    case CallbackStep(m) => CallbackGlobal(s, a.id, m);
    case DetachedStep(m) => DetachedGlobal(s, a.id, m);
    case RestartStep(m) => RestartGlobal(s, a.id, m);
  }

  lemma StepKeepsInv(s: State, a: Step)
    requires Inv(s)
    ensures Inv(Try(s, a))
  {
    if Enabled(s, a) {
      assert LocalInv(s, a.id);
      GlobalKept(s, a);
      forall j: Id ensures LocalInv(Apply(s, a), j) {
        if j == a.id { SelfKept(s, a); } else { assert LocalInv(s, j); OthersKept(s, a, j); }
      }
    }
  }

  lemma InitialInv(capacity: Option<nat>, owner: nat)
    ensures Inv(Initial(capacity, owner))
  {}

  /** Every state that any interleaving of any number of requests and restarts can reach. */
  lemma {:induction false} ReachableInv(s: State, steps: seq<Step>)
    requires Inv(s)
    ensures Inv(Exec(s, steps))
  {
    if steps != [] {
      ReachableInv(s, steps[..|steps| - 1]);
      StepKeepsInv(Exec(s, steps[..|steps| - 1]), steps[|steps| - 1]);
    }
  }
}

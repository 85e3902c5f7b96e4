/**
 The batch inside the protocol: whatever interleaves with it, the sprint state of a live batch is
 the fold of its account, and the account covers the claimed tasks in order.
*/
module DashboardBatch {
  import opened Common
  import opened TaskStore
  import opened SprintState
  import SprintExecution
  import opened DashboardProtocol
  import opened DashboardTheorems
  import DashboardSafety

  /** What was done and what is left are together the handed batch, in its order. */
  predicate Covers(done: seq<Entry>, left: seq<Task>, handed: seq<Task>) {
    && |done| + |left| == |handed|
    && (forall i | 0 <= i < |done| :: done[i].task == handed[i])
    && (forall i | 0 <= i < |left| :: left[i] == handed[|done| + i])
  }

  function Tasks(es: seq<Entry>): seq<Task> { seq(|es|, i requires 0 <= i < |es| => es[i].task) }

  function Folded(origin: Sprint, done: seq<Entry>, owner: nat): Sprint { SprintState.After(origin, done, |done|, owner) }

  function Begun(sp: Sprint, e: Entry): Sprint { if e.started then Dispatch(sp, e.task) else sp }

  /** The sprint state is the published one plus the account of the batch so far. */
  predicate InStep(sp: Sprint, origin: Sprint, w: Work, handed: seq<Task>, owner: nat) {
    match w
    case Executing(done, batch) => Covers(done, batch, handed) && sp == Folded(origin, done, owner)
    case Running(done, t, rest) => Covers(done, [t] + rest, handed) && sp == Dispatch(Folded(origin, done, owner), t)
    case Noting(done, e, more, rest) =>
      && Covers(done, [e.task] + Tasks(more) + rest, handed)
      && (more != [] ==> !e.started) && (forall m | m in more :: !m.started)
      && sp == Begun(Folded(origin, done, owner), e)
    case Closing(done, panicked) =>
      && |done| <= |handed| && (forall i | 0 <= i < |done| :: done[i].task == handed[i])
      && (if panicked then |done| < |handed| && sp == Dispatch(Folded(origin, done, owner), handed[|done|])
          else |done| == |handed| && sp == Folded(origin, done, owner))
    case _ => sp == origin
  }

  /** The batch a live request has published or handed over. */
  function HandedBy(p: Proc): seq<Task> {
    if p.pc.Published? then p.pc.batch
    else if p.res.Reservation? && |p.res.sent| == 1 && p.res.sent[0].Hand? then p.res.sent[0].batch else []
  }

  predicate BatchInv(s: State) {
    s.shared.live.Some? ==>
      var p := At(s, s.shared.live.value);
      && InStep(s.shared.sprint, s.shared.origin, p.work, HandedBy(p), s.owner)
      && s.shared.origin.diagnostics == [] && !s.shared.origin.uncertain && s.shared.origin.error == ""
  }

  // ---- the callback's own moves ---------------------------------------------------------------

  lemma SettleIsNoted(sp: Sprint, e: Entry, owner: nat)
    ensures Settle(sp, e, owner) == Noted(Begun(sp, e), e, owner)
  {}

  lemma FoldSnoc(origin: Sprint, done: seq<Entry>, e: Entry, owner: nat)
    ensures Folded(origin, done + [e], owner) == Settle(Folded(origin, done, owner), e, owner)
  {
    SprintExecution.Prefix(origin, [], done, done + [e], |done|, owner);
  }

  lemma CoversShift(done: seq<Entry>, e: Entry, left: seq<Task>, handed: seq<Task>)
    requires Covers(done, [e.task] + left, handed)
    ensures Covers(done + [e], left, handed)
  {
    assert ([e.task] + left)[0] == handed[|done|];
    forall i | 0 <= i < |left| ensures left[i] == handed[|done| + 1 + i] { assert ([e.task] + left)[i + 1] == left[i]; }
  }

  lemma NotingKeepsStep(sp: Sprint, origin: Sprint, done: seq<Entry>, e: Entry, more: seq<Entry>, rest: seq<Task>,
                        handed: seq<Task>, owner: nat)
    requires InStep(sp, origin, Noting(done, e, more, rest), handed, owner)
    ensures InStep(Noted(sp, e, owner), origin,
                   if more == [] then Executing(done + [e], rest) else Noting(done + [e], more[0], more[1..], rest), handed, owner)
  {
    SettleIsNoted(Folded(origin, done, owner), e, owner);
    FoldSnoc(origin, done, e, owner);
    assert [e.task] + Tasks(more) + rest == [e.task] + (Tasks(more) + rest);
    CoversShift(done, e, Tasks(more) + rest, handed);
    if more != [] {
      assert [more[0].task] + Tasks(more[1..]) + rest == Tasks(more) + rest;
    } else {
      assert Tasks(more) + rest == rest;
    }
  }

  lemma NoteTaskKeepsBatch(s: State, id: Id)
    requires LocalInv(s, id) && BatchInv(s) && CanCall(s, id, NoteTask) && s.shared.live == Some(id)
    ensures BatchInv(Call(s, id, NoteTask))
  {
    var p := At(s, id);
    NotingKeepsStep(s.shared.sprint, s.shared.origin, p.work.done, p.work.entry, p.work.more, p.work.rest, HandedBy(p), s.owner);
  }

  lemma BeginTaskKeepsBatch(s: State, id: Id)
    requires LocalInv(s, id) && BatchInv(s) && CanCall(s, id, BeginTask) && s.shared.live == Some(id)
    ensures BatchInv(Call(s, id, BeginTask))
  {
    assert [At(s, id).work.batch[0]] + At(s, id).work.batch[1..] == At(s, id).work.batch;
  }

  lemma TaskEndKeepsBatch(s: State, id: Id, m: CallbackMove)
    requires LocalInv(s, id) && BatchInv(s) && CanCall(s, id, m) && s.shared.live == Some(id)
    requires m.EndTask? || m.PanicTask?
    ensures BatchInv(Call(s, id, m))
  {
    var p := At(s, id);
    assert ([p.work.task] + p.work.rest)[0] == HandedBy(p)[|p.work.done|];
    assert [p.work.task] + Tasks([]) + p.work.rest == [p.work.task] + p.work.rest;
  }

  lemma EndBudgetKeepsBatch(s: State, id: Id, m: CallbackMove)
    requires LocalInv(s, id) && BatchInv(s) && CanCall(s, id, m) && s.shared.live == Some(id) && m.EndBudget?
    ensures BatchInv(Call(s, id, m))
  {
    assert [m.entries[0].task] + Tasks(m.entries[1..]) + [] == At(s, id).work.batch;
  }

  lemma ClosingKeepsBatch(s: State, id: Id, m: CallbackMove)
    requires LocalInv(s, id) && BatchInv(s) && CanCall(s, id, m) && s.shared.live == Some(id)
    requires m.FinishTasks? || m.CloseBatch? || m.FinishCallback?
    ensures BatchInv(Call(s, id, m))
  {}

  lemma HandoverKeepsBatch(s: State, id: Id, m: CallbackMove)
    requires LocalInv(s, id) && BatchInv(s) && CanCall(s, id, m) && s.shared.live == Some(id)
    requires m.TakeCallback? || m.Receive?
    ensures BatchInv(Call(s, id, m))
  {}

  lemma CallbackKeepsBatch(s: State, id: Id, m: CallbackMove)
    requires LocalInv(s, id) && BatchInv(s) && CanCall(s, id, m) && s.shared.live == Some(id)
    ensures BatchInv(Call(s, id, m))
  {
    if m.NoteTask? { NoteTaskKeepsBatch(s, id); }
    else if m.BeginTask? { BeginTaskKeepsBatch(s, id); }
    else if m.EndTask? || m.PanicTask? { TaskEndKeepsBatch(s, id, m); }
    else if m.EndBudget? { EndBudgetKeepsBatch(s, id, m); }
    else if m.TakeCallback? || m.Receive? { HandoverKeepsBatch(s, id, m); }
    else { ClosingKeepsBatch(s, id, m); }
  }

  // ---- everybody else's ---------------------------------------------------------------------------

  lemma OwnClaimKeepsBatch(s: State, id: Id, m: ClaimMove)
    requires LocalInv(s, id) && BatchInv(s) && CanClaim(s, id, m) && s.shared.live == Some(id)
    ensures BatchInv(Claims(s, id, m))
  {}

  predicate SameBatch(p: Proc, q: Proc) { q.work == p.work && HandedBy(q) == HandedBy(p) }

  lemma RequestMovesOn(s: State, id: Id, m: RequestMove)
    requires LocalInv(s, id) && CanRequest(s, id, m) && s.shared.live == Some(id)
    ensures SameBatch(At(s, id), At(Request(s, id, m), id))
  {}

  /** A live batch's handler has asked for its capacity long ago, its reservation is held until
      its callback ends, and it is no agent or pipeline run. */
  lemma ReservesNothing(s: State, id: Id, m: ReserveMove)
    requires LocalInv(s, id) && s.shared.live == Some(id)
    ensures !CanReserve(s, id, m)
  {}

  lemma ReleasesNothing(s: State, id: Id, m: ReleaseMove)
    requires LocalInv(s, id) && s.shared.live == Some(id)
    ensures !CanRelease(s, id, m)
  {}

  lemma DetachesNothing(s: State, id: Id, m: DetachedMove)
    requires LocalInv(s, id) && s.shared.live == Some(id)
    ensures !CanDetached(s, id, m)
  {}

  /** The owner's handler leaves its callback and its decision alone while the batch is live. */
  lemma OwnerOnlyMovesOn(s: State, a: Step)
    requires LocalInv(s, a.id) && Enabled(s, a) && s.shared.live == Some(a.id) && !TouchesSprint(a.move)
    ensures SameBatch(At(s, a.id), At(Apply(s, a), a.id))
  {
    match a.move
    case RequestStep(m) => RequestMovesOn(s, a.id, m);
    case ReserveStep(m) => ReservesNothing(s, a.id, m);
    case ReleaseStep(m) => ReleasesNothing(s, a.id, m);
    case DetachedStep(m) => DetachesNothing(s, a.id, m);
    case RestartStep(m) =>
  }

  /** A live batch's handler is past both locked sections that reconcile. */
  lemma LiveOwnerIsPastTheCheck(s: State, id: Id, m: CheckMove)
    requires LocalInv(s, id) && s.shared.live == Some(id)
    ensures !CanCheck(s, id, m)
  {}

  lemma OwnerKeepsBatch(s: State, a: Step)
    requires LocalInv(s, a.id) && BatchInv(s) && Enabled(s, a) && s.shared.live == Some(a.id) && !TouchesSprint(a.move)
    ensures BatchInv(Apply(s, a))
  {
    OwnerIsFixed(s, a);
    OwnerOnlyMovesOn(s, a);
    OtherMovesKeepSprint(s, a);
  }

  lemma PublicationStartsBatch(s: State, id: Id, m: ClaimMove)
    requires LocalInv(s, id) && CanClaim(s, id, m) && s.shared.live.None?
    ensures BatchInv(Claims(s, id, m))
  {}

  lemma NothingElsePublishes(s: State, a: Step)
    requires Enabled(s, a) && s.shared.live.None? && !a.move.ClaimStep?
    ensures Apply(s, a).shared.live.None?
  {}

  lemma OwnerIsFixed(s: State, a: Step)
    requires Enabled(s, a)
    ensures Apply(s, a).owner == s.owner
  {}

  lemma OthersKeepBatch(s: State, a: Step, live: Id)
    requires GlobalInv(s) && LocalInv(s, a.id) && LocalInv(s, live) && BatchInv(s) && Enabled(s, a)
    requires s.shared.live == Some(live) && live != a.id
    ensures BatchInv(Apply(s, a))
  {
    var t := Apply(s, a);
    OwnerIsFixed(s, a);
    DashboardSafety.OthersKept(s, a, live);
    assert ViewOf(t, live).live && ViewOf(t, live).proc == At(s, live);
    if TouchesSprint(a.move) { OthersOnlyRead(s, a.id, a.move); } else { OtherMovesKeepSprint(s, a); }
  }

  lemma StepKeepsBatch(s: State, a: Step)
    requires Inv(s) && BatchInv(s)
    ensures BatchInv(Try(s, a))
  {
    if Enabled(s, a) {
      assert LocalInv(s, a.id);
      if s.shared.live.None? {
        if a.move.ClaimStep? { PublicationStartsBatch(s, a.id, a.move.claim); } else { NothingElsePublishes(s, a); }
      } else if s.shared.live != Some(a.id) {
        assert LocalInv(s, s.shared.live.value);
        OthersKeepBatch(s, a, s.shared.live.value);
      } else if a.move.CallbackStep? {
        CallbackKeepsBatch(s, a.id, a.move.callback);
      } else if a.move.ClaimStep? {
        OwnClaimKeepsBatch(s, a.id, a.move.claim);
      } else if a.move.CheckStep? {
        LiveOwnerIsPastTheCheck(s, a.id, a.move.check);
      } else {
        OwnerKeepsBatch(s, a);
      }
    }
  }

  lemma {:induction false} BatchesStayInStep(capacity: Option<nat>, owner: nat, steps: seq<Step>)
    ensures BatchInv(StateAfter(capacity, owner, steps))
  {
    if steps != [] {
      var front := steps[..|steps| - 1];
      BatchesStayInStep(capacity, owner, front);
      RunInv(capacity, owner, front);
      StepKeepsBatch(StateAfter(capacity, owner, front), steps[|steps| - 1]);
    }
  }

  // ---- claimed batches name no task twice ----------------------------------------------------------

  /** Whatever this request has claimed, published or handed over. */
  predicate DistinctBatches(p: Proc) {
    && (p.pc.Claimed? ==> DistinctIds(p.pc.batch))
    && (p.pc.Published? ==> DistinctIds(p.pc.batch))
    && (p.res.Reservation? ==> forall d | d in p.res.sent && d.Hand? :: DistinctIds(d.batch))
  }

  lemma ClaimsAreDistinct(s: State, id: Id, m: ClaimMove)
    requires CanClaim(s, id, m) && DistinctBatches(At(s, id))
    ensures DistinctBatches(At(Claims(s, id, m), id))
  {}

  /** No other step claims, publishes or hands over. */
  predicate NoNewBatch(p: Proc, q: Proc) {
    && (q.pc.Claimed? || q.pc.Published? ==> q.pc == p.pc)
    && (q.res.Reservation? && q.res.sent != [] ==> p.res.Reservation? && q.res.sent == p.res.sent)
  }

  lemma HandlersClaimNothing(s: State, a: Step)
    requires Enabled(s, a) && (a.move.RequestStep? || a.move.CheckStep? || a.move.ReserveStep? || a.move.RestartStep?)
    ensures NoNewBatch(At(s, a.id), At(Apply(s, a), a.id))
  {}

  lemma CallbacksClaimNothing(s: State, a: Step)
    requires Enabled(s, a) && (a.move.ReleaseStep? || a.move.CallbackStep? || a.move.DetachedStep?)
    ensures NoNewBatch(At(s, a.id), At(Apply(s, a), a.id))
  {}

  lemma StepKeepsDistinct(s: State, a: Step, id: Id)
    requires Inv(s) && DistinctBatches(At(s, id))
    ensures DistinctBatches(At(Try(s, a), id))
  {
    if Enabled(s, a) {
      assert LocalInv(s, a.id) && LocalInv(s, id);
      if a.id != id {
        DashboardSafety.OthersKept(s, a, id);
        assert ViewOf(Apply(s, a), id).proc == ViewOf(s, id).proc;
      } else if a.move.ClaimStep? {
        ClaimsAreDistinct(s, id, a.move.claim);
      } else if a.move.ReleaseStep? || a.move.CallbackStep? || a.move.DetachedStep? {
        CallbacksClaimNothing(s, a);
      } else {
        HandlersClaimNothing(s, a);
      }
    }
  }

  lemma {:induction false} BatchesAreDistinct(capacity: Option<nat>, owner: nat, steps: seq<Step>, id: Id)
    ensures DistinctBatches(At(StateAfter(capacity, owner, steps), id))
  {
    if steps != [] {
      var front := steps[..|steps| - 1];
      BatchesAreDistinct(capacity, owner, front, id);
      RunInv(capacity, owner, front);
      StepKeepsDistinct(StateAfter(capacity, owner, front), steps[|steps| - 1], id);
    }
  }

  // ---- the account of a closed batch --------------------------------------------------------------

  lemma {:induction false} UnsettledRetainNothing(sp: Sprint, es: seq<Entry>, n: nat, owner: nat, id: string)
    requires n <= |es| && forall i | 0 <= i < n :: es[i].task.id != id
    ensures Retained(SprintState.After(sp, es, n, owner).diagnostics, id) == Retained(sp.diagnostics, id)
  {
    if n > 0 {
      UnsettledRetainNothing(sp, es, n - 1, owner, id);
      NoteRetains(SprintState.After(sp, es, n - 1, owner), es[n - 1], owner, id);
    }
  }

  /** Each refused result is retained once, and nothing is retained for any other task. */
  lemma FoldRetains(origin: Sprint, done: seq<Entry>, owner: nat)
    requires DistinctTasks(done) && origin.diagnostics == []
    ensures forall i | 0 <= i < |done| ::
              Retained(Folded(origin, done, owner).diagnostics, done[i].task.id) == if done[i].verdict.Some? then 1 else 0
    ensures forall id | (forall i | 0 <= i < |done| :: done[i].task.id != id) ::
              Retained(Folded(origin, done, owner).diagnostics, id) == 0
  {
    forall i | 0 <= i < |done|
      ensures Retained(Folded(origin, done, owner).diagnostics, done[i].task.id) == if done[i].verdict.Some? then 1 else 0
    {
      RefusedIsRetained(origin, done, |done|, owner, i);
    }
    forall id | forall i | 0 <= i < |done| :: done[i].task.id != id
      ensures Retained(Folded(origin, done, owner).diagnostics, id) == 0
    {
      UnsettledRetainNothing(origin, done, |done|, owner, id);
    }
  }

  /** When a batch closes, in whatever run: every task of the handed batch has been settled, in
      order, unless a panic ended it and leaves the sprint uncertain; each result the store
      refused is retained exactly once and no other is; and the sprint is uncertain exactly if a
      panic or a settled result made it so. */
  lemma ClosedBatchKeepsItsAccount(capacity: Option<nat>, owner: nat, steps: seq<Step>, id: Id)
    requires CanCall(StateAfter(capacity, owner, steps), id, CloseBatch)
    ensures var s := StateAfter(capacity, owner, steps);
      var p, end := At(s, id), Call(s, id, CloseBatch).shared.sprint;
      var done, handed := p.work.done, HandedBy(p);
      && |done| <= |handed| && (forall j | 0 <= j < |done| :: done[j].task == handed[j])
      && DistinctIds(handed)
      && (p.work.panicked <==> |done| < |handed|)
      && !end.running
      && (forall i | 0 <= i < |done| ::
            Retained(end.diagnostics, done[i].task.id) == if done[i].verdict.Some? then 1 else 0)
      && (forall task | (forall i | 0 <= i < |done| :: done[i].task.id != task) :: Retained(end.diagnostics, task) == 0)
      && (end.uncertain <==> p.work.panicked || exists j | 0 <= j < |done| :: IsUnknown(done[j]))
  {
    var s := StateAfter(capacity, owner, steps);
    RunInv(capacity, owner, steps);
    BatchesStayInStep(capacity, owner, steps);
    BatchesAreDistinct(capacity, owner, steps, id);
    assert LocalInv(s, id);
    var p := At(s, id);
    var done, origin := p.work.done, s.shared.origin;
    assert DistinctTasks(done) by {
      forall a, b | 0 <= a < b < |done| ensures done[a].task.id != done[b].task.id {
        assert done[a].task == HandedBy(p)[a] && done[b].task == HandedBy(p)[b];
      }
    }
    FoldRetains(origin, done, s.owner);
    ErrorAndUncertaintyAreExact(origin, done, |done|, s.owner);
  }
}

/**
 What a sprint remembers about its tasks (cmd/bt-dashboard/main.go, sprint_execution.go):
 the shared state as a value, and the effect of each critical section on it.
*/
module SprintState {
  import opened Common
  import opened ExecutionErrors
  import opened TaskStore

  /** Observed work kept apart from its task commit. */
  datatype Diagnostic = Diagnostic(task: string, error: Option<Err>, kind: Kind, committed: bool,
                                   commitError: Option<CommitError>, owner: nat, result: Result)

  datatype Sprint = Sprint(running: bool, jobId: nat, progress: string, currentTask: string,
                           error: string, kind: Kind, diagnostics: seq<Diagnostic>, uncertain: bool)

  const TASK_ERRORS := "Sprint has execution or task-result errors; inspect diagnostics"
  const BUDGET_ENDED := "Sprint budget ended; remaining tasks were not started, inspect diagnostics"
  const INTERRUPTED := "Sprint execution interrupted; inspect claimed tasks before retrying"

  datatype Disposition = CompletedWork | FailedWork | DeferredWork

  function DispositionOf(outcome: string, err: Option<Err>): Disposition {
    if IsRateLimitCarryover(outcome) && IsPause(outcome, err) then DeferredWork
    else if IsHealthyOutcome(outcome) && (err.None? || IsPersistence(err)) then CompletedWork
    else FailedWork
  }

  datatype Run = Run(output: string, outcome: string, runId: string)

  /** What one loop iteration meets: the batch budget, the breaker, the executor's answer or
      panic, operators editing the store meanwhile, and the I/O of the commit. */
  datatype World = World(budget: Option<Err>, breakerOpen: bool, panics: bool, run: Option<Run>,
                         runErr: Option<Err>, edits: map<string, Status>, io: Io)

  function ObservedOutcome(w: World): string {
    if w.breakerOpen then "deferred" else if w.run.Some? then w.run.value.outcome else "failure"
  }

  function ObservedDisposition(w: World): Disposition {
    if w.breakerOpen then DeferredWork else DispositionOf(ObservedOutcome(w), w.runErr)
  }

  /** An unexplained failure becomes a typed stop, or uncertainty when its outcome is unknown. */
  function ObservedErr(w: World): Option<Err> {
    if w.breakerOpen then None
    else if ObservedDisposition(w).FailedWork? && w.runErr.None? then
      Some(if IsStoppedOutcome(ObservedOutcome(w))
           then Stopped(ObservedOutcome(w), Plain("task stopped without completion"))
           else Uncertain(Plain("unrecognized task outcome")))
    else w.runErr
  }

  function RunResult(w: World): Result {
    Result(match ObservedDisposition(w)
           case CompletedWork => Status.Completed
           case DeferredWork => Approved
           case FailedWork => Status.Failed,
           if w.breakerOpen then "skipped" else if w.run.Some? then w.run.value.output else "",
           ObservedOutcome(w), ObservedErr(w), KindOf(ObservedErr(w)),
           if !w.breakerOpen && w.run.Some? then w.run.value.runId else "")
  }

  function NotStarted(cause: Err): Result {
    Result(Approved, "Not started: sprint execution budget ended", "not_started", Some(cause), StoppedKind, "")
  }

  /** One claimed task as the batch left it: its result, whether it was started and deferred,
      and the store's answer to the commit. */
  datatype Entry = Entry(task: Task, started: bool, result: Result, deferred: bool, verdict: Option<CommitError>)

  function RanEntry(t: Task, w: World, verdict: Option<CommitError>): Entry {
    Entry(t, true, RunResult(w), ObservedDisposition(w).DeferredWork?, verdict)
  }

  function UnstartedEntry(t: Task, cause: Err, verdict: Option<CommitError>): Entry {
    Entry(t, false, NotStarted(cause), false, verdict)
  }

  predicate NeedsDiagnostic(e: Entry) { !e.started || e.result.error.Some? || e.verdict.Some? }

  function DiagnosticOf(e: Entry, owner: nat): Diagnostic {
    Diagnostic(e.task.id, e.result.error,
               if e.verdict.Some? && e.result.kind.NoKind? then PersistenceKind else e.result.kind,
               e.verdict.None?, e.verdict, owner, e.result)
  }

  function Severity(k: Kind): nat {
    match k
    case UncertainKind => 4 case StoppedKind => 3 case PersistenceKind => 2 case ExecutionKind => 1 case NoKind => 0
  }

  /** An entry marks the sprint as failed unless it is a committed deferral. */
  predicate Counted(e: Entry) { NeedsDiagnostic(e) && (e.verdict.Some? || !e.deferred) }

  function CountedKind(e: Entry): Kind {
    var k := DiagnosticOf(e, 0).kind;
    if k.NoKind? then ExecutionKind else k
  }

  /** The result's outcome could not be established. */
  predicate IsUnknown(e: Entry) { NeedsDiagnostic(e) && e.result.kind.UncertainKind? }

  function NextDiagnostics(ds: seq<Diagnostic>, e: Entry, owner: nat): seq<Diagnostic> {
    if NeedsDiagnostic(e) then ds + [DiagnosticOf(e, owner)] else ds
  }

  function NextError(error: string, e: Entry): string {
    if !Counted(e) then error else if e.started then TASK_ERRORS else BUDGET_ENDED
  }

  function NextKind(kind: Kind, e: Entry): Kind {
    if Counted(e) && Severity(CountedKind(e)) > Severity(kind) then CountedKind(e) else kind
  }

  /** One task processed: dispatched if it was started, and noted under the lock afterwards. */
  function Settle(sp: Sprint, e: Entry, owner: nat): Sprint {
    Sprint(sp.running, sp.jobId,
           if e.started then "running" else sp.progress,
           if e.started then e.task.title else sp.currentTask,
           NextError(sp.error, e), NextKind(sp.kind, e), NextDiagnostics(sp.diagnostics, e, owner),
           sp.uncertain || IsUnknown(e))
  }

  /** The section under the lock after one commit. */
  function Noted(sp: Sprint, e: Entry, owner: nat): Sprint {
    Sprint(sp.running, sp.jobId, sp.progress, sp.currentTask, NextError(sp.error, e), NextKind(sp.kind, e),
           NextDiagnostics(sp.diagnostics, e, owner), sp.uncertain || IsUnknown(e))
  }

  function Dispatch(sp: Sprint, t: Task): Sprint { sp.(currentTask := t.title, progress := "running") }

  /** The state after the first n entries of a batch. */
  function After(sp: Sprint, es: seq<Entry>, n: nat, owner: nat): Sprint
    requires n <= |es|
  {
    if n == 0 then sp else Settle(After(sp, es, n - 1, owner), es[n - 1], owner)
  }

  /** The deferred section that ends a batch; a panic leaves the sprint uncertain. */
  function Finalize(sp: Sprint, panicked: bool): Sprint {
    var sp := if panicked then sp.(error := INTERRUPTED, kind := UncertainKind, uncertain := true) else sp;
    sp.(running := false, progress := if sp.error != "" then "failed" else "done")
  }

  /** Publishing a claimed batch: the previous sprint's diagnostics are cleared. */
  function Publish(sp: Sprint, jobId: nat): Sprint {
    sp.(running := true, jobId := jobId, progress := "dispatching", currentTask := "", error := "",
        kind := NoKind, diagnostics := [])
  }

  predicate AllCommitted(ds: seq<Diagnostic>) { forall d | d in ds :: d.committed }

  function Repaired(d: Diagnostic): Diagnostic {
    if d.committed then d else d.(committed := true, commitError := None)
  }

  /** The first `done` diagnostics have been brought into the store, the rest are untouched. */
  predicate RepairedUpTo(before: seq<Diagnostic>, after: seq<Diagnostic>, done: nat) {
    && |before| == |after| && done <= |before|
    && (forall i | 0 <= i < done :: after[i] == Repaired(before[i]))
    && (forall i | done <= i < |before| :: after[i] == before[i])
  }

  function Marked(ds: seq<Diagnostic>, i: nat, mark: Option<CommitError>): seq<Diagnostic>
    requires i < |ds|
  {
    ds[i := ds[i].(commitError := mark)]
  }

  /** What one reconciliation may do: a prefix of the diagnostics is committed, and it either
      covers everything or stops at the first retained result that cannot be recorded. */
  predicate Reconciled(before: seq<Diagnostic>, after: seq<Diagnostic>, stop: nat, mark: Option<CommitError>) {
    if stop < |before| then !before[stop].committed && RepairedUpTo(Marked(before, stop, mark), after, stop)
    else stop == |before| && RepairedUpTo(before, after, stop)
  }

  // ---- meaning ---------------------------------------------------------------------

  type Commit = map<string, Result>

  function Record(log: seq<Commit>, accepted: bool, id: string, r: Result): seq<Commit> {
    if accepted then log + [map[id := r]] else log
  }

  /** The log once the first n diagnostics have been repaired, one commit per retained result. */
  function Repaid(log: seq<Commit>, ds: seq<Diagnostic>, n: nat): seq<Commit>
    requires n <= |ds|
  {
    if n == 0 then log else Record(Repaid(log, ds, n - 1), !ds[n - 1].committed, ds[n - 1].task, ds[n - 1].result)
  }

  /** How many commits of a log record a result for the task. */
  function Mentions(log: seq<Commit>, id: string): nat {
    if log == [] then 0 else Mentions(log[..|log| - 1], id) + if id in log[|log| - 1] then 1 else 0
  }

  /** How many of the first n diagnostics retain an unrecorded result of the task. */
  function RetainedFor(ds: seq<Diagnostic>, n: nat, id: string): nat
    requires n <= |ds|
  {
    if n == 0 then 0 else RetainedFor(ds, n - 1, id) + if !ds[n - 1].committed && ds[n - 1].task == id then 1 else 0
  }

  function Retained(ds: seq<Diagnostic>, id: string): nat { RetainedFor(ds, |ds|, id) }

  lemma MentionsSnoc(log: seq<Commit>, c: Commit, id: string)
    ensures Mentions(log + [c], id) == Mentions(log, id) + if id in c then 1 else 0
  {
    assert (log + [c])[..|log|] == log;
  }

  lemma RecordMentions(log: seq<Commit>, accepted: bool, k: string, r: Result, id: string)
    ensures Mentions(Record(log, accepted, k, r), id) == Mentions(log, id) + if accepted && k == id then 1 else 0
  {
    if accepted { MentionsSnoc(log, map[k := r], id); }
  }

  lemma {:induction false} RepaidMentions(log: seq<Commit>, ds: seq<Diagnostic>, n: nat, id: string)
    requires n <= |ds|
    ensures Mentions(Repaid(log, ds, n), id) == Mentions(log, id) + RetainedFor(ds, n, id)
  {
    if n > 0 {
      RepaidMentions(log, ds, n - 1, id);
      RecordMentions(Repaid(log, ds, n - 1), !ds[n - 1].committed, ds[n - 1].task, ds[n - 1].result, id);
    }
  }

  /** The log after the first n entries of a batch, one commit per accepted result. */
  function Logged(log: seq<Commit>, es: seq<Entry>, n: nat): seq<Commit>
    requires n <= |es|
  {
    if n == 0 then log else Record(Logged(log, es, n - 1), es[n - 1].verdict.None?, es[n - 1].task.id, es[n - 1].result)
  }

  predicate DistinctTasks(es: seq<Entry>) { forall i, j | 0 <= i < j < |es| :: es[i].task.id != es[j].task.id }

  lemma {:induction false} LoggedMentions(log: seq<Commit>, es: seq<Entry>, n: nat, i: nat)
    requires DistinctTasks(es) && n <= |es| && i < |es|
    ensures Mentions(Logged(log, es, n), es[i].task.id) ==
              Mentions(log, es[i].task.id) + if i < n && es[i].verdict.None? then 1 else 0
  {
    if n > 0 {
      var e, id, before := es[n - 1], es[i].task.id, Logged(log, es, n - 1);
      assert e.task.id == id <==> i == n - 1;
      LoggedMentions(log, es, n - 1, i);
      RecordMentions(before, e.verdict.None?, e.task.id, e.result, id);
    }
  }

  /** What a batch writes about its tasks is what it observed. */
  lemma {:induction false} LoggedResultsAreObserved(log: seq<Commit>, es: seq<Entry>, n: nat)
    requires n <= |es|
    ensures forall c | c in Logged(log, es, n) ::
              c in log || exists i | 0 <= i < n :: c == map[es[i].task.id := es[i].result]
  {
    if n > 0 { LoggedResultsAreObserved(log, es, n - 1); }
  }

  lemma {:induction false} RetainedPrefix(xs: seq<Diagnostic>, ys: seq<Diagnostic>, n: nat, id: string)
    requires n <= |xs| && n <= |ys|
    requires forall i | 0 <= i < n :: xs[i].committed == ys[i].committed && xs[i].task == ys[i].task
    ensures RetainedFor(xs, n, id) == RetainedFor(ys, n, id)
  {
    if n > 0 { RetainedPrefix(xs, ys, n - 1, id); }
  }

  /** The section after one commit retains the result exactly when the store refused it. */
  lemma NoteRetains(sp: Sprint, e: Entry, owner: nat, id: string)
    ensures Retained(Settle(sp, e, owner).diagnostics, id) ==
              Retained(sp.diagnostics, id) + if e.verdict.Some? && e.task.id == id then 1 else 0
  {
    var ds, after := sp.diagnostics, Settle(sp, e, owner).diagnostics;
    if NeedsDiagnostic(e) {
      assert after == ds + [DiagnosticOf(e, owner)];
      RetainedPrefix(ds, after, |ds|, id);
    } else {
      assert after == ds;
    }
  }

  /** A refused result is retained, once; nothing else is added for its task. */
  lemma {:induction false} RefusedIsRetained(sp: Sprint, es: seq<Entry>, n: nat, owner: nat, i: nat)
    requires DistinctTasks(es) && n <= |es| && i < |es|
    ensures Retained(After(sp, es, n, owner).diagnostics, es[i].task.id) ==
              Retained(sp.diagnostics, es[i].task.id) + if i < n && es[i].verdict.Some? then 1 else 0
  {
    if n > 0 {
      RefusedIsRetained(sp, es, n - 1, owner, i);
      NoteRetains(After(sp, es, n - 1, owner), es[n - 1], owner, es[i].task.id);
      assert es[n - 1].task.id == es[i].task.id <==> i == n - 1;
    }
  }

  /** Every retained result is the one the batch observed. */
  lemma {:induction false} RetainedResultsAreObserved(sp: Sprint, es: seq<Entry>, n: nat, owner: nat)
    requires n <= |es| && AllCommitted(sp.diagnostics)
    ensures forall d | d in After(sp, es, n, owner).diagnostics && !d.committed ::
              exists i | 0 <= i < n :: d.task == es[i].task.id && d.result == es[i].result
  {
    if n > 0 { RetainedResultsAreObserved(sp, es, n - 1, owner); }
  }

  function Weight(e: Entry): nat { if Counted(e) then Severity(CountedKind(e)) else 0 }

  lemma SettleWeighs(sp: Sprint, e: Entry, owner: nat)
    ensures Severity(Settle(sp, e, owner).kind) ==
              if Weight(e) > Severity(sp.kind) then Weight(e) else Severity(sp.kind)
  {}

  /** The batch's error kind is the most conservative one any counted entry observed. */
  lemma {:induction false} ErrorKindIsMostConservative(sp: Sprint, es: seq<Entry>, n: nat, owner: nat)
    requires n <= |es|
    ensures var k := Severity(After(sp, es, n, owner).kind);
      && Severity(sp.kind) <= k
      && (forall i | 0 <= i < n :: Weight(es[i]) <= k)
      && (k == Severity(sp.kind) || exists i | 0 <= i < n :: Weight(es[i]) == k)
  {
    if n > 0 {
      ErrorKindIsMostConservative(sp, es, n - 1, owner);
      SettleWeighs(After(sp, es, n - 1, owner), es[n - 1], owner);
    }
  }

  lemma SettleFlags(sp: Sprint, e: Entry, owner: nat)
    ensures var after := Settle(sp, e, owner);
      && (after.error != "" <==> sp.error != "" || Counted(e))
      && (after.uncertain <==> sp.uncertain || IsUnknown(e))
      && after.running == sp.running && after.jobId == sp.jobId
  {}

  /** A batch reports an error exactly when some entry counts, and becomes uncertain exactly
      when some result's outcome could not be established. */
  lemma {:induction false} ErrorAndUncertaintyAreExact(sp: Sprint, es: seq<Entry>, n: nat, owner: nat)
    requires n <= |es|
    ensures var after := After(sp, es, n, owner);
      && (after.error != "" <==> sp.error != "" || exists i | 0 <= i < n :: Counted(es[i]))
      && (after.uncertain <==> sp.uncertain || exists i | 0 <= i < n :: IsUnknown(es[i]))
      && after.running == sp.running && after.jobId == sp.jobId
  {
    if n > 0 {
      ErrorAndUncertaintyAreExact(sp, es, n - 1, owner);
      SettleFlags(After(sp, es, n - 1, owner), es[n - 1], owner);
    }
  }

  /** The result of a run is filed under the kind of its error. */
  lemma UncertainRunsAreKept(t: Task, w: World, verdict: Option<CommitError>)
    ensures var e := RanEntry(t, w, verdict);
      IsUncertain(ObservedErr(w)) <==> IsUnknown(e)
  {}

  /** A task goes back to approved work only if it was never run, or its run was an expected
      quota carryover with no branch that failed, was lost or is unknown. */
  lemma ApprovedOnlyIfDeferred(w: World)
    ensures RunResult(w).status.Approved? <==>
              w.breakerOpen || (ObservedOutcome(w) == RATE_LIMITED && IsPause(RATE_LIMITED, w.runErr))
    ensures RunResult(w).status.Approved? && !w.breakerOpen && IsTerminal(w.runErr) ==>
              forall n | Occurs(n, w.runErr.value) ::
                !n.Uncertain? && !n.Persistence? && (n.Stopped? ==> Rank(n.outcome) <= Rank(RATE_LIMITED))
  {
    assert !IsHealthyOutcome(RATE_LIMITED);
    if RunResult(w).status.Approved? && !w.breakerOpen && IsTerminal(w.runErr) {
      PauseHidesNothing(RATE_LIMITED, w.runErr.value);
    }
  }

  /** A task is recorded as completed only for healthy work whose error, if any, is a lost
      record; a failure always carries an error, typed when the executor gave none. */
  lemma CompletedOnlyIfHealthy(w: World)
    ensures RunResult(w).status.Completed? <==>
              && !w.breakerOpen
              && IsHealthyOutcome(ObservedOutcome(w))
              && (w.runErr.None? || KindOf(w.runErr) == PersistenceKind)
    ensures RunResult(w).status.Failed? ==> RunResult(w).error.Some?
    ensures RunResult(w).status.Failed? && w.runErr.None? ==> RunResult(w).kind in {StoppedKind, UncertainKind}
  {
    assert !IsHealthyOutcome(RATE_LIMITED);
  }

  /** The store's validation never rejects what a batch observed. */
  lemma ResultsAreRecordable(w: World, cause: Err)
    ensures Recordable(RunResult(w)) && Recordable(NotStarted(cause))
  {
    CompletedOnlyIfHealthy(w);
  }

  lemma RepairNext(before: seq<Diagnostic>, cur: seq<Diagnostic>, i: nat)
    requires RepairedUpTo(before, cur, i) && i < |cur|
    ensures RepairedUpTo(before, cur[i := Repaired(cur[i])], i + 1)
  {}

  lemma RepairStops(before: seq<Diagnostic>, cur: seq<Diagnostic>, i: nat, mark: Option<CommitError>)
    requires RepairedUpTo(before, cur, i) && i < |cur| && !cur[i].committed
    ensures Reconciled(before, Marked(cur, i, mark), i, mark)
  {}

  lemma {:induction false} RepairConserves(before: seq<Diagnostic>, after: seq<Diagnostic>, done: nat, n: nat, id: string)
    requires RepairedUpTo(before, after, done) && n <= |before|
    ensures RetainedFor(before, n, id) == RetainedFor(before, Min(n, done), id) + RetainedFor(after, n, id)
    ensures n <= done ==> RetainedFor(after, n, id) == 0
  {
    if n > 0 { RepairConserves(before, after, done, n - 1, id); }
  }

  /** Reconciliation moves retained results into the store one commit each; whatever it could
      not record stays retained, so no task's result is lost or recorded twice. */
  lemma ReconcileConserves(log: seq<Commit>, before: seq<Diagnostic>, after: seq<Diagnostic>, stop: nat,
                           mark: Option<CommitError>, id: string)
    requires Reconciled(before, after, stop, mark)
    ensures stop <= |before|
    ensures Mentions(log, id) + Retained(before, id) == Mentions(Repaid(log, before, stop), id) + Retained(after, id)
    ensures stop == |before| ==> Retained(after, id) == 0 && AllCommitted(after)
  {
    RepaidMentions(log, before, stop, id);
    if stop == |before| {
      RepairConserves(before, after, stop, stop, id);
    } else {
      var marked := Marked(before, stop, mark);
      RepairConserves(marked, after, stop, |before|, id);
      RetainedPrefix(marked, before, |before|, id);
      RetainedPrefix(marked, before, stop, id);
    }
  }

  lemma {:induction false} CommittedRetainNothing(ds: seq<Diagnostic>, n: nat, id: string)
    requires AllCommitted(ds) && n <= |ds|
    ensures RetainedFor(ds, n, id) == 0
  {
    if n > 0 { CommittedRetainNothing(ds, n - 1, id); }
  }
}

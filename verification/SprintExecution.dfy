/**
 Executing, cleaning up and reconciling one claimed batch (cmd/bt-dashboard/sprint_execution.go),
 in place on the shared sprint state and the task store.
*/
module SprintExecution {
  import opened Common
  import opened ExecutionErrors
  import opened TaskStore
  import opened SprintState

  ghost predicate Holds(tasks: seq<Task>, id: string, status: Status) {
    exists i :: 0 <= i < |tasks| && tasks[i].id == id && tasks[i].status == status
  }

  predicate Calm(io: Io) { io.wait.None? && io.expired.None? && io.persist.None? }

  /** Nobody else touches the store and no write fails. */
  predicate QuietWorld(w: World) { w.edits == map[] && Calm(w.io) }

  ghost predicate AllClaimed(stored: seq<Task>, batch: seq<Task>, from: nat) {
    forall i | from <= i < |batch| :: Holds(stored, batch[i].id, InProgress)
  }

  lemma StillClaimed(stored: seq<Task>, batch: seq<Task>, i: nat, r: Result)
    requires DistinctIds(batch) && i < |batch| && AllClaimed(stored, batch, i)
    ensures AllClaimed(Recorded(stored, map[batch[i].id := r]), batch, i + 1)
  {
    var after := Recorded(stored, map[batch[i].id := r]);
    forall j | i < j < |batch| ensures Holds(after, batch[j].id, InProgress) {
      var k :| 0 <= k < |stored| && stored[k].id == batch[j].id && stored[k].status == InProgress;
      assert after[k] == stored[k];
    }
  }

  /** es accounts for a prefix of the batch: tasks that ran under a live budget, then, once the
      budget is gone, every remaining task as unstarted. */
  ghost predicate Accounts(es: seq<Entry>, batch: seq<Task>, worlds: seq<World>, ran: nat)
    requires |worlds| == |batch|
  {
    && ran <= |es| <= |batch|
    && (forall i {:trigger RanAs(es[i], batch[i], worlds[i])} | 0 <= i < ran :: RanAs(es[i], batch[i], worlds[i]))
    && (ran < |es| ==> |es| == |batch| && worlds[ran].budget.Some?)
    && (forall i {:trigger ReturnedAs(es[i], batch[i], worlds[ran].budget.value, es[ran].verdict)} | ran <= i < |es| ::
          ReturnedAs(es[i], batch[i], worlds[ran].budget.value, es[ran].verdict))
  }

  predicate RanAs(e: Entry, t: Task, w: World) { w.budget.None? && !w.panics && e == RanEntry(t, w, e.verdict) }

  predicate ReturnedAs(e: Entry, t: Task, cause: Err, verdict: Option<CommitError>) { e == UnstartedEntry(t, cause, verdict) }

  lemma AccountsRun(es: seq<Entry>, batch: seq<Task>, worlds: seq<World>, e: Entry)
    requires |worlds| == |batch| && Accounts(es, batch, worlds, |es|) && |es| < |batch|
    requires worlds[|es|].budget.None? && !worlds[|es|].panics && e == RanEntry(batch[|es|], worlds[|es|], e.verdict)
    ensures Accounts(es + [e], batch, worlds, |es| + 1)
  {
    forall i | 0 <= i < |es| + 1 ensures RanAs((es + [e])[i], batch[i], worlds[i]) {
      if i < |es| { assert RanAs(es[i], batch[i], worlds[i]); }
    }
  }

  /** The account, the folded state and the log grow by one entry together. */
  lemma AccountGrows(sp: Sprint, log: seq<Commit>, es: seq<Entry>, batch: seq<Task>, worlds: seq<World>, e: Entry, owner: nat)
    requires |worlds| == |batch| && Accounts(es, batch, worlds, |es|) && |es| < |batch|
    requires worlds[|es|].budget.None? && !worlds[|es|].panics && e == RanEntry(batch[|es|], worlds[|es|], e.verdict)
    ensures Accounts(es + [e], batch, worlds, |es| + 1)
    ensures After(sp, es + [e], |es| + 1, owner) == Settle(After(sp, es, |es|, owner), e, owner)
    ensures Logged(log, es + [e], |es| + 1) == Record(Logged(log, es, |es|), e.verdict.None?, e.task.id, e.result)
  {
    AccountsRun(es, batch, worlds, e);
    Prefix(sp, log, es, es + [e], |es|, owner);
  }

  lemma AccountsRest(es: seq<Entry>, batch: seq<Task>, worlds: seq<World>, verdict: Option<CommitError>)
    requires |worlds| == |batch| && Accounts(es, batch, worlds, |es|) && |es| < |batch|
    requires worlds[|es|].budget.Some?
    ensures Accounts(es + Unstarteds(batch[|es|..], worlds[|es|].budget.value, verdict), batch, worlds, |es|)
  {
    var all := es + Unstarteds(batch[|es|..], worlds[|es|].budget.value, verdict);
    forall i | 0 <= i < |es| ensures RanAs(all[i], batch[i], worlds[i]) { assert RanAs(es[i], batch[i], worlds[i]); }
  }

  ghost predicate AllRecorded(es: seq<Entry>) { forall i | 0 <= i < |es| :: es[i].verdict.None? }

  /** Accounts are built left to right: a longer one agrees with its prefixes. */
  lemma {:induction false} Prefix(sp: Sprint, log: seq<Commit>, xs: seq<Entry>, ys: seq<Entry>, n: nat, owner: nat)
    requires n <= |xs| && n <= |ys| && forall i | 0 <= i < n :: xs[i] == ys[i]
    ensures After(sp, xs, n, owner) == After(sp, ys, n, owner)
    ensures Logged(log, xs, n) == Logged(log, ys, n)
  {
    if n > 0 { Prefix(sp, log, xs, ys, n - 1, owner); }
  }

  function Unstarteds(tasks: seq<Task>, cause: Err, verdict: Option<CommitError>): seq<Entry> {
    seq(|tasks|, i requires 0 <= i < |tasks| => UnstartedEntry(tasks[i], cause, verdict))
  }

  function NotStartedResults(tasks: seq<Task>, cause: Err): map<string, Result> {
    map id | id in Ids(tasks) :: NotStarted(cause)
  }

  lemma {:induction false} Appended(sp: Sprint, xs: seq<Entry>, ys: seq<Entry>, all: seq<Entry>, n: nat, owner: nat)
    requires n <= |ys| && |all| == |xs| + |ys|
    requires forall i | 0 <= i < |xs| :: all[i] == xs[i]
    requires forall i | 0 <= i < |ys| :: all[|xs| + i] == ys[i]
    ensures After(sp, all, |xs| + n, owner) == After(After(sp, xs, |xs|, owner), ys, n, owner)
  {
    if n == 0 {
      Prefix(sp, [], xs, all, |xs|, owner);
    } else {
      Appended(sp, xs, ys, all, n - 1, owner);
      assert all[|xs| + n - 1] == ys[n - 1];
    }
  }

  /** The log after a whole batch: one commit per recorded task that ran, then one for all
      unstarted tasks. */
  function BatchLog(log: seq<Commit>, es: seq<Entry>, batch: seq<Task>, worlds: seq<World>, ran: nat): seq<Commit>
    requires ran <= |es| <= |batch| == |worlds| && (ran < |es| ==> worlds[ran].budget.Some?)
  {
    var logged := Logged(log, es, ran);
    if ran < |es| && es[ran].verdict.None? then logged + [NotStartedResults(batch[ran..], worlds[ran].budget.value)]
    else logged
  }

  lemma AccountAt(es: seq<Entry>, batch: seq<Task>, worlds: seq<World>, ran: nat, i: nat)
    requires |worlds| == |batch| && Accounts(es, batch, worlds, ran) && i < |es|
    ensures es[i].task == batch[i]
    ensures if i < ran then es[i].result == RunResult(worlds[i])
            else es[i].result == NotStarted(worlds[ran].budget.value) && es[i].verdict == es[ran].verdict
  {
    if i < ran { assert RanAs(es[i], batch[i], worlds[i]); }
    else { assert ReturnedAs(es[i], batch[i], worlds[ran].budget.value, es[ran].verdict); }
  }

  lemma AccountsAreDistinct(es: seq<Entry>, batch: seq<Task>, worlds: seq<World>, ran: nat)
    requires |worlds| == |batch| && Accounts(es, batch, worlds, ran) && DistinctIds(batch)
    ensures DistinctTasks(es) && forall i | 0 <= i < |es| :: es[i].task == batch[i]
  {
    forall i | 0 <= i < |es| ensures es[i].task == batch[i] { AccountAt(es, batch, worlds, ran, i); }
  }

  lemma BatchMentions(log: seq<Commit>, es: seq<Entry>, batch: seq<Task>, worlds: seq<World>, ran: nat, i: nat)
    requires |worlds| == |batch| && Accounts(es, batch, worlds, ran) && DistinctIds(batch) && i < |es|
    ensures Mentions(BatchLog(log, es, batch, worlds, ran), batch[i].id) ==
              Mentions(log, batch[i].id) + if es[i].verdict.None? then 1 else 0
  {
    AccountsAreDistinct(es, batch, worlds, ran);
    AccountAt(es, batch, worlds, ran, i);
    LoggedMentions(log, es, ran, i);
    if ran < |es| && es[ran].verdict.None? {
      var rest := batch[ran..];
      MentionsSnoc(Logged(log, es, ran), NotStartedResults(rest, worlds[ran].budget.value), batch[i].id);
      if ran <= i { assert rest[i - ran].id == batch[i].id; }
    }
  }

  /** A commit of one run's result that names this entry's task is this entry's. */
  lemma LoggedForTask(log: seq<Commit>, es: seq<Entry>, n: nat, i: nat, c: Commit)
    requires DistinctTasks(es) && n <= |es| && i < |es|
    requires c in Logged(log, es, n) && c !in log && es[i].task.id in c
    ensures c[es[i].task.id] == es[i].result
  {
    LoggedResultsAreObserved(log, es, n);
    var j :| 0 <= j < n && c == map[es[j].task.id := es[j].result];
    assert es[j].task.id == es[i].task.id;
  }

  /** The batch commit of the unstarted rest names only tasks of the rest. */
  lemma RestForTask(batch: seq<Task>, ran: nat, cause: Err, i: nat)
    requires DistinctIds(batch) && ran <= |batch| && i < |batch| && batch[i].id in NotStartedResults(batch[ran..], cause)
    ensures ran <= i
  {
    var rest := batch[ran..];
    var k :| 0 <= k < |rest| && rest[k].id == batch[i].id;
    assert rest[k] == batch[ran + k];
  }

  lemma BatchRecordsWhatItObserved(log: seq<Commit>, es: seq<Entry>, batch: seq<Task>, worlds: seq<World>, ran: nat, i: nat, c: Commit)
    requires |worlds| == |batch| && Accounts(es, batch, worlds, ran) && DistinctIds(batch) && i < |es|
    requires c in BatchLog(log, es, batch, worlds, ran) && c !in log && batch[i].id in c
    ensures c[batch[i].id] == es[i].result
  {
    AccountsAreDistinct(es, batch, worlds, ran);
    if c in Logged(log, es, ran) {
      LoggedForTask(log, es, ran, i, c);
    } else {
      RestForTask(batch, ran, worlds[ran].budget.value, i);
      AccountAt(es, batch, worlds, ran, i);
    }
  }

  lemma RestIsClaimed(stored: seq<Task>, batch: seq<Task>, i: nat)
    requires i <= |batch| && AllClaimed(stored, batch, i)
    ensures AllClaimed(stored, batch[i..], 0)
  {
    forall j | 0 <= j < |batch| - i ensures Holds(stored, batch[i..][j].id, InProgress) {
      assert batch[i..][j] == batch[i + j];
    }
  }

  lemma RestIsRecorded(es: seq<Entry>, tasks: seq<Task>, cause: Err, verdict: Option<CommitError>)
    requires AllRecorded(es) && verdict.None?
    ensures AllRecorded(es + Unstarteds(tasks, cause, verdict))
  {}

  /** Closing an account with the unstarted rest of the batch. */
  lemma RestIsLogged(sp: Sprint, log: seq<Commit>, es: seq<Entry>, batch: seq<Task>, worlds: seq<World>,
                     all: seq<Entry>, verdict: Option<CommitError>)
    requires |worlds| == |batch| && |es| < |batch| == |all| && worlds[|es|].budget.Some?
    requires forall i | 0 <= i < |es| :: all[i] == es[i]
    requires all[|es|].verdict == verdict
    ensures BatchLog(log, all, batch, worlds, |es|) ==
              var logged := Logged(log, es, |es|);
              if verdict.None? then logged + [NotStartedResults(batch[|es|..], worlds[|es|].budget.value)] else logged
  {
    Prefix(sp, log, es, all, |es|, 0);
  }

  /** The account of a batch whose budget ended, closed with the verdict on the rest. */
  lemma FinishAccount(sp: Sprint, log: seq<Commit>, es: seq<Entry>, batch: seq<Task>, worlds: seq<World>,
                      verdict: Option<CommitError>, owner: nat) returns (all: seq<Entry>)
    requires |worlds| == |batch| && Accounts(es, batch, worlds, |es|) && |es| < |batch| && worlds[|es|].budget.Some?
    ensures |all| == |batch| && Accounts(all, batch, worlds, |es|)
    ensures var rest, cause := batch[|es|..], worlds[|es|].budget.value;
      && After(sp, all, |all|, owner) == After(After(sp, es, |es|, owner), Unstarteds(rest, cause, verdict), |rest|, owner)
      && BatchLog(log, all, batch, worlds, |es|) ==
           var logged := Logged(log, es, |es|);
           if verdict.None? then logged + [NotStartedResults(rest, cause)] else logged
    ensures AllRecorded(es) && verdict.None? ==> AllRecorded(all)
  {
    var rest, cause := batch[|es|..], worlds[|es|].budget.value;
    var tail := Unstarteds(rest, cause, verdict);
    all := es + tail;
    Appended(sp, es, tail, all, |tail|, owner);
    AccountsRest(es, batch, worlds, verdict);
    RestIsLogged(sp, log, es, batch, worlds, all, verdict);
    if AllRecorded(es) && verdict.None? { RestIsRecorded(es, rest, cause, verdict); }
  }

  /** The whole batch, from the account ExecuteTasks returns. A sprint that starts with nothing
      owed ends with each accounted task's result kept exactly once, recorded by the store or
      retained, and it is the result that was observed; a task goes unaccounted only behind a
      panic, which leaves the sprint uncertain; and a task is handed back as approved work only
      if it was never run or its run was deferred. */
  lemma BatchKeepsEveryResult(sp: Sprint, log: seq<Commit>, es: seq<Entry>, batch: seq<Task>, worlds: seq<World>,
                              ran: nat, owner: nat, panicked: bool, i: nat)
    requires |worlds| == |batch| && Accounts(es, batch, worlds, ran) && DistinctIds(batch)
    requires AllCommitted(sp.diagnostics) && i < |batch|
    requires if panicked then ran == |es| < |batch| else |es| == |batch|
    ensures var end := Finalize(After(sp, es, |es|, owner), panicked);
      var log' := BatchLog(log, es, batch, worlds, ran);
      && !end.running
      && (i < |es| ==>
            && Mentions(log', batch[i].id) + Retained(end.diagnostics, batch[i].id) == Mentions(log, batch[i].id) + 1
            && (forall c | c in log' && c !in log && batch[i].id in c :: c[batch[i].id] == es[i].result)
            && (forall d | d in end.diagnostics && !d.committed && d.task == batch[i].id :: d.result == es[i].result))
      && (i >= |es| ==> panicked && end.uncertain)
    ensures i < |es| ==> es[i].result == if i < ran then RunResult(worlds[i]) else NotStarted(worlds[ran].budget.value)
    ensures i < |es| ==>
              (es[i].result.status.Approved? <==>
                 || ran <= i
                 || worlds[i].breakerOpen
                 || (ObservedOutcome(worlds[i]) == RATE_LIMITED && IsPause(RATE_LIMITED, worlds[i].runErr)))
  {
    if i < |es| {
      BatchCounts(sp, log, es, batch, worlds, ran, owner, i);
      BatchResultIsObserved(sp, log, es, batch, worlds, ran, owner, i);
      AccountAt(es, batch, worlds, ran, i);
      if i < ran { ApprovedOnlyIfDeferred(worlds[i]); }
    }
  }

  /** A batch leaves the sprint uncertain exactly if it was before, a panic ended the batch, or
      some executed task's error was uncertain; what was never started is never the cause. */
  lemma BatchUncertaintyIsObserved(sp: Sprint, es: seq<Entry>, batch: seq<Task>, worlds: seq<World>, ran: nat, owner: nat, panicked: bool)
    requires |worlds| == |batch| && Accounts(es, batch, worlds, ran)
    ensures Finalize(After(sp, es, |es|, owner), panicked).uncertain <==>
              sp.uncertain || panicked || exists i | 0 <= i < ran :: IsUncertain(ObservedErr(worlds[i]))
  {
    ErrorAndUncertaintyAreExact(sp, es, |es|, owner);
    forall i | 0 <= i < |es| ensures IsUnknown(es[i]) <==> i < ran && IsUncertain(ObservedErr(worlds[i])) {
      if i < ran {
        assert RanAs(es[i], batch[i], worlds[i]);
        UncertainRunsAreKept(batch[i], worlds[i], es[i].verdict);
      } else {
        assert ReturnedAs(es[i], batch[i], worlds[ran].budget.value, es[ran].verdict);
      }
    }
  }

  lemma BatchCounts(sp: Sprint, log: seq<Commit>, es: seq<Entry>, batch: seq<Task>, worlds: seq<World>, ran: nat, owner: nat, i: nat)
    requires |worlds| == |batch| && Accounts(es, batch, worlds, ran) && DistinctIds(batch)
    requires AllCommitted(sp.diagnostics) && i < |es|
    ensures Mentions(BatchLog(log, es, batch, worlds, ran), batch[i].id)
            + Retained(After(sp, es, |es|, owner).diagnostics, batch[i].id) == Mentions(log, batch[i].id) + 1
  {
    AccountsAreDistinct(es, batch, worlds, ran);
    CommittedRetainNothing(sp.diagnostics, |sp.diagnostics|, batch[i].id);
    RefusedIsRetained(sp, es, |es|, owner, i);
    BatchMentions(log, es, batch, worlds, ran, i);
  }

  lemma BatchResultIsObserved(sp: Sprint, log: seq<Commit>, es: seq<Entry>, batch: seq<Task>, worlds: seq<World>, ran: nat, owner: nat, i: nat)
    requires |worlds| == |batch| && Accounts(es, batch, worlds, ran) && DistinctIds(batch)
    requires AllCommitted(sp.diagnostics) && i < |es|
    ensures forall c | c in BatchLog(log, es, batch, worlds, ran) && c !in log && batch[i].id in c :: c[batch[i].id] == es[i].result
    ensures forall d | d in After(sp, es, |es|, owner).diagnostics && !d.committed && d.task == batch[i].id :: d.result == es[i].result
  {
    forall c | c in BatchLog(log, es, batch, worlds, ran) && c !in log && batch[i].id in c
      ensures c[batch[i].id] == es[i].result
    {
      BatchRecordsWhatItObserved(log, es, batch, worlds, ran, i, c);
    }
    AccountsAreDistinct(es, batch, worlds, ran);
    RetainedForTask(sp, es, owner, i);
  }

  lemma RetainedForTask(sp: Sprint, es: seq<Entry>, owner: nat, i: nat)
    requires DistinctTasks(es) && AllCommitted(sp.diagnostics) && i < |es|
    ensures forall d | d in After(sp, es, |es|, owner).diagnostics && !d.committed && d.task == es[i].task.id :: d.result == es[i].result
  {
    RetainedResultsAreObserved(sp, es, |es|, owner);
    forall d | d in After(sp, es, |es|, owner).diagnostics && !d.committed && d.task == es[i].task.id
      ensures d.result == es[i].result
    {
      var j :| 0 <= j < |es| && d.task == es[j].task.id && d.result == es[j].result;
      assert es[i].task.id == es[j].task.id;
    }
  }

  class SharedSprint {
    var running: bool
    var jobId: nat
    var progress: string
    var currentTask: string
    var error: string
    var kind: Kind
    var diagnostics: seq<Diagnostic>
    var uncertain: bool

    function Value(): Sprint
      reads this
    {
      Sprint(running, jobId, progress, currentTask, error, kind, diagnostics, uncertain)
    }

    constructor ()
      ensures Value() == Sprint(false, 0, "", "", "", NoKind, [], false)
    {
      running, jobId, progress, currentTask := false, 0, "", "";
      error, kind, diagnostics, uncertain := "", NoKind, [], false;
    }

    /** Commits one retained result; the diagnostic records how that went. */
    method RetryCommit(store: TaskStore, i: nat, io: Io) returns (done: bool, ghost mark: Option<CommitError>)
      requires DistinctIds(store.tasks) && i < |diagnostics|
      modifies this`diagnostics, store
      ensures DistinctIds(store.tasks)
      ensures var d := old(diagnostics)[i];
        if done then
          && diagnostics == old(diagnostics)[i := Repaired(d)]
          && store.commits == Record(old(store.commits), !d.committed, d.task, d.result)
        else
          && !d.committed && store.commits == old(store.commits)
          && diagnostics == Marked(old(diagnostics), i, mark)
    {
      var d := diagnostics[i];
      mark := d.commitError;
      if d.committed { return true, mark; }
      if store.owner != d.owner {
        assert Marked(diagnostics, i, mark) == diagnostics;
        return false, mark;
      }
      var err := store.CommitExecutionBatch(map[d.task := d.result], io);
      if err.Some? {
        diagnostics := diagnostics[i := d.(commitError := err)];
        return false, err;
      }
      diagnostics := diagnostics[i := d.(committed := true, commitError := None)];
      return true, None;
    }

    /** Retries only the retained record writes, in order; no task is executed. It succeeds
        exactly when nothing is uncertain and every retained result is now in the store. */
    method Reconcile(store: TaskStore, ios: seq<Io>) returns (ok: bool, ghost stop: nat, ghost mark: Option<CommitError>)
      requires DistinctIds(store.tasks) && |ios| == |diagnostics|
      modifies this`diagnostics, store
      ensures DistinctIds(store.tasks)
      ensures Value() == old(Value()).(diagnostics := diagnostics)
      ensures uncertain ==> !ok && diagnostics == old(diagnostics) && store.commits == old(store.commits)
      ensures !uncertain ==> Reconciled(old(diagnostics), diagnostics, stop, mark) && (ok <==> stop == |diagnostics|)
      ensures !uncertain ==> store.commits == Repaid(old(store.commits), old(diagnostics), stop)
    {
      stop, mark := 0, None;
      if uncertain { return false, 0, None; }
      ghost var before, start := diagnostics, store.commits;
      var i := 0;
      while i < |diagnostics|
        invariant 0 <= i <= |diagnostics| == |ios|
        invariant DistinctIds(store.tasks)
        invariant RepairedUpTo(before, diagnostics, i)
        invariant store.commits == Repaid(start, before, i)
      {
        ghost var cur := diagnostics;
        var done, m := RetryCommit(store, i, ios[i]);
        if !done {
          RepairStops(before, cur, i, m);
          return false, i, m;
        }
        RepairNext(before, cur, i);
        i := i + 1;
      }
      return true, i, None;
    }

    /** One retained diagnostic per task the batch never dispatched. */
    method NoteUnstarted(owner: nat, tasks: seq<Task>, cause: Err, verdict: Option<CommitError>)
      modifies this
      ensures Value() == After(old(Value()), Unstarteds(tasks, cause, verdict), |tasks|, owner)
    {
      ghost var sp, all := Value(), Unstarteds(tasks, cause, verdict);
      for i := 0 to |tasks|
        invariant Value() == After(sp, all, i, owner)
      {
        diagnostics := diagnostics +
          [Diagnostic(tasks[i].id, Some(cause), StoppedKind, verdict.None?, verdict, owner, NotStarted(cause))];
        error := BUDGET_ENDED;
        if Severity(kind) < Severity(StoppedKind) { kind := StoppedKind; }
      }
    }

    /** The cleanup of a batch whose budget ended: one batch commit, one diagnostic per task. */
    method ReturnUnstarted(store: TaskStore, tasks: seq<Task>, cause: Err, io: Io) returns (ghost verdict: Option<CommitError>)
      requires DistinctIds(tasks) && DistinctIds(store.tasks)
      modifies this, store
      ensures DistinctIds(store.tasks)
      ensures Value() == After(old(Value()), Unstarteds(tasks, cause, verdict), |tasks|, store.owner)
      ensures store.commits == if verdict.None? then old(store.commits) + [NotStartedResults(tasks, cause)] else old(store.commits)
      ensures Calm(io) && AllClaimed(old(store.tasks), tasks, 0) ==> verdict.None?
    {
      var results := UnstartedResults(tasks, cause);
      var err := store.CommitExecutionBatch(results, io);
      verdict := err;
      NoteUnstarted(store.owner, tasks, cause, err);
    }

    /** One iteration of the batch loop: dispatch, run or skip, commit, note. */
    method RunTask(store: TaskStore, t: Task, w: World) returns (ghost e: Entry)
      requires DistinctIds(store.tasks) && !w.panics
      modifies this, store
      ensures DistinctIds(store.tasks)
      ensures e == RanEntry(t, w, e.verdict)
      ensures Value() == Settle(old(Value()), e, store.owner)
      ensures store.commits == Record(old(store.commits), e.verdict.None?, t.id, e.result)
      ensures QuietWorld(w) && Holds(old(store.tasks), t.id, InProgress) ==>
                e.verdict.None? && store.tasks == Recorded(old(store.tasks), map[t.id := e.result])
    {
      currentTask, progress := t.title, "running";
      var result, deferred := Observe(w);
      var verdict := CommitOne(store, t.id, result, w);
      e := RanEntry(t, w, verdict);
      NoteRun(store.owner, t.id, result, deferred, verdict, e);
    }

    /** The section under the state lock after a run; it leaves clean commits unmentioned. */
    method NoteRun(owner: nat, id: string, result: Result, deferred: bool, verdict: Option<CommitError>, ghost e: Entry)
      requires e.started && e.result == result && e.deferred == deferred && e.verdict == verdict && e.task.id == id
      modifies this
      ensures Value() == Noted(old(Value()), e, owner)
    {
      if result.error.None? && verdict.None? { return; }
      var diagnosticKind := result.kind;
      if verdict.Some? && diagnosticKind.NoKind? { diagnosticKind := PersistenceKind; }
      diagnostics := diagnostics + [Diagnostic(id, result.error, diagnosticKind, verdict.None?, verdict, owner, result)];
      if verdict.Some? || !deferred {
        error := TASK_ERRORS;
        var counted := if diagnosticKind.NoKind? then ExecutionKind else diagnosticKind;
        if Severity(counted) > Severity(kind) { kind := counted; }
      }
      if result.kind.UncertainKind? { uncertain := true; }
    }

    /** Runs a claimed batch to its end. A panic or an exhausted budget ends the loop early;
        the deferred section closes the sprint either way. */
    method ExecuteTasks(store: TaskStore, tasks: seq<Task>, worlds: seq<World>, cleanup: Io)
      returns (ghost es: seq<Entry>, ghost ran: nat, panicked: bool)
      requires DistinctIds(tasks) && DistinctIds(store.tasks) && |worlds| == |tasks|
      modifies this, store
      ensures DistinctIds(store.tasks)
      ensures Accounts(es, tasks, worlds, ran)
      ensures if panicked then ran == |es| < |tasks| && worlds[ran].panics && worlds[ran].budget.None?
              else |es| == |tasks|
      ensures var sp := After(old(Value()), es, |es|, store.owner);
        Value() == Finalize(if panicked then Dispatch(sp, tasks[ran]) else sp, panicked)
      ensures store.commits == BatchLog(old(store.commits), es, tasks, worlds, ran)
      ensures (forall w | w in worlds :: QuietWorld(w)) && Calm(cleanup) && AllClaimed(old(store.tasks), tasks, 0) ==>
                AllRecorded(es)
    {
      es, ran, panicked := [], 0, false;
      ghost var sp, start, owner := Value(), store.commits, store.owner;
      ghost var quiet := (forall w | w in worlds :: QuietWorld(w)) && AllClaimed(store.tasks, tasks, 0);
      var index := 0;
      while index < |tasks|
        invariant 0 <= index <= |tasks| && ran == index == |es|
        invariant DistinctIds(store.tasks)
        invariant Accounts(es, tasks, worlds, ran)
        invariant Value() == After(sp, es, |es|, owner)
        invariant store.commits == Logged(start, es, |es|)
        invariant quiet ==> AllClaimed(store.tasks, tasks, index) && AllRecorded(es)
      {
        var w := worlds[index];
        if w.budget.Some? {
          es := FinishUnstarted(store, tasks, worlds, index, es, cleanup, sp, start, quiet);
          Close(false);
          return;
        }
        if w.panics {
          currentTask, progress := tasks[index].title, "running";
          Close(true);
          return es, ran, true;
        }
        es := NextTask(store, tasks, worlds, index, es, sp, start, quiet);
        ran := ran + 1;
        index := index + 1;
      }
      Close(false);
    }

    /** One task run within the batch; the account grows by its entry. */
    method NextTask(store: TaskStore, tasks: seq<Task>, worlds: seq<World>, index: nat, ghost es: seq<Entry>,
                    ghost sp: Sprint, ghost start: seq<Commit>, ghost quiet: bool)
      returns (ghost more: seq<Entry>)
      requires DistinctIds(tasks) && DistinctIds(store.tasks) && |worlds| == |tasks|
      requires index == |es| < |tasks| && Accounts(es, tasks, worlds, |es|)
      requires worlds[index].budget.None? && !worlds[index].panics
      requires Value() == After(sp, es, |es|, store.owner) && store.commits == Logged(start, es, |es|)
      requires quiet ==> QuietWorld(worlds[index]) && AllClaimed(store.tasks, tasks, index) && AllRecorded(es)
      modifies this, store
      ensures DistinctIds(store.tasks)
      ensures |more| == index + 1 && Accounts(more, tasks, worlds, index + 1)
      ensures Value() == After(sp, more, |more|, store.owner)
      ensures store.commits == Logged(start, more, |more|)
      ensures quiet ==> AllClaimed(store.tasks, tasks, index + 1) && AllRecorded(more)
    {
      ghost var before := store.tasks;
      ghost var e := RunTask(store, tasks[index], worlds[index]);
      if quiet { StillClaimed(before, tasks, index, e.result); }
      AccountGrows(sp, start, es, tasks, worlds, e, store.owner);
      more := es + [e];
    }

    /** The batch's budget ended before task |es|: everything left goes back to approved. */
    method FinishUnstarted(store: TaskStore, tasks: seq<Task>, worlds: seq<World>, index: nat, ghost es: seq<Entry>, cleanup: Io,
                           ghost sp: Sprint, ghost start: seq<Commit>, ghost quiet: bool)
      returns (ghost all: seq<Entry>)
      requires DistinctIds(tasks) && DistinctIds(store.tasks) && |worlds| == |tasks|
      requires index == |es| < |tasks| && Accounts(es, tasks, worlds, |es|) && worlds[|es|].budget.Some?
      requires Value() == After(sp, es, |es|, store.owner) && store.commits == Logged(start, es, |es|)
      requires quiet ==> AllClaimed(store.tasks, tasks, |es|) && AllRecorded(es)
      modifies this, store
      ensures DistinctIds(store.tasks)
      ensures |all| == |tasks| && Accounts(all, tasks, worlds, |es|)
      ensures Value() == After(sp, all, |all|, store.owner)
      ensures store.commits == BatchLog(start, all, tasks, worlds, index)
      ensures quiet && Calm(cleanup) ==> AllRecorded(all)
    {
      var rest, cause := tasks[index..], worlds[index].budget.value;
      if quiet { RestIsClaimed(store.tasks, tasks, index); }
      ghost var verdict := ReturnUnstarted(store, rest, cause, cleanup);
      all := FinishAccount(sp, start, es, tasks, worlds, verdict, store.owner);
    }

    /** The deferred section of a batch. */
    method Close(panicked: bool)
      modifies this
      ensures Value() == Finalize(old(Value()), panicked)
    {
      if panicked { error, kind, uncertain := INTERRUPTED, UncertainKind, true; }
      running := false;
      progress := "done";
      if error != "" { progress := "failed"; }
    }
  }

  /** Operators may have edited the store since the claim; then the result is committed. */
  method CommitOne(store: TaskStore, id: string, result: Result, w: World) returns (verdict: Option<CommitError>)
    requires DistinctIds(store.tasks) && Recordable(result)
    modifies store
    ensures DistinctIds(store.tasks)
    ensures store.commits == Record(old(store.commits), verdict.None?, id, result)
    ensures QuietWorld(w) && Holds(old(store.tasks), id, InProgress) ==>
              verdict.None? && store.tasks == Recorded(old(store.tasks), map[id := result])
  {
    store.OperatorEdits(w.edits);
    ghost var before := store.tasks;
    assert w.edits == map[] ==> store.tasks == old(store.tasks);
    verdict := store.CommitExecutionBatch(map[id := result], w.io);
    if Holds(before, id, InProgress) {
      assert map[id := result].Keys <= Ids(before);
    }
  }

  /** Classifies what the executor answered; the breaker skips it altogether. */
  method Observe(w: World) returns (result: Result, deferred: bool)
    ensures result == RunResult(w) && Recordable(result)
    ensures deferred <==> ObservedDisposition(w).DeferredWork?
  {
    var output, outcome, runId := "", "failure", "";
    var runErr: Option<Err> := None;
    if w.breakerOpen {
      output, outcome := "skipped", "deferred";
    } else {
      runErr := w.runErr;
      if w.run.Some? { output, outcome, runId := w.run.value.output, w.run.value.outcome, w.run.value.runId; }
    }
    var disposition := DispositionOf(outcome, runErr);
    if w.breakerOpen { disposition := DeferredWork; }
    if disposition == FailedWork && runErr.None? {
      if IsStoppedOutcome(outcome) {
        runErr := Some(Stopped(outcome, Plain("task stopped without completion")));
      } else {
        runErr := Some(Uncertain(Plain("unrecognized task outcome")));
      }
    }
    var status := Status.Completed;
    if disposition == DeferredWork { status := Approved; }
    if disposition == FailedWork { status := Status.Failed; }
    result := Result(status, output, outcome, runErr, KindOf(runErr), runId);
    deferred := disposition == DeferredWork;
    ResultsAreRecordable(w, Plain(""));
  }

  method UnstartedResults(tasks: seq<Task>, cause: Err) returns (results: map<string, Result>)
    ensures results == NotStartedResults(tasks, cause)
  {
    results := map[];
    for i := 0 to |tasks|
      invariant results == NotStartedResults(tasks[..i], cause)
    {
      assert tasks[..i + 1] == tasks[..i] + [tasks[i]];
      IdsSnoc(tasks[..i], tasks[i]);
      results := results[tasks[i].id := NotStarted(cause)];
    }
    assert tasks[..|tasks|] == tasks;
  }
}

/**
 The durable task pipeline (internal/dashboard/tasks.go): claiming approved work and
 recording what an execution observed. File locking and JSON are one I/O verdict.
*/
module TaskStore {
  import opened Common
  import opened ExecutionErrors
  import Sorting

  datatype Status = Pending | Approved | Rejected | InProgress | Completed | Failed | Other(name: string)
  datatype Priority = Critical | High | Medium | Low | Backlog

  function PriorityRank(p: Priority): nat {
    match p case Critical => 0 case High => 1 case Medium => 2 case Low => 3 case Backlog => 4
  }

  /** The metadata an observed run leaves behind. */
  datatype Result = Result(status: Status, output: string, outcome: string, error: Option<Err>, kind: Kind, runId: string)

  datatype Task = Task(id: string, title: string, priority: Priority, sprint: int, status: Status,
                       auditPending: bool, result: Option<Result>, completed: bool)

  datatype CommitError = InvalidResult | NotClaimed | NotFound | Unwritable(cause: Err)

  /** What the environment does to one store call: waiting for the mutex, then writing the file. */
  datatype Io = Io(wait: Option<Err>, expired: Option<Err>, persist: Option<Err>)

  predicate Recordable(r: Result) {
    && r.status in {Approved, Failed, Completed}
    && (r.status.Completed? ==> IsHealthyOutcome(r.outcome))
  }

  predicate DistinctIds(tasks: seq<Task>) {
    forall i, j | 0 <= i < j < |tasks| :: tasks[i].id != tasks[j].id
  }

  function WithResult(t: Task, r: Result): Task {
    t.(status := r.status, result := Some(r), completed := !r.status.Approved?)
  }

  function Recorded(tasks: seq<Task>, results: map<string, Result>): seq<Task> {
    seq(|tasks|, i requires 0 <= i < |tasks| =>
      if tasks[i].id in results then WithResult(tasks[i], results[tasks[i].id]) else tasks[i])
  }

  /** How many stored tasks a batch of results names. */
  function Matches(tasks: seq<Task>, results: map<string, Result>): nat {
    if tasks == [] then 0
    else Matches(tasks[..|tasks| - 1], results) + if tasks[|tasks| - 1].id in results then 1 else 0
  }

  predicate NamedAreClaimed(tasks: seq<Task>, results: map<string, Result>) {
    forall i | 0 <= i < |tasks| && tasks[i].id in results :: tasks[i].status.InProgress?
  }

  function Ids(tasks: seq<Task>): set<string> { set i | 0 <= i < |tasks| :: tasks[i].id }

  lemma IdsSnoc(front: seq<Task>, last: Task)
    ensures Ids(front + [last]) == Ids(front) + {last.id}
  {
    var all := front + [last];
    forall id | id in Ids(front) + {last.id} ensures id in Ids(all) {
      if id in Ids(front) {
        var i :| 0 <= i < |front| && front[i].id == id;
        assert all[i].id == id;
      } else {
        assert all[|front|].id == id;
      }
    }
  }

  lemma CommonGrows<T>(a: set<T>, x: T, b: set<T>)
    requires x !in a
    ensures |(a + {x}) * b| == |a * b| + if x in b then 1 else 0
  {
    if x in b {
      assert (a + {x}) * b == a * b + {x};
    } else {
      assert (a + {x}) * b == a * b;
    }
  }

  lemma {:induction false} MatchesCountsNames(tasks: seq<Task>, results: map<string, Result>)
    requires DistinctIds(tasks)
    ensures Matches(tasks, results) == |Ids(tasks) * results.Keys|
  {
    if tasks == [] {
      assert Ids(tasks) * results.Keys == {};
    } else {
      var front, last := tasks[..|tasks| - 1], tasks[|tasks| - 1];
      assert DistinctIds(front);
      MatchesCountsNames(front, results);
      assert tasks == front + [last];
      IdsSnoc(front, last);
      assert last.id !in Ids(front);
      CommonGrows(Ids(front), last.id, results.Keys);
    }
  }

  lemma SubsetBySize<T>(a: set<T>, b: set<T>)
    requires a <= b && |a| == |b|
    ensures a == b
  {
    assert |b| == |a| + |b - a| by { assert b == a + (b - a); }
    assert b - a == {};
  }

  /** With unique ids, the count check of the commit means that no named task is missing. */
  lemma CountMeansNoneMissing(tasks: seq<Task>, results: map<string, Result>)
    requires DistinctIds(tasks)
    ensures Matches(tasks, results) == |results| <==> results.Keys <= Ids(tasks)
  {
    MatchesCountsNames(tasks, results);
    assert |results| == |results.Keys|;
    var common := Ids(tasks) * results.Keys;
    if |common| == |results.Keys| {
      SubsetBySize(common, results.Keys);
    }
    if results.Keys <= Ids(tasks) {
      assert common == results.Keys;
    }
  }

  /** Without unique ids the count check is not enough: a result for a task that does not
      exist is accepted and lost. Create refuses the duplicate that would allow it. */
  lemma DuplicateIdsHideAMissingTask(t: Task, r: Result, missing: string)
    requires t.id != missing
    ensures var results := map[t.id := r, missing := r];
      Matches([t, t], results) == |results| && missing in results && missing !in Ids([t, t])
  {
    var results := map[t.id := r, missing := r];
    assert results.Keys == {t.id, missing};
    assert |results| == |results.Keys| == 2;
    assert [t, t][..1] == [t] && [t][..0] == [];
    assert Matches([t], results) == 1;
  }

  predicate Claimable(t: Task) { t.status.Approved? && !t.auditPending }

  function Claimed(tasks: seq<Task>): seq<Task> {
    seq(|tasks|, i requires 0 <= i < |tasks| =>
      if Claimable(tasks[i]) then tasks[i].(status := InProgress) else tasks[i])
  }

  function Selected(tasks: seq<Task>): (r: seq<Task>)
    ensures forall t :: t in r <==> t in tasks && Claimable(t)
  {
    if tasks == [] then []
    else
      assert tasks == tasks[..|tasks| - 1] + [tasks[|tasks| - 1]];
      Selected(tasks[..|tasks| - 1]) + if Claimable(tasks[|tasks| - 1]) then [tasks[|tasks| - 1]] else []
  }

  /** Dispatch order: priority first, then sprint. */
  predicate NotAfter(a: Task, b: Task) {
    || PriorityRank(a.priority) < PriorityRank(b.priority)
    || (a.priority == b.priority && a.sprint <= b.sprint)
  }

  function DispatchOrder(tasks: seq<Task>): seq<Task> { Sorting.Sort(tasks, NotAfter) }

  /** A claim hands out each approved, audited task once, most urgent first, and equally urgent
      ones in the order of the file. */
  lemma ClaimIsPrioritized(tasks: seq<Task>, like: Task)
    ensures multiset(DispatchOrder(Selected(tasks))) == multiset(Selected(tasks))
    ensures Sorting.SortedBy(DispatchOrder(Selected(tasks)), NotAfter)
    ensures Sorting.Ties(DispatchOrder(Selected(tasks)), like, NotAfter) == Sorting.Ties(Selected(tasks), like, NotAfter)
  {
    Sorting.SortIsStable(Selected(tasks), like, NotAfter);
    Sorting.SortIsSorted(Selected(tasks), NotAfter);
  }

  lemma {:induction false} NoneSelected(tasks: seq<Task>)
    requires forall t | t in tasks :: !Claimable(t)
    ensures Selected(tasks) == []
  {
    if tasks != [] { NoneSelected(tasks[..|tasks| - 1]); }
  }

  lemma {:induction false} DistinctBySize(tasks: seq<Task>)
    ensures |Ids(tasks)| <= |tasks|
    ensures DistinctIds(tasks) <==> |Ids(tasks)| == |tasks|
  {
    if tasks != [] {
      var front, last := tasks[..|tasks| - 1], tasks[|tasks| - 1];
      DistinctBySize(front);
      assert tasks == front + [last];
      IdsSnoc(front, last);
      if last.id in Ids(front) {
        assert Ids(tasks) == Ids(front);
        var i :| 0 <= i < |front| && front[i].id == last.id;
        assert tasks[i].id == tasks[|front|].id;
      } else {
        assert forall i | 0 <= i < |front| :: front[i].id in Ids(front);
        assert DistinctIds(tasks) <==> DistinctIds(front);
      }
    }
  }

  lemma {:induction false} SelectedKeepsDistinct(tasks: seq<Task>)
    requires DistinctIds(tasks)
    ensures DistinctIds(Selected(tasks)) && Ids(Selected(tasks)) <= Ids(tasks)
  {
    if tasks != [] {
      var front, last := tasks[..|tasks| - 1], tasks[|tasks| - 1];
      SelectedKeepsDistinct(front);
      assert tasks == front + [last];
      IdsSnoc(front, last);
      if Claimable(last) { IdsSnoc(Selected(front), last); }
    }
  }

  /** A claimed batch never names a task twice, whatever order it is dispatched in. */
  lemma ClaimedBatchIsDistinct(tasks: seq<Task>)
    requires DistinctIds(tasks)
    ensures DistinctIds(DispatchOrder(Selected(tasks)))
  {
    SelectedKeepsDistinct(tasks);
    PermutationKeepsDistinct(Selected(tasks), DispatchOrder(Selected(tasks)));
  }

  lemma SameIds(a: seq<Task>, b: seq<Task>)
    requires multiset(a) == multiset(b)
    ensures Ids(a) <= Ids(b)
  {
    forall i | 0 <= i < |a| ensures a[i].id in Ids(b) {
      assert a[i] in multiset(a);
      var j :| 0 <= j < |b| && b[j] == a[i];
    }
  }

  lemma PermutationKeepsDistinct(a: seq<Task>, b: seq<Task>)
    requires multiset(a) == multiset(b) && DistinctIds(a)
    ensures DistinctIds(b)
  {
    assert |a| == |multiset(a)| == |multiset(b)| == |b|;
    SameIds(a, b);
    SameIds(b, a);
    assert Ids(a) == Ids(b);
    DistinctBySize(a);
    DistinctBySize(b);
  }

  /** Nothing a claim has moved to in_progress can be claimed again. */
  lemma ClaimEmptiesTheQueue(tasks: seq<Task>)
    ensures Selected(Claimed(tasks)) == []
  {
    NoneSelected(Claimed(tasks));
  }

  class TaskStore {
    /** Which store this is; a sprint compares it with the owner of a retained result. */
    const owner: nat
    var tasks: seq<Task>
    /** Every batch of results ever recorded, in order. */
    ghost var commits: seq<map<string, Result>>

    constructor (owner: nat, tasks: seq<Task>)
      ensures this.owner == owner && this.tasks == tasks && commits == []
    {
      this.owner := owner;
      this.tasks := tasks;
      commits := [];
    }

    /** Create refuses a duplicate id, which keeps ids distinct. */
    method Create(t: Task, io: Io) returns (ok: bool)
      requires DistinctIds(tasks)
      modifies this
      ensures DistinctIds(tasks) && commits == old(commits)
      ensures ok <==> t.id !in Ids(old(tasks)) && io.persist.None?
      ensures tasks == if ok then old(tasks) + [t] else old(tasks)
    {
      for i := 0 to |tasks|
        invariant tasks == old(tasks)
        invariant forall j | 0 <= j < i :: tasks[j].id != t.id
        invariant commits == old(commits)
      {
        if tasks[i].id == t.id { return false; }
      }
      if io.persist.Some? { return false; }
      tasks := tasks + [t];
      ok := true;
    }

    /** The scan of a batch commit: a modified copy, and how many tasks it touched. */
    method Stage(results: map<string, Result>) returns (copy: seq<Task>, matched: nat, claimed: bool)
      ensures claimed <==> NamedAreClaimed(tasks, results)
      ensures claimed ==> copy == Recorded(tasks, results) && matched == Matches(tasks, results)
    {
      copy, matched := tasks, 0;
      var i := 0;
      while i < |copy|
        invariant 0 <= i <= |copy| == |tasks|
        invariant matched == Matches(tasks[..i], results)
        invariant forall j | 0 <= j < i && tasks[j].id in results :: tasks[j].status.InProgress?
        invariant forall j | 0 <= j < i ::
                    copy[j] == if tasks[j].id in results then WithResult(tasks[j], results[tasks[j].id]) else tasks[j]
        invariant forall j | i <= j < |copy| :: copy[j] == tasks[j]
      {
        assert tasks[..i + 1][..i] == tasks[..i];
        if copy[i].id in results {
          if !copy[i].status.InProgress? { return copy, matched, false; }
          matched := matched + 1;
          copy := copy[i := WithResult(copy[i], results[copy[i].id])];
        }
        i := i + 1;
      }
      assert tasks[..i] == tasks;
      claimed := true;
    }

    /** Records a batch of results all together or not at all; an operator decision that took
        a task out of in_progress is never overwritten. */
    method CommitExecutionBatch(results: map<string, Result>, io: Io) returns (err: Option<CommitError>)
      requires DistinctIds(tasks)
      modifies this
      ensures DistinctIds(tasks)
      ensures err.None? <==>
                && (forall id | id in results :: Recordable(results[id]))
                && io.wait.None?
                && NamedAreClaimed(old(tasks), results)
                && results.Keys <= Ids(old(tasks))
                && (if results == map[] then io.expired.None? else io.persist.None?)
      ensures err.None? ==> tasks == Recorded(old(tasks), results) && commits == old(commits) + [results]
      ensures err.Some? ==> tasks == old(tasks) && commits == old(commits)
    {
      CountMeansNoneMissing(tasks, results);
      if id :| id in results && !Recordable(results[id]) {
        return Some(InvalidResult);
      }
      if io.wait.Some? { return Some(Unwritable(io.wait.value)); }
      var copy, matched, claimed := Stage(results);
      if !claimed { return Some(NotClaimed); }
      if matched != |results| { return Some(NotFound); }
      if matched == 0 {
        assert results == map[];
        assert copy == tasks;
        if io.expired.Some? { return Some(Unwritable(io.expired.value)); }
        commits := commits + [results];
        return None;
      }
      if io.persist.Some? { return Some(Unwritable(io.persist.value)); }
      tasks := copy;
      commits := commits + [results];
      return None;
    }

    method StageClaim() returns (copy: seq<Task>, out: seq<Task>)
      ensures copy == Claimed(tasks) && out == Selected(tasks)
      ensures out == [] ==> copy == tasks
    {
      copy, out := tasks, [];
      for i := 0 to |copy|
        invariant |copy| == |tasks|
        invariant out == Selected(tasks[..i])
        invariant forall j | 0 <= j < i ::
                    copy[j] == if Claimable(tasks[j]) then tasks[j].(status := InProgress) else tasks[j]
        invariant forall j | i <= j < |copy| :: copy[j] == tasks[j]
        invariant out == [] ==> copy == tasks
      {
        assert tasks[..i + 1][..i] == tasks[..i];
        if Claimable(copy[i]) {
          out := out + [copy[i]];
          copy := copy[i := copy[i].(status := InProgress)];
        }
      }
      assert tasks[..|tasks|] == tasks;
    }

    /** Atomically moves every approved task to in_progress, or changes nothing. */
    method ClaimApproved(io: Io) returns (batch: seq<Task>, err: Option<Err>)
      requires DistinctIds(tasks)
      modifies this
      ensures DistinctIds(tasks) && commits == old(commits)
      ensures err.None? <==> io.wait.None? && (Selected(old(tasks)) == [] || io.persist.None?)
      ensures err.None? ==> batch == DispatchOrder(Selected(old(tasks))) && tasks == Claimed(old(tasks))
      ensures err.Some? ==> batch == [] && tasks == old(tasks)
    {
      batch := [];
      if io.wait.Some? { return [], io.wait; }
      var copy, out := StageClaim();
      if |out| > 0 {
        if io.persist.Some? { return [], io.persist; }
        tasks := copy;
      }
      return DispatchOrder(out), None;
    }

    /** An operator (or another handler) may change any status between two commits. */
    method OperatorEdits(edits: map<string, Status>)
      requires DistinctIds(tasks)
      modifies this
      ensures DistinctIds(tasks) && commits == old(commits)
      ensures tasks == seq(|old(tasks)|, i requires 0 <= i < |old(tasks)| =>
                if old(tasks)[i].id in edits then old(tasks)[i].(status := edits[old(tasks)[i].id]) else old(tasks)[i])
    {
      var before := tasks;
      tasks := seq(|before|, i requires 0 <= i < |before| =>
        if before[i].id in edits then before[i].(status := edits[before[i].id]) else before[i]);
    }
  }
}

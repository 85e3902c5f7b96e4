/**
 The bounded memory of sprint admissions (cmd/bt-dashboard/main.go): a client retry with a
 known Idempotency-Key is answered with the job it started, until the key has aged out.
*/
module Idempotency {
  import opened Common

  const LIMIT: nat := 1000

  datatype Idem = Idem(jobs: map<string, nat>, order: seq<string>)

  const EMPTY := Idem(map[], [])

  predicate NoDuplicates(xs: seq<string>) { forall i, j | 0 <= i < j < |xs| :: xs[i] != xs[j] }

  /** The age list names every remembered key exactly once, oldest first. */
  ghost predicate Valid(m: Idem) {
    && NoDuplicates(m.order)
    && (forall k :: k in m.order <==> k in m.jobs)
    && |m.jobs| == |m.order| <= LIMIT
  }

  /** A request without a key is never a replay. */
  function Lookup(m: Idem, key: string): Option<nat> {
    if key != "" && key in m.jobs then Some(m.jobs[key]) else None
  }

  function Evict(m: Idem): Idem
    requires m.order != []
  {
    Idem(m.jobs - {m.order[0]}, m.order[1..])
  }

  function Admit(m: Idem, key: string, job: nat): Idem
    requires |m.jobs| >= LIMIT ==> m.order != []
  {
    if key == "" then m
    else
      var m := if |m.jobs| >= LIMIT then Evict(m) else m;
      Idem(m.jobs[key := job], m.order + [key])
  }

  lemma EvictKeepsValid(m: Idem)
    requires Valid(m) && m.order != []
    ensures Valid(Evict(m))
  {
    var first := m.order[0];
    assert first in m.jobs;
    forall k ensures k in m.order[1..] <==> k in m.jobs - {first} {
      if k in m.jobs && k != first {
        var i :| 0 <= i < |m.order| && m.order[i] == k;
        assert m.order[1..][i - 1] == k;
      }
      if k in m.order[1..] {
        var i :| 0 <= i < |m.order| - 1 && m.order[i + 1] == k;
        assert m.order[i + 1] in m.order;
      }
    }
    assert (m.jobs - {first}).Keys == m.jobs.Keys - {first};
    assert |(m.jobs - {first}).Keys| == |m.jobs.Keys| - 1;
  }

  lemma InsertKeepsValid(m: Idem, key: string, job: nat)
    requires Valid(m) && |m.order| < LIMIT && key !in m.jobs
    ensures Valid(Idem(m.jobs[key := job], m.order + [key]))
  {
    var n := m.order + [key];
    forall k ensures k in n <==> k in m.jobs[key := job] {
      assert k in n <==> k in m.order || k == key;
    }
    assert m.jobs[key := job].Keys == m.jobs.Keys + {key};
  }

  /** Admission never overflows, never forgets a key it lists and never indexes an empty list. */
  lemma AdmitKeepsValid(m: Idem, key: string, job: nat)
    requires Valid(m) && Lookup(m, key).None?
    ensures |m.jobs| >= LIMIT ==> m.order != []
    ensures Valid(Admit(m, key, job))
    ensures key != "" ==> Lookup(Admit(m, key, job), key) == Some(job)
  {
    if key != "" {
      if |m.jobs| >= LIMIT {
        EvictKeepsValid(m);
        InsertKeepsValid(Evict(m), key, job);
      } else {
        InsertKeepsValid(m, key, job);
      }
    }
  }

  datatype Admission = Admission(key: string, job: nat)

  /** A run of later keyed admissions, each of a key that was not remembered at that time. */
  ghost predicate FreshRun(m: Idem, later: seq<Admission>)
    decreases |later|
  {
    Valid(m) &&
    (later != [] ==>
       && later[0].key != "" && Lookup(m, later[0].key).None?
       && (|m.jobs| >= LIMIT ==> m.order != [])
       && FreshRun(Admit(m, later[0].key, later[0].job), later[1..]))
  }

  ghost function After(m: Idem, later: seq<Admission>): Idem
    requires FreshRun(m, later)
    decreases |later|
  {
    if later == [] then m else After(Admit(m, later[0].key, later[0].job), later[1..])
  }

  lemma AdmitAgesOthers(m: Idem, a: Admission, key: string, p: nat)
    requires Valid(m) && p < |m.order| && m.order[p] == key
    requires a.key != "" && a.key != key && Lookup(m, a.key).None?
    ensures |m.jobs| >= LIMIT ==> m.order != []
    ensures var n := Admit(m, a.key, a.job);
      if |m.order| < LIMIT then
        |n.order| == |m.order| + 1 && n.order[p] == key && key in n.jobs && n.jobs[key] == m.jobs[key]
      else
        |n.order| == |m.order| &&
        if p == 0 then key !in n.jobs
        else n.order[p - 1] == key && key in n.jobs && n.jobs[key] == m.jobs[key]
  {}

  /** A remembered key that is p-th in age survives exactly p evictions. */
  lemma {:induction false} SurvivesItsElders(m: Idem, later: seq<Admission>, key: string, p: nat)
    requires FreshRun(m, later) && p < |m.order| && m.order[p] == key && key != ""
    requires forall i | 0 <= i < |later| :: later[i].key != key
    ensures key in m.jobs
    ensures Lookup(After(m, later), key) ==
              if |m.order| + |later| <= LIMIT + p then Some(m.jobs[key]) else None
    decreases |later|
  {
    assert key in m.jobs;
    if later != [] {
      var a, rest := later[0], later[1..];
      var n := Admit(m, a.key, a.job);
      AdmitAgesOthers(m, a, key, p);
      if |m.order| < LIMIT {
        SurvivesItsElders(n, rest, key, p);
      } else if p == 0 {
        StaysForgotten(n, rest, key);
      } else {
        SurvivesItsElders(n, rest, key, p - 1);
      }
    }
  }

  lemma {:induction false} StaysForgotten(m: Idem, later: seq<Admission>, key: string)
    requires FreshRun(m, later) && key !in m.jobs
    requires forall i | 0 <= i < |later| :: later[i].key != key
    ensures Lookup(After(m, later), key).None?
    decreases |later|
  {
    if later != [] {
      assert later[0].key != key;
      StaysForgotten(Admit(m, later[0].key, later[0].job), later[1..], key);
    }
  }

  /** A retry with an admitted key returns the original job exactly until a thousand later
      keyed admissions have happened. */
  lemma RetryWindow(m: Idem, key: string, job: nat, later: seq<Admission>)
    requires Valid(m) && key != "" && Lookup(m, key).None?
    requires (|m.jobs| >= LIMIT ==> m.order != []) && FreshRun(Admit(m, key, job), later)
    requires forall i | 0 <= i < |later| :: later[i].key != key
    ensures Lookup(After(Admit(m, key, job), later), key) == if |later| < LIMIT then Some(job) else None
  {
    var n := Admit(m, key, job);
    AdmitKeepsValid(m, key, job);
    SurvivesItsElders(n, later, key, |n.order| - 1);
  }

  /** The key was admitted with this job and n keyed admissions have followed: it is the n-th
      youngest, or has just aged out. */
  ghost predicate Recalls(m: Idem, key: string, job: nat, n: nat) {
    && (n < LIMIT ==> n < |m.order| && m.order[|m.order| - 1 - n] == key && key in m.jobs && m.jobs[key] == job)
    && (n == LIMIT ==> key !in m.jobs)
  }

  lemma AdmitIsRecalled(m: Idem, key: string, job: nat)
    requires Valid(m) && key != "" && Lookup(m, key).None?
    ensures |m.jobs| >= LIMIT ==> m.order != []
    ensures Recalls(Admit(m, key, job), key, job, 0)
  {
    AdmitKeepsValid(m, key, job);
  }

  lemma AdmitAgesRecall(m: Idem, key: string, job: nat, n: nat, a: Admission)
    requires Valid(m) && Recalls(m, key, job, n) && key != "" && a.key != "" && Lookup(m, a.key).None?
    ensures |m.jobs| >= LIMIT ==> m.order != []
    ensures Recalls(Admit(m, a.key, a.job), key, job, n + 1)
  {
    AdmitKeepsValid(m, a.key, a.job);
    if n < LIMIT { AdmitAgesOthers(m, a, key, |m.order| - 1 - n); }
  }

  class IdempotencyMemory {
    var jobs: map<string, nat>
    var order: seq<string>

    ghost function Value(): Idem
      reads this
    {
      Idem(jobs, order)
    }

    constructor ()
      ensures Value() == EMPTY && Valid(Value())
    {
      jobs, order := map[], [];
    }

    method Replay(key: string) returns (job: Option<nat>)
      ensures job == Lookup(Value(), key)
    {
      if key != "" && key in jobs { return Some(jobs[key]); }
      return None;
    }

    method Remember(key: string, job: nat)
      requires Valid(Value()) && Lookup(Value(), key).None?
      modifies this
      ensures Valid(Value()) && Value() == Admit(old(Value()), key, job)
    {
      AdmitKeepsValid(Value(), key, job);
      if key != "" {
        if |jobs| >= LIMIT {
          jobs := jobs - {order[0]};
          order := order[1..];
        }
        jobs := jobs[key := job];
        order := order + [key];
      }
    }
  }
}

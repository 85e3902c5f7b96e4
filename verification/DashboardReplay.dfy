/** What a client's retry is answered in a run of the dashboard protocol, and for how long. */
module DashboardReplay {
  import opened Common
  import opened DashboardProtocol
  import opened DashboardTheorems
  import opened Idempotency
  import DashboardSafety

  /** The step publishes a batch under a key. */
  ghost predicate PublishesKeyed(s: State, a: Step) {
    Enabled(s, a) && a.move.ClaimStep? && a.move.claim.PublishBatch? && At(s, a.id).key != ""
  }

  /** How many batches a run publishes under keys. */
  ghost function KeyedPublications(s: State, steps: seq<Step>): nat {
    if steps == [] then 0
    else
      var front := steps[..|steps| - 1];
      KeyedPublications(s, front) + if PublishesKeyed(Exec(s, front), steps[|steps| - 1]) then 1 else 0
  }

  /** A publication admits its key; the window kept the key unknown and the memory valid. */
  lemma PublicationAdmits(s: State, id: Id, job: nat)
    requires Inv(s) && CanClaim(s, id, PublishBatch(job))
    ensures var key := At(s, id).key;
      && Lookup(s.shared.idem, key).None? && (|s.shared.idem.jobs| >= LIMIT ==> s.shared.idem.order != [])
      && Claims(s, id, PublishBatch(job)).shared.idem == Admit(s.shared.idem, key, job)
  {
    assert LocalInv(s, id);
    AdmitKeepsValid(s.shared.idem, At(s, id).key, job);
  }

  lemma ClaimsWithoutKey(s: State, id: Id, m: ClaimMove)
    requires CanClaim(s, id, m) && (!m.PublishBatch? || At(s, id).key == "")
    ensures Claims(s, id, m).shared.idem == s.shared.idem
  {}

  lemma OthersAdmitNothing(s: State, a: Step)
    requires Enabled(s, a) && !a.move.ClaimStep?
    ensures Apply(s, a).shared.idem == s.shared.idem
  {}

  lemma StepAgesRecall(s: State, a: Step, key: string, job: nat, n: nat)
    requires Inv(s) && Recalls(s.shared.idem, key, job, n) && key != ""
    ensures Recalls(Try(s, a).shared.idem, key, job, n + if PublishesKeyed(s, a) then 1 else 0)
  {
    if PublishesKeyed(s, a) {
      PublicationAdmits(s, a.id, a.move.claim.job);
      AdmitAgesRecall(s.shared.idem, key, job, n, Admission(At(s, a.id).key, a.move.claim.job));
    } else if Enabled(s, a) {
      if a.move.ClaimStep? { ClaimsWithoutKey(s, a.id, a.move.claim); } else { OthersAdmitNothing(s, a); }
    }
  }

  lemma {:induction false} RunAgesRecall(s: State, later: seq<Step>, key: string, job: nat)
    requires Inv(s) && Recalls(s.shared.idem, key, job, 0) && key != ""
    ensures Recalls(Exec(s, later).shared.idem, key, job, KeyedPublications(s, later))
  {
    if later != [] {
      var front := later[..|later| - 1];
      RunAgesRecall(s, front, key, job);
      DashboardSafety.ReachableInv(s, front);
      StepAgesRecall(Exec(s, front), later[|later| - 1], key, job, KeyedPublications(s, front));
    }
  }

  /** After a batch was published under a key, and whatever has happened since: a retry with that
      key is answered with that batch's job as long as fewer than a thousand further batches have
      been published under keys, and with the thousandth it is new work again. */
  lemma ReplayWindow(capacity: Option<nat>, owner: nat, steps: seq<Step>, id: Id, job: nat, later: seq<Step>, retry: Id)
    requires var s := StateAfter(capacity, owner, steps); CanClaim(s, id, PublishBatch(job)) && At(s, id).key != ""
    ensures var s := StateAfter(capacity, owner, steps);
      var key, published := At(s, id).key, Claims(s, id, PublishBatch(job));
      var t, n := Exec(published, later), KeyedPublications(published, later);
      && (n < LIMIT ==> Lookup(t.shared.idem, key) == Some(job))
      && (n == LIMIT ==> Lookup(t.shared.idem, key).None?)
      && (At(t, retry).pc.Checking? && At(t, retry).key == key ==>
            && (n < LIMIT ==> CanCheck(t, retry, ReplayKey) && !CanCheck(t, retry, SeeRunning))
            && (n == LIMIT ==> !CanCheck(t, retry, ReplayKey)))
  {
    var s := StateAfter(capacity, owner, steps);
    var published := Claims(s, id, PublishBatch(job));
    RunInv(capacity, owner, steps);
    PublicationAdmits(s, id, job);
    AdmitIsRecalled(s.shared.idem, At(s, id).key, job);
    var a := Step(id, ClaimStep(PublishBatch(job)));
    assert Try(s, a) == published;
    DashboardSafety.StepKeepsInv(s, a);
    RunAgesRecall(published, later, At(s, id).key, job);
  }
}

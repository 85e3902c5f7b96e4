/**
 The handler of RestartOwner as a run of the handoff protocol: each path through Serve has its
 moves in RestartHandoff, with the same answer and the same fate of the seal.
*/
module RestartPaths {
  import opened Common
  import Errors = ExecutionErrors
  import opened RestartHandoff
  import opened RestartOwner

  function Do(s: State, id: Id, m: Move): State { Try(s, Step(id, m)) }

  function SayRun(s: State, id: Id, m: Move): State { Do(Do(s, id, m), id, Reply) }
  function SettleRun(s: State, id: Id, m: Move): State { Do(Do(Do(s, id, m), id, Finish), id, Reply) }

  /** What the handler does once its artifact has been checked. `taken` says whether a restart
      command of unknown fate reached systemd. */
  function DispatchRun(s: State, id: Id, restart: Option<Errors.Err>, taken: bool): State {
    if restart.None? then SettleRun(Do(s, id, Dispatch(true)), id, Acknowledge(true))
    else if Errors.IsUncertain(restart) then SettleRun(Do(s, id, Dispatch(taken)), id, Acknowledge(false))
    else SettleRun(s, id, RefuseDispatch)
  }

  function ServeRun(s: State, id: Id, wire: Option<string>, w: OwnerWorld, taken: bool): State {
    if wire.None? || !ValidRevision(wire.value) then SayRun(s, id, RejectMalformed)
    else if !s.enabled then SayRun(s, id, SayDisabled)
    else if !w.owns then SayRun(s, id, RejectOwner)
    else if s.running == wire.value then SayRun(s, id, SayCurrent)
    else if s.seal.Some? || s.leases != 0 || w.busy then SayRun(s, id, SayBusy)
    else
      var held := Do(s, id, TakeSeal(true));
      if !w.artifactMatches then SettleRun(held, id, RejectArtifact)
      else DispatchRun(Do(held, id, PassArtifact), id, w.restart, taken)
  }

  /** The handler has answered, and this is what it left. */
  predicate Left(t: State, id: Id, r: Response, seal: Option<Id>, pending: set<Id>, s: State) {
    && CallOf(t, id).handler.Closed? && CallOf(t, id).reply == Some(r)
    && t.seal == seal && t.pending == pending && t.leases == s.leases && t.leaked == s.leaked && t.exited == s.exited
  }

  predicate Refuses(m: Move) { m.RejectMalformed? || m.SayDisabled? || m.RejectOwner? || m.SayCurrent? || m.SayBusy? }

  lemma SayRunLeaves(s: State, id: Id, m: Move)
    requires !s.exited && Refuses(m) && Enabled(s, id, m)
    ensures var r := CallOf(Apply(s, id, m), id).handler.response;
      Left(SayRun(s, id, m), id, r, s.seal, s.pending, s)
  {
    var a := Do(s, id, m);
    assert CallOf(a, id).handler.Answering? && Enabled(a, id, Reply);
  }

  predicate Settles(m: Move) { m.RejectArtifact? || m.RefuseDispatch? || m.Acknowledge? }

  lemma SettleRunLeaves(s: State, id: Id, m: Move)
    requires !s.exited && Settles(m) && Enabled(s, id, m)
    ensures var h := CallOf(Apply(s, id, m), id).handler;
      Left(SettleRun(s, id, m), id, Response(CallOf(s, id).revision, h.status), if h.keep then s.seal else None, s.pending, s)
  {
    var a := Do(s, id, m);
    assert CallOf(a, id).handler.Settling? && CallOf(a, id).revision == CallOf(s, id).revision && a.seal == s.seal;
    var b := Do(a, id, Finish);
    assert CallOf(b, id).handler.Answering? && Enabled(b, id, Reply);
  }

  lemma DispatchRunLeaves(s: State, id: Id, restart: Option<Errors.Err>, taken: bool)
    requires !s.exited && CallOf(s, id).handler.Verified?
    ensures var known := restart.Some? && !Errors.IsUncertain(restart);
      Left(DispatchRun(s, id, restart, taken), id,
           Response(CallOf(s, id).revision, if restart.None? then Accepted else if known then Rejected else Unknown),
           if known then None else s.seal,
           if restart.None? || (!known && taken) then s.pending + {id} else s.pending, s)
  {
    if restart.None? {
      var d := Do(s, id, Dispatch(true));
      assert CallOf(d, id).handler.Dispatching? && id in d.pending && CallOf(d, id).revision == CallOf(s, id).revision;
      SettleRunLeaves(d, id, Acknowledge(true));
    } else if Errors.IsUncertain(restart) {
      var d := Do(s, id, Dispatch(taken));
      assert CallOf(d, id).handler.Dispatching? && CallOf(d, id).revision == CallOf(s, id).revision;
      SettleRunLeaves(d, id, Acknowledge(false));
    } else {
      SettleRunLeaves(s, id, RefuseDispatch);
    }
  }

  lemma SealedRunLeaves(s: State, id: Id, w: OwnerWorld, taken: bool)
    requires !s.exited && s.seal.None? && s.leases == 0 && !w.busy && w.owns
    requires Wants(s, CallOf(s, id).handler) && CallOf(s, id).handler.wire == Some(CallOf(s, id).revision)
    requires s.running != CallOf(s, id).revision
    ensures var wire := CallOf(s, id).handler.wire;
      var r := Answer(s.enabled, s.running, false, 0, wire, w);
      Left(ServeRun(s, id, wire, w, taken), id, r,
           if r.status.Accepted? || r.status.Unknown? then Some(id) else None,
           if r.status.Accepted? || (r.status.Unknown? && taken) then s.pending + {id} else s.pending, s)
  {
    var c := CallOf(s, id);
    var held := Do(s, id, TakeSeal(true));
    assert CallOf(held, id) == c.(handler := Holding) && held.seal == Some(id);
    if w.artifactMatches {
      var checked := Do(held, id, PassArtifact);
      assert CallOf(checked, id) == c.(handler := Verified) && checked.seal == Some(id);
      DispatchRunLeaves(checked, id, w.restart, taken);
    } else {
      SettleRunLeaves(held, id, RejectArtifact);
    }
  }

  /** Taken without interruption, the protocol's moves of one handler answer what Owner.Serve
      answers, and leave the gate as it does: sealed by this request exactly if the restart was
      accepted or its fate is unknown, and otherwise as it was. */
  lemma ServeRunAgrees(s: State, id: Id, w: OwnerWorld, taken: bool)
    requires !s.exited && Good(ViewOf(s, id)) && CallOf(s, id).handler.Reading?
    ensures var wire := CallOf(s, id).handler.wire;
      var r := Answer(s.enabled, s.running, s.seal.Some?, s.leases, wire, w);
      Left(ServeRun(s, id, wire, w, taken), id, r,
           if r.status.Accepted? || r.status.Unknown? then Some(id) else s.seal,
           if r.status.Accepted? || (r.status.Unknown? && taken) then s.pending + {id} else s.pending, s)
  {
    var wire := CallOf(s, id).handler.wire;
    if wire.None? || !ValidRevision(wire.value) { SayRunLeaves(s, id, RejectMalformed); }
    else if !s.enabled { SayRunLeaves(s, id, SayDisabled); }
    else if !w.owns { SayRunLeaves(s, id, RejectOwner); }
    else if s.running == wire.value { SayRunLeaves(s, id, SayCurrent); }
    else if s.seal.Some? || s.leases != 0 || w.busy { SayRunLeaves(s, id, SayBusy); }
    else { SealedRunLeaves(s, id, w, taken); }
  }
}

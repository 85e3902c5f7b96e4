/**
 The target's side of one restart request as it runs, around the admission gate it shares with
 the process's own work (internal/agent/restart_control.go).
*/
module RestartOwner {
  import opened Admission
  import opened Common
  import Errors = ExecutionErrors
  import opened RestartHandoff

  /** What the handler meets: the owner check, the process's own diagnostics, the artifact
      probe, and the restart command. A command that never started is a plain error. */
  datatype OwnerWorld = OwnerWorld(owns: bool, busy: bool, artifactMatches: bool, restart: Option<Errors.Err>)

  /** The one answer to a request, in the order of the handler's checks. */
  function Answer(enabled: bool, running: string, sealed: bool, active: nat, wire: Option<string>, w: OwnerWorld): Response {
    if wire.None? || !ValidRevision(wire.value) then Response("", Rejected)
    else
      var revision := wire.value;
      if !enabled then Response(revision, Disabled)
      else if !w.owns then Response(revision, OwnerRejected)
      else if running == revision then Response(revision, Current)
      else if sealed || active != 0 || w.busy then Response(revision, Busy)
      else if !w.artifactMatches then Response(revision, ArtifactRejected)
      else if w.restart.None? then Response(revision, Accepted)
      else Response(revision, if Errors.IsUncertain(w.restart) then Unknown else Rejected)
  }

  class Owner {
    const enabled: bool
    const running: string
    const gate: AdmissionGate
    /** The revisions this process asked systemd to adopt. */
    ghost var dispatched: seq<string>

    constructor (enabled: bool, running: string, gate: AdmissionGate)
      ensures this.enabled == enabled && this.running == running && this.gate == gate && dispatched == []
    {
      this.enabled, this.running, this.gate := enabled, running, gate;
      dispatched := [];
    }

    /** Nothing is dispatched but by a handler that sealed an idle gate; the seal survives it
        exactly when the restart was accepted or its fate is unknown, and the status says so. */
    method Serve(wire: Option<string>, w: OwnerWorld) returns (r: Response)
      modifies this`dispatched, gate`sealed
      ensures r == Answer(enabled, running, old(gate.sealed), gate.active, wire, w)
      ensures gate.sealed != old(gate.sealed) || dispatched != old(dispatched) ==>
                r.revision != "" && enabled && w.owns && r.revision != running && !old(gate.sealed) && gate.active == 0
      ensures dispatched == old(dispatched) || dispatched == old(dispatched) + [r.revision]
      ensures gate.sealed && !old(gate.sealed) <==> r.status.Accepted? || r.status.Unknown?
      ensures r.status.Accepted? <==> dispatched != old(dispatched) && w.restart.None?
      ensures r.status.Unknown? <==> dispatched != old(dispatched) && Errors.IsUncertain(w.restart)
      ensures r.status.Current? ==> r.revision == running
      ensures old(gate.sealed) ==> gate.sealed && r.status !in {Accepted, Unknown, ArtifactRejected}
    {
      r := Response("", Rejected);
      if wire.None? || !ValidRevision(wire.value) { return; }
      var revision := wire.value;
      if !enabled { return Response(revision, Disabled); }
      if !w.owns { return Response(revision, OwnerRejected); }
      if running == revision { return Response(revision, Current); }
      var finish := gate.BeginRestart(w.busy);
      if finish == null { return Response(revision, Busy); }
      if !w.artifactMatches {
        finish.Finish(false);
        return Response(revision, ArtifactRejected);
      }
      dispatched := dispatched + [revision];
      var keep := w.restart.None? || Errors.IsUncertain(w.restart);
      finish.Finish(keep);
      return Response(revision, if w.restart.None? then Accepted else if keep then Unknown else Rejected);
    }
  }
}

/**
 Restarting a sibling through its owner (internal/agent/restart_control.go): any number of
 requests over a channel that may lose anything at any step, their handlers in the target
 process, and the admission gate they share with its work.
*/
module RestartHandoff {
  import opened Common

  type Id = nat

  predicate IsLowerHex(c: char) { '0' <= c <= '9' || 'a' <= c <= 'f' }

  predicate ValidRevision(r: string) {
    (|r| == 40 || |r| == 64) && forall i | 0 <= i < |r| :: IsLowerHex(r[i])
  }

  datatype Status = Accepted | Current | Busy | Disabled | Rejected | ArtifactRejected | OwnerRejected | Unknown

  datatype Response = Response(revision: string, status: Status)

  /** What RequestOwnedRestart returns: nil, a deferral, an uncertain error, or a plain error
      from before anything was sent. */
  datatype Verdict = Success | Deferred | Uncertain | Unsent

  datatype Client = Idle | Waiting | Answered(verdict: Verdict)

  /** Where the target's handler of one connection stands. */
  datatype Handler =
    | NoHandler
    | Reading(wire: Option<string>)                // the decoded revision, or a malformed request
    | Holding | Verified | Dispatching             // sealed; artifact checked; systemctl started
    | Settling(keep: bool, status: Status)         // about to run finish(keep)
    | Answering(response: Response) | Closed

  datatype Call = Call(revision: string, client: Client, request: Option<Option<string>>, handler: Handler, reply: Option<Response>)

  const NO_CALL := Call("", Idle, None, NoHandler, None)

  /** The target process: its configuration, its gate with the leases of its own work, the
      restarts systemd may carry out, and the seals whose owner never got a finish callback. */
  datatype State = State(enabled: bool, running: string, leases: nat, seal: Option<Id>, pending: set<Id>, leaked: set<Id>,
                         exited: bool, calls: map<Id, Call>)

  function CallOf(s: State, id: Id): Call { if id in s.calls then s.calls[id] else NO_CALL }

  function VerdictOf(revision: string, r: Response): Verdict {
    if r.revision != revision then Uncertain
    else match r.status
      case Accepted => Success
      case Current => Success
      case Unknown => Uncertain
      case _ => Deferred
  }

  datatype Move =
    // the requesting process
    | FailEarly(revision: string) | Send(revision: string) | SendBreaks(revision: string, delivered: Option<Option<string>>)
    | GiveUp | Receive
    // the channel
    | LoseRequest | LoseReply
    // the target's handler
    | Accept | RejectMalformed | SayDisabled | RejectOwner | SayCurrent | SayBusy | TakeSeal(hasFinish: bool)
    | RejectArtifact | PassArtifact | RefuseDispatch | Dispatch(taken: bool) | Acknowledge(ok: bool) | Panic
    | Finish | Reply
    // the target's own work, and its end
    | TakeLease | ReturnLease | Exit

  /** A broken send may have delivered nothing, part of the request, or all of it. */
  predicate Delivers(revision: string, delivered: Option<Option<string>>) {
    delivered in {None, Some(None), Some(Some(revision))}
  }

  predicate Wants(s: State, h: Handler) { h.Reading? && h.wire.Some? && ValidRevision(h.wire.value) && s.enabled }

  predicate Enabled(s: State, id: Id, m: Move) {
    var c := CallOf(s, id);
    match m
    case FailEarly(r) => c.client.Idle?
    case Send(r) => c.client.Idle? && ValidRevision(r)
    case SendBreaks(r, d) => c.client.Idle? && ValidRevision(r) && Delivers(r, d)
    case GiveUp => c.client.Waiting?
    case Receive => c.client.Waiting? && c.reply.Some?
    case LoseRequest => c.request.Some?
    case LoseReply => c.reply.Some?
    case TakeLease => !s.exited && s.seal.None?
    case ReturnLease => s.leases > 0
    case Exit => !s.exited
    case Accept => !s.exited && c.handler.NoHandler? && c.request.Some?
    case RejectMalformed =>
      !s.exited && c.handler.Reading? && (c.handler.wire.None? || !ValidRevision(c.handler.wire.value))
    case SayDisabled =>
      !s.exited && c.handler.Reading? && c.handler.wire.Some? && ValidRevision(c.handler.wire.value) && !s.enabled
    case RejectOwner => !s.exited && Wants(s, c.handler)
    case SayCurrent => !s.exited && Wants(s, c.handler) && s.running == c.handler.wire.value
    case SayBusy => !s.exited && Wants(s, c.handler) && s.running != c.handler.wire.value
    case TakeSeal(_) =>
      !s.exited && Wants(s, c.handler) && s.running != c.handler.wire.value && s.seal.None? && s.leases == 0
    case RejectArtifact => !s.exited && c.handler.Holding?
    case PassArtifact => !s.exited && c.handler.Holding?
    case RefuseDispatch => !s.exited && c.handler.Verified?
    case Dispatch(_) => !s.exited && c.handler.Verified?
    case Acknowledge(ok) => !s.exited && c.handler.Dispatching? && (ok ==> id in s.pending)
    case Panic => !s.exited && (c.handler.Holding? || c.handler.Verified? || c.handler.Dispatching?)
    case Finish => !s.exited && c.handler.Settling?
    case Reply => !s.exited && c.handler.Answering?
  }

  function Put(s: State, id: Id, c: Call): State {
    State(s.enabled, s.running, s.leases, s.seal, s.pending, s.leaked, s.exited, s.calls[id := c])
  }

  function Turn(s: State, id: Id, h: Handler): State {
    var c := CallOf(s, id);
    Put(s, id, Call(c.revision, c.client, c.request, h, c.reply))
  }

  function Say(s: State, id: Id, revision: string, status: Status): State { Turn(s, id, Answering(Response(revision, status))) }

  function Seals(s: State, seal: Option<Id>, leaked: set<Id>): State {
    State(s.enabled, s.running, s.leases, seal, s.pending, leaked, s.exited, s.calls)
  }

  function Apply(s: State, id: Id, m: Move): State
    requires Enabled(s, id, m)
  {
    var c := CallOf(s, id);
    match m
    case FailEarly(r) => Put(s, id, Call(r, Answered(Unsent), c.request, c.handler, c.reply))
    case Send(r) => Put(s, id, Call(r, Waiting, Some(Some(r)), c.handler, c.reply))
    case SendBreaks(r, d) => Put(s, id, Call(r, Answered(Uncertain), d, c.handler, c.reply))
    case GiveUp => Put(s, id, Call(c.revision, Answered(Uncertain), c.request, c.handler, c.reply))
    case Receive => Put(s, id, Call(c.revision, Answered(VerdictOf(c.revision, c.reply.value)), c.request, c.handler, None))
    case LoseRequest => Put(s, id, Call(c.revision, c.client, None, c.handler, c.reply))
    case LoseReply => Put(s, id, Call(c.revision, c.client, c.request, c.handler, None))
    case TakeLease => State(s.enabled, s.running, s.leases + 1, s.seal, s.pending, s.leaked, s.exited, s.calls)
    case ReturnLease => State(s.enabled, s.running, s.leases - 1, s.seal, s.pending, s.leaked, s.exited, s.calls)
    case Exit => State(s.enabled, s.running, s.leases, s.seal, s.pending, s.leaked, true, s.calls)
    case Accept => Put(s, id, Call(c.revision, c.client, None, Reading(c.request.value), c.reply))
    case RejectMalformed => Say(s, id, "", Rejected)
    case SayDisabled => Say(s, id, c.handler.wire.value, Disabled)
    case RejectOwner => Say(s, id, c.handler.wire.value, OwnerRejected)
    case SayCurrent => Say(s, id, c.handler.wire.value, Current)
    case SayBusy => Say(s, id, c.handler.wire.value, Busy)
    case TakeSeal(hasFinish) =>
      if hasFinish then Turn(Seals(s, Some(id), s.leaked), id, Holding)
      else Say(Seals(s, Some(id), s.leaked + {id}), id, c.handler.wire.value, Rejected)
    case RejectArtifact => Turn(s, id, Settling(false, ArtifactRejected))
    case PassArtifact => Turn(s, id, Verified)
    case RefuseDispatch => Turn(s, id, Settling(false, Rejected))
    case Dispatch(taken) =>
      Turn(State(s.enabled, s.running, s.leases, s.seal, if taken then s.pending + {id} else s.pending, s.leaked, s.exited, s.calls),
           id, Dispatching)
    case Acknowledge(ok) => Turn(s, id, Settling(true, if ok then Accepted else Unknown))
    case Panic => Turn(s, id, Settling(true, Unknown))
    case Finish => Say(if c.handler.keep then s else Seals(s, None, s.leaked), id, c.revision, c.handler.status)
    case Reply => Put(s, id, Call(c.revision, c.client, c.request, Closed, Some(c.handler.response)))
  }

  datatype Step = Step(id: Id, move: Move)

  function Try(s: State, a: Step): State { if Enabled(s, a.id, a.move) then Apply(s, a.id, a.move) else s }

  function Run(s: State, steps: seq<Step>): State {
    if steps == [] then s else Try(Run(s, steps[..|steps| - 1]), steps[|steps| - 1])
  }

  function Initial(enabled: bool, running: string): State { State(enabled, running, 0, None, {}, {}, false, map[]) }

  // ---- the invariant --------------------------------------------------------------------

  /** One request, and what the target process holds on its behalf. */
  datatype View = View(call: Call, sealed: bool, pending: bool, leaked: bool, current: bool)

  function ViewOf(s: State, id: Id): View {
    View(CallOf(s, id), s.seal == Some(id), id in s.pending, id in s.leaked, s.running == CallOf(s, id).revision)
  }

  /** What an answer says is true of the target, and stays true. */
  predicate Truthful(v: View, r: Response) {
    && (r.revision == v.call.revision || (r.revision == "" && r.status.Rejected?))
    && match r.status
       case Accepted => v.pending && v.sealed && !v.leaked
       case Current => !v.pending && !v.sealed && !v.leaked && v.current
       case Unknown => v.sealed && !v.leaked
       case _ => !v.pending && (v.sealed <==> v.leaked)
  }

  predicate SentRight(v: View, wire: Option<string>) { wire.Some? ==> wire.value == v.call.revision }

  predicate Good(v: View) {
    var c := v.call;
    && (c.client.Idle? || (c.client.Answered? && c.client.verdict.Unsent?) ==>
          c.request.None? && c.handler.NoHandler? && c.reply.None?)
    && (!c.client.Idle? && c.client != Answered(Unsent) ==> ValidRevision(c.revision))
    && (c.request.Some? ==> SentRight(v, c.request.value) && c.handler.NoHandler?)
    && (match c.handler
        case NoHandler => !v.sealed && !v.pending && !v.leaked && c.reply.None?
        case Reading(wire) => !v.sealed && !v.pending && !v.leaked && c.reply.None? && SentRight(v, wire)
        case Holding => v.sealed && !v.pending && !v.leaked && c.reply.None?
        case Verified => v.sealed && !v.pending && !v.leaked && c.reply.None?
        case Dispatching => v.sealed && !v.leaked && c.reply.None?
        case Settling(keep, status) =>
          && v.sealed && !v.leaked && c.reply.None?
          && (if keep then status.Unknown? || (status.Accepted? && v.pending)
              else !v.pending && (status.Rejected? || status.ArtifactRejected?))
        case Answering(r) => c.reply.None? && Truthful(v, r)
        case Closed => (v.pending ==> v.sealed) && (v.leaked ==> v.sealed && !v.pending))
    && (c.reply.Some? ==> Truthful(v, c.reply.value))
    && (c.client.Answered? ==>
          match c.client.verdict
          case Success => (v.pending && v.sealed && !v.leaked) || (v.current && !v.pending && !v.sealed)
          case Deferred => !v.pending && (v.sealed <==> v.leaked) && c.handler.Closed?
          case _ => true)
    && (c.client == Answered(Success) ==> c.handler.Closed?)
  }

  predicate GlobalInv(s: State) { (s.seal.Some? && !s.exited ==> s.leases == 0) && (s.leases > 0 ==> s.seal.None?) }

  ghost predicate Inv(s: State) { GlobalInv(s) && forall id: Id :: Good(ViewOf(s, id)) }

  /** The moves by what they are about. */
  datatype Group = AtSending | AtReceiving | AtArriving | AtRefusing | AtSealing | AtChecking | AtDispatching | AtWorking | AtReplying

  function GroupOf(m: Move): Group {
    if m.FailEarly? || m.Send? || m.SendBreaks? || m.GiveUp? then AtSending
    else if m.Receive? || m.LoseReply? then AtReceiving
    else if m.LoseRequest? || m.Accept? then AtArriving
    else if m.RejectMalformed? || m.SayDisabled? || m.RejectOwner? || m.SayCurrent? || m.SayBusy? then AtRefusing
    else if m.TakeSeal? || m.Finish? then AtSealing
    else if m.RejectArtifact? || m.PassArtifact? || m.RefuseDispatch? then AtChecking
    else if m.Dispatch? || m.Acknowledge? || m.Panic? then AtDispatching
    else if m.TakeLease? || m.ReturnLease? || m.Exit? then AtWorking
    else AtReplying
  }

  /** The requesting process, before an answer. */
  lemma SendingKeeps(s: State, id: Id, m: Move)
    requires GlobalInv(s) && Good(ViewOf(s, id)) && Enabled(s, id, m) && GroupOf(m).AtSending?
    ensures Good(ViewOf(Apply(s, id, m), id)) && GlobalInv(Apply(s, id, m))
  {}

  /** The answer arrives or is lost. */
  lemma ReceivingKeeps(s: State, id: Id, m: Move)
    requires GlobalInv(s) && Good(ViewOf(s, id)) && Enabled(s, id, m) && GroupOf(m).AtReceiving?
    ensures Good(ViewOf(Apply(s, id, m), id)) && GlobalInv(Apply(s, id, m))
  {}

  /** The request arrives or is lost. */
  lemma ArrivingKeeps(s: State, id: Id, m: Move)
    requires GlobalInv(s) && Good(ViewOf(s, id)) && Enabled(s, id, m) && GroupOf(m).AtArriving?
    ensures Good(ViewOf(Apply(s, id, m), id)) && GlobalInv(Apply(s, id, m))
  {}

  /** Answers from before the gate. */
  lemma RefusingKeeps(s: State, id: Id, m: Move)
    requires GlobalInv(s) && Good(ViewOf(s, id)) && Enabled(s, id, m) && GroupOf(m).AtRefusing?
    ensures Good(ViewOf(Apply(s, id, m), id)) && GlobalInv(Apply(s, id, m))
  {}

  /** The gate is sealed and reopened. */
  lemma SealingKeeps(s: State, id: Id, m: Move)
    requires GlobalInv(s) && Good(ViewOf(s, id)) && Enabled(s, id, m) && GroupOf(m).AtSealing?
    ensures Good(ViewOf(Apply(s, id, m), id)) && GlobalInv(Apply(s, id, m))
  {}

  /** The artifact is checked under the seal. */
  lemma CheckingKeeps(s: State, id: Id, m: Move)
    requires GlobalInv(s) && Good(ViewOf(s, id)) && Enabled(s, id, m) && GroupOf(m).AtChecking?
    ensures Good(ViewOf(Apply(s, id, m), id)) && GlobalInv(Apply(s, id, m))
  {}

  /** The restart is handed to systemd. */
  lemma DispatchingKeeps(s: State, id: Id, m: Move)
    requires GlobalInv(s) && Good(ViewOf(s, id)) && Enabled(s, id, m) && GroupOf(m).AtDispatching?
    ensures Good(ViewOf(Apply(s, id, m), id)) && GlobalInv(Apply(s, id, m))
  {}

  /** The target's own work, and its end. */
  lemma WorkingKeeps(s: State, id: Id, m: Move)
    requires GlobalInv(s) && Good(ViewOf(s, id)) && Enabled(s, id, m) && GroupOf(m).AtWorking?
    ensures Good(ViewOf(Apply(s, id, m), id)) && GlobalInv(Apply(s, id, m))
  {}

  lemma ReplyingKeeps(s: State, id: Id, m: Move)
    requires GlobalInv(s) && Good(ViewOf(s, id)) && Enabled(s, id, m) && GroupOf(m).AtReplying?
    ensures Good(ViewOf(Apply(s, id, m), id)) && GlobalInv(Apply(s, id, m))
  {}

  lemma SelfKept(s: State, id: Id, m: Move)
    requires GlobalInv(s) && Good(ViewOf(s, id)) && Enabled(s, id, m)
    ensures Good(ViewOf(Apply(s, id, m), id)) && GlobalInv(Apply(s, id, m))
  {
    match GroupOf(m)
    case AtSending => SendingKeeps(s, id, m);
    case AtReceiving => ReceivingKeeps(s, id, m);
    case AtArriving => ArrivingKeeps(s, id, m);
    case AtRefusing => RefusingKeeps(s, id, m);
    case AtSealing => SealingKeeps(s, id, m);
    case AtChecking => CheckingKeeps(s, id, m);
    case AtDispatching => DispatchingKeeps(s, id, m);
    case AtWorking => WorkingKeeps(s, id, m);
    case AtReplying => ReplyingKeeps(s, id, m);
  }

  predicate TouchesGate(m: Move) { m.TakeSeal? || m.Finish? || m.Dispatch? }

  lemma GateMovesKeepOthers(s: State, id: Id, m: Move, j: Id)
    requires Good(ViewOf(s, id)) && Good(ViewOf(s, j)) && Enabled(s, id, m) && j != id && TouchesGate(m)
    ensures ViewOf(Apply(s, id, m), j) == ViewOf(s, j)
  {}

  lemma PlainMovesKeepOthers(s: State, id: Id, m: Move, j: Id)
    requires Enabled(s, id, m) && j != id && !TouchesGate(m)
    ensures ViewOf(Apply(s, id, m), j) == ViewOf(s, j)
  {}

  lemma OthersKept(s: State, id: Id, m: Move, j: Id)
    requires GlobalInv(s) && Good(ViewOf(s, id)) && Good(ViewOf(s, j)) && Enabled(s, id, m) && j != id
    ensures ViewOf(Apply(s, id, m), j) == ViewOf(s, j)
  {
    if TouchesGate(m) { GateMovesKeepOthers(s, id, m, j); } else { PlainMovesKeepOthers(s, id, m, j); }
  }

  lemma StepKeepsInv(s: State, a: Step)
    requires Inv(s)
    ensures Inv(Try(s, a))
  {
    if Enabled(s, a.id, a.move) {
      assert Good(ViewOf(s, a.id));
      SelfKept(s, a.id, a.move);
      forall j: Id ensures Good(ViewOf(Apply(s, a.id, a.move), j)) {
        if j != a.id {
          assert Good(ViewOf(s, j));
          OthersKept(s, a.id, a.move, j);
        }
      }
    }
  }

  lemma {:induction false} ReachableInv(enabled: bool, running: string, steps: seq<Step>)
    ensures Inv(Run(Initial(enabled, running), steps))
  {
    if steps != [] {
      ReachableInv(enabled, running, steps[..|steps| - 1]);
      StepKeepsInv(Run(Initial(enabled, running), steps[..|steps| - 1]), steps[|steps| - 1]);
    }
  }

  // ---- verdicts ----------------------------------------------------------------------------

  /** The seal this request took was reopened, or it never took one; no restart is pending from it. */
  predicate Undone(s: State, id: Id) { id !in s.pending && s.seal != Some(id) }

  /** Whatever is lost at whatever step: an unsent request reached nobody; a success means a
      restart that systemd accepted, with admission still sealed for it, or a target that
      already runs the revision; a deferral means nothing pending and, unless the owner's gate
      sealed without handing out a finish callback, no seal. Everything else is uncertain. */
  lemma VerdictsAreSound(enabled: bool, running: string, steps: seq<Step>, id: Id)
    requires CallOf(Run(Initial(enabled, running), steps), id).client.Answered?
    ensures var s := Run(Initial(enabled, running), steps);
      var c := CallOf(s, id);
      match c.client.verdict
      case Unsent => c.handler.NoHandler? && c.request.None? && Undone(s, id)
      case Success => (id in s.pending && s.seal == Some(id)) || (s.running == c.revision && Undone(s, id))
      case Deferred => id !in s.pending && (Undone(s, id) <==> id !in s.leaked)
      case Uncertain => true
  {
    ReachableInv(enabled, running, steps);
    assert Good(ViewOf(Run(Initial(enabled, running), steps), id));
  }

  lemma SettledSelf(s: State, id: Id, m: Move)
    requires Good(ViewOf(s, id)) && Enabled(s, id, m)
    requires CallOf(s, id).client in {Answered(Deferred), Answered(Success), Answered(Unsent)}
    ensures var t := Apply(s, id, m);
      && CallOf(t, id).client == CallOf(s, id).client
      && (id in t.pending <==> id in s.pending) && (t.seal == Some(id) <==> s.seal == Some(id))
  {}

  lemma SettledStep(s: State, a: Step, id: Id)
    requires Inv(s) && CallOf(s, id).client in {Answered(Deferred), Answered(Success), Answered(Unsent)}
    ensures var t := Try(s, a);
      && CallOf(t, id).client == CallOf(s, id).client
      && (id in t.pending <==> id in s.pending) && (t.seal == Some(id) <==> s.seal == Some(id))
  {
    assert Good(ViewOf(s, id)) && Good(ViewOf(s, a.id));
    if Enabled(s, a.id, a.move) {
      if a.id == id { SettledSelf(s, id, a.move); } else { OthersKept(s, a.id, a.move, id); }
    }
  }

  /** A verdict that is not uncertain is final: no later step by anybody seals, reopens or
      dispatches on behalf of that request. */
  lemma {:induction false} SettledVerdictsStay(enabled: bool, running: string, steps: seq<Step>, later: seq<Step>, id: Id)
    requires CallOf(Run(Initial(enabled, running), steps), id).client in
               {Answered(Deferred), Answered(Success), Answered(Unsent)}
    ensures var s := Run(Initial(enabled, running), steps);
      var t := Run(s, later);
      && Inv(t) && CallOf(t, id).client == CallOf(s, id).client
      && (id in t.pending <==> id in s.pending) && (t.seal == Some(id) <==> s.seal == Some(id))
  {
    ReachableInv(enabled, running, steps);
    if later != [] {
      var s := Run(Initial(enabled, running), steps);
      SettledVerdictsStay(enabled, running, steps, later[..|later| - 1], id);
      StepKeepsInv(Run(s, later[..|later| - 1]), later[|later| - 1]);
      SettledStep(Run(s, later[..|later| - 1]), later[|later| - 1], id);
    }
  }

  /** At most one restart is ever pending, and while one is, admission is sealed by the request
      that caused it and none of the target's own work holds a lease. */
  lemma PendingRestartsAreExclusive(enabled: bool, running: string, steps: seq<Step>, i: Id, j: Id)
    requires var s := Run(Initial(enabled, running), steps); i in s.pending
    ensures var s := Run(Initial(enabled, running), steps);
      && s.seal == Some(i) && s.leases == 0
      && (j in s.pending ==> i == j)
  {
    ReachableInv(enabled, running, steps);
    var s := Run(Initial(enabled, running), steps);
    assert Good(ViewOf(s, i)) && Good(ViewOf(s, j));
  }

  predicate GivesFinish(a: Step) { a.move != TakeSeal(false) }

  lemma {:induction false} NothingLeaks(s: State, steps: seq<Step>)
    requires s.leaked == {} && forall i | 0 <= i < |steps| :: GivesFinish(steps[i])
    ensures Run(s, steps).leaked == {}
  {
    if steps != [] {
      NothingLeaks(s, steps[..|steps| - 1]);
      assert GivesFinish(steps[|steps| - 1]);
    }
  }

  /** With a gate that keeps its contract, a deferral always means the seal was reopened. */
  lemma DeferralMeansUndone(enabled: bool, running: string, steps: seq<Step>, id: Id)
    requires forall i | 0 <= i < |steps| :: GivesFinish(steps[i])
    requires CallOf(Run(Initial(enabled, running), steps), id).client == Answered(Deferred)
    ensures Undone(Run(Initial(enabled, running), steps), id)
  {
    NothingLeaks(Initial(enabled, running), steps);
    VerdictsAreSound(enabled, running, steps, id);
  }

  lemma RunSnoc(s: State, steps: seq<Step>, a: Step)
    ensures Run(s, steps + [a]) == Try(Run(s, steps), a)
  {
    assert (steps + [a])[..|steps|] == steps;
  }

  /** A request meets a gate that seals without a finish callback. */
  function Leak(revision: string): seq<Step> {
    [Step(0, Send(revision))] + [Step(0, Accept)] + [Step(0, TakeSeal(false))] + [Step(0, Reply)] + [Step(0, Receive)]
  }

  /** Without it, a caller can be told "deferred" while admission stays closed for good. */
  lemma DeferralCanHideASeal(running: string, revision: string)
    requires ValidRevision(revision) && running != revision
    ensures var s := Run(Initial(true, running), Leak(revision));
      CallOf(s, 0).client == Answered(Deferred) && s.seal == Some(0)
  {
    var s := Initial(true, running);
    var front := [Step(0, Send(revision))] + [Step(0, Accept)] + [Step(0, TakeSeal(false))];
    LeakTakesTheSeal(running, revision, front);
    RunSnoc(s, front, Step(0, Reply));
    RunSnoc(s, front + [Step(0, Reply)], Step(0, Receive));
  }

  lemma LeakTakesTheSeal(running: string, revision: string, front: seq<Step>)
    requires ValidRevision(revision) && running != revision
    requires front == [Step(0, Send(revision))] + [Step(0, Accept)] + [Step(0, TakeSeal(false))]
    ensures var s := Run(Initial(true, running), front);
      !s.exited && s.seal == Some(0) &&
      CallOf(s, 0) == Call(revision, Waiting, None, Answering(Response(revision, Rejected)), None)
  {
    var s := Initial(true, running);
    assert [] + [Step(0, Send(revision))] == [Step(0, Send(revision))];
    RunSnoc(s, [], Step(0, Send(revision)));
    RunSnoc(s, [Step(0, Send(revision))], Step(0, Accept));
    RunSnoc(s, [Step(0, Send(revision))] + [Step(0, Accept)], Step(0, TakeSeal(false)));
  }
}

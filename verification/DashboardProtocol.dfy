/**
 Dashboard execution admission as a transition system over any number of request goroutines,
 their detached callbacks and restart requesters. Steps are split at every lock, channel,
 limiter and gate operation of handleSprintExecute, reserveSprint, sprintReservation,
 executeSprintTasksWithContext, executeDashboardAgent, handlePipelineRun,
 inFlightMiddleware, RestartAdmissionGate and ConcurrencyLimiter.
*/
module DashboardProtocol {
  import opened Common
  import opened ExecutionErrors
  import opened TaskStore
  import opened SprintState
  import Idempotency

  type Id = nat

  datatype Route = SprintRoute | AgentRoute | PipelineRoute

  /** An activity lease. Its release function runs once: the lease is outstanding until then. */
  datatype Lease = RequestLease(id: Id) | WorkLease(id: Id)

  /** Who sealed the restart gate, and whether the handoff keeps it sealed until exit. */
  datatype Seal = Seal(owner: Id, kept: bool)

  datatype Gate = Gate(active: int, sealed: bool, leases: set<Lease>, seal: Option<Seal>)

  /** The shared limiter: its counter, and per request whether a slot was taken, is held, and
      how often Release ran on its behalf. */
  datatype Limiter = Limiter(capacity: Option<nat>, used: int, held: set<Id>, taken: set<Id>, releases: map<Id, nat>)

  /** Where the request goroutine stands. */
  datatype Pc =
    | Outside
    | Entered(route: Route)                        // behind inFlightMiddleware
    | Admitted | Checking | Checked | Unreserved   // sprint: admission limiter, then the first locked section
    | Leased(route: Route) | Slotted(route: Route) | Unwinding(route: Route) | Unslotted
    | Reserved | Claiming | Claimed(batch: seq<Task>) | Published(batch: seq<Task>) | Started
    | Settling | Draining                          // sprint: the deferred abort
    | Waiting                                      // agent run: waiting for the result or cancellation
    | Exiting | Departing | Gone

  /** Where the detached callback of the request stands; `done` is the account of its batch so far. */
  datatype Work =
    | NoWork
    | Queued | Listening
    | Executing(done: seq<Entry>, batch: seq<Task>) | Running(done: seq<Entry>, task: Task, rest: seq<Task>)
    | Noting(done: seq<Entry>, entry: Entry, more: seq<Entry>, rest: seq<Task>) | Closing(done: seq<Entry>, panicked: bool)
    | Releasing | Drained
    | AgentQueued | AgentStarted | AgentRunning | AgentSettling | AgentReturned | AgentAnswered | AgentDone
    | PipelineRunning | PipelineCleanup | PipelineDone

  datatype Decision = Abandon | Hand(batch: seq<Task>)
  datatype Release = Held | SlotBack | Released

  /** A sprint reservation: the once of its decision, every value ever sent on its one-slot
      channel and how many of them were received, and the progress of its once-only release
      function. */
  datatype Reservation = NoReservation | Reservation(decided: bool, sent: seq<Decision>, received: nat, release: Release)

  /** sprintAdmission, the sprintState mutex and what it guards. `live` is the request whose
      batch is published and not yet closed, `origin` the sprint state as its publication left
      it, `begun` every request that ever published one. */
  datatype Shared = Shared(admission: Option<Id>, lock: Option<Id>, sprint: Sprint, idem: Idempotency.Idem,
                           live: Option<Id>, origin: Sprint, begun: set<Id>)

  /** One request: its Idempotency-Key, its goroutine, its detached callback, its reservation. */
  datatype Proc = Proc(key: string, pc: Pc, work: Work, res: Reservation)

  const IDLE := Proc("", Outside, NoWork, NoReservation)

  datatype State = State(gate: Gate, limiter: Limiter, shared: Shared, owner: nat, procs: map<Id, Proc>)

  function At(s: State, id: Id): Proc { if id in s.procs then s.procs[id] else IDLE }
  function Releases(l: Limiter, id: Id): nat { if id in l.releases then l.releases[id] else 0 }

  // ---- the shared primitives ---------------------------------------------------------

  function Acquire(g: Gate, l: Lease): Gate {
    Gate(g.active + 1, g.sealed, g.leases + {l}, g.seal)
  }

  /** A lease's release function: only its first call reaches the gate. */
  function Return(g: Gate, l: Lease): Gate {
    if l in g.leases then Gate(g.active - 1, g.sealed, g.leases - {l}, g.seal) else g
  }

  predicate HasRoom(l: Limiter) { l.capacity.Some? ==> l.used < l.capacity.value }

  function Take(l: Limiter, id: Id): Limiter {
    Limiter(l.capacity, l.used + 1, l.held + {id}, l.taken + {id}, l.releases)
  }

  /** ConcurrencyLimiter.Release: not once-only, and silent when nothing is active. */
  function Free(l: Limiter, id: Id): Limiter {
    Limiter(l.capacity, if l.used == 0 then 0 else l.used - 1, l.held - {id}, l.taken,
            l.releases[id := Releases(l, id) + 1])
  }

  predicate IsFree(s: State) { s.shared.lock.None? }

  function Put(s: State, id: Id, p: Proc): State { State(s.gate, s.limiter, s.shared, s.owner, s.procs[id := p]) }
  function SetGate(s: State, g: Gate): State { State(g, s.limiter, s.shared, s.owner, s.procs) }
  function SetLimiter(s: State, l: Limiter): State { State(s.gate, l, s.shared, s.owner, s.procs) }
  function SetShared(s: State, sh: Shared): State { State(s.gate, s.limiter, sh, s.owner, s.procs) }
  function SetSprint(s: State, sp: Sprint): State { SetShared(s, s.shared.(sprint := sp)) }

  function Goto(s: State, id: Id, pc: Pc): State { Put(s, id, At(s, id).(pc := pc)) }
  function Become(s: State, id: Id, w: Work): State { Put(s, id, At(s, id).(work := w)) }
  function Decide(s: State, id: Id, pc: Pc, d: Decision): State
    requires At(s, id).res.Reservation?
  {
    var p := At(s, id);
    Put(s, id, Proc(p.key, pc, p.work, Reservation(true, p.res.sent + [d], p.res.received, p.res.release)))
  }

  // ---- the request goroutine and its middleware ---------------------------------------

  /** GiveUp: a request turned away before it asks for anything, on any route. */
  datatype RequestMove = Enter(route: Route, key: string) | Depart | AdmitSprint | GiveUp | ReleaseAdmission

  predicate CanRequest(s: State, id: Id, m: RequestMove) {
    var pc := At(s, id).pc;
    match m
    case Enter(_, _) => pc.Outside? && !s.gate.sealed
    case Depart => pc.Departing?
    case AdmitSprint => pc == Entered(SprintRoute) && s.shared.admission.None?
    case GiveUp => pc.Entered?
    case ReleaseAdmission => pc.Exiting?
  }

  function Request(s: State, id: Id, m: RequestMove): State {
    match m
    case Enter(route, key) => Put(SetGate(s, Acquire(s.gate, RequestLease(id))), id, At(s, id).(key := key, pc := Entered(route)))
    case Depart => Goto(SetGate(s, Return(s.gate, RequestLease(id))), id, Gone)
    case AdmitSprint => Goto(SetShared(s, s.shared.(admission := Some(id))), id, Admitted)
    case GiveUp => Goto(s, id, Departing)
    case ReleaseAdmission => Goto(SetShared(s, s.shared.(admission := None)), id, Departing)
  }

  // ---- the first locked section of the sprint handler ----------------------------------

  datatype CheckMove =
    | LockState | ReplayKey | SeeRunning
    | FailReconcile(after: seq<Diagnostic>, stop: nat, mark: Option<CommitError>)
    | PassReconcile(after: seq<Diagnostic>) | UnlockChecked

  ghost predicate CanCheck(s: State, id: Id, m: CheckMove) {
    var p, sp := At(s, id), s.shared.sprint;
    var unknown := Idempotency.Lookup(s.shared.idem, p.key).None?;
    match m
    case LockState => (p.pc.Admitted? || p.pc.Reserved?) && IsFree(s)
    case ReplayKey => p.pc.Checking? && !unknown
    case SeeRunning => p.pc.Checking? && unknown && sp.running
    case FailReconcile(after, stop, mark) =>
      && p.pc.Checking? && unknown && !sp.running
      && if sp.uncertain then after == sp.diagnostics
         else stop < |sp.diagnostics| && Reconciled(sp.diagnostics, after, stop, mark)
    case PassReconcile(after) =>
      && p.pc.Checking? && unknown && !sp.running && !sp.uncertain
      && Reconciled(sp.diagnostics, after, |sp.diagnostics|, None)
    case UnlockChecked => p.pc.Checked?
  }

  function Check(s: State, id: Id, m: CheckMove): State {
    match m
    case LockState => Goto(SetShared(s, s.shared.(lock := Some(id))), id, if At(s, id).pc.Admitted? then Checking else Claiming)
    case ReplayKey => Goto(SetShared(s, s.shared.(lock := None)), id, Exiting)
    case SeeRunning => Goto(SetShared(s, s.shared.(lock := None)), id, Exiting)
    case FailReconcile(after, _, _) =>
      Goto(SetShared(s, s.shared.(lock := None, sprint := s.shared.sprint.(diagnostics := after))), id, Exiting)
    case PassReconcile(after) => Goto(SetSprint(s, s.shared.sprint.(diagnostics := after)), id, Checked)
    case UnlockChecked => Goto(SetShared(s, s.shared.(lock := None)), id, Unreserved)
  }

  // ---- reserving capacity, on every route -----------------------------------------------

  datatype ReserveMove = TakeLease | RefuseLease | AbandonLease | TakeSlot | AcceptSubmit | RefuseSubmit | LaunchPipeline

  /** The route a goroutine about to ask for its work lease is on, if it is. */
  function Asking(pc: Pc): Option<Route> {
    match pc
    case Unreserved => Some(SprintRoute)
    case Entered(route) => if route.SprintRoute? then None else Some(route)
    case _ => None
  }

  function Onward(route: Route): Pc { if route.SprintRoute? then Exiting else Departing }

  predicate CanReserve(s: State, id: Id, m: ReserveMove) {
    var pc := At(s, id).pc;
    match m
    case TakeLease => Asking(pc).Some? && !s.gate.sealed
    case RefuseLease => Asking(pc).Some? && s.gate.sealed
    case AbandonLease => pc.Leased? || pc.Unslotted?
    case TakeSlot => pc.Leased? && !pc.route.PipelineRoute? && HasRoom(s.limiter)
    case AcceptSubmit => pc.Slotted?
    case RefuseSubmit => pc.Slotted?
    case LaunchPipeline => pc == Leased(PipelineRoute)
  }

  function Reserve(s: State, id: Id, m: ReserveMove): State
    requires CanReserve(s, id, m)
  {
    var p := At(s, id);
    match m
    case TakeLease => Goto(SetGate(s, Acquire(s.gate, WorkLease(id))), id, Leased(Asking(p.pc).value))
    case RefuseLease => Goto(s, id, Onward(Asking(p.pc).value))
    case AbandonLease =>
      Goto(SetGate(s, Return(s.gate, WorkLease(id))), id, if p.pc.Leased? then Onward(p.pc.route) else Departing)
    case TakeSlot =>
      Put(SetLimiter(s, Take(s.limiter, id)), id,
          Proc(p.key, Slotted(p.pc.route), p.work,
               if p.pc.route.SprintRoute? then Reservation(false, [], 0, Held) else NoReservation))
    case AcceptSubmit =>
      Put(s, id, if p.pc.route.SprintRoute? then Proc(p.key, Reserved, Queued, p.res) else Proc(p.key, Waiting, AgentQueued, p.res))
    case RefuseSubmit => Goto(s, id, Unwinding(p.pc.route))
    case LaunchPipeline => Put(s, id, Proc(p.key, Departing, PipelineRunning, p.res))
  }

  // ---- giving capacity back -------------------------------------------------------------

  datatype ReleaseMove = UnwindSlot | UnwindDone | FreeReservedSlot | EndReservation

  /** Who may be running the reservation's once-only release function. */
  predicate Draws(p: Proc) { p.pc.Draining? || p.pc == Unwinding(SprintRoute) || p.work.Releasing? }

  predicate CanRelease(s: State, id: Id, m: ReleaseMove) {
    var p := At(s, id);
    match m
    case UnwindSlot => p.pc == Unwinding(AgentRoute)
    case UnwindDone => p.pc == Unwinding(SprintRoute) && p.res.Reservation? && p.res.release.Released?
    case FreeReservedSlot => Draws(p) && p.res.Reservation? && p.res.release.Held?
    case EndReservation => p.res.Reservation? && p.res.release.SlotBack?
  }

  function GiveBack(s: State, id: Id, m: ReleaseMove): State
    requires CanRelease(s, id, m)
  {
    var p := At(s, id);
    match m
    case UnwindSlot => Goto(SetLimiter(s, Free(s.limiter, id)), id, Unslotted)
    case UnwindDone => Goto(SetGate(s, Return(s.gate, WorkLease(id))), id, Exiting)
    case FreeReservedSlot => Put(SetLimiter(s, Free(s.limiter, id)), id, p.(res := p.res.(release := SlotBack)))
    case EndReservation => Put(SetGate(s, Return(s.gate, WorkLease(id))), id, p.(res := p.res.(release := Released)))
  }

  // ---- the second locked section, and the decision ---------------------------------------

  datatype ClaimMove =
    | Claim(batch: seq<Task>) | ClaimNothing | PublishBatch(job: nat) | SendBatch | UnlockStarted
    | AbortSends | AbortNoop | LeaveDrained

  /** The decision channel holds one value; a send waits while it is full. */
  predicate HasSpace(r: Reservation)
    requires r.Reservation?
  {
    |r.sent| - r.received < 1
  }

  /** A claim hands out distinct tasks (TaskStore.ClaimedBatchIsDistinct). */
  predicate CanClaim(s: State, id: Id, m: ClaimMove) {
    var p := At(s, id);
    match m
    case Claim(batch) => p.pc.Claiming? && batch != [] && DistinctIds(batch)
    case ClaimNothing => p.pc.Claiming?
    case PublishBatch(_) => p.pc.Claimed?
    case SendBatch => p.pc.Published? && p.res.Reservation? && HasSpace(p.res)
    case UnlockStarted => p.pc.Started?
    case AbortSends => p.pc.Settling? && p.res.Reservation? && !p.res.decided && HasSpace(p.res)
    case AbortNoop => p.pc.Settling? && p.res.Reservation? && p.res.decided
    case LeaveDrained => p.pc.Draining? && p.res.Reservation? && p.res.release.Released?
  }

  /** The idempotency section indexes the age list only when the map is full. */
  function Remember(m: Idempotency.Idem, key: string, job: nat): Idempotency.Idem {
    if |m.jobs| >= Idempotency.LIMIT && m.order == [] then m else Idempotency.Admit(m, key, job)
  }

  function Claims(s: State, id: Id, m: ClaimMove): State
    requires CanClaim(s, id, m)
  {
    var p := At(s, id);
    match m
    case Claim(batch) => Goto(s, id, Claimed(batch))
    case ClaimNothing => Goto(SetShared(s, s.shared.(lock := None)), id, Settling)
    case PublishBatch(job) =>
      Goto(SetShared(s, Shared(s.shared.admission, s.shared.lock, Publish(s.shared.sprint, job),
                               Remember(s.shared.idem, p.key, job), Some(id), Publish(s.shared.sprint, job),
                               s.shared.begun + {id})),
           id, Published(p.pc.batch))
    case SendBatch => Decide(s, id, Started, Hand(p.pc.batch))
    case UnlockStarted => Goto(SetShared(s, s.shared.(lock := None)), id, Settling)
    case AbortSends => Decide(s, id, Draining, Abandon)
    case AbortNoop => Goto(s, id, Exiting)
    case LeaveDrained => Goto(s, id, Exiting)
  }

  // ---- the sprint callback ----------------------------------------------------------------

  datatype CallbackMove =
    | TakeCallback | Receive | BeginTask | EndTask(entry: Entry) | PanicTask | EndBudget(entries: seq<Entry>)
    | NoteTask | FinishTasks | CloseBatch | FinishCallback

  predicate CanCall(s: State, id: Id, m: CallbackMove) {
    var p := At(s, id);
    match m
    case TakeCallback => p.work.Queued?
    case Receive => p.work.Listening? && p.res.Reservation? && p.res.received < |p.res.sent|
    case BeginTask => p.work.Executing? && p.work.batch != [] && IsFree(s)
    case EndTask(e) => p.work.Running? && e.started && e.task == p.work.task
    case PanicTask => p.work.Running?
    case EndBudget(es) =>
      && p.work.Executing? && p.work.batch != [] && |es| == |p.work.batch|
      && forall i | 0 <= i < |es| :: !es[i].started && es[i].task == p.work.batch[i]
    case NoteTask => p.work.Noting? && IsFree(s)
    case FinishTasks => p.work.Executing? && p.work.batch == []
    case CloseBatch => p.work.Closing? && IsFree(s)
    case FinishCallback => p.work.Releasing? && p.res.Reservation? && p.res.release.Released?
  }

  function Call(s: State, id: Id, m: CallbackMove): State
    requires CanCall(s, id, m)
  {
    var p := At(s, id);
    match m
    case TakeCallback => Become(s, id, Listening)
    case Receive =>
      var d := p.res.sent[p.res.received];
      Put(s, id, Proc(p.key, p.pc, if d.Hand? then Executing([], d.batch) else Releasing,
                      Reservation(p.res.decided, p.res.sent, p.res.received + 1, p.res.release)))
    case BeginTask => Become(SetSprint(s, Dispatch(s.shared.sprint, p.work.batch[0])), id,
             Running(p.work.done, p.work.batch[0], p.work.batch[1..]))
    case EndTask(e) => Become(s, id, Noting(p.work.done, e, [], p.work.rest))
    case PanicTask => Become(s, id, Closing(p.work.done, true))
    case EndBudget(es) => Become(s, id, Noting(p.work.done, es[0], es[1..], []))
    case NoteTask =>
      Become(SetSprint(s, Noted(s.shared.sprint, p.work.entry, s.owner)), id,
             if p.work.more == [] then Executing(p.work.done + [p.work.entry], p.work.rest)
             else Noting(p.work.done + [p.work.entry], p.work.more[0], p.work.more[1..], p.work.rest))
    case FinishTasks => Become(s, id, Closing(p.work.done, false))
    case CloseBatch =>
      Become(SetShared(s, s.shared.(sprint := Finalize(s.shared.sprint, p.work.panicked), live := None)), id, Releasing)
    case FinishCallback => Become(s, id, Drained)
  }

  // ---- agent and pipeline runs --------------------------------------------------------------

  datatype DetachedMove =
    | StartAgent | RunAgent | ExpireAgent | EndAgent | FreeAgentSlot | AnswerAgent | EndAgentLease | StopWaiting
    | EndPipeline | CleanPipeline

  predicate CanDetached(s: State, id: Id, m: DetachedMove) {
    var p := At(s, id);
    match m
    case StartAgent => p.work.AgentQueued?
    case RunAgent => p.work.AgentStarted?
    case ExpireAgent => p.work.AgentStarted?
    case EndAgent => p.work.AgentRunning?
    case FreeAgentSlot => p.work.AgentSettling?
    case AnswerAgent => p.work.AgentReturned?
    case EndAgentLease => p.work.AgentAnswered?
    case StopWaiting => p.pc.Waiting?
    case EndPipeline => p.work.PipelineRunning?
    case CleanPipeline => p.work.PipelineCleanup?
  }

  function Detached(s: State, id: Id, m: DetachedMove): State {
    match m
    case StartAgent => Become(s, id, AgentStarted)
    case RunAgent => Become(s, id, AgentRunning)
    case ExpireAgent => Become(s, id, AgentSettling)
    case EndAgent => Become(s, id, AgentSettling)
    case FreeAgentSlot => Become(SetLimiter(s, Free(s.limiter, id)), id, AgentReturned)
    case AnswerAgent => Become(s, id, AgentAnswered)
    case EndAgentLease => Become(SetGate(s, Return(s.gate, WorkLease(id))), id, AgentDone)
    case StopWaiting => Goto(s, id, Departing)
    case EndPipeline => Become(s, id, PipelineCleanup)
    case CleanPipeline => Become(SetGate(s, Return(s.gate, WorkLease(id))), id, PipelineDone)
  }

  // ---- restart requesters ---------------------------------------------------------------------

  datatype RestartMove = BeginRestart | FinishRestart(keep: bool)

  predicate CanRestart(s: State, id: Id, m: RestartMove) {
    match m
    case BeginRestart => !s.gate.sealed && s.gate.active == 0
    case FinishRestart(_) => s.gate.seal == Some(Seal(id, false))
  }

  function Restart(s: State, id: Id, m: RestartMove): State {
    match m
    case BeginRestart => SetGate(s, Gate(s.gate.active, true, s.gate.leases, Some(Seal(id, false))))
    case FinishRestart(keep) =>
      SetGate(s, if keep then Gate(s.gate.active, true, s.gate.leases, Some(Seal(id, true)))
                 else Gate(s.gate.active, false, s.gate.leases, None))
  }

  // ---- steps and runs --------------------------------------------------------------------------

  datatype Move =
    | RequestStep(request: RequestMove) | CheckStep(check: CheckMove) | ReserveStep(reserve: ReserveMove)
    | ReleaseStep(release: ReleaseMove) | ClaimStep(claim: ClaimMove) | CallbackStep(callback: CallbackMove)
    | DetachedStep(detached: DetachedMove) | RestartStep(restart: RestartMove)

  datatype Step = Step(id: Id, move: Move)

  ghost predicate Enabled(s: State, a: Step) {
    match a.move
    case RequestStep(m) => CanRequest(s, a.id, m)
    case CheckStep(m) => CanCheck(s, a.id, m)
    case ReserveStep(m) => CanReserve(s, a.id, m)
    case ReleaseStep(m) => CanRelease(s, a.id, m)
    case ClaimStep(m) => CanClaim(s, a.id, m)
    case CallbackStep(m) => CanCall(s, a.id, m)
    case DetachedStep(m) => CanDetached(s, a.id, m)
    case RestartStep(m) => CanRestart(s, a.id, m)
  }

  ghost function Apply(s: State, a: Step): State
    requires Enabled(s, a)
  {
    match a.move
    case RequestStep(m) => Request(s, a.id, m)
    case CheckStep(m) => Check(s, a.id, m)
    case ReserveStep(m) => Reserve(s, a.id, m)
    case ReleaseStep(m) => GiveBack(s, a.id, m)
    case ClaimStep(m) => Claims(s, a.id, m)
    case CallbackStep(m) => Call(s, a.id, m)
    case DetachedStep(m) => Detached(s, a.id, m)
    case RestartStep(m) => Restart(s, a.id, m)
  }

  /** One attempted step; a step that is not enabled does nothing. */
  ghost function Try(s: State, a: Step): State { if Enabled(s, a) then Apply(s, a) else s }

  /** The state after any sequence of attempted steps, oldest first. */
  ghost function Exec(s: State, steps: seq<Step>): State {
    if steps == [] then s else Try(Exec(s, steps[..|steps| - 1]), steps[|steps| - 1])
  }

  const IDLE_SPRINT := Sprint(false, 0, "", "", "", NoKind, [], false)

  function Initial(capacity: Option<nat>, owner: nat): State {
    State(Gate(0, false, {}, None), Limiter(capacity, 0, {}, {}, map[]),
          Shared(None, None, IDLE_SPRINT, Idempotency.EMPTY, None, IDLE_SPRINT, {}),
          owner, map[])
  }

  // ---- the invariant -----------------------------------------------------------------

  predicate InSprintGate(pc: Pc) {
    match pc
    case Leased(route) => route.SprintRoute?
    case Slotted(route) => route.SprintRoute?
    case Unwinding(route) => route.SprintRoute?
    case _ =>
      || pc.Admitted? || pc.Checking? || pc.Checked? || pc.Unreserved? || pc.Reserved? || pc.Claiming? || pc.Claimed?
      || pc.Published? || pc.Started? || pc.Settling? || pc.Draining? || pc.Exiting?
  }

  predicate HoldsLock(pc: Pc) { pc.Checking? || pc.Checked? || pc.Claiming? || pc.Claimed? || pc.Published? || pc.Started? }

  /** Between the Running check and the publication of the claimed batch. */
  predicate InWindow(pc: Pc) {
    match pc
    case Leased(route) => route.SprintRoute?
    case Slotted(route) => route.SprintRoute?
    case _ => pc.Checked? || pc.Unreserved? || pc.Reserved? || pc.Claiming? || pc.Claimed?
  }

  predicate Batching(w: Work) { w.Executing? || w.Running? || w.Noting? || w.Closing? }
  predicate SprintWork(w: Work) { w.Queued? || w.Listening? || Batching(w) || w.Releasing? || w.Drained? }
  predicate AgentWork(w: Work) {
    || w.AgentQueued? || w.AgentStarted? || w.AgentRunning? || w.AgentSettling?
    || w.AgentReturned? || w.AgentAnswered? || w.AgentDone?
  }
  predicate PipelineWork(w: Work) { w.PipelineRunning? || w.PipelineCleanup? || w.PipelineDone? }

  predicate NeedsLease(pc: Pc, w: Work, r: Reservation) {
    || pc.Leased? || pc.Slotted? || (pc.Unwinding? && !pc.route.SprintRoute?) || pc.Unslotted?
    || (r.Reservation? && !r.release.Released?)
    || (AgentWork(w) && !w.AgentDone?) || (PipelineWork(w) && !w.PipelineDone?)
  }

  predicate NeedsSlot(pc: Pc, w: Work, r: Reservation) {
    || ((pc.Slotted? || pc.Unwinding?) && pc.route.AgentRoute?)
    || (r.Reservation? && r.release.Held?)
    || w.AgentQueued? || w.AgentStarted? || w.AgentRunning? || w.AgentSettling?
  }

  predicate IsLive(pc: Pc, w: Work, r: Reservation) {
    pc.Published? || (r.Reservation? && r.received < |r.sent| && r.sent[r.received].Hand?) || Batching(w)
  }

  /** The decision has been sent, exactly once, and the callback has or has not taken it. */
  predicate Decided(w: Work, r: Reservation) {
    && r.Reservation? && r.decided && |r.sent| == 1
    && match w
       case Queued => r.received == 0 && (r.sent[0].Hand? ==> r.release.Held?)
       case Listening => r.received == 0 && (r.sent[0].Hand? ==> r.release.Held?)
       case Releasing => r.received == 1
       case Drained => r.received == 1 && r.release.Released?
       case _ => Batching(w) && r.received == 1 && r.sent[0].Hand? && r.release.Held?
  }

  predicate Undecided(r: Reservation) { r == Reservation(false, [], 0, Held) }

  predicate Shape(pc: Pc, w: Work, r: Reservation) {
    match pc
    case Outside => w.NoWork? && r.NoReservation?
    case Entered(_) => w.NoWork? && r.NoReservation?
    case Admitted => w.NoWork? && r.NoReservation?
    case Checking => w.NoWork? && r.NoReservation?
    case Checked => w.NoWork? && r.NoReservation?
    case Unreserved => w.NoWork? && r.NoReservation?
    case Leased(_) => w.NoWork? && r.NoReservation?
    case Slotted(route) =>
      w.NoWork? && !route.PipelineRoute? && if route.SprintRoute? then Undecided(r) else r.NoReservation?
    case Unwinding(route) =>
      && w.NoWork? && !route.PipelineRoute?
      && if route.SprintRoute? then r.Reservation? && Undecided(r.(release := Held)) else r.NoReservation?
    case Unslotted => w.NoWork? && r.NoReservation?
    case Reserved => (w.Queued? || w.Listening?) && Undecided(r)
    case Claiming => (w.Queued? || w.Listening?) && Undecided(r)
    case Claimed(_) => (w.Queued? || w.Listening?) && Undecided(r)
    case Published(_) => (w.Queued? || w.Listening?) && Undecided(r)
    case Started => Decided(w, r) && r.sent[0].Hand?
    case Settling => ((w.Queued? || w.Listening?) && Undecided(r)) || (Decided(w, r) && r.sent[0].Hand?)
    case Draining => Decided(w, r) && r.sent[0].Abandon?
    case Waiting => AgentWork(w) && r.NoReservation?
    case _ =>
      || (w.NoWork? && r.NoReservation?)
      || (w.NoWork? && r == Reservation(false, [], 0, Released))
      || (Decided(w, r) && (r.sent[0].Abandon? ==> r.release.Released?))
      || ((AgentWork(w) || PipelineWork(w)) && r.NoReservation?)
  }

  predicate Fresh(pc: Pc) {
    pc.Outside? || pc.Entered? || pc.Admitted? || pc.Checking? || pc.Checked? || pc.Unreserved? || pc.Leased?
  }

  /** Everything the protocol keeps about one request. */
  datatype View = View(proc: Proc, requestLease: bool, workLease: bool, held: bool, taken: bool, releases: nat,
                       admitted: bool, locked: bool, live: bool, clean: bool)

  /** What the first locked section established for a request still in its window. */
  predicate Clean(sh: Shared, key: string) {
    && !sh.sprint.running && !sh.sprint.uncertain && AllCommitted(sh.sprint.diagnostics)
    && Idempotency.Lookup(sh.idem, key).None?
  }

  function ViewOf(s: State, id: Id): View {
    var p := At(s, id);
    View(p, RequestLease(id) in s.gate.leases, WorkLease(id) in s.gate.leases,
         id in s.limiter.held, id in s.limiter.taken, Releases(s.limiter, id),
         s.shared.admission == Some(id), s.shared.lock == Some(id), s.shared.live == Some(id),
         InWindow(p.pc) ==> Clean(s.shared, p.key))
  }

  predicate Good(v: View) {
    var pc, w, r := v.proc.pc, v.proc.work, v.proc.res;
    && Shape(pc, w, r)
    && (v.requestLease <==> !pc.Outside? && !pc.Gone?)
    && (v.workLease <==> NeedsLease(pc, w, r))
    && (v.held <==> NeedsSlot(pc, w, r))
    && (v.admitted <==> InSprintGate(pc))
    && (v.locked <==> HoldsLock(pc))
    && (v.live <==> IsLive(pc, w, r))
    && (Fresh(pc) ==> !v.taken)
    && v.releases == (if v.taken && !v.held then 1 else 0)
    && (v.held ==> v.taken)
    && v.clean
  }

  predicate LocalInv(s: State, id: Id) { Good(ViewOf(s, id)) }

  ghost predicate GlobalInv(s: State) {
    && s.gate.active == |s.gate.leases|
    && (s.gate.sealed <==> s.gate.seal.Some?)
    && (s.gate.sealed ==> s.gate.leases == {})
    && s.limiter.used == |s.limiter.held|
    && (s.limiter.capacity.Some? ==> s.limiter.used <= s.limiter.capacity.value)
    && (s.shared.sprint.running <==> s.shared.live.Some?)
    && Idempotency.Valid(s.shared.idem)
  }

  ghost predicate Inv(s: State) { GlobalInv(s) && forall id: Id :: LocalInv(s, id) }
}

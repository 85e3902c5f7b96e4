/**
 What a delegated task's reply means (internal/a2a/task_bridge.go, execution_metadata.go and the
 interpretation in client.go): task state and the bt_execution metadata decide the diagnostic.
*/
module TaskReplies {
  import opened Common
  import opened ExecutionErrors

  datatype TaskState =
    | Submitted | Working | Completed | Failed | Canceled | Rejected | InputRequired | AuthRequired | OtherState(name: string)

  predicate Terminal(s: TaskState) { s.Completed? || s.Failed? || s.Canceled? || s.Rejected? }
  predicate Active(s: TaskState) { s.Submitted? || s.Working? }

  function BTToA2A(outcome: string): TaskState {
    if IsHealthyOutcome(outcome) then Completed
    else if outcome == "running" then Working
    else if outcome in {"input-required", "pending_approval", RATE_LIMITED} then InputRequired
    else if outcome == "auth-required" then AuthRequired
    else if outcome == "cancelled" then Canceled
    else if outcome == "rejected" then Rejected
    else Failed
  }

  function A2AToBT(s: TaskState): string {
    match s
    case Completed => "success"
    case Failed => "failure"
    case Canceled => "cancelled"
    case Working => "running"
    case InputRequired => "input-required"
    case AuthRequired => "auth-required"
    case Rejected => "rejected"
    case _ => "unknown"
  }

  /** States and outcomes translate back and forth, except that the pauses share one state. */
  lemma BridgeRoundTrip(s: TaskState, outcome: string)
    ensures !s.Submitted? && !s.OtherState? ==> BTToA2A(A2AToBT(s)) == s
    ensures BTToA2A(outcome) == InputRequired <==> outcome in {"input-required", "pending_approval", RATE_LIMITED}
    ensures Terminal(BTToA2A(outcome)) || IsPausedOutcome(outcome) || outcome == "running"
    ensures A2AToBT(s) == "success" <==> s.Completed?
  {}

  lemma HealthyIsNotStopped(outcome: string)
    ensures !(IsHealthyOutcome(outcome) && IsStoppedOutcome(outcome))
    ensures IsStoppedOutcome(outcome) ==> !BTToA2A(outcome).Completed? && !BTToA2A(outcome).Working?
  {}

  // ---- metadata ------------------------------------------------------------------------------

  /** The bt_execution entry: absent, not an object, or an object some of whose strings are
      missing. ExecutionKind stands for every kind string that is not one of the known four. */
  datatype Metadata = NoMetadata | Malformed | Metadata(outcome: Option<string>, kind: Option<Kind>, detail: Option<string>)

  datatype RemoteTask = RemoteTask(id: string, contextId: string, state: TaskState, metadata: Metadata,
                                   artifacts: seq<Option<seq<string>>>, status: Option<seq<string>>)

  /** The state's name on the wire; the protocol version fixes it. */
  type Names = TaskState -> string

  function Doubt(detail: string): Err { Uncertain(Plain(detail)) }

  predicate ValidStoppedOutcome(s: TaskState, outcome: string) {
    IsStoppedOutcome(outcome) && (BTToA2A(outcome) == s || (s.Failed? && IsRateLimitCarryover(outcome)))
  }

  predicate Complete(m: Metadata) {
    && m.Metadata? && m.outcome.Some? && m.kind.Some? && m.detail.Some?
    && (m.kind.value.NoKind? <==> m.detail.value == "")
  }

  function ExecutionDiagnostic(t: RemoteTask, names: Names): Option<Err> {
    if t.metadata.NoMetadata? then None
    else if t.metadata.Malformed? then Some(Doubt("invalid BT execution metadata"))
    else if !Complete(t.metadata) then Some(Doubt("incomplete BT execution metadata"))
    else
      var outcome, detail := t.metadata.outcome.value, t.metadata.detail.value;
      match t.metadata.kind.value
      case NoKind =>
        if outcome != names(t.state) && !(t.state.Completed? && IsHealthyOutcome(outcome)) && !ValidStoppedOutcome(t.state, outcome)
        then Some(Doubt("execution metadata contradicts task state"))
        else None
      case PersistenceKind =>
        if t.state.Completed? && outcome != names(t.state) && !IsHealthyOutcome(outcome)
        then Some(Doubt("completed persistence metadata contradicts task outcome"))
        else if !t.state.Completed? && outcome != "aborted" then Some(Plain(detail))
        else Some(Persistence(Plain(detail)))
      case StoppedKind =>
        if !ValidStoppedOutcome(t.state, outcome) then Some(Doubt("stopped metadata contradicts task state"))
        else Some(Stopped(outcome, Plain(detail)))
      case UncertainKind => Some(Doubt(detail))
      case ExecutionKind => Some(Doubt("unknown BT execution error kind"))
  }

  /** errors.Join drops nil children. */
  function JoinWith(detail: Err, e: Option<Err>): Err {
    if e.Some? then Join([detail, e.value]) else Join([detail])
  }

  /** Reads the metadata unchecked: a malformed entry has been refused before. */
  function StoppedDiagnostic(t: RemoteTask, diagnostic: Option<Err>, names: Names): Err
    requires t.metadata.NoMetadata? || (t.metadata.Metadata? && t.metadata.outcome.Some?)
  {
    var reported := if t.metadata.NoMetadata? then names(t.state) else t.metadata.outcome.value;
    var outcome := if reported != names(t.state) then reported else A2AToBT(t.state);
    if !ValidStoppedOutcome(t.state, outcome) then Doubt("task outcome metadata contradicts its state")
    else Stopped(outcome, JoinWith(Plain("task did not complete"), diagnostic))
  }

  // ---- interpretation ----------------------------------------------------------------------------

  datatype Reply = Message(parts: seq<string>) | NoMessage | TaskReply(task: RemoteTask) | NoTask | Unrecognized

  datatype Outcome = Outcome(text: string, error: Option<Err>)

  function FirstPart(parts: seq<string>, from: nat): string
    requires from <= |parts|
    decreases |parts| - from
  {
    if from == |parts| then "" else if parts[from] != "" then parts[from] else FirstPart(parts, from + 1)
  }

  function FirstText(artifacts: seq<Option<seq<string>>>, from: nat): string
    requires from <= |artifacts|
    decreases |artifacts| - from
  {
    if from == |artifacts| then ""
    else if artifacts[from].Some? && FirstPart(artifacts[from].value, 0) != "" then FirstPart(artifacts[from].value, 0)
    else FirstText(artifacts, from + 1)
  }

  function Evidence(t: RemoteTask): string {
    if FirstText(t.artifacts, 0) != "" then FirstText(t.artifacts, 0)
    else if t.status.Some? then FirstPart(t.status.value, 0) else ""
  }

  function InterpretTask(t: RemoteTask, names: Names): Outcome {
    var diagnostic := ExecutionDiagnostic(t, names);
    if IsUncertain(diagnostic) then Outcome(Evidence(t), diagnostic)
    else if !t.state.Completed? then
      if !Terminal(t.state) && !t.state.InputRequired? && !t.state.AuthRequired?
      then Outcome("", Some(Doubt("task has unrecognized state")))
      else Outcome(Evidence(t), Some(StoppedDiagnostic(t, diagnostic, names)))
    else if IsStopped(diagnostic) then Outcome(Evidence(t), Some(Doubt("completed task carries stopped diagnostic")))
    else if FirstText(t.artifacts, 0) != "" then Outcome(FirstText(t.artifacts, 0), diagnostic)
    else Outcome("", Some(Doubt("task completed with no artifact text")))
  }

  function Interpret(r: Reply, names: Names): Outcome {
    match r
    case Message(parts) =>
      if FirstPart(parts, 0) != "" then Outcome(FirstPart(parts, 0), None)
      else Outcome("", Some(Doubt("agent message carried no text content")))
    case TaskReply(t) => InterpretTask(t, names)
    case NoMessage => Outcome("", Some(Doubt("missing agent message")))
    case NoTask => Outcome("", Some(Doubt("missing task")))
    case Unrecognized => Outcome("", Some(Doubt("unrecognized response type")))
  }

  lemma {:induction false} FirstPartOccurs(parts: seq<string>, from: nat)
    requires from <= |parts|
    ensures FirstPart(parts, from) == "" <==> forall i | from <= i < |parts| :: parts[i] == ""
    ensures FirstPart(parts, from) != "" ==> FirstPart(parts, from) in parts
    decreases |parts| - from
  {
    if from < |parts| && parts[from] == "" { FirstPartOccurs(parts, from + 1); }
  }

  /** Wrapping a diagnostic into a stop hides neither doubt nor the stop. */
  lemma StopKeepsDoubt(outcome: string, d: Option<Err>)
    ensures var e := Some(Stopped(outcome, JoinWith(Plain("task did not complete"), d)));
      KindOf(e) == if IsUncertain(d) then UncertainKind else StoppedKind
  {
    var inner := JoinWith(Plain("task did not complete"), d);
    assert HasUncertain(inner) <==> IsUncertain(d) by {
      if d.Some? { assert inner.parts == [Plain("task did not complete"), d.value]; }
    }
  }

  lemma FlatKinds(outcome: string, detail: string)
    ensures KindOf(Some(Doubt(detail))) == UncertainKind
    ensures KindOf(Some(Plain(detail))) == NoKind
    ensures KindOf(Some(Persistence(Plain(detail)))) == PersistenceKind
    ensures KindOf(Some(Stopped(outcome, Plain(detail)))) == StoppedKind
  {
    assert !HasUncertain(Plain(detail)) && !HasStopped(Plain(detail)) && !HasPersistence(Plain(detail));
  }

  /** Anything but a clean completion is stopped or in doubt. */
  lemma StoppedDiagnosticKind(t: RemoteTask, d: Option<Err>, names: Names)
    requires (t.metadata.NoMetadata? || (t.metadata.Metadata? && t.metadata.outcome.Some?)) && !IsUncertain(d)
    ensures var reported := if t.metadata.NoMetadata? then names(t.state) else t.metadata.outcome.value;
      var outcome := if reported != names(t.state) then reported else A2AToBT(t.state);
      var e := StoppedDiagnostic(t, d, names);
      if ValidStoppedOutcome(t.state, outcome) then KindOf(Some(e)) == StoppedKind && e.Stopped? && e.outcome == outcome
      else KindOf(Some(e)) == UncertainKind
  {
    var reported := if t.metadata.NoMetadata? then names(t.state) else t.metadata.outcome.value;
    StopKeepsDoubt(if reported != names(t.state) then reported else A2AToBT(t.state), d);
  }

  lemma DiagnosticKinds(t: RemoteTask, names: Names)
    ensures var d := ExecutionDiagnostic(t, names);
      && (d.Some? ==> IsTerminal(d) || (!t.state.Completed? && KindOf(d) == NoKind))
      && (t.state.Completed? && d.Some? && !IsUncertain(d) && !IsStopped(d) ==> KindOf(d) == PersistenceKind)
      && (!IsUncertain(d) ==> t.metadata.NoMetadata? || Complete(t.metadata))
  {
    if Complete(t.metadata) { FlatKinds(t.metadata.outcome.value, t.metadata.detail.value); }
  }

  /** Every reply that is not a success carries a typed diagnostic: nothing the peer admitted
      can be mistaken for a transport failure that may be sent again. */
  lemma FailuresAreTyped(r: Reply, names: Names)
    ensures Interpret(r, names).error.Some? ==> IsTerminal(Interpret(r, names).error)
  {
    if r.TaskReply? {
      DiagnosticKinds(r.task, names);
      var d := ExecutionDiagnostic(r.task, names);
      if !IsUncertain(d) { StoppedDiagnosticKind(r.task, d, names); }
    }
  }

  /** A failure is never laundered into a result: no error means real text, from a message or
      from a completed task whose metadata, if any, reports no error and a matching outcome. */
  lemma SuccessIsHonest(r: Reply, names: Names)
    requires Interpret(r, names).error.None?
    ensures Interpret(r, names).text != ""
    ensures match r
      case Message(parts) => Interpret(r, names).text in parts
      case TaskReply(t) =>
        && t.state.Completed?
        && (t.metadata.NoMetadata? ||
            (Complete(t.metadata) && t.metadata.kind == Some(NoKind) &&
             (IsHealthyOutcome(t.metadata.outcome.value) || t.metadata.outcome.value == names(Completed))))
      case _ => false
  {
    if r.Message? { FirstPartOccurs(r.parts, 0); }
    if r.TaskReply? && r.task.metadata.Metadata? && r.task.metadata.outcome.Some? {
      HealthyIsNotStopped(r.task.metadata.outcome.value);
    }
  }

  // ---- publishing, and reading back ----------------------------------------------------------------

  predicate Contains(s: string, part: string) { exists i :: 0 <= i <= |s| && part <= s[i..] }

  /** The message of a run that did not complete: its result, or the executor's own note. */
  function FailureMessage(outcome: string, result: string, note: string): string {
    if result == "" then "BT tree " + note
    else if IsRateLimitCarryover(outcome) && !Contains(result, outcome) then outcome + ": " + result
    else result
  }

  /** The executor's status message; it always says something. */
  function StatusMessage(outcome: string, result: string, note: string): string {
    match BTToA2A(outcome)
    case Completed => "BT tree " + note
    case InputRequired =>
      var message := if IsRateLimitCarryover(outcome) then FailureMessage(outcome, result, note) else result;
      if message == "" then "BT tree " + note else message
    case _ => FailureMessage(outcome, result, note)
  }

  /** The final task the serving executor publishes for a run's outcome, diagnostic and result.
      `detail` is the text of the diagnostic, `note` names the tree and the elapsed time. */
  function Published(outcome: string, diagnostic: Option<Err>, detail: string, result: string, note: string): RemoteTask {
    var state := BTToA2A(outcome);
    var kind := if diagnostic.Some? && KindOf(diagnostic).NoKind? then StoppedKind else KindOf(diagnostic);
    RemoteTask("id", "context", state, Metadata(Some(outcome), Some(kind), Some(if diagnostic.Some? then detail else "")),
               if state.Completed? then [Some([result])] else [], Some([StatusMessage(outcome, result, note)]))
  }

  /** Where a state's wire name is itself the name of a stop, the two agree. */
  ghost predicate Consistent(names: Names) {
    forall s: TaskState :: IsStoppedOutcome(names(s)) ==> BTToA2A(names(s)) == s && names(s) == A2AToBT(s)
  }

  lemma PublishedEvidence(outcome: string, diagnostic: Option<Err>, detail: string, result: string, note: string)
    ensures var t := Published(outcome, diagnostic, detail, result, note);
      && FirstText(t.artifacts, 0) == (if IsHealthyOutcome(outcome) then result else "")
      && StatusMessage(outcome, result, note) != ""
      && Evidence(t) == if IsHealthyOutcome(outcome) && result != "" then result else StatusMessage(outcome, result, note)
  {
    var t, message := Published(outcome, diagnostic, detail, result, note), StatusMessage(outcome, result, note);
    assert FirstPart([message], 0) == message;
    assert FirstPart([result], 0) == result;
    if IsHealthyOutcome(outcome) {
      assert t.artifacts == [Some([result])];
      assert FirstText(t.artifacts, 1) == "";
    }
  }

  lemma PublishedDiagnostic(outcome: string, diagnostic: Option<Err>, detail: string, result: string, note: string, names: Names)
    requires Consistent(names)
    ensures var d := ExecutionDiagnostic(Published(outcome, diagnostic, detail, result, note), names);
      && (IsUncertain(diagnostic) || (diagnostic.Some? && detail == "") ==> IsUncertain(d))
      && (IsHealthyOutcome(outcome) && !IsUncertain(diagnostic) && (diagnostic.Some? ==> detail != "") ==>
            match KindOf(diagnostic)
            case PersistenceKind => KindOf(d) == PersistenceKind
            case _ => if diagnostic.Some? then IsUncertain(d) else d.None?)
      && (IsStoppedOutcome(outcome) && !IsUncertain(diagnostic) && (diagnostic.Some? ==> detail != "") ==> !IsUncertain(d))
  {
    HealthyIsNotStopped(outcome);
    FlatKinds(outcome, detail);
  }

  /** What the caller sees against what the run was: success exactly for healthy work without
      a diagnostic, a lost record exactly for healthy work with one, the same stop for a
      recognised stop, and uncertainty for everything else. */
  predicate SameDisposition(seen: Outcome, outcome: string, diagnostic: Option<Err>) {
    && (seen.error.None? <==> IsHealthyOutcome(outcome) && diagnostic.None?)
    && (KindOf(seen.error) == PersistenceKind <==> IsHealthyOutcome(outcome) && IsPersistence(diagnostic))
    && (KindOf(seen.error) == StoppedKind <==> IsStoppedOutcome(outcome) && !IsUncertain(diagnostic))
    && (KindOf(seen.error) == StoppedKind ==> seen.error.value.Stopped? && seen.error.value.outcome == outcome)
  }

  // ---- when the disposition is lost ----------------------------------------------------------------

  /** Healthy work without output: a completed task must carry text. */
  predicate Mute(outcome: string, diagnostic: Option<Err>, result: string) {
    IsHealthyOutcome(outcome) && result == "" && (diagnostic.None? || IsPersistence(diagnostic))
  }

  /** A diagnostic whose text is empty makes the metadata incomplete. */
  predicate Wordless(outcome: string, diagnostic: Option<Err>, detail: string) {
    && diagnostic.Some? && detail == ""
    && ((IsHealthyOutcome(outcome) && IsPersistence(diagnostic)) || (IsStoppedOutcome(outcome) && !IsUncertain(diagnostic)))
  }

  /** An outcome no table knows, published under a state of the very same name, with nothing in
      the metadata but at most a lost record. */
  predicate Ambiguous(outcome: string, diagnostic: Option<Err>, detail: string, names: Names) {
    && !IsHealthyOutcome(outcome) && !IsStoppedOutcome(outcome) && outcome != "running" && outcome == names(Failed)
    && (diagnostic.None? || (IsPersistence(diagnostic) && detail != ""))
  }

  lemma DoubtIsSame(seen: Outcome, outcome: string, diagnostic: Option<Err>)
    requires IsUncertain(seen.error)
    ensures SameDisposition(seen, outcome, diagnostic) <==>
              && !(IsHealthyOutcome(outcome) && (diagnostic.None? || IsPersistence(diagnostic)))
              && !(IsStoppedOutcome(outcome) && !IsUncertain(diagnostic))
  {
    HealthyIsNotStopped(outcome);
  }

  /** What was in doubt, or has no words, reads as doubt. */
  lemma DoubtSurvives(outcome: string, diagnostic: Option<Err>, detail: string, result: string, note: string, names: Names)
    requires IsUncertain(ExecutionDiagnostic(Published(outcome, diagnostic, detail, result, note), names))
    ensures var seen := InterpretTask(Published(outcome, diagnostic, detail, result, note), names);
      && IsUncertain(seen.error)
      && seen.text == if IsHealthyOutcome(outcome) && result != "" then result else StatusMessage(outcome, result, note)
  {
    PublishedEvidence(outcome, diagnostic, detail, result, note);
  }

  lemma HealthySurvives(outcome: string, diagnostic: Option<Err>, detail: string, result: string, note: string, names: Names)
    requires Consistent(names) && IsHealthyOutcome(outcome)
    ensures var seen := InterpretTask(Published(outcome, diagnostic, detail, result, note), names);
      && (SameDisposition(seen, outcome, diagnostic) <==> !Mute(outcome, diagnostic, result) && !Wordless(outcome, diagnostic, detail))
      && (!SameDisposition(seen, outcome, diagnostic) ==> IsUncertain(seen.error))
      && (result != "" ==> seen.text == result)
  {
    var t := Published(outcome, diagnostic, detail, result, note);
    PublishedEvidence(outcome, diagnostic, detail, result, note);
    PublishedDiagnostic(outcome, diagnostic, detail, result, note, names);
    HealthyIsNotStopped(outcome);
    var seen := InterpretTask(t, names);
    FlatKinds(outcome, "task completed with no artifact text");
    if IsUncertain(seen.error) { DoubtIsSame(seen, outcome, diagnostic); }
  }

  lemma StopsSurvive(outcome: string, diagnostic: Option<Err>, detail: string, result: string, note: string, names: Names)
    requires Consistent(names) && IsStoppedOutcome(outcome)
    ensures var seen := InterpretTask(Published(outcome, diagnostic, detail, result, note), names);
      && (SameDisposition(seen, outcome, diagnostic) <==> !Wordless(outcome, diagnostic, detail))
      && (!SameDisposition(seen, outcome, diagnostic) ==> IsUncertain(seen.error))
      && seen.text == StatusMessage(outcome, result, note)
  {
    var t := Published(outcome, diagnostic, detail, result, note);
    PublishedEvidence(outcome, diagnostic, detail, result, note);
    PublishedDiagnostic(outcome, diagnostic, detail, result, note, names);
    HealthyIsNotStopped(outcome);
    var d := ExecutionDiagnostic(t, names);
    if IsUncertain(d) {
      DoubtSurvives(outcome, diagnostic, detail, result, note, names);
      DoubtIsSame(InterpretTask(t, names), outcome, diagnostic);
    } else {
      StoppedDiagnosticKind(t, d, names);
    }
  }

  lemma UnknownDiagnostic(outcome: string, diagnostic: Option<Err>, detail: string, result: string, note: string, names: Names)
    requires !IsHealthyOutcome(outcome) && !IsStoppedOutcome(outcome) && outcome != "running"
    ensures BTToA2A(outcome) == Failed
    ensures IsUncertain(ExecutionDiagnostic(Published(outcome, diagnostic, detail, result, note), names)) <==>
              if diagnostic.None? then outcome != names(Failed) else !IsPersistence(diagnostic) || detail == ""
  {
    assert BTToA2A(outcome) == Failed;
    FlatKinds(outcome, detail);
  }

  /** Of an outcome no table knows the caller is left in doubt, unless it is ambiguous. */
  lemma UnknownSurvives(outcome: string, diagnostic: Option<Err>, detail: string, result: string, note: string, names: Names)
    requires Consistent(names) && !IsHealthyOutcome(outcome) && !IsStoppedOutcome(outcome) && outcome != "running"
    ensures var seen := InterpretTask(Published(outcome, diagnostic, detail, result, note), names);
      && seen.text == StatusMessage(outcome, result, note)
      && (if Ambiguous(outcome, diagnostic, detail, names)
          then KindOf(seen.error) == StoppedKind && seen.error.value.Stopped? && seen.error.value.outcome == "failure"
          else IsUncertain(seen.error))
  {
    var t := Published(outcome, diagnostic, detail, result, note);
    UnknownDiagnostic(outcome, diagnostic, detail, result, note, names);
    var d := ExecutionDiagnostic(t, names);
    if IsUncertain(d) {
      DoubtSurvives(outcome, diagnostic, detail, result, note, names);
    } else {
      PublishedEvidence(outcome, diagnostic, detail, result, note);
      StoppedDiagnosticKind(t, d, names);
    }
  }

  /** A task that is still at work is no answer. */
  lemma WorkingIsInDoubt(t: RemoteTask, names: Names)
    requires t.state.Working?
    ensures IsUncertain(InterpretTask(t, names).error)
  {
    FlatKinds("", "task has unrecognized state");
  }

  /** Across the wire a run keeps its disposition unless it was healthy and mute, its diagnostic
      had no words, or its outcome is ambiguous. The first two leave the caller in doubt, the last
      reads as a plain failure; nothing lost ever reads as a success. */
  lemma DispositionSurvivesTheWire(outcome: string, diagnostic: Option<Err>, detail: string, result: string, note: string, names: Names)
    requires Consistent(names)
    ensures var seen := InterpretTask(Published(outcome, diagnostic, detail, result, note), names);
      && (SameDisposition(seen, outcome, diagnostic) <==>
            !Mute(outcome, diagnostic, result) && !Wordless(outcome, diagnostic, detail) && !Ambiguous(outcome, diagnostic, detail, names))
      && (Mute(outcome, diagnostic, result) || Wordless(outcome, diagnostic, detail) ==> IsUncertain(seen.error))
      && (Ambiguous(outcome, diagnostic, detail, names) ==>
            KindOf(seen.error) == StoppedKind && seen.error.value.Stopped? && seen.error.value.outcome == "failure")
      && (IsHealthyOutcome(outcome) && result != "" ==> seen.text == result)
      && (!IsHealthyOutcome(outcome) && outcome != "running" ==> seen.text == StatusMessage(outcome, result, note) != "")
  {
    var t := Published(outcome, diagnostic, detail, result, note);
    HealthyIsNotStopped(outcome);
    PublishedEvidence(outcome, diagnostic, detail, result, note);
    if outcome == "running" {
      WorkingIsInDoubt(t, names);
      DoubtIsSame(InterpretTask(t, names), outcome, diagnostic);
    } else if IsHealthyOutcome(outcome) {
      HealthySurvives(outcome, diagnostic, detail, result, note, names);
    } else if IsStoppedOutcome(outcome) {
      StopsSurvive(outcome, diagnostic, detail, result, note, names);
    } else {
      UnknownSurvives(outcome, diagnostic, detail, result, note, names);
      if IsUncertain(InterpretTask(t, names).error) { DoubtIsSame(InterpretTask(t, names), outcome, diagnostic); }
    }
  }

  /** The failing input a caller meets: a delegated run that succeeds without saying anything is
      reported as an outcome nobody knows. */
  lemma MuteSuccessIsDoubted(note: string, names: Names)
    requires Consistent(names)
    ensures var seen := InterpretTask(Published("success", None, "", "", note), names);
      && IsUncertain(seen.error) && seen.text == ""
      && !SameDisposition(seen, "success", None) && !Ambiguous("success", None, "", names)
  {
    DispositionSurvivesTheWire("success", None, "", "", note, names);
    PublishedEvidence("success", None, "", "", note);
  }
}

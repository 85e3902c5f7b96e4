/**
 Typed execution diagnostics (internal/reliability/execution_persistence.go).

 Go errors form trees: fmt.Errorf("%w") wraps one child, errors.Join several, and the
 three typed diagnostics wrap the cause they report. Every retry, resume and fallback
 decision of the platform is a question about which typed nodes occur in such a tree.
*/
module ExecutionErrors {
  import opened Common

  datatype Category = Network | Timeout | Llm | Validation | ResourceExhausted | RateLimited | Auth | Unknown
  {
    /** Only transient categories may be attempted again. */
    predicate Retryable() { Network? || Timeout? || Llm? || RateLimited? }
  }

  datatype Err =
    | Plain(text: string)
    | Wrap(inner: Err)
    | Join(parts: seq<Err>)
    | Categorized(category: Category, inner: Err)
    | Uncertain(inner: Err)
    | Stopped(outcome: string, inner: Err)
    | Persistence(inner: Err)

  /** Node n is part of the error tree e: what errors.As can reach. */
  predicate Occurs(n: Err, e: Err) {
    n == e ||
    match e
    case Plain(_) => false
    case Join(parts) => exists p | p in parts :: Occurs(n, p)
    case _ => Occurs(n, e.inner)
  }

  predicate HasUncertain(e: Err) {
    match e
    case Uncertain(_) => true
    case Plain(_) => false
    case Join(parts) => exists p | p in parts :: HasUncertain(p)
    case _ => HasUncertain(e.inner)
  }

  predicate HasStopped(e: Err) {
    match e
    case Stopped(_, _) => true
    case Plain(_) => false
    case Join(parts) => exists p | p in parts :: HasStopped(p)
    case _ => HasStopped(e.inner)
  }

  predicate HasPersistence(e: Err) {
    match e
    case Persistence(_) => true
    case Plain(_) => false
    case Join(parts) => exists p | p in parts :: HasPersistence(p)
    case _ => HasPersistence(e.inner)
  }

  predicate IsUncertain(e: Option<Err>) { e.Some? && HasUncertain(e.value) }
  predicate IsStopped(e: Option<Err>) { e.Some? && !IsUncertain(e) && HasStopped(e.value) }
  predicate IsPersistence(e: Option<Err>) {
    e.Some? && !IsUncertain(e) && !IsStopped(e) && HasPersistence(e.value)
  }
  predicate IsTerminal(e: Option<Err>) { IsPersistence(e) || IsUncertain(e) || IsStopped(e) }

  datatype Kind = NoKind | ExecutionKind | PersistenceKind | StoppedKind | UncertainKind

  /** The kind string carried across HTTP. */
  function KindOf(e: Option<Err>): Kind {
    if IsUncertain(e) then UncertainKind
    else if IsStopped(e) then StoppedKind
    else if IsPersistence(e) then PersistenceKind
    else NoKind
  }

  predicate Typed(n: Err) { n.Uncertain? || n.Stopped? || n.Persistence? }

  lemma {:induction false} HasMeansOccurs(e: Err)
    ensures HasUncertain(e) <==> exists n :: Occurs(n, e) && n.Uncertain?
    ensures HasStopped(e) <==> exists n :: Occurs(n, e) && n.Stopped?
    ensures HasPersistence(e) <==> exists n :: Occurs(n, e) && n.Persistence?
  {
    assert Occurs(e, e);
    match e
    case Plain(_) =>
    case Join(parts) =>
      forall p | p in parts
        ensures HasUncertain(p) <==> exists n :: Occurs(n, p) && n.Uncertain?
        ensures HasStopped(p) <==> exists n :: Occurs(n, p) && n.Stopped?
        ensures HasPersistence(p) <==> exists n :: Occurs(n, p) && n.Persistence?
      { HasMeansOccurs(p); }
      forall n | exists p | p in parts :: Occurs(n, p) ensures Occurs(n, e) {}
    case _ =>
      HasMeansOccurs(e.inner);
      forall n | Occurs(n, e.inner) ensures Occurs(n, e) {}
  }

  /** A kind is reported exactly when some typed diagnostic occurs anywhere in the tree, and
      the most conservative one present decides: uncertain over stopped over persistence. */
  lemma {:induction false} KindIsMostConservative(e: Err)
    ensures KindOf(Some(e)) == UncertainKind <==> exists n :: Occurs(n, e) && n.Uncertain?
    ensures KindOf(Some(e)) == StoppedKind <==>
              (exists n :: Occurs(n, e) && n.Stopped?) && forall n | Occurs(n, e) :: !n.Uncertain?
    ensures KindOf(Some(e)) == PersistenceKind <==>
              (exists n :: Occurs(n, e) && n.Persistence?) && forall n | Occurs(n, e) :: !n.Uncertain? && !n.Stopped?
    ensures KindOf(Some(e)) == NoKind <==> !IsTerminal(Some(e))
    ensures KindOf(Some(e)) == NoKind <==> forall n | Occurs(n, e) :: !Typed(n)
  {
    HasMeansOccurs(e);
  }

  // ---- outcomes --------------------------------------------------------------------

  const RATE_LIMITED := "goap_fusion_rate_limited"

  predicate IsHealthyOutcome(outcome: string) {
    outcome in {"success", "completed", "no_change", "degraded"}
  }

  predicate IsRateLimitCarryover(outcome: string) { outcome == RATE_LIMITED }

  function Rank(outcome: string): nat {
    if outcome in {"failure", "timeout", "panic", "escalated"} then 70
    else if outcome == "aborted" then 60
    else if outcome == "partial" then 55
    else if outcome == "cancelled" then 50
    else if outcome == "rejected" then 40
    else if outcome == "auth-required" then 30
    else if outcome == "pending_approval" then 21
    else if outcome == "input-required" then 20
    else if outcome == RATE_LIMITED then 10
    else 0
  }

  predicate IsStoppedOutcome(outcome: string) { Rank(outcome) > 0 }

  predicate IsPausedOutcome(outcome: string) {
    outcome in {"input-required", "pending_approval", "auth-required", RATE_LIMITED}
  }

  /** What one node of the tree contributes to the joined disposition; "" for none. */
  function Candidate(n: Err): string {
    match n
    case Stopped(outcome, _) => if IsStoppedOutcome(outcome) then outcome else "aborted"
    case Persistence(_) => "aborted"
    case _ => ""
  }

  datatype Verdict = Verdict(outcome: string, rank: nat)

  function Raise(v: Verdict, n: Err): Verdict {
    if Rank(Candidate(n)) > v.rank then Verdict(Candidate(n), Rank(Candidate(n))) else v
  }

  /** The recursive walk of ExecutionStopOutcome: node first, then its children in order. */
  function Visit(e: Err, v: Verdict): Verdict
    decreases e, 1
  {
    var v' := Raise(v, e);
    match e
    case Plain(_) => v'
    case Join(parts) => VisitAll(parts, v')
    case _ => Visit(e.inner, v')
  }

  function VisitAll(parts: seq<Err>, v: Verdict): Verdict
    decreases parts, 0
  {
    if parts == [] then v else VisitAll(parts[1..], Visit(parts[0], v))
  }

  function StopOutcome(e: Option<Err>): string {
    if IsUncertain(e) then "uncertain"
    else if e.None? then "aborted"
    else Visit(e.value, Verdict("aborted", 0)).outcome
  }

  predicate IsPause(outcome: string, e: Option<Err>) {
    && IsPausedOutcome(outcome)
    && !IsUncertain(e)
    && if IsTerminal(e) then IsStopped(e) && StopOutcome(e) == outcome
       else e.None? || outcome == RATE_LIMITED
  }

  /** v is the strongest of v0 and everything the nodes selected by `inside` contribute. */
  ghost predicate Strongest(v: Verdict, v0: Verdict, inside: Err -> bool) {
    && v0.rank <= v.rank
    && (forall n: Err | inside(n) :: Rank(Candidate(n)) <= v.rank)
    && (v == v0 || exists n: Err :: inside(n) && Candidate(n) == v.outcome && Rank(v.outcome) == v.rank)
  }

  lemma {:induction false} VisitIsStrongest(e: Err, v: Verdict)
    ensures Strongest(Visit(e, v), v, n => Occurs(n, e))
    decreases e, 1
  {
    var v' := Raise(v, e);
    assert Occurs(e, e);
    match e
    case Plain(_) =>
    case Join(parts) =>
      VisitAllIsStrongest(parts, v');
      forall n: Err ensures Occurs(n, e) <==> n == e || exists p | p in parts :: Occurs(n, p) {}
    case _ =>
      VisitIsStrongest(e.inner, v');
      forall n: Err ensures Occurs(n, e) <==> n == e || Occurs(n, e.inner) {}
  }

  lemma {:induction false} VisitAllIsStrongest(parts: seq<Err>, v: Verdict)
    ensures Strongest(VisitAll(parts, v), v, n => exists p | p in parts :: Occurs(n, p))
    decreases parts, 0
  {
    if parts != [] {
      var v' := Visit(parts[0], v);
      VisitIsStrongest(parts[0], v);
      VisitAllIsStrongest(parts[1..], v');
      assert parts == [parts[0]] + parts[1..];
    }
  }

  /** The joined disposition of a stopped error is the highest-ranked one any branch reported. */
  lemma {:induction false} StopOutcomeIsWorstBranch(e: Err)
    requires IsStopped(Some(e))
    ensures IsStoppedOutcome(StopOutcome(Some(e)))
    ensures exists n :: Occurs(n, e) && Candidate(n) == StopOutcome(Some(e))
    ensures forall n | Occurs(n, e) :: Rank(Candidate(n)) <= Rank(StopOutcome(Some(e)))
  {
    VisitIsStrongest(e, Verdict("aborted", 0));
    HasMeansOccurs(e);
    var s :| Occurs(s, e) && s.Stopped?;
    assert Rank(Candidate(s)) > 0;
  }

  /** Up to the rank of a pause, a candidate is a paused outcome and no lost record. */
  lemma PausesRankLow(outcome: string, n: Err)
    requires IsPausedOutcome(outcome) && Rank(Candidate(n)) <= Rank(outcome)
    ensures !n.Persistence?
    ensures n.Stopped? ==> IsPausedOutcome(n.outcome) && Rank(n.outcome) <= Rank(outcome)
  {}

  /** A pause never hides failed, aborted or unknown work: with typed evidence present, no
      branch is uncertain, none lost its record, and none stopped harder than the pause. */
  lemma {:induction false} PauseHidesNothing(outcome: string, e: Err)
    requires IsPause(outcome, Some(e)) && IsTerminal(Some(e))
    ensures forall n | Occurs(n, e) :: !n.Uncertain? && !n.Persistence?
    ensures forall n | Occurs(n, e) && n.Stopped? :: IsPausedOutcome(n.outcome) && Rank(n.outcome) <= Rank(outcome)
  {
    StopOutcomeIsWorstBranch(e);
    HasMeansOccurs(e);
    forall n | Occurs(n, e)
      ensures !n.Persistence?
      ensures n.Stopped? ==> IsPausedOutcome(n.outcome) && Rank(n.outcome) <= Rank(outcome)
    {
      PausesRankLow(outcome, n);
    }
  }
}

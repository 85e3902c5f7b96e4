/**
 The unlink-on-release advisory lock (AcquireFileLock in internal/reliability/reliability.go),
 step by step over the inodes of its sidecar file: any number of openers, any crash.
*/
module FileLock {
  import opened Common

  type Inode = nat
  type Opener = nat

  /** Where one call stands: it opened the sidecar, locked that inode, verified that the path
      still names it and holds the lock, or has unlinked the path and is about to close. */
  datatype Phase = Idle | Opened(inode: Inode) | Locked(inode: Inode) | Holding(inode: Inode) | Unlinked(inode: Inode)

  /** The path's current inode, who holds the flock of which inode, and the next fresh inode. */
  datatype State = State(path: Option<Inode>, flocks: map<Inode, Opener>, next: Inode, phases: map<Opener, Phase>)

  function PhaseOf(s: State, p: Opener): Phase { if p in s.phases then s.phases[p] else Idle }

  datatype Move = Open | TryLock | Verify | Unlink(removes: bool) | Close | Crash

  predicate Enabled(s: State, p: Opener, m: Move) {
    match m
    case Open => PhaseOf(s, p).Idle?
    case TryLock => PhaseOf(s, p).Opened?
    case Verify => PhaseOf(s, p).Locked?
    case Unlink(_) => PhaseOf(s, p).Holding?
    case Close => PhaseOf(s, p).Unlinked?
    case Crash => true
  }

  /** Closing the descriptor releases the flock. */
  function Drop(flocks: map<Inode, Opener>, p: Opener): map<Inode, Opener> { map i | i in flocks && flocks[i] != p :: flocks[i] }

  function Apply(s: State, p: Opener, m: Move): State
    requires Enabled(s, p, m)
  {
    match m
    case Open =>
      if s.path.Some? then State(s.path, s.flocks, s.next, s.phases[p := Opened(s.path.value)])
      else State(Some(s.next), s.flocks, s.next + 1, s.phases[p := Opened(s.next)])
    case TryLock =>
      var i := PhaseOf(s, p).inode;
      if i in s.flocks then State(s.path, s.flocks, s.next, s.phases[p := Idle])
      else State(s.path, s.flocks[i := p], s.next, s.phases[p := Locked(i)])
    case Verify =>
      var i := PhaseOf(s, p).inode;
      if s.path == Some(i) then State(s.path, s.flocks, s.next, s.phases[p := Holding(i)])
      else State(s.path, Drop(s.flocks, p), s.next, s.phases[p := Idle])
    case Unlink(removes) =>
      State(if removes then None else s.path, s.flocks, s.next, s.phases[p := Unlinked(PhaseOf(s, p).inode)])
    case Close => State(s.path, Drop(s.flocks, p), s.next, s.phases[p := Idle])
    case Crash => State(s.path, Drop(s.flocks, p), s.next, s.phases[p := Idle])
  }

  datatype Step = Step(opener: Opener, move: Move)

  function Try(s: State, a: Step): State { if Enabled(s, a.opener, a.move) then Apply(s, a.opener, a.move) else s }

  function Run(s: State, steps: seq<Step>): State {
    if steps == [] then s else Try(Run(s, steps[..|steps| - 1]), steps[|steps| - 1])
  }

  const INITIAL := State(None, map[], 0, map[])

  predicate Owns(s: State, p: Opener, i: Inode) { i in s.flocks && s.flocks[i] == p }

  predicate LocalInv(s: State, p: Opener) {
    var ph := PhaseOf(s, p);
    && (!ph.Idle? ==> ph.inode < s.next)
    && (ph.Locked? || ph.Holding? || ph.Unlinked? ==> Owns(s, p, ph.inode))
    && (ph.Holding? ==> s.path == Some(ph.inode))
    && (forall i | i in s.flocks && s.flocks[i] == p :: (ph.Locked? || ph.Holding? || ph.Unlinked?) && ph.inode == i)
  }

  ghost predicate Inv(s: State) { (s.path.Some? ==> s.path.value < s.next) && forall p: Opener :: LocalInv(s, p) }

  /** A verified holder keeps the path: nobody else can unlink it, because nobody else can be
      verified on the same inode. */
  lemma StepKeepsInv(s: State, a: Step)
    requires Inv(s)
    ensures Inv(Try(s, a))
  {
    if Enabled(s, a.opener, a.move) {
      assert LocalInv(s, a.opener);
      forall p: Opener ensures LocalInv(Apply(s, a.opener, a.move), p) { assert LocalInv(s, p); }
    }
  }

  lemma {:induction false} RunKeepsInv(steps: seq<Step>)
    ensures Inv(Run(INITIAL, steps))
  {
    if steps != [] {
      RunKeepsInv(steps[..|steps| - 1]);
      StepKeepsInv(Run(INITIAL, steps[..|steps| - 1]), steps[|steps| - 1]);
    }
  }

  /** The lock excludes: however the openers interleave, crash and unlink, at most one of them
      is past verification and before its release. */
  lemma AtMostOneHolder(steps: seq<Step>, p: Opener, q: Opener)
    requires PhaseOf(Run(INITIAL, steps), p).Holding? && PhaseOf(Run(INITIAL, steps), q).Holding?
    ensures p == q
  {
    RunKeepsInv(steps);
    assert LocalInv(Run(INITIAL, steps), p) && LocalInv(Run(INITIAL, steps), q);
  }

  /** Without the verification after locking, two openers can both believe they hold it: the
      first unlinks its sidecar while the second waits on that inode, and a third creates a new
      one. */
  lemma VerificationIsNeeded()
    ensures var s := Run(INITIAL, [Step(1, Open), Step(1, TryLock), Step(1, Verify), Step(2, Open), Step(1, Unlink(true)),
                                   Step(1, Close), Step(2, TryLock), Step(3, Open), Step(3, TryLock)]);
      && PhaseOf(s, 2).Locked? && PhaseOf(s, 3).Locked?
      && !PhaseOf(Try(s, Step(2, Verify)), 2).Holding? && PhaseOf(Try(s, Step(3, Verify)), 3).Holding?
  {
    var all := [Step(1, Open), Step(1, TryLock), Step(1, Verify), Step(2, Open), Step(1, Unlink(true)),
                Step(1, Close), Step(2, TryLock), Step(3, Open), Step(3, TryLock)];
    RunNext(all, 0); RunNext(all, 1); RunNext(all, 2); RunNext(all, 3); RunNext(all, 4);
    RunNext(all, 5); RunNext(all, 6); RunNext(all, 7); RunNext(all, 8);
    assert all[..9] == all;
  }

  lemma RunNext(all: seq<Step>, i: nat)
    requires i < |all|
    ensures Run(INITIAL, all[..i + 1]) == Try(Run(INITIAL, all[..i]), all[i])
    ensures i == 0 ==> Run(INITIAL, all[..i]) == INITIAL
  {
    assert all[..i + 1][..i] == all[..i];
  }
}

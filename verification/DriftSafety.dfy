/** What any sequence of passes by one deploy-drift watcher keeps, and where its promises end. */
module DriftSafety {
  import opened Common
  import opened ExecutionErrors
  import opened RebuildGuard
  import opened DriftWatch

  predicate HasSelf(c: Config) { SelfPath(c) != "" }

  /** No other binary is built to the daemon's own path. */
  predicate OwnsSelfPath(c: Config) { forall t | t in c.targets && t.out == SelfPath(c) :: t.name == c.binary }

  predicate DistinctPaths(ts: seq<Target>) { forall i, j | 0 <= i < j < |ts| :: ts[i].out != ts[j].out }

  predicate From(d: Disk, path: string, head: string) { path in d.live && d.live[path].head == head }

  /** A restart of this daemon adopts its own binary as built from the head asked for and
      smoke-tested in the same pass, with nothing in flight and admission sealed. */
  predicate Safe(r: Request, c: Config) {
    r.SelfRequest? ==>
      && r.live.Some? && r.live.value.head == r.head
      && r.tested && !r.busy && (c.hasGuard ==> r.sealed)
  }

  predicate AllSafe(requests: seq<Request>, c: Config) { forall r | r in requests :: Safe(r, c) }

  predicate GuardInv(h: Host, c: Config) {
    c.limits.Some? ==>
      && Tracks(h.guard, h.log) && Paced(h.log, c.limits.value)
      && (h.guard.built ==> From(h.disk, SelfPath(c), h.guard.head))
  }

  predicate Inv(h: Host, c: Config) { GuardInv(h, c) && AllSafe(h.requests, c) }

  // ---- rebuilding ------------------------------------------------------------------------

  lemma {:induction false} RebuiltTargetsAreFromHead(d: Disk, ts: seq<Target>, n: nat, head: string)
    requires n <= |ts|
    ensures forall i | 0 <= i < n :: From(RebuiltUpTo(d, ts, n, head), ts[i].out, head)
  {
    if n > 0 { RebuiltTargetsAreFromHead(d, ts, n - 1, head); }
  }

  lemma {:induction false} TargetPathNames(ts: seq<Target>, binary: string, from: nat)
    requires from <= |ts|
    ensures TargetPath(ts, binary, from) != "" ==>
              exists i | from <= i < |ts| :: ts[i].name == binary && ts[i].out == TargetPath(ts, binary, from)
    decreases |ts| - from
  {
    if from < |ts| && ts[from].name != binary { TargetPathNames(ts, binary, from + 1); }
  }

  /** A rebuild that reached every target put the daemon's own binary on disk from head. */
  lemma RebuildCoversSelf(d: Disk, c: Config, bs: seq<Build>, head: string)
    requires HasSelf(c) && |bs| == |c.targets| && Reach(d, c.targets, bs, head, 0) == |c.targets|
    ensures From(Rebuilt(d, c.targets, bs, head), SelfPath(c), head)
  {
    RebuiltTargetsAreFromHead(d, c.targets, |c.targets|, head);
    TargetPathNames(c.targets, c.binary, 0);
  }

  // ---- the sweep ----------------------------------------------------------------------------

  /** The sweep touches neither the guard nor the daemon's own binary. */
  lemma {:induction false} SweepLeavesSelf(h: Host, c: Config, ws: seq<SiblingWorld>, head: string, n: nat)
    requires OwnsSelfPath(c) && n <= |c.targets| == |ws|
    ensures var t := SweptUpTo(h, c, ws, head, n);
      && t.guard == h.guard && t.log == h.log
      && OnDisk(t.disk, SelfPath(c)) == OnDisk(h.disk, SelfPath(c))
      && (AllSafe(h.requests, c) ==> AllSafe(t.requests, c))
  {
    if n > 0 {
      SweepLeavesSelf(h, c, ws, head, n - 1);
      assert c.targets[n - 1] in c.targets;
    }
  }

  // ---- one pass --------------------------------------------------------------------------------

  lemma RebuildKeepsInv(h: Host, c: Config, w: World, head: string)
    requires Inv(h, c) && HasSelf(c) && Fits(c, w)
    ensures match RebuildStage(h, c, w, head)
      case Stop(pass) => Inv(pass.host, c)
      case Proceed(next, rebuilt) =>
        Inv(next, c) && From(next.disk, SelfPath(c), head) && (c.limits.Some? ==> next.guard.head == head)
  {
    if AlreadyBuilt(h, c, head) { return; }
    var asked := AskGuard(h, c, head);
    if c.limits.Some? { AskingKeeps(h.guard, c.limits.value, h.log, head); }
    if !GuardAllows(h, c, w, head) || (c.hasInFlight && w.busyBefore) {
    } else if RebuildSucceeds(h.disk, c, w, head) {
      RebuildCoversSelf(h.disk, c, w.builds, head);
      if c.limits.Some? { SuccessKeeps(asked.guard, c.limits.value, asked.log); }
    } else if c.limits.Some? {
      FailureKeeps(asked.guard, c.limits.value, asked.log, w.tried, w.brokeAt);
    }
  }

  /** A smoke failure always follows a completed rebuild, so it is the first of its streak. */
  lemma SmokeFailureKeepsInv(h: Host, c: Config, w: World, head: string)
    requires Inv(h, c) && (c.limits.Some? ==> h.guard.head == head && h.guard.built)
    ensures Inv(NoteFailure(SetDisk(h, Restored(h.disk, SelfPath(c), w.restores)), c, head, w.smokedAt, w.smokedAt), c)
  {
    if c.limits.Some? { FailureKeeps(h.guard, c.limits.value, h.log, w.smokedAt, w.smokedAt); }
  }

  lemma RebuiltMeansBuilt(h: Host, c: Config, w: World, head: string)
    requires Fits(c, w) && RebuildStage(h, c, w, head).Proceed? && c.limits.Some?
    ensures BuiltAt(RebuildStage(h, c, w, head).host.guard, head)
  {}

  lemma RestartKeepsInv(h: Host, c: Config, w: World, head: string, rebuilt: bool)
    requires Inv(h, c) && OwnsSelfPath(c) && HasSelf(c) && Fits(c, w) && From(h.disk, SelfPath(c), head)
    requires w.smoke && !(c.hasInFlight && w.busyAfter) && (c.hasGuard ==> w.guard.Ready?)
    ensures Inv(RestartStage(h, c, w, head, rebuilt).host, c)
  {
    SweepLeavesSelf(h, c, w.siblings, head, |c.targets|);
  }

  lemma PassKeepsInv(h: Host, c: Config, w: World)
    requires Inv(h, c) && OwnsSelfPath(c) && HasSelf(c) && Fits(c, w)
    ensures Inv(Once(h, c, w).host, c)
  {
    if w.head.Some? {
      var head := w.head.value;
      RebuildKeepsInv(h, c, w, head);
      var stage := RebuildStage(h, c, w, head);
      if stage.Proceed? {
        if c.limits.Some? { RebuiltMeansBuilt(h, c, w, head); }
        SmokeFailureKeepsInv(stage.host, c, w, head);
        if w.smoke && !(c.hasInFlight && w.busyAfter) && (c.hasGuard ==> w.guard.Ready?) {
          RestartKeepsInv(stage.host, c, w, head, stage.rebuilt);
        }
      }
    }
  }

  predicate AllFit(c: Config, ws: seq<World>) { forall i | 0 <= i < |ws| :: Fits(c, ws[i]) }

  lemma {:induction false} WatchedInv(h: Host, c: Config, ws: seq<World>, n: nat)
    requires Inv(h, c) && OwnsSelfPath(c) && HasSelf(c) && AllFit(c, ws) && n <= |ws|
    ensures Inv(Watched(h, c, ws, n), c)
  {
    if n > 0 {
      WatchedInv(h, c, ws, n - 1);
      PassKeepsInv(Watched(h, c, ws, n - 1), c, ws[n - 1]);
    }
  }

  // ---- over all passes -----------------------------------------------------------------------------

  /** A daemon that has just started: an empty guard, whatever is on disk. */
  function Started(disk: Disk, stamps: map<string, string>): Host { Host(FRESH, disk, stamps, [], []) }

  /** Through partial rebuilds, deferrals and rollbacks: every self restart is safe, the built
      mark is true of the binary on disk, and failed attempts keep the guard's pace. */
  lemma EveryPassIsSafe(disk: Disk, stamps: map<string, string>, c: Config, ws: seq<World>)
    requires OwnsSelfPath(c) && HasSelf(c) && AllFit(c, ws)
    ensures var h := Watched(Started(disk, stamps), c, ws, |ws|);
      && AllSafe(h.requests, c)
      && (forall head :: AlreadyBuilt(h, c, head) ==> From(h.disk, SelfPath(c), head))
      && (c.limits.Some? ==> Paced(h.log, c.limits.value))
  {
    WatchedInv(Started(disk, stamps), c, ws, |ws|);
  }

  predicate AsksForItself(h: Host, after: Host) {
    |after.requests| > |h.requests| && after.requests[|after.requests| - 1].SelfRequest?
  }

  lemma {:induction false} SweepAppendsRequests(h: Host, c: Config, ws: seq<SiblingWorld>, head: string, n: nat)
    requires n <= |c.targets| == |ws|
    ensures var t := SweptUpTo(h, c, ws, head, n);
      h.requests <= t.requests && forall i | |h.requests| <= i < |t.requests| :: t.requests[i].SiblingRequest?
  {
    if n > 0 { SweepAppendsRequests(h, c, ws, head, n - 1); }
  }

  /** What the guard's callback is told about the restart asked for, if one was. */
  predicate SealFollowsHandoff(requests: seq<Request>, p: Pass, c: Config, restart: Option<Err>) {
    var asked := |p.host.requests| > |requests| && p.host.requests[|p.host.requests| - 1].SelfRequest?;
    && (p.finish.Some? <==> c.hasGuard && asked)
    && (p.finish.Some? ==> (p.finish.value <==> p.result.restarted || IsUncertain(restart)))
    && (p.result.restarted ==> asked && p.host.requests[|p.host.requests| - 1].accepted)
  }

  lemma AdoptionFollowsHandoff(h: Host, c: Config, w: World, head: string, rebuilt: bool)
    requires Fits(c, w)
    ensures SealFollowsHandoff(h.requests, AdoptStage(h, c, w, head, rebuilt), c, w.restart)
  {
    SweepAppendsRequests(h, c, w.siblings, head, |c.targets|);
  }

  lemma RebuildAsksForNothing(h: Host, c: Config, w: World, head: string)
    requires Fits(c, w)
    ensures match RebuildStage(h, c, w, head)
      case Stop(pass) => pass.host.requests == h.requests && pass.finish.None? && !pass.result.restarted
      case Proceed(next, _) => next.requests == h.requests
  {}

  /** The guard's callback is used exactly when a guarded restart was asked for, and keeps the
      seal exactly when that handoff was accepted or its outcome is unknown. */
  lemma SealIsKeptOnlyForAHandoff(h: Host, c: Config, w: World)
    requires Fits(c, w)
    ensures SealFollowsHandoff(h.requests, Once(h, c, w), c, w.restart)
  {
    if w.head.Some? {
      RebuildAsksForNothing(h, c, w, w.head.value);
      var stage := RebuildStage(h, c, w, w.head.value);
      if stage.Proceed? { AdoptionFollowsHandoff(stage.host, c, w, w.head.value, stage.rebuilt); }
    }
  }

  // ---- where the promises end ------------------------------------------------------------------------

  /** A daemon missing from its own target list is restarted untested: the smoke test guards a
      self restart exactly when the list names the daemon. */
  lemma SelfTestNeedsATarget(h: Host, c: Config, w: World)
    requires Fits(c, w) && AsksForItself(h, Once(h, c, w).host)
    ensures Once(h, c, w).host.requests[|Once(h, c, w).host.requests| - 1].tested <==> HasSelf(c)
  {
    var stage := RebuildStage(h, c, w, w.head.value);
    if stage.Proceed? { SweepAppendsRequests(stage.host, c, w.siblings, w.head.value, |c.targets|); }
  }

  /** With distinct paths, what is on disk at target i after the rebuild, and its backup. */
  lemma {:induction false} RebuildBacksUpWhatWasLive(d: Disk, ts: seq<Target>, n: nat, head: string, i: nat)
    requires DistinctPaths(ts) && n <= |ts| && i < |ts|
    ensures var r := RebuiltUpTo(d, ts, n, head);
      if i < n then
        && OnDisk(r, ts[i].out) == Some(Artifact(ts[i].pkg, head))
        && (if ts[i].out in d.live then ts[i].out in r.previous && r.previous[ts[i].out] == d.live[ts[i].out]
            else (ts[i].out in r.previous <==> ts[i].out in d.previous) &&
                 (ts[i].out in d.previous ==> r.previous[ts[i].out] == d.previous[ts[i].out]))
      else
        && OnDisk(r, ts[i].out) == OnDisk(d, ts[i].out)
        && (ts[i].out in r.previous <==> ts[i].out in d.previous)
        && (ts[i].out in d.previous ==> r.previous[ts[i].out] == d.previous[ts[i].out])
  {
    if n > 0 {
      RebuildBacksUpWhatWasLive(d, ts, n - 1, head, i);
      assert ts[n - 1].out == ts[i].out <==> i == n - 1;
    }
  }

  /** The daemon's own binary after a pass that ends in a smoke failure. */
  function RolledBack(d: Disk, path: string, built: Option<Artifact>, restores: bool): Option<Artifact> {
    if restores && built.Some? && path in d.live then Some(d.live[path])
    else if restores && path in d.previous then Some(d.previous[path])
    else if built.Some? then built
    else OnDisk(d, path)
  }

  /** A rollback puts back what the pass started with if it rebuilt, and the backup left by the
      last rebuild if it did not; without a backup, or when restoring fails, the binary that
      failed its test stays. So the broken revision is gone from disk exactly when what is put
      back is another one, which after a partial rebuild of the same head it is not. */
  lemma RollbackRestoresThePassStart(h: Host, c: Config, w: World)
    requires Fits(c, w) && DistinctPaths(c.targets) && HasSelf(c) && Once(h, c, w).error == Some(SmokeFailed)
    ensures var self, after, rebuilt := SelfPath(c), Once(h, c, w).host.disk, Once(h, c, w).result.rebuilt;
      && (exists built: Artifact ::
            built.head == w.head.value && OnDisk(after, self) == RolledBack(h.disk, self, if rebuilt then Some(built) else None, w.restores))
      && (From(after, self, w.head.value) <==>
            if w.restores && rebuilt && self in h.disk.live then From(h.disk, self, w.head.value)
            else if w.restores && self in h.disk.previous then h.disk.previous[self].head == w.head.value
            else rebuilt || From(h.disk, self, w.head.value))
  {
    var self, head := SelfPath(c), w.head.value;
    TargetPathNames(c.targets, c.binary, 0);
    var i :| 0 <= i < |c.targets| && c.targets[i].out == self;
    RebuildBacksUpWhatWasLive(h.disk, c.targets, |c.targets|, head, i);
    var built := Artifact(c.targets[i].pkg, head);
    var rebuilt := Once(h, c, w).result.rebuilt;
    assert OnDisk(Once(h, c, w).host.disk, self) == RolledBack(h.disk, self, if rebuilt then Some(built) else None, w.restores);
  }

  /** A sibling is not asked again for a head it is stamped with, nor restarted untested. */
  lemma SweepRespectsStamps(h: Host, c: Config, t: Target, sw: SiblingWorld, head: string)
    ensures Sweep(h, c, t, sw, head).requests != h.requests ==>
              && Stamp(h.stamps, t.unit) != head && sw.smoke && t.name != c.binary && t.unit != ""
              && Sweep(h, c, t, sw, head).disk == h.disk
  {}

  lemma {:induction false} SweepLeavesLaterTargets(h: Host, c: Config, ws: seq<SiblingWorld>, head: string, n: nat, i: nat)
    requires DistinctPaths(c.targets) && n <= i < |c.targets| == |ws|
    ensures OnDisk(SweptUpTo(h, c, ws, head, n).disk, c.targets[i].out) == OnDisk(h.disk, c.targets[i].out)
  {
    if n > 0 {
      SweepLeavesLaterTargets(h, c, ws, head, n - 1, i);
      assert c.targets[n - 1].out != c.targets[i].out;
    }
  }

  /** The binary a sibling is asked to adopt is the one on disk when the sweep started; so it
      comes from the head it will be stamped with exactly when this pass rebuilt it, or the
      disk held it already. The built mark of the watcher does not imply that. It is asked only if
      it has no stamp for that head, and after its smoke test. */
  lemma SiblingAdoptsWhatIsOnDisk(h: Host, c: Config, w: World, i: nat, next: Host, rebuilt: bool)
    requires Fits(c, w) && DistinctPaths(c.targets) && i < |c.targets| && w.head.Some?
    requires RebuildStage(h, c, w, w.head.value) == Proceed(next, rebuilt)
    requires var before := SweptUpTo(next, c, w.siblings, w.head.value, i);
      Sweep(before, c, c.targets[i], w.siblings[i], w.head.value).requests != before.requests
    ensures var head := w.head.value;
      var before := SweptUpTo(next, c, w.siblings, head, i);
      var asked := Sweep(before, c, c.targets[i], w.siblings[i], head).requests;
      && |asked| == |before.requests| + 1
      && Stamp(before.stamps, c.targets[i].unit) != head && w.siblings[i].smoke
      && (asked[|before.requests|].live.Some? && asked[|before.requests|].live.value.head == head <==>
            rebuilt || From(h.disk, c.targets[i].out, head))
  {
    var head := w.head.value;
    SweepLeavesLaterTargets(next, c, w.siblings, head, i, i);
    SweepRespectsStamps(SweptUpTo(next, c, w.siblings, head, i), c, c.targets[i], w.siblings[i], head);
    if rebuilt { RebuiltTargetsAreFromHead(h.disk, c.targets, |c.targets|, head); }
  }

  // ---- a head whose binaries build but do not start ---------------------------------------------------

  function Builds(log: seq<Event>): nat {
    if log == [] then 0 else Builds(log[..|log| - 1]) + if log[|log| - 1].Built? then 1 else 0
  }

  /** A pass that rebuilds everything and then fails the smoke test. */
  predicate Crashes(c: Config, w: World, head: string) {
    && Fits(c, w) && w.head == Some(head) && IsStale(c.running, head, w.headTree, w.runTree)
    && c.autoRebuild && c.autoRestart && !(c.hasInFlight && w.busyBefore)
    && w.materializes && !w.smoke
    && forall b | b in w.builds :: b.compiles && b.backsUp && b.swaps
  }

  lemma {:induction false} GoodBuildsReachTheEnd(d: Disk, ts: seq<Target>, bs: seq<Build>, head: string, n: nat)
    requires n <= |ts| == |bs| && forall b | b in bs :: b.compiles && b.backsUp && b.swaps
    ensures Reach(d, ts, bs, head, n) == |ts|
    decreases |ts| - n
  {
    if n < |ts| { GoodBuildsReachTheEnd(d, ts, bs, head, n + 1); }
  }

  lemma CrashCosts(h: Host, c: Config, w: World, head: string)
    requires HasSelf(c) && Crashes(c, w, head) && c.limits.Some?
    requires !BuiltAt(h.guard, head) && h.guard.head == head && Allowed(h.guard, c.limits.value, head, w.tried)
    ensures var t := Once(h, c, w).host;
      t.guard == Guard(head, 1, w.smokedAt, false) && Builds(t.log) == Builds(h.log) + 1 && t.requests == h.requests
  {
    GoodBuildsReachTheEnd(h.disk, c.targets, w.builds, head, 0);
    Snoc(h.log, Built(head));
    Snoc(h.log + [Built(head)], Broke(head, w.smokedAt, w.smokedAt));
  }

  /** The i-th pass crashes, at least `gap` after the failure before it. */
  predicate CrashesApart(c: Config, ws: seq<World>, i: nat, head: string, first: int, gap: int)
    requires i < |ws|
  {
    Crashes(c, ws[i], head) && ws[i].tried - (if i == 0 then first else ws[i - 1].smokedAt) >= gap
  }

  /** The attempt limit does not bound rebuilds across smoke failures: passes that come one
      base delay apart rebuild the same head every time, as often as one likes. */
  lemma {:induction false} CrashingHeadIsRebuiltForEver(h: Host, c: Config, ws: seq<World>, head: string, n: nat)
    requires HasSelf(c) && c.limits.Some? && c.limits.value.maxAttempts > 1
    requires h.guard == Guard(head, 1, h.guard.lastFail, false)
    requires n <= |ws| && AllFit(c, ws)
    requires forall i | 0 <= i < |ws| :: CrashesApart(c, ws, i, head, h.guard.lastFail, Delay(c.limits.value, 1))
    ensures var t := Watched(h, c, ws, n);
      && Builds(t.log) == Builds(h.log) + n && t.requests == h.requests
      && t.guard == Guard(head, 1, if n == 0 then h.guard.lastFail else ws[n - 1].smokedAt, false)
  {
    if n > 0 {
      CrashingHeadIsRebuiltForEver(h, c, ws, head, n - 1);
      var w := ws[n - 1];
      assert CrashesApart(c, ws, n - 1, head, h.guard.lastFail, Delay(c.limits.value, 1));
      CrashCosts(Watched(h, c, ws, n - 1), c, w, head);
    }
  }

  // ---- the deployed target lists ---------------------------------------------------------------------

  function DaemonTarget(repo: string, name: string): Target { Target(name, "./cmd/" + name, repo + "/bin/" + name, name) }

  function DefaultTargets(repo: string): seq<Target> {
    [DaemonTarget(repo, "bt-agent"), Target("bt-agent-cli", "./cmd/bt-agent-cli", repo + "/bt-agent-cli", ""),
     DaemonTarget(repo, "bt-gardener"), DaemonTarget(repo, "bt-dashboard")]
  }

  lemma SuffixesDiffer(repo: string, a: string, b: string)
    requires a != b
    ensures repo + a != repo + b
  {
    assert (repo + a)[|repo|..] == a && (repo + b)[|repo|..] == b;
  }

  /** The fleet sweep's list names the daemon and gives every binary its own path. */
  lemma DefaultTargetsAreDistinct(repo: string)
    ensures DistinctPaths(DefaultTargets(repo))
    ensures forall c: Config | c.targets == DefaultTargets(repo) && c.binary == "bt-agent" :: HasSelf(c) && OwnsSelfPath(c)
  {
    var suffixes := ["/bin/" + "bt-agent", "/bt-agent-cli", "/bin/" + "bt-gardener", "/bin/" + "bt-dashboard"];
    var ts := DefaultTargets(repo);
    forall i, j | 0 <= i < j < |ts| ensures ts[i].out != ts[j].out {
      assert suffixes[0][5] == 'b' && suffixes[0][8] == 'a' && suffixes[2][8] == 'g' && suffixes[3][8] == 'd' && suffixes[1][2] == 't';
      assert suffixes[0][2] == 'i' && suffixes[2][2] == 'i' && suffixes[3][2] == 'i';
      SuffixesDiffer(repo, suffixes[i], suffixes[j]);
    }
  }

  /** The dashboard and the gardener each build only their own binary. */
  lemma OwnTargetIsEnough(repo: string, c: Config)
    requires c.targets == [DaemonTarget(repo, c.binary)]
    ensures DistinctPaths(c.targets) && HasSelf(c) && OwnsSelfPath(c)
  {
    assert SelfPath(c) == repo + "/bin/" + c.binary;
  }

  /** Two binaries, and a watcher that owns the first. */
  const A := Target("a", "./a", "/bin/a", "a")
  const B := Target("b", "./b", "/bin/b", "b")
  const PAIR := Config("old", true, [A, B], "a", Some(DEFAULTS), false, false, true, true, true)

  /** Everything goes well but the answers about the sibling and the restart of the daemon. */
  function Tick(siblingSmoke: bool): World {
    World(Some("new"), None, None, 0, false, true, [Build(true, true, true), Build(true, true, true)], 0, true, true, 0,
          false, Ready, [SiblingWorld(true, true, None, true), SiblingWorld(siblingSmoke, true, None, true)],
          Some(Plain("refused")), true)
  }

  function OldDisk(): Disk { Disk(map["/bin/a" := Artifact("./a", "old"), "/bin/b" := Artifact("./b", "old")], map[]) }

  lemma PairIsRebuilt(d: Disk)
    requires A.out in d.live && B.out in d.live
    ensures var bs := Tick(true).builds;
      && Reach(d, [A, B], bs, "new", 0) == 2
      && Rebuilt(d, [A, B], bs, "new") == Swapped(Swapped(d, A, "new"), B, "new")
  {
    assert RebuiltUpTo(d, [A, B], 1, "new") == Swapped(d, A, "new");
    assert Reach(d, [A, B], Tick(true).builds, "new", 2) == 2;
    assert Reach(d, [A, B], Tick(true).builds, "new", 1) == 2;
  }

  lemma PairIsSwept(h: Host, siblingSmoke: bool)
    ensures SweptUpTo(h, PAIR, Tick(siblingSmoke).siblings, "new", 2) ==
              Sweep(h, PAIR, B, SiblingWorld(siblingSmoke, true, None, true), "new")
  {
    assert SweptUpTo(h, PAIR, Tick(siblingSmoke).siblings, "new", 1) == h;
  }

  /** Rolling a sibling back clears no mark, so the next pass of an unadopted head can restart
      the sibling on its old binary and stamp it as adopted. */
  lemma StampCanNameARevisionNotOnDisk()
    ensures OwnsSelfPath(PAIR) && HasSelf(PAIR) && DistinctPaths(PAIR.targets)
    ensures var h := Watched(Started(OldDisk(), map[]), PAIR, [Tick(false), Tick(true)], 2);
      Stamp(h.stamps, "b") == "new" && From(h.disk, "/bin/b", "old") && AlreadyBuilt(h, PAIR, "new")
  {
    var s := Started(OldDisk(), map[]);
    var h1 := Once(s, PAIR, Tick(false)).host;
    var ws := [Tick(false), Tick(true)];
    PairIsRebuilt(OldDisk());
    PairIsSwept(RebuildStage(s, PAIR, Tick(false), "new").host, false);
    assert From(h1.disk, "/bin/b", "old") && BuiltAt(h1.guard, "new") && h1.stamps == map[];
    PairIsSwept(h1, true);
    assert Watched(s, PAIR, ws, 1) == h1 by { assert Watched(s, PAIR, ws, 0) == s; }
  }

  // ---- a rollback to the broken revision ---------------------------------------------------------------

  /** The first binary is swapped, the second does not compile. */
  function Halfway(): World { Tick(true).(builds := [Build(true, true, true), Build(false, true, true)]) }

  /** A minute later both build, and the daemon's own does not start. */
  function Retry(): World { Tick(true).(tried := MINUTE, smoke := false) }

  lemma HalfwayLeavesTheNewBinary()
    ensures var s := Once(Started(OldDisk(), map[]), PAIR, Halfway());
      && s.error == Some(RebuildFailed) && s.host.disk == Swapped(OldDisk(), A, "new")
      && s.host.guard == Guard("new", 1, 0, false)
  {
    var d, bs := OldDisk(), Halfway().builds;
    NewHeadIsAlwaysAllowed(FRESH, DEFAULTS, "new", 0);
    assert RebuiltUpTo(d, [A, B], 1, "new") == Swapped(d, A, "new");
    assert Reach(d, [A, B], bs, "new", 1) == 1;
    assert Reach(d, [A, B], bs, "new", 0) == 1;
  }

  /** The rollback after the second pass puts the broken revision back over itself, and the old
      binary is not even a backup any more. */
  lemma RollbackCanKeepTheBrokenRevision()
    ensures var s := Started(OldDisk(), map[]);
      var ws := [Halfway(), Retry()];
      var last := Once(Watched(s, PAIR, ws, 1), PAIR, Retry());
      && last.error == Some(SmokeFailed) && last.result.rebuilt && Retry().restores
      && last.host == Watched(s, PAIR, ws, 2)
      && From(OldDisk(), "/bin/a", "old") && From(last.host.disk, "/bin/a", "new")
      && "/bin/a" in last.host.disk.previous && last.host.disk.previous["/bin/a"].head == "new"
  {
    var s := Started(OldDisk(), map[]);
    var ws := [Halfway(), Retry()];
    HalfwayLeavesTheNewBinary();
    assert Watched(s, PAIR, ws, 1) == Once(s, PAIR, Halfway()).host by { assert Watched(s, PAIR, ws, 0) == s; }
    DefaultsFit();
    PairIsRebuilt(Swapped(OldDisk(), A, "new"));
  }
}

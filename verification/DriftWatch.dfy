/**
 One deploy-drift watcher as a value (internal/agent/deploy_drift.go, rebuild.go): what a pass
 does to the guard, the binaries on disk, the adoption stamps and the restart requests.
*/
module DriftWatch {
  import opened Common
  import opened ExecutionErrors
  import opened RebuildGuard

  datatype Target = Target(name: string, pkg: string, out: string, unit: string)

  /** A binary on disk: the package it was built from and the revision of that source. */
  datatype Artifact = Artifact(pkg: string, head: string)

  /** Live binaries and their <bin>.previous backups, by output path. */
  datatype Disk = Disk(live: map<string, Artifact>, previous: map<string, Artifact>)

  datatype Config = Config(running: string, autoRebuild: bool, targets: seq<Target>, binary: string, limits: Option<Limits>,
                           hasInFlight: bool, hasGuard: bool, restartSiblings: bool, hasSiblingFn: bool, autoRestart: bool)

  function TargetPath(ts: seq<Target>, binary: string, from: nat): string
    requires from <= |ts|
    decreases |ts| - from
  {
    if from == |ts| then "" else if ts[from].name == binary then ts[from].out else TargetPath(ts, binary, from + 1)
  }

  /** The daemon's own binary: the first target of its name. */
  function SelfPath(c: Config): string { TargetPath(c.targets, c.binary, 0) }

  // ---- what the environment answers ----------------------------------------------------

  /** One target of a rebuild: the build, the backup of an existing binary, the swap. */
  datatype Build = Build(compiles: bool, backsUp: bool, swaps: bool)

  datatype SiblingWorld = SiblingWorld(smoke: bool, restores: bool, restart: Option<Err>, stamps: bool)
  datatype GuardAnswer = NotReady | ReadyWithoutFinish | Ready

  datatype World = World(head: Option<string>, headTree: Option<string>, runTree: Option<string>,
                         tried: int, busyBefore: bool, materializes: bool, builds: seq<Build>, brokeAt: int,
                         smoke: bool, restores: bool, smokedAt: int, busyAfter: bool, guard: GuardAnswer,
                         siblings: seq<SiblingWorld>, restart: Option<Err>, stamps: bool)

  predicate Fits(c: Config, w: World) { |w.builds| == |c.targets| == |w.siblings| }

  // ---- detection --------------------------------------------------------------------------

  /** Stale means a comparable revision with different content; trees decide only if both resolve. */
  predicate IsStale(running: string, head: string, headTree: Option<string>, runTree: Option<string>) {
    && running != "" && running != "unknown" && running != head
    && !(headTree.Some? && runTree.Some? && headTree == runTree)
  }

  // ---- rebuilding ---------------------------------------------------------------------------

  function Backed(d: Disk, t: Target): Disk {
    if t.out in d.live then Disk(d.live, d.previous[t.out := d.live[t.out]]) else d
  }

  function Swapped(d: Disk, t: Target, head: string): Disk {
    Disk(d.live[t.out := Artifact(t.pkg, head)], Backed(d, t).previous)
  }

  /** The disk once the first n targets have been rebuilt and swapped. */
  function RebuiltUpTo(d: Disk, ts: seq<Target>, n: nat, head: string): Disk
    requires n <= |ts|
  {
    if n == 0 then d else Swapped(RebuiltUpTo(d, ts, n - 1, head), ts[n - 1], head)
  }

  predicate Swappable(d: Disk, t: Target, b: Build) { b.compiles && (t.out in d.live ==> b.backsUp) && b.swaps }

  /** How many targets a rebuild swaps before its first failure. */
  function Reach(d: Disk, ts: seq<Target>, bs: seq<Build>, head: string, n: nat): nat
    requires n <= |ts| == |bs|
    ensures n <= Reach(d, ts, bs, head, n) <= |ts|
    decreases |ts| - n
  {
    if n == |ts| || !Swappable(RebuiltUpTo(d, ts, n, head), ts[n], bs[n]) then n else Reach(d, ts, bs, head, n + 1)
  }

  /** The disk a rebuild leaves: a failing target may have been backed up, but never swapped. */
  function Rebuilt(d: Disk, ts: seq<Target>, bs: seq<Build>, head: string): Disk
    requires |ts| == |bs|
  {
    var n := Reach(d, ts, bs, head, 0);
    var reached := RebuiltUpTo(d, ts, n, head);
    if n < |ts| && bs[n].compiles && bs[n].backsUp then Backed(reached, ts[n]) else reached
  }

  // ---- requests to restart ------------------------------------------------------------------

  /** What was true when a restart was asked for, of this daemon or of a sibling unit: the binary
      on disk, whether it passed its smoke test, whether anything was in flight, and whether the
      restart guard said it had sealed admission. */
  datatype Request =
    | SelfRequest(head: string, live: Option<Artifact>, tested: bool, busy: bool, sealed: bool, accepted: bool)
    | SiblingRequest(unit: string, head: string, live: Option<Artifact>, accepted: bool)

  function OnDisk(d: Disk, path: string): Option<Artifact> { if path in d.live then Some(d.live[path]) else None }

  function Restored(d: Disk, path: string, restores: bool): Disk {
    if restores && path in d.previous then Disk(d.live[path := d.previous[path]], d.previous) else d
  }

  /** Everything one watcher changes: its guard, the disk, the stamps; with the record of its
      rebuild attempts and restart requests. */
  datatype Host = Host(guard: Guard, disk: Disk, stamps: map<string, string>, log: seq<Event>, requests: seq<Request>)

  function Stamp(stamps: map<string, string>, unit: string): string { if unit in stamps then stamps[unit] else "" }

  predicate Skips(h: Host, c: Config, t: Target, head: string) {
    t.unit == "" || t.name == c.binary || Stamp(h.stamps, t.unit) == head || !c.hasSiblingFn
  }

  /** One target of the fleet sweep. */
  function Sweep(h: Host, c: Config, t: Target, sw: SiblingWorld, head: string): Host {
    if Skips(h, c, t, head) then h
    else if !sw.smoke then Host(h.guard, Restored(h.disk, t.out, sw.restores), h.stamps, h.log, h.requests)
    else Host(h.guard, h.disk, if sw.restart.None? && sw.stamps then h.stamps[t.unit := head] else h.stamps, h.log,
              h.requests + [SiblingRequest(t.unit, head, OnDisk(h.disk, t.out), sw.restart.None?)])
  }

  function SweptUpTo(h: Host, c: Config, ws: seq<SiblingWorld>, head: string, n: nat): Host
    requires n <= |c.targets| == |ws|
  {
    if n == 0 then h else Sweep(SweptUpTo(h, c, ws, head, n - 1), c, c.targets[n - 1], ws[n - 1], head)
  }

  // ---- one pass ------------------------------------------------------------------------------

  datatype PassError = HeadUnresolved | RebuildFailed | SmokeFailed | NoFinish | RestartFailed(cause: Err)

  datatype DriftResult = DriftResult(head: string, stale: bool, rebuilt: bool, restarted: bool)

  /** What a pass returns; `finish` is the argument the restart guard's callback was given. */
  datatype Pass = Pass(host: Host, result: DriftResult, error: Option<PassError>, finish: Option<bool>)

  /** After the rebuild stage: go on to adoption, or stop with this pass. */
  datatype Stage = Proceed(host: Host, rebuilt: bool) | Stop(pass: Pass)

  function GuardAllows(h: Host, c: Config, w: World, head: string): bool {
    c.limits.None? || Allowed(h.guard, c.limits.value, head, w.tried)
  }

  function AskGuard(h: Host, c: Config, head: string): Host {
    if c.limits.None? then h
    else Host(Asked(h.guard, head), h.disk, h.stamps, if head != h.guard.head then h.log + [Moved(head)] else h.log, h.requests)
  }

  function NoteFailure(h: Host, c: Config, head: string, tried: int, at: int): Host {
    if c.limits.None? then h
    else Host(Failed(h.guard, head, at), h.disk, h.stamps, h.log + [Broke(head, tried, at)], h.requests)
  }

  function NoteSuccess(h: Host, c: Config, head: string): Host {
    if c.limits.None? then h else Host(Succeeded(h.guard, head), h.disk, h.stamps, h.log + [Built(head)], h.requests)
  }

  function SetDisk(h: Host, d: Disk): Host { Host(h.guard, d, h.stamps, h.log, h.requests) }

  predicate AlreadyBuilt(h: Host, c: Config, head: string) { c.limits.Some? && BuiltAt(h.guard, head) }

  predicate RebuildSucceeds(d: Disk, c: Config, w: World, head: string)
    requires Fits(c, w)
  {
    w.materializes && Reach(d, c.targets, w.builds, head, 0) == |c.targets|
  }

  /** One attempt: the disk it leaves, and the guard told how it went. */
  function Attempt(h: Host, c: Config, w: World, head: string): Host
    requires Fits(c, w)
  {
    var tried := if w.materializes then SetDisk(h, Rebuilt(h.disk, c.targets, w.builds, head)) else h;
    if RebuildSucceeds(h.disk, c, w, head) then NoteSuccess(tried, c, head)
    else NoteFailure(tried, c, head, w.tried, w.brokeAt)
  }

  function RebuildStage(h: Host, c: Config, w: World, head: string): Stage
    requires Fits(c, w)
  {
    var quiet := DriftResult(head, true, false, false);
    if AlreadyBuilt(h, c, head) then Proceed(h, false)
    else
      var asked := AskGuard(h, c, head);
      if !GuardAllows(h, c, w, head) || (c.hasInFlight && w.busyBefore) then Stop(Pass(asked, quiet, None, None))
      else
        var next := Attempt(asked, c, w, head);
        if RebuildSucceeds(asked.disk, c, w, head) then Proceed(next, true)
        else Stop(Pass(next, quiet, Some(RebuildFailed), None))
  }

  /** Restarting: siblings first, this daemon last; the seal is kept only for an accepted or
      uncertain handoff. */
  function RestartStage(h: Host, c: Config, w: World, head: string, rebuilt: bool): Pass
    requires Fits(c, w)
  {
    var swept := if c.restartSiblings then SweptUpTo(h, c, w.siblings, head, |c.targets|) else h;
    var accepted := w.restart.None?;
    var request := SelfRequest(head, OnDisk(swept.disk, SelfPath(c)), SelfPath(c) != "" && w.smoke, c.hasInFlight && w.busyAfter,
                               c.hasGuard && w.guard.Ready?, accepted);
    Pass(Host(swept.guard, swept.disk, if accepted && w.stamps then swept.stamps[c.binary := head] else swept.stamps,
              swept.log, swept.requests + [request]),
         DriftResult(head, true, rebuilt, accepted),
         if accepted then None else Some(RestartFailed(w.restart.value)),
         if c.hasGuard then Some(accepted || IsUncertain(w.restart)) else None)
  }

  function AdoptStage(h: Host, c: Config, w: World, head: string, rebuilt: bool): Pass
    requires Fits(c, w)
  {
    var res := DriftResult(head, true, rebuilt, false);
    if SelfPath(c) != "" && !w.smoke then
      Pass(NoteFailure(SetDisk(h, Restored(h.disk, SelfPath(c), w.restores)), c, head, w.smokedAt, w.smokedAt),
           res, Some(SmokeFailed), None)
    else if c.hasInFlight && w.busyAfter then Pass(h, res, None, None)
    else if c.hasGuard && w.guard.NotReady? then Pass(h, res, None, None)
    else if c.hasGuard && w.guard.ReadyWithoutFinish? then Pass(h, res, Some(NoFinish), None)
    else RestartStage(h, c, w, head, rebuilt)
  }

  function Once(h: Host, c: Config, w: World): Pass
    requires Fits(c, w)
  {
    if w.head.None? then Pass(h, DriftResult("", false, false, false), Some(HeadUnresolved), None)
    else
      var head := w.head.value;
      var stale := IsStale(c.running, head, w.headTree, w.runTree);
      if !stale || !c.autoRebuild then Pass(h, DriftResult(head, stale, false, false), None, None)
      else
        match RebuildStage(h, c, w, head)
        case Stop(pass) => pass
        case Proceed(next, rebuilt) =>
          if !c.autoRestart then Pass(next, DriftResult(head, true, rebuilt, false), None, None)
          else AdoptStage(next, c, w, head, rebuilt)
  }

  /** Any sequence of passes by one watcher. */
  function Watched(h: Host, c: Config, ws: seq<World>, n: nat): Host
    requires n <= |ws| && forall i | 0 <= i < |ws| :: Fits(c, ws[i])
  {
    if n == 0 then h else Once(Watched(h, c, ws, n - 1), c, ws[n - 1]).host
  }
}

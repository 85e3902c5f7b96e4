/**
 The watcher as it runs: RebuildBinaries, the fleet sweep and DriftWatchOnce in place over the
 disk, the stamps and the shared backoff, each proved against its value in DriftWatch.
*/
module DriftWatcher {
  import opened Common
  import opened ExecutionErrors
  import opened RebuildGuard
  import opened DriftWatch
  import opened DriftSafety

  class Watcher {
    const config: Config
    const backoff: RebuildBackoff
    var live: map<string, Artifact>
    var previous: map<string, Artifact>
    var stamps: map<string, string>
    ghost var log: seq<Event>
    ghost var requests: seq<Request>

    /** The backoff enforces the configured limits; without limits it is never consulted. */
    ghost predicate Wired() { config.limits.Some? ==> backoff.limits == config.limits.value }

    ghost function Value(): Host
      reads this, backoff
    {
      Host(backoff.Value(), Disk(live, previous), stamps, log, requests)
    }

    constructor (config: Config, backoff: RebuildBackoff, disk: Disk, stamps: map<string, string>)
      requires (config.limits.Some? ==> backoff.limits == config.limits.value) && backoff.Value() == FRESH
      ensures Wired() && this.config == config && this.backoff == backoff && Value() == Started(disk, stamps)
    {
      this.config, this.backoff := config, backoff;
      live, previous, this.stamps := disk.live, disk.previous, stamps;
      log, requests := [], [];
    }

    /** Swaps target after target and stops at the first that cannot be built, backed up or
        swapped; later targets are left untouched. */
    method RebuildBinaries(head: string, materializes: bool, builds: seq<Build>) returns (ok: bool)
      requires |builds| == |config.targets|
      modifies this`live, this`previous
      ensures ok <==> materializes && Reach(old(Disk(live, previous)), config.targets, builds, head, 0) == |config.targets|
      ensures Disk(live, previous) ==
                if materializes then Rebuilt(old(Disk(live, previous)), config.targets, builds, head) else old(Disk(live, previous))
    {
      if !materializes { return false; }
      ghost var before := Disk(live, previous);
      var ts := config.targets;
      for i := 0 to |ts|
        invariant Disk(live, previous) == RebuiltUpTo(before, ts, i, head)
        invariant Reach(before, ts, builds, head, 0) == Reach(before, ts, builds, head, i)
      {
        if !builds[i].compiles { return false; }
        if ts[i].out in live {
          if !builds[i].backsUp { return false; }
          previous := previous[ts[i].out := live[ts[i].out]];
        }
        if !builds[i].swaps { return false; }
        live := live[ts[i].out := Artifact(ts[i].pkg, head)];
      }
      return true;
    }

    /** Puts the backup back over a binary that failed its smoke test, best effort. */
    method RestorePrevious(path: string, restores: bool)
      modifies this`live
      ensures Disk(live, previous) == Restored(old(Disk(live, previous)), path, restores)
    {
      if restores && path in previous { live := live[path := previous[path]]; }
    }

    /** Asks every swapped sibling unit that has not adopted head to restart itself. */
    method SweepSiblings(head: string, worlds: seq<SiblingWorld>)
      requires |worlds| == |config.targets|
      modifies this`live, this`stamps, this`requests
      ensures Value() == SweptUpTo(old(Value()), config, worlds, head, |config.targets|)
    {
      ghost var before := Value();
      for i := 0 to |config.targets|
        invariant Value() == SweptUpTo(before, config, worlds, head, i)
      {
        var t, sw := config.targets[i], worlds[i];
        if t.unit == "" || t.name == config.binary { continue; }
        if Stamp(stamps, t.unit) == head { continue; }
        if !config.hasSiblingFn { continue; }
        if !sw.smoke {
          RestorePrevious(t.out, sw.restores);
          continue;
        }
        requests := requests + [SiblingRequest(t.unit, head, OnDisk(Disk(live, previous), t.out), sw.restart.None?)];
        if sw.restart.Some? { continue; }
        if sw.stamps { stamps := stamps[t.unit := head]; }
      }
    }

    method AskBackoff(head: string, now: int) returns (allowed: bool)
      requires Wired()
      modifies this`log, backoff
      ensures Value() == AskGuard(old(Value()), config, head)
      ensures allowed == (config.limits.None? || Allowed(old(Value()).guard, config.limits.value, head, now))
    {
      if config.limits.None? { return true; }
      log := if head != backoff.head then log + [Moved(head)] else log;
      allowed := backoff.Allow(head, now);
    }

    method AttemptRebuild(head: string, w: World) returns (ok: bool)
      requires Wired() && Fits(config, w)
      modifies this`live, this`previous, this`log, backoff
      ensures ok == RebuildSucceeds(old(Value()).disk, config, w, head)
      ensures Value() == Attempt(old(Value()), config, w, head)
    {
      ok := RebuildBinaries(head, w.materializes, w.builds);
      if config.limits.Some? {
        if ok {
          backoff.RecordSuccess(head);
          log := log + [Built(head)];
        } else {
          backoff.RecordFailure(head, w.brokeAt);
          log := log + [Broke(head, w.tried, w.brokeAt)];
        }
      }
    }

    /** The rebuild stage: blocked, failed, or on to adoption. */
    method RebuildIfNeeded(head: string, w: World) returns (go: bool, rebuilt: bool, error: Option<PassError>)
      requires Wired() && Fits(config, w)
      modifies this, backoff
      ensures match RebuildStage(old(Value()), config, w, head)
        case Stop(pass) => !go && !rebuilt && error == pass.error && Value() == pass.host
        case Proceed(next, r) => go && rebuilt == r && Value() == next
    {
      if config.limits.Some? && backoff.built && head == backoff.head { return true, false, None; }
      var allowed := AskBackoff(head, w.tried);
      if !allowed || (config.hasInFlight && w.busyBefore) { return false, false, None; }
      var ok := AttemptRebuild(head, w);
      return ok, ok, if ok then None else Some(RebuildFailed);
    }

    /** The adoption stage: smoke test, re-check, seal, siblings, and this daemon last. */
    method Adopt(head: string, w: World, rebuilt: bool) returns (restarted: bool, error: Option<PassError>, finish: Option<bool>)
      requires Wired() && Fits(config, w)
      modifies this, backoff
      ensures var p := AdoptStage(old(Value()), config, w, head, rebuilt);
        && Value() == p.host && restarted == p.result.restarted && error == p.error && finish == p.finish
    {
      ghost var tested, sealed := false, false;
      var path := FindSelf();
      if path != "" {
        if !w.smoke {
          RestorePrevious(path, w.restores);
          if config.limits.Some? {
            backoff.RecordFailure(head, w.smokedAt);
            log := log + [Broke(head, w.smokedAt, w.smokedAt)];
          }
          return false, Some(SmokeFailed), None;
        }
        tested := true;
      }
      if config.hasInFlight && w.busyAfter { return false, None, None; }
      if config.hasGuard {
        if w.guard.NotReady? { return false, None, None; }
        if w.guard.ReadyWithoutFinish? { return false, Some(NoFinish), None; }
        sealed := true;
      }
      if config.restartSiblings { SweepSiblings(head, w.siblings); }
      requests := requests + [SelfRequest(head, OnDisk(Disk(live, previous), path), tested, config.hasInFlight && w.busyAfter,
                                          sealed, w.restart.None?)];
      if w.restart.Some? {
        return false, Some(RestartFailed(w.restart.value)), if config.hasGuard then Some(IsUncertain(w.restart)) else None;
      }
      if w.stamps { stamps := stamps[config.binary := head]; }
      return true, None, if config.hasGuard then Some(true) else None;
    }

    /** The path of the first target that carries this daemon's name. */
    method FindSelf() returns (path: string)
      ensures path == SelfPath(config)
    {
      for i := 0 to |config.targets|
        invariant SelfPath(config) == TargetPath(config.targets, config.binary, i)
      {
        if config.targets[i].name == config.binary { return config.targets[i].out; }
      }
      return "";
    }

    method DriftWatchOnce(w: World) returns (res: DriftResult, error: Option<PassError>, finish: Option<bool>)
      requires Wired() && Fits(config, w)
      modifies this, backoff
      ensures var p := Once(old(Value()), config, w);
        Value() == p.host && res == p.result && error == p.error && finish == p.finish
    {
      if w.head.None? { return DriftResult("", false, false, false), Some(HeadUnresolved), None; }
      var head := w.head.value;
      var stale := IsStale(config.running, head, w.headTree, w.runTree);
      res := DriftResult(head, stale, false, false);
      if !stale || !config.autoRebuild { return res, None, None; }
      var go, rebuilt, err := RebuildIfNeeded(head, w);
      res := DriftResult(head, true, rebuilt, false);
      if !go { return res, err, None; }
      if !config.autoRestart { return res, None, None; }
      var restarted, adoptErr, seal := Adopt(head, w, rebuilt);
      return DriftResult(head, true, rebuilt, restarted), adoptErr, seal;
    }

    /** The background loop: a pass per tick or kick, whose errors never stop it. */
    method Watch(worlds: seq<World>)
      requires Wired() && OwnsSelfPath(config) && HasSelf(config) && AllFit(config, worlds) && Inv(Value(), config)
      modifies this, backoff
      ensures Value() == Watched(old(Value()), config, worlds, |worlds|)
      ensures Inv(Value(), config)
    {
      ghost var before := Value();
      for i := 0 to |worlds|
        invariant Value() == Watched(before, config, worlds, i)
      {
        var _, _, _ := DriftWatchOnce(worlds[i]);
      }
      WatchedInv(before, config, worlds, |worlds|);
    }
  }
}

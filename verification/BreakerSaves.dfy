/**
 Any number of processes saving their breakers into one file, step by step under the file lock
 (Save in internal/agent/scheduler_cb.go; the lock's exclusion is FileLock.AtMostOneHolder).
*/
module BreakerSaves {
  import opened Common
  import opened BreakerStore

  type Proc = nat
  type Agents = map<string, Breaker>

  /** The three fields of a breaker are read under its own lock one at a time: none yet, its
      state, or its state and its count, each with the moment it was read at. */
  datatype Part =
    | Nothing
    | WithState(name: string, status: Status, stateAt: nat)
    | WithCount(name: string, status: Status, failures: int, stateAt: nat, countAt: nat)

  /** When the state, the count and the time of one breaker were read. */
  datatype Moments = Moments(state: nat, count: nat, time: nat)

  /** Where one Save stands: waiting, inside the lock, with the file read, going through its
      breakers, merged, published, or out again. The views are what the store tracked at each
      moment since it went through its breakers. */
  datatype Phase =
    | Idle
    | Locked
    | ReadBack(base: map<string, Entry>)
    | Merging(start: map<string, Entry>, rest: set<string>, part: Part, sofar: map<string, Entry>, times: map<string, Moments>,
              seen: seq<Agents>)
    | Merged(out: map<string, Entry>, written: map<string, Entry>, moments: map<string, Moments>, views: seq<Agents>)
    | Published

  datatype Save = Save(proc: Proc, written: map<string, Entry>, moments: map<string, Moments>, views: seq<Agents>)

  datatype State = State(file: File, lock: Option<Proc>, phases: map<Proc, Phase>, stores: map<Proc, Agents>,
                         saves: seq<Save>)

  function PhaseOf(s: State, p: Proc): Phase { if p in s.phases then s.phases[p] else Idle }
  function StoreOf(s: State, p: Proc): Agents { if p in s.stores then s.stores[p] else map[] }

  /** Track: the process's own breakers change at any time, also between its steps; while it
      goes through them its read lock keeps others from joining. */
  datatype Move =
    | Track(agents: Agents) | Acquire | Read | BeginMerge | ReadState(name: string) | ReadCount | ReadTime | EndMerge
    | Publish | FailPublish | Release | Crash

  predicate Enabled(s: State, p: Proc, m: Move) {
    var ph := PhaseOf(s, p);
    match m
    case Track(agents) => ph.Merging? ==> agents.Keys == StoreOf(s, p).Keys
    case Acquire => ph.Idle? && s.lock.None?
    case Read => ph.Locked?
    case BeginMerge => ph.ReadBack?
    case ReadState(name) => ph.Merging? && ph.part.Nothing? && name in ph.rest && name in StoreOf(s, p)
    case ReadCount => ph.Merging? && ph.part.WithState? && ph.part.name in StoreOf(s, p)
    case ReadTime => ph.Merging? && ph.part.WithCount? && ph.part.name in StoreOf(s, p)
    case EndMerge => ph.Merging? && ph.part.Nothing? && ph.rest == {}
    case Publish => ph.Merged?
    case FailPublish => ph.Merged?
    case Release => ph.Published?
    case Crash => true
  }

  /** The loop over the tracked breakers, one field at a time. */
  function NextPhase(ph: Phase, agents: Agents, m: Move): Phase {
    match m
    case Track(now) => if ph.Merging? then ph.(seen := ph.seen + [now]) else ph
    case BeginMerge => if ph.ReadBack? then Merging(ph.base, agents.Keys, Nothing, map[], map[], [agents]) else ph
    case ReadState(name) =>
      if ph.Merging? && name in agents then ph.(part := WithState(name, EntryOf(agents[name]).status, Newest(ph))) else ph
    case ReadCount =>
      if ph.Merging? && ph.part.WithState? && ph.part.name in agents
      then ph.(part := WithCount(ph.part.name, ph.part.status, agents[ph.part.name].failures, ph.part.stateAt, Newest(ph))) else ph
    case ReadTime =>
      if ph.Merging? && ph.part.WithCount? && ph.part.name in agents then WithTime(ph, EntryOf(agents[ph.part.name]).lastFailure) else ph
    case EndMerge => if ph.Merging? then Merged(ph.start + ph.sofar, ph.sofar, ph.times, ph.seen) else ph
    case _ => ph
  }

  /** The newest view. */
  function Newest(ph: Phase): nat
    requires ph.Merging?
  {
    if ph.seen == [] then 0 else |ph.seen| - 1
  }

  /** The last field completes an entry. */
  function WithTime(ph: Phase, last: Stamp): Phase
    requires ph.Merging? && ph.part.WithCount?
  {
    var name := ph.part.name;
    ph.(rest := ph.rest - {name}, part := Nothing, sofar := ph.sofar[name := Entry(ph.part.status, ph.part.failures, last)],
        times := ph.times[name := Moments(ph.part.stateAt, ph.part.countAt, Newest(ph))])
  }

  function Apply(s: State, p: Proc, m: Move): State
    requires Enabled(s, p, m)
  {
    var ph := NextPhase(PhaseOf(s, p), StoreOf(s, p), m);
    match m
    case Track(now) => State(s.file, s.lock, s.phases[p := ph], s.stores[p := now], s.saves)
    case Acquire => State(s.file, Some(p), s.phases[p := Locked], s.stores, s.saves)
    case Read => State(s.file, s.lock, s.phases[p := ReadBack(Base(s.file))], s.stores, s.saves)
    case Publish => State(Content(ph.out), s.lock, s.phases[p := Published], s.stores, s.saves + [Save(p, ph.written, ph.moments, ph.views)])
    case FailPublish => State(s.file, s.lock, s.phases[p := Published], s.stores, s.saves)
    case Release => State(s.file, None, s.phases[p := Idle], s.stores, s.saves)
    case Crash => State(s.file, if s.lock == Some(p) then None else s.lock, s.phases[p := Idle], s.stores, s.saves)
    case _ => State(s.file, s.lock, s.phases[p := ph], s.stores, s.saves)
  }

  datatype Step = Step(proc: Proc, move: Move)

  function Try(s: State, a: Step): State { if Enabled(s, a.proc, a.move) then Apply(s, a.proc, a.move) else s }

  function Run(s: State, steps: seq<Step>): State {
    if steps == [] then s else Try(Run(s, steps[..|steps| - 1]), steps[|steps| - 1])
  }

  function Initial(f: File): State { State(f, None, map[], map[], []) }

  // ---- what the file must be ------------------------------------------------------------------

  /** The saves of a run, as if each were one indivisible merge. */
  function Replayed(start: map<string, Entry>, saves: seq<Save>): map<string, Entry> {
    if saves == [] then start else Replayed(start, saves[..|saves| - 1]) + saves[|saves| - 1].written
  }

  predicate StateAt(views: seq<Agents>, k: string, i: int, st: Status) {
    0 <= i < |views| && k in views[i] && EntryOf(views[i][k]).status == st
  }

  predicate CountAt(views: seq<Agents>, k: string, i: int, j: int, st: Status, n: int) {
    StateAt(views, k, i, st) && i <= j < |views| && k in views[j] && views[j][k].failures == n
  }

  /** Each field of the entry is what the breaker had at its moment, the state no later than the
      count and the count no later than the time. */
  predicate ReadFrom(e: Entry, views: seq<Agents>, k: string, m: Moments) {
    && CountAt(views, k, m.state, m.count, e.status, e.failures)
    && m.count <= m.time < |views| && k in views[m.time] && EntryOf(views[m.time][k]).lastFailure == e.lastFailure
  }

  predicate PartFrom(part: Part, views: seq<Agents>) {
    match part
    case Nothing => true
    case WithState(k, st, i) => StateAt(views, k, i, st)
    case WithCount(k, st, n, i, j) => CountAt(views, k, i, j, st, n)
  }

  predicate SameKeys(views: seq<Agents>, keys: set<string>) {
    |views| > 0 && forall i | 0 <= i < |views| :: views[i].Keys == keys
  }

  predicate AllReadFrom(written: map<string, Entry>, moments: map<string, Moments>, views: seq<Agents>) {
    forall k | k in written :: k in moments && ReadFrom(written[k], views, k, moments[k])
  }

  /** What a save wrote: every breaker its store tracked, field by field as it went along. */
  predicate SaveIsRead(written: map<string, Entry>, moments: map<string, Moments>, views: seq<Agents>) {
    SameKeys(views, written.Keys) && AllReadFrom(written, moments, views)
  }

  predicate Inside(ph: Phase) { !ph.Idle? }

  ghost predicate MergingInv(ph: Phase, agents: Agents)
    requires ph.Merging?
  {
    && SameKeys(ph.seen, agents.Keys)
    && ph.seen[|ph.seen| - 1] == agents
    && ph.sofar.Keys + ph.rest == agents.Keys
    && (!ph.part.Nothing? ==> ph.part.name in agents)
    && PartFrom(ph.part, ph.seen)
    && AllReadFrom(ph.sofar, ph.times, ph.seen)
  }

  ghost predicate PhaseInv(ph: Phase, agents: Agents, base: map<string, Entry>) {
    && (ph.ReadBack? ==> ph.base == base)
    && (ph.Merging? ==> ph.start == base && MergingInv(ph, agents))
    && (ph.Merged? ==> ph.out == base + ph.written && SaveIsRead(ph.written, ph.moments, ph.views))
  }

  ghost predicate LocalInv(s: State, p: Proc) {
    && (Inside(PhaseOf(s, p)) <==> s.lock == Some(p))
    && PhaseInv(PhaseOf(s, p), StoreOf(s, p), Base(s.file))
  }

  ghost predicate AllSavesRead(saves: seq<Save>) {
    forall i | 0 <= i < |saves| :: SaveIsRead(saves[i].written, saves[i].moments, saves[i].views)
  }

  ghost predicate FileInv(file: File, saves: seq<Save>, start: map<string, Entry>) {
    Base(file) == Replayed(start, saves) && AllSavesRead(saves)
  }

  ghost predicate Inv(s: State, start: map<string, Entry>) {
    FileInv(s.file, s.saves, start) && forall p: Proc :: LocalInv(s, p)
  }

  lemma ReplaySnoc(start: map<string, Entry>, saves: seq<Save>, save: Save)
    ensures Replayed(start, saves + [save]) == Replayed(start, saves) + save.written
  {
    assert (saves + [save])[..|saves|] == saves;
  }

  /** Moments stay moments when more follow. */
  lemma LongerRead(views: seq<Agents>, now: Agents, k: string, e: Entry, m: Moments)
    requires ReadFrom(e, views, k, m)
    ensures ReadFrom(e, views + [now], k, m)
  {}

  lemma LongerPart(views: seq<Agents>, now: Agents, part: Part)
    requires PartFrom(part, views)
    ensures PartFrom(part, views + [now])
  {}

  lemma LongerAll(written: map<string, Entry>, times: map<string, Moments>, views: seq<Agents>, now: Agents)
    requires AllReadFrom(written, times, views)
    ensures AllReadFrom(written, times, views + [now])
  {
    forall k | k in written ensures k in times && ReadFrom(written[k], views + [now], k, times[k]) {
      LongerRead(views, now, k, written[k], times[k]);
    }
  }

  lemma LongerKeys(views: seq<Agents>, now: Agents)
    requires SameKeys(views, now.Keys)
    ensures SameKeys(views + [now], now.Keys)
  {}

  lemma TrackKept(ph: Phase, agents: Agents, now: Agents)
    requires ph.Merging? && MergingInv(ph, agents) && now.Keys == agents.Keys
    ensures MergingInv(ph.(seen := ph.seen + [now]), now)
  {
    LongerKeys(ph.seen, now);
    LongerPart(ph.seen, now, ph.part);
    LongerAll(ph.sofar, ph.times, ph.seen, now);
  }

  lemma ReadTimeKept(ph: Phase, agents: Agents)
    requires ph.Merging? && MergingInv(ph, agents) && ph.part.WithCount?
    ensures MergingInv(WithTime(ph, EntryOf(agents[ph.part.name]).lastFailure), agents)
  {
    var t := WithTime(ph, EntryOf(agents[ph.part.name]).lastFailure);
    assert ReadFrom(t.sofar[ph.part.name], ph.seen, ph.part.name, t.times[ph.part.name]);
  }

  predicate LoopMove(m: Move) {
    m.BeginMerge? || m.ReadState? || m.ReadCount? || m.ReadTime? || m.EndMerge?
  }

  /** Every step of the loop keeps what its save has collected. */
  lemma LoopKept(s: State, p: Proc, m: Move)
    requires Enabled(s, p, m) && LoopMove(m) && PhaseInv(PhaseOf(s, p), StoreOf(s, p), Base(s.file))
    ensures PhaseInv(NextPhase(PhaseOf(s, p), StoreOf(s, p), m), StoreOf(s, p), Base(s.file))
  {
    var ph := PhaseOf(s, p);
    var agents := StoreOf(s, p);
    match m
    case ReadTime => ReadTimeKept(ph, agents);
    case _ =>
  }

  /** A save's own step keeps its own view. */
  lemma OwnKept(s: State, p: Proc, m: Move)
    requires LocalInv(s, p) && Enabled(s, p, m)
    ensures LocalInv(Apply(s, p, m), p)
  {
    if LoopMove(m) {
      LoopKept(s, p, m);
    } else if m.Track? && PhaseOf(s, p).Merging? {
      TrackKept(PhaseOf(s, p), StoreOf(s, p), m.agents);
    }
  }

  /** Whoever is inside the lock is alone, so nobody else's view of the file can change. */
  lemma LocalKept(s: State, p: Proc, m: Move, q: Proc)
    requires LocalInv(s, p) && LocalInv(s, q) && Enabled(s, p, m)
    ensures LocalInv(Apply(s, p, m), q)
  {
    if q == p { OwnKept(s, p, m); }
  }

  lemma OneMoreRead(saves: seq<Save>, save: Save)
    requires AllSavesRead(saves) && SaveIsRead(save.written, save.moments, save.views)
    ensures AllSavesRead(saves + [save])
  {}

  /** Only a publication changes the file and the list of saves. */
  lemma OthersKeepFile(s: State, p: Proc, m: Move)
    requires Enabled(s, p, m) && !m.Publish?
    ensures Apply(s, p, m).file == s.file && Apply(s, p, m).saves == s.saves
  {}

  lemma PublishKeepsFile(file: File, saves: seq<Save>, out: map<string, Entry>, save: Save, start: map<string, Entry>)
    requires FileInv(file, saves, start) && out == Base(file) + save.written && SaveIsRead(save.written, save.moments, save.views)
    ensures FileInv(Content(out), saves + [save], start)
  {
    ReplaySnoc(start, saves, save);
    OneMoreRead(saves, save);
  }

  lemma StepKeepsInv(s: State, a: Step, start: map<string, Entry>)
    requires Inv(s, start)
    ensures Inv(Try(s, a), start)
  {
    if Enabled(s, a.proc, a.move) {
      var p := a.proc;
      assert LocalInv(s, p);
      if a.move.Publish? {
        var ph := PhaseOf(s, p);
        PublishKeepsFile(s.file, s.saves, ph.out, Save(p, ph.written, ph.moments, ph.views), start);
      } else {
        OthersKeepFile(s, p, a.move);
      }
      forall q: Proc ensures LocalInv(Apply(s, p, a.move), q) {
        assert LocalInv(s, q);
        LocalKept(s, p, a.move, q);
      }
    }
  }

  /** Saves are atomic although each takes many steps: at every moment the file is exactly the
      merge of all published saves in their order, so no save undoes another's. */
  lemma {:induction false} SavesAreAtomic(f: File, steps: seq<Step>)
    ensures Inv(Run(Initial(f), steps), Base(f))
  {
    if steps != [] {
      SavesAreAtomic(f, steps[..|steps| - 1]);
      StepKeepsInv(Run(Initial(f), steps[..|steps| - 1]), steps[|steps| - 1], Base(f));
    }
  }

  /** The position of the last save that tracked the key; |saves| if there is none. */
  function LastSave(saves: seq<Save>, key: string): nat {
    if saves == [] then 0
    else if key in saves[|saves| - 1].written then |saves| - 1
    else
      var n := LastSave(saves[..|saves| - 1], key);
      if n == |saves| - 1 then |saves| else n
  }

  lemma {:induction false} LastSaveDecides(start: map<string, Entry>, saves: seq<Save>, key: string)
    ensures var n := LastSave(saves, key);
      && n <= |saves|
      && (n < |saves| ==> key in saves[n].written && key in Replayed(start, saves)
                          && Replayed(start, saves)[key] == saves[n].written[key]
                          && forall i | n < i < |saves| :: key !in saves[i].written)
      && (n == |saves| ==> (forall i | 0 <= i < |saves| :: key !in saves[i].written)
                           && SameAt(Replayed(start, saves), start, key))
  {
    if saves != [] { LastSaveDecides(start, saves[..|saves| - 1], key); }
  }

  /** Nothing happened to the breaker between its first and its last read. */
  predicate Steady(views: seq<Agents>, key: string, m: Moments) {
    && m.state <= m.time < |views| && key in views[m.state]
    && forall i | m.state <= i <= m.time :: key in views[i] && views[i][key] == views[m.state][key]
  }

  lemma SteadyIsSnapshot(e: Entry, views: seq<Agents>, key: string, m: Moments)
    requires ReadFrom(e, views, key, m) && Steady(views, key, m)
    ensures e == EntryOf(views[m.state][key])
  {
    assert views[m.count][key] == views[m.state][key];
  }

  /** Whoever interleaves with whom, each key of the file holds what the last save that tracked
      it wrote: each field as the breaker had it when that field was read, and the breaker as it
      was if nothing was recorded for it between those three reads. A key nobody tracked is as it
      was at the start, as far as the first file could be read. */
  lemma EachKeyHasItsLastWriter(f: File, steps: seq<Step>, key: string)
    ensures var s := Run(Initial(f), steps);
      var n := LastSave(s.saves, key);
      if n < |s.saves| then
        var save := s.saves[n];
        && key in save.written && key in save.moments && key in Base(s.file)
        && SameKeys(save.views, save.written.Keys)
        && ReadFrom(Base(s.file)[key], save.views, key, save.moments[key])
        && (Steady(save.views, key, save.moments[key]) ==> Base(s.file)[key] == EntryOf(save.views[save.moments[key].state][key]))
      else
        && SameAt(Base(s.file), Base(f), key)
        && (SameAt(Base(s.file), Held(f), key) <==> SameAt(Base(f), Held(f), key))
  {
    SavesAreAtomic(f, steps);
    var s := Run(Initial(f), steps);
    LastSaveDecides(Base(f), s.saves, key);
    var n := LastSave(s.saves, key);
    if n < |s.saves| {
      var save := s.saves[n];
      assert SaveIsRead(save.written, save.moments, save.views);
      if Steady(save.views, key, save.moments[key]) { SteadyIsSnapshot(Base(s.file)[key], save.views, key, save.moments[key]); }
    }
  }

  // ---- key spaces ---------------------------------------------------------------------------------

  /** Each process's store was made for one key space. */
  type Owner = Proc -> string

  predicate OwnsAll(prefix: string, keys: set<string>) { forall k | k in keys :: Owns(prefix, k) }

  /** A process asks its store only for its own keys; what Load adds is its own anyway. */
  predicate KeepsToItself(a: Step, owner: Owner) { a.move.Track? ==> OwnsAll(owner(a.proc), a.move.agents.Keys) }

  /** What a save has collected so far. */
  function Collected(ph: Phase): set<string> {
    if ph.Merging? then ph.sofar.Keys else if ph.Merged? then ph.written.Keys else {}
  }

  predicate OwnedAt(s: State, p: Proc, owner: Owner) {
    OwnsAll(owner(p), StoreOf(s, p).Keys) && OwnsAll(owner(p), Collected(PhaseOf(s, p)))
  }

  predicate SavesOwned(saves: seq<Save>, owner: Owner) {
    forall i | 0 <= i < |saves| :: OwnsAll(owner(saves[i].proc), saves[i].written.Keys)
  }

  ghost predicate Owned(s: State, owner: Owner) { SavesOwned(s.saves, owner) && forall p: Proc :: OwnedAt(s, p, owner) }

  lemma StepKeepsOwnedAt(s: State, a: Step, owner: Owner, p: Proc)
    requires OwnedAt(s, p, owner) && KeepsToItself(a, owner)
    ensures OwnedAt(Try(s, a), p, owner)
  {}

  lemma StepKeepsOwned(s: State, a: Step, owner: Owner)
    requires Owned(s, owner) && KeepsToItself(a, owner)
    ensures Owned(Try(s, a), owner)
  {
    forall p: Proc ensures OwnedAt(Try(s, a), p, owner) {
      assert OwnedAt(s, p, owner);
      StepKeepsOwnedAt(s, a, owner, p);
    }
    assert OwnedAt(s, a.proc, owner);
    if Enabled(s, a.proc, a.move) && !a.move.Publish? { OthersKeepFile(s, a.proc, a.move); }
  }

  /** If every process tracks only its own keys, every save writes only keys of its process. */
  lemma {:induction false} SavesStayInTheirKeySpace(f: File, steps: seq<Step>, owner: Owner)
    requires forall a | a in steps :: KeepsToItself(a, owner)
    ensures Owned(Run(Initial(f), steps), owner)
  {
    if steps != [] {
      var front := steps[..|steps| - 1];
      assert forall a | a in front :: a in steps;
      SavesStayInTheirKeySpace(f, front, owner);
      StepKeepsOwned(Run(Initial(f), front), steps[|steps| - 1], owner);
    }
  }

  /** Owners of disjoint key spaces never clobber each other's entries, in whatever interleaving:
      the entry of a key is the one its last owner wrote, or the one of the first file if no
      process owns it; and of the scheduler's and the auction's stores only one kind ever writes
      a key. */
  lemma KeySpacesNeverClobber(f: File, steps: seq<Step>, owner: Owner, key: string)
    requires forall a | a in steps :: KeepsToItself(a, owner)
    ensures var s := Run(Initial(f), steps);
      var n := LastSave(s.saves, key);
      && (n < |s.saves| ==>
            && Owns(owner(s.saves[n].proc), key) && key in s.saves[n].written
            && key in Base(s.file) && Base(s.file)[key] == s.saves[n].written[key])
      && ((forall p: Proc :: !Owns(owner(p), key)) ==> SameAt(Base(s.file), Base(f), key))
      && (forall i, j | 0 <= i < |s.saves| && 0 <= j < |s.saves| && key in s.saves[i].written && key in s.saves[j].written
                        && owner(s.saves[i].proc) in {"", WINNER} && owner(s.saves[j].proc) in {"", WINNER} ::
            owner(s.saves[i].proc) == owner(s.saves[j].proc))
  {
    var s := Run(Initial(f), steps);
    SavesStayInTheirKeySpace(f, steps, owner);
    SavesAreAtomic(f, steps);
    LastSaveDecides(Base(f), s.saves, key);
    EveryKeyHasOneOwner(key);
    forall i | 0 <= i < |s.saves| && key in s.saves[i].written ensures Owns(owner(s.saves[i].proc), key) {
      assert OwnsAll(owner(s.saves[i].proc), s.saves[i].written.Keys);
    }
  }

  // ---- an entry no breaker ever had -------------------------------------------------------------

  lemma RunAt(s: State, steps: seq<Step>, n: nat)
    requires n < |steps|
    ensures Run(s, steps[..n + 1]) == Try(Run(s, steps[..n]), steps[n])
  {
    assert steps[..n + 1][..n] == steps[..n];
  }

  /** One save of one process whose single breaker fails once between the first two reads. */
  function OneSave(before: Agents, after: Agents, name: string): seq<Step> {
    [Step(0, Track(before)), Step(0, Acquire), Step(0, Read), Step(0, BeginMerge), Step(0, ReadState(name)),
     Step(0, Track(after)), Step(0, ReadCount), Step(0, ReadTime), Step(0, EndMerge), Step(0, Publish)]
  }

  /** Process 0 alone inside the lock. */
  function Alone(f: File, ph: Phase, agents: Agents, saves: seq<Save>): State { State(f, Some(0), map[0 := ph], map[0 := agents], saves) }

  lemma AloneLoops(f: File, ph: Phase, agents: Agents, m: Move)
    requires LoopMove(m) && Enabled(Alone(f, ph, agents, []), 0, m)
    ensures Try(Alone(f, ph, agents, []), Step(0, m)) == Alone(f, NextPhase(ph, agents, m), agents, [])
  {
    assert map[0 := ph][0 := NextPhase(ph, agents, m)] == map[0 := NextPhase(ph, agents, m)];
  }

  lemma AloneTracks(f: File, ph: Phase, agents: Agents, now: Agents)
    requires ph.Merging? && agents.Keys == now.Keys
    ensures Try(Alone(f, ph, agents, []), Step(0, Track(now))) == Alone(f, ph.(seen := ph.seen + [now]), now, [])
  {
    assert map[0 := ph][0 := ph.(seen := ph.seen + [now])] == map[0 := ph.(seen := ph.seen + [now])];
    assert map[0 := agents][0 := now] == map[0 := now];
  }

  lemma AloneEnters(before: Agents)
    ensures var s := Try(Try(Try(Initial(Missing), Step(0, Track(before))), Step(0, Acquire)), Step(0, Read));
      s == Alone(Missing, ReadBack(map[]), before, [])
  {
    var ph := map[0 := Idle];
    assert ph[0 := Locked][0 := ReadBack(map[])] == map[0 := ReadBack(map[])];
  }

  /** Two fields are read before the failure, two after. */
  lemma LoopBeforeFailure(name: string, b: Breaker)
    ensures var before := map[name := b];
      var s := Try(Try(Alone(Missing, ReadBack(map[]), before, []), Step(0, BeginMerge)), Step(0, ReadState(name)));
      s == Alone(Missing, Merging(map[], {name}, WithState(name, EntryOf(b).status, 0), map[], map[], [before]), before, [])
  {
    var before := map[name := b];
    AloneLoops(Missing, ReadBack(map[]), before, BeginMerge);
    assert before.Keys == {name};
    AloneLoops(Missing, Merging(map[], {name}, Nothing, map[], map[], [before]), before, ReadState(name));
  }

  lemma LoopAfterFailure(s: State, name: string, st: Status, b: Breaker, views: seq<Agents>)
    requires |views| == 2
    requires s == Alone(Missing, Merging(map[], {name}, WithState(name, st, 0), map[], map[], views), map[name := b], [])
    ensures var e, at := map[name := Entry(st, b.failures, EntryOf(b).lastFailure)], map[name := Moments(0, 1, 1)];
      Try(Try(Try(s, Step(0, ReadCount)), Step(0, ReadTime)), Step(0, EndMerge)) ==
        Alone(Missing, Merged(e, e, at, views), map[name := b], [])
  {
    var after := map[name := b];
    var m := Merging(map[], {name}, WithState(name, st, 0), map[], map[], views);
    AloneLoops(Missing, m, after, ReadCount);
    var counted := m.(part := WithCount(name, st, b.failures, 0, 1));
    AloneLoops(Missing, counted, after, ReadTime);
    var e, at := map[name := Entry(st, b.failures, EntryOf(b).lastFailure)], map[name := Moments(0, 1, 1)];
    assert {name} - {name} == {};
    AloneLoops(Missing, counted.(rest := {}, part := Nothing, sofar := e, times := at), after, EndMerge);
    assert map[] + e == e;
  }

  function Loading(name: string, views: seq<Agents>): Phase { Merging(map[], {name}, WithState(name, ClosedStatus, 0), map[], map[], views) }

  lemma BeforeFailure(name: string, b: Breaker, now: Agents)
    requires b.state.Closed?
    ensures Run(Initial(Missing), OneSave(map[name := b], now, name)[..5]) == Alone(Missing, Loading(name, [map[name := b]]), map[name := b], [])
  {
    var st := OneSave(map[name := b], now, name);
    var s0 := Initial(Missing);
    assert st[..0] == [];
    assert Run(s0, st[..3]) == Alone(Missing, ReadBack(map[]), map[name := b], []) by {
      RunAt(s0, st, 0); RunAt(s0, st, 1); RunAt(s0, st, 2);
      AloneEnters(map[name := b]);
    }
    RunAt(s0, st, 3); RunAt(s0, st, 4);
    LoopBeforeFailure(name, b);
  }

  lemma AtFailure(name: string, b: Breaker, c: Breaker)
    requires b.state.Closed?
    ensures Run(Initial(Missing), OneSave(map[name := b], map[name := c], name)[..6]) ==
            Alone(Missing, Loading(name, [map[name := b], map[name := c]]), map[name := c], [])
  {
    var before, after := map[name := b], map[name := c];
    BeforeFailure(name, b, after);
    RunAt(Initial(Missing), OneSave(before, after, name), 5);
    assert before.Keys == {name} == after.Keys;
    assert [before] + [after] == [before, after];
    AloneTracks(Missing, Loading(name, [before]), before, after);
  }

  lemma AfterFailure(name: string, b: Breaker, c: Breaker)
    requires b.state.Closed?
    ensures var e, at := map[name := Entry(ClosedStatus, c.failures, EntryOf(c).lastFailure)], map[name := Moments(0, 1, 1)];
      Run(Initial(Missing), OneSave(map[name := b], map[name := c], name)[..9]) ==
        Alone(Missing, Merged(e, e, at, [map[name := b], map[name := c]]), map[name := c], [])
  {
    var st := OneSave(map[name := b], map[name := c], name);
    var s0 := Initial(Missing);
    AtFailure(name, b, c);
    RunAt(s0, st, 6); RunAt(s0, st, 7); RunAt(s0, st, 8);
    LoopAfterFailure(Run(s0, st[..6]), name, ClosedStatus, c, [map[name := b], map[name := c]]);
  }

  /** A failure that opens a breaker in the middle of a save can publish a closed breaker with a
      full count: an entry of no breaker at any time. Who loads it gets the backend admitted. */
  lemma TornEntry(name: string, b: Breaker, at: int, later: int)
    requires b.state.Closed? && b.threshold == b.failures + 1
    ensures var s := Run(Initial(Missing), OneSave(map[name := b], map[name := Failed(b, at)], name));
      && name in Base(s.file)
      && Base(s.file)[name] == Entry(ClosedStatus, b.threshold, Stamp(at / SECOND))
      && Base(s.file)[name] != EntryOf(b) && Base(s.file)[name] != EntryOf(Failed(b, at))
      && Failed(b, at).state.Open?
      && Allows(Restore(Base(s.file)[name], b.threshold, b.cooldown, later), later)
  {
    var st := OneSave(map[name := b], map[name := Failed(b, at)], name);
    AfterFailure(name, b, Failed(b, at));
    RunAt(Initial(Missing), st, 9);
    assert st[..10] == st;
  }
}

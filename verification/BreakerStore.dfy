/**
 Circuit breakers and the file they share (internal/agent/scheduler_cb.go, with the breaker
 itself in internal/reliability/reliability.go).
*/
module BreakerStore {
  import opened Common

  datatype CircuitState = Closed | Open | HalfOpen

  /** Times are nanoseconds; the zero time.Time is None. */
  datatype Breaker = Breaker(state: CircuitState, failures: int, threshold: int, cooldown: int,
                             lastFailure: Option<int>, lastChange: Option<int>)

  const SECOND := 1_000_000_000
  const MINUTE := 60 * SECOND

  function NewBreaker(threshold: int, cooldown: int): Breaker {
    Breaker(Closed, 0, if threshold <= 0 then 3 else threshold, if cooldown <= 0 then 5 * MINUTE else cooldown, None, None)
  }

  /** A breaker that never changed state has been in it since the zero time. */
  predicate CooledDown(b: Breaker, now: int) { b.lastChange.Some? ==> now - b.lastChange.value >= b.cooldown }

  predicate Allows(b: Breaker, now: int) { b.state.Closed? || (b.state.Open? && CooledDown(b, now)) }

  function Asked(b: Breaker, now: int): Breaker {
    if b.state.Open? && CooledDown(b, now) then b.(state := HalfOpen, lastChange := Some(now)) else b
  }

  function Succeeded(b: Breaker, now: int): Breaker {
    b.(state := Closed, failures := 0, lastChange := if b.state.Closed? then b.lastChange else Some(now))
  }

  function Failed(b: Breaker, now: int): Breaker {
    var opens := b.state.HalfOpen? || (b.state.Closed? && b.failures + 1 >= b.threshold);
    b.(state := if opens then Open else b.state, failures := b.failures + 1, lastFailure := Some(now),
       lastChange := if opens then Some(now) else b.lastChange)
  }

  /** One granted probe at a time: after a cooled-down breaker lets a request through, it refuses
      every other until that probe is recorded. */
  lemma OneProbe(b: Breaker, now: int, later: int)
    requires b.state.Open? && Allows(b, now)
    ensures !Allows(Asked(b, now), later) && Asked(Asked(b, now), later) == Asked(b, now)
    ensures Succeeded(Asked(b, now), later).state.Closed? && Failed(Asked(b, now), later).state.Open?
  {}

  /** n consecutive failures. */
  function FailedTimes(b: Breaker, times: seq<int>): Breaker {
    if times == [] then b else Failed(FailedTimes(b, times[..|times| - 1]), times[|times| - 1])
  }

  /** A closed breaker opens exactly at its threshold of consecutive failures. */
  lemma {:induction false} OpensAtThreshold(b: Breaker, times: seq<int>)
    requires b.state.Closed? && b.failures == 0 && b.threshold > 0
    ensures var t := FailedTimes(b, times);
      && t.failures == |times| && t.threshold == b.threshold
      && t.state == if |times| >= b.threshold then Open else Closed
  {
    if times != [] { OpensAtThreshold(b, times[..|times| - 1]); }
  }

  // ---- the file ----------------------------------------------------------------------------

  /** An RFC 3339 instant without fraction, no text, or text that does not parse. */
  datatype Stamp = NoStamp | Stamp(seconds: int) | Unreadable

  datatype Status = ClosedStatus | OpenStatus | HalfOpenStatus | OtherStatus

  datatype Entry = Entry(status: Status, failures: int, lastFailure: Stamp)

  function EntryOf(b: Breaker): Entry {
    Entry(match b.state case Closed => ClosedStatus case Open => OpenStatus case HalfOpen => HalfOpenStatus,
          b.failures, if b.lastFailure.None? then NoStamp else Stamp(b.lastFailure.value / SECOND))
  }

  /** A persisted half-open has no probe in flight here, so it comes back open. */
  function Restore(e: Entry, threshold: int, cooldown: int, now: int): Breaker {
    var blank := NewBreaker(threshold, cooldown);
    Breaker(if e.status.OpenStatus? || e.status.HalfOpenStatus? then Open else Closed, e.failures,
            blank.threshold, blank.cooldown, if e.lastFailure.Stamp? then Some(e.lastFailure.seconds * SECOND) else None, Some(now))
  }

  /** What survives the round trip: the counts and the state up to half-open becoming open, and
      the time of the last failure in whole seconds. */
  lemma RoundTrip(b: Breaker, threshold: int, cooldown: int, now: int)
    ensures var r := Restore(EntryOf(b), threshold, cooldown, now);
      && r.failures == b.failures
      && r.state == (if b.state.Closed? then Closed else Open)
      && (r.lastFailure.None? <==> b.lastFailure.None?)
      && (b.lastFailure.Some? ==>
            r.lastFailure.value <= b.lastFailure.value < r.lastFailure.value + SECOND && r.lastFailure.value % SECOND == 0)
      && EntryOf(r) == if b.state.HalfOpen? then EntryOf(b).(status := OpenStatus) else EntryOf(b)
  {
    if b.lastFailure.Some? {
      var t := b.lastFailure.value;
      assert t == (t / SECOND) * SECOND + t % SECOND;
      assert ((t / SECOND) * SECOND) / SECOND == t / SECOND;
    }
  }

  /** No restored breaker is wedged: each lets a request through once its cooldown has passed. */
  lemma RestoredIsNotWedged(e: Entry, threshold: int, cooldown: int, now: int, later: int)
    requires later - now >= Restore(e, threshold, cooldown, now).cooldown
    ensures Allows(Restore(e, threshold, cooldown, now), later)
  {}

  // ---- key spaces -----------------------------------------------------------------------------

  const WINNER := "a2a.auction.winner."

  predicate HasPrefix(s: string, p: string) { p <= s }

  predicate Owns(prefix: string, key: string) {
    if prefix != "" then HasPrefix(key, prefix) else !HasPrefix(key, WINNER)
  }

  /** The scheduler's store and the auction's store split the keys between them. */
  lemma EveryKeyHasOneOwner(key: string)
    ensures Owns("", key) <==> !Owns(WINNER, key)
  {}

  function Entries(agents: map<string, Breaker>): map<string, Entry> { map k | k in agents :: EntryOf(agents[k]) }

  /** The content of the file as a reader finds it: nothing there, something that does not
      parse (with what it held and what the decoder filled in nevertheless), a file that exists
      but cannot be read, or the entries. A syntax error fills in nothing; after an error of one
      value the decoder goes on with the others. */
  datatype File =
    | Missing
    | Corrupt(held: map<string, Entry>, decoded: map<string, Entry>)
    | Unopenable(hidden: map<string, Entry>)
    | Content(entries: map<string, Entry>)

  /** What a save starts its merge from. */
  function Base(f: File): map<string, Entry> {
    match f
    case Missing => map[]
    case Corrupt(_, decoded) => decoded
    case Unopenable(_) => map[]
    case Content(entries) => entries
  }

  /** What was in the file. */
  function Held(f: File): map<string, Entry> {
    match f case Missing => map[] case Corrupt(held, _) => held case Unopenable(hidden) => hidden case Content(entries) => entries
  }

  function Saved(f: File, agents: map<string, Breaker>): map<string, Entry> { Base(f) + Entries(agents) }

  predicate SameAt(m: map<string, Entry>, n: map<string, Entry>, k: string) {
    (k in m <==> k in n) && (k in m && k in n ==> m[k] == n[k])
  }

  /** Every key the saving store does not track is as it was. */
  ghost predicate OthersKept(f: File, agents: map<string, Breaker>) {
    forall k | k !in agents :: SameAt(Saved(f, agents), Held(f), k)
  }

  /** A save writes its own breakers and leaves every other key alone, exactly when the file was
      absent or readable, or hid nothing but keys this store tracks anyway, or the decoder got
      every untracked entry right in spite of its error. */
  lemma SaveKeepsOthersIfReadable(f: File, agents: map<string, Breaker>)
    ensures forall k | k in agents :: k in Saved(f, agents) && Saved(f, agents)[k] == EntryOf(agents[k])
    ensures OthersKept(f, agents) <==>
              match f
              case Unopenable(hidden) => hidden.Keys <= agents.Keys
              case Corrupt(held, decoded) => forall k | k !in agents :: SameAt(decoded, held, k)
              case _ => true
  {
    forall k | k !in agents ensures SameAt(Saved(f, agents), Base(f), k) {}
    if f.Unopenable? && !(f.hidden.Keys <= agents.Keys) {
      var k :| k in f.hidden && k !in agents;
      assert !SameAt(Saved(f, agents), Held(f), k);
    }
    if f.Corrupt? && OthersKept(f, agents) {
      forall k | k !in agents ensures SameAt(f.decoded, f.held, k) {
        assert SameAt(Saved(f, agents), Held(f), k);
        assert SameAt(Saved(f, agents), Base(f), k);
      }
    }
    if f.Corrupt? && !OthersKept(f, agents) {
      var k :| k !in agents && !SameAt(Saved(f, agents), Held(f), k);
      assert SameAt(Saved(f, agents), Base(f), k);
    }
  }

  /** The failing inputs: behind a file that cannot be read, or that has a syntax error, every
      entry of every other owner is gone after one save. */
  lemma UnreadableFileDropsOthers(held: map<string, Entry>, agents: map<string, Breaker>, f: File)
    requires f == Unopenable(held) || f == Corrupt(held, map[])
    ensures Saved(f, agents) == Entries(agents)
    ensures forall k | k in held && k !in agents :: k in Held(f) && k !in Saved(f, agents)
    ensures OthersKept(f, agents) <==> held.Keys <= agents.Keys
  {
    SaveKeepsOthersIfReadable(f, agents);
    if f.Corrupt? && !(held.Keys <= agents.Keys) {
      var k :| k in held && k !in agents;
      assert !SameAt(map[], held, k);
    }
  }

  // ---- the store as it runs ---------------------------------------------------------------------

  class Store {
    const prefix: string
    const threshold: int
    const cooldown: int
    var agents: map<string, Breaker>

    constructor (prefix: string, threshold: int, cooldown: int)
      ensures agents == map[] && this.prefix == prefix
      ensures this.threshold > 0 && this.cooldown > 0
    {
      this.prefix := prefix;
      this.threshold := if threshold <= 0 then 3 else threshold;
      this.cooldown := if cooldown <= 0 then 5 * MINUTE else cooldown;
      agents := map[];
    }

    /** The store tracks only its own key space. */
    predicate Tidy()
      reads this`agents
    {
      forall k | k in agents :: Owns(prefix, k)
    }

    /** Creates the breaker on first use, whatever its key: a store stays within its own key
        space exactly as long as it is asked for its own keys. */
    method Get(name: string) returns (b: Breaker)
      modifies this`agents
      ensures name in agents && b == agents[name]
      ensures agents == if name in old(agents) then old(agents) else old(agents)[name := NewBreaker(threshold, cooldown)]
      ensures old(Tidy()) ==> (Tidy() <==> name in old(agents) || Owns(prefix, name))
    {
      if name !in agents {
        agents := agents[name := NewBreaker(threshold, cooldown)];
      }
      b := agents[name];
    }

    method RecordFailure(name: string, now: int)
      modifies this`agents
      ensures name in agents && agents.Keys == old(agents).Keys + {name}
      ensures forall k | k in old(agents) && k != name :: agents[k] == old(agents)[k]
      ensures agents[name] == Failed(if name in old(agents) then old(agents)[name] else NewBreaker(threshold, cooldown), now)
    {
      var b := Get(name);
      agents := agents[name := Failed(b, now)];
    }

    /** The entries Save writes, merged over what it read. */
    method Merge(f: File) returns (out: map<string, Entry>)
      ensures out == Saved(f, agents)
    {
      out := if f.Content? then f.entries else if f.Corrupt? then f.decoded else map[];
      var rest := agents.Keys;
      while rest != {}
        invariant rest <= agents.Keys
        invariant out == Base(f) + (map k | k in agents.Keys - rest :: EntryOf(agents[k]))
        decreases |rest|
      {
        var name :| name in rest;
        out := out[name := EntryOf(agents[name])];
        rest := rest - {name};
      }
      assert agents.Keys - rest == agents.Keys;
    }

    /** Restores the owned entries of a readable file and leaves everything else alone. */
    method Load(f: File, now: int) returns (ok: bool)
      modifies this`agents
      ensures ok <==> f.Missing? || f.Content?
      ensures agents == if f.Content? then old(agents) + Restored(f.entries, prefix, threshold, cooldown, now) else old(agents)
      ensures old(Tidy()) ==> Tidy()
    {
      if f.Missing? { return true; }
      if !f.Content? { return false; }
      agents := Adopt(agents, f.entries, prefix, threshold, cooldown, now);
      return true;
    }
  }

  /** Replaces the owned entries one by one. */
  method Adopt(agents: map<string, Breaker>, entries: map<string, Entry>, prefix: string, threshold: int, cooldown: int, now: int)
    returns (out: map<string, Breaker>)
    ensures out == agents + Restored(entries, prefix, threshold, cooldown, now)
  {
    out := agents;
    var rest := entries.Keys;
    while rest != {}
      invariant rest <= entries.Keys
      invariant out == agents + map k | k in entries.Keys - rest && Owns(prefix, k) :: Restore(entries[k], threshold, cooldown, now)
      decreases |rest|
    {
      var name :| name in rest;
      if Owns(prefix, name) { out := out[name := Restore(entries[name], threshold, cooldown, now)]; }
      rest := rest - {name};
    }
    assert entries.Keys - rest == entries.Keys;
  }

  function Restored(entries: map<string, Entry>, prefix: string, threshold: int, cooldown: int, now: int): map<string, Breaker> {
    map k | k in entries.Keys && Owns(prefix, k) :: Restore(entries[k], threshold, cooldown, now)
  }

  /** Saving and loading again brings back exactly the tracked breakers of one's own key space: a
      foreign key that was asked for is written but never restored, and nothing else of another's
      comes in; whatever comes back admits a request once its cooldown has passed. */
  lemma SaveThenLoad(f: File, agents: map<string, Breaker>, prefix: string, threshold: int, cooldown: int, now: int, later: int, k: string)
    ensures var back := Restored(Saved(f, agents), prefix, threshold, cooldown, now);
      && (k in agents ==> (k in back <==> Owns(prefix, k)))
      && (k in agents && k in back ==> back[k] == Restore(EntryOf(agents[k]), threshold, cooldown, now))
      && (k !in agents ==> (k in back <==> k in Base(f) && Owns(prefix, k)))
      && (k !in agents && k in back ==> back[k] == Restore(Base(f)[k], threshold, cooldown, now))
      && (k in back && later - now >= back[k].cooldown ==> Allows(back[k], later))
  {
    var saved := Saved(f, agents);
    if k in saved && later - now >= Restore(saved[k], threshold, cooldown, now).cooldown {
      RestoredIsNotWedged(saved[k], threshold, cooldown, now, later);
    }
  }
}

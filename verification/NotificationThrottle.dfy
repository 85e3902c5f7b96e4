/**
 The throttle of routine notifications (internal/agent/notification_throttle.go): routine runs are
 counted instead of sent, and the count rides on the next notification that is.
*/
module NotificationThrottle {
  import opened Common

  const SECOND := 1_000_000_000
  const HEARTBEAT := 24 * 60 * 60 * SECOND

  datatype Entry = Entry(suppressed: nat, first: Option<int>, lastSent: Option<int>)

  const QUIET := Entry(0, None, None)

  type Agents = map<string, Entry>

  function EntryOf(s: Agents, agent: string): Entry { if agent in s then s[agent] else QUIET }

  /** Whether to deliver, and the count the summary is annotated with. */
  datatype Decision = Decision(send: bool, reported: Option<nat>)

  predicate Due(e: Entry, now: int) { e.lastSent.None? || now - e.lastSent.value >= HEARTBEAT }

  predicate Suppresses(e: Entry, routine: bool, now: int) { routine && !Due(e, now) }

  function DecisionFor(e: Entry, routine: bool, now: int): Decision {
    if Suppresses(e, routine, now) then Decision(false, None)
    else Decision(true, if e.suppressed > 0 then Some(e.suppressed) else None)
  }

  function EntryAfter(e: Entry, routine: bool, now: int): Entry {
    if Suppresses(e, routine, now) then
      Entry(e.suppressed + 1, if e.first.None? then Some(now) else e.first, e.lastSent)
    else Entry(0, if routine || e.suppressed > 0 then None else e.first, Some(now))
  }

  /** The state file: what it holds, and whether this decision could read and replace it. */
  datatype Io = Io(loads: bool, saves: bool)

  datatype Event = Event(agent: string, routine: bool, now: int, io: Io)

  function Loaded(file: Agents, io: Io): Agents { if io.loads then file else map[] }

  function FileAfter(file: Agents, e: Event): Agents {
    var s := Loaded(file, e.io);
    if e.io.saves then s[e.agent := EntryAfter(EntryOf(s, e.agent), e.routine, e.now)] else file
  }

  function Decide(file: Agents, e: Event): Decision { DecisionFor(EntryOf(Loaded(file, e.io), e.agent), e.routine, e.now) }

  class Throttle {
    var file: Agents

    constructor (file: Agents)
      ensures this.file == file
    {
      this.file := file;
    }

    method DecideEvent(e: Event) returns (d: Decision)
      modifies this
      ensures d == Decide(old(file), e) && file == FileAfter(old(file), e)
    {
      var state := if e.io.loads then file else map[];
      var entry := if e.agent in state then state[e.agent] else QUIET;
      var annotated: Option<nat> := None;
      if e.routine {
        var heartbeatDue := entry.lastSent.None? || e.now - entry.lastSent.value >= HEARTBEAT;
        if !heartbeatDue {
          entry := Entry(entry.suppressed + 1, if entry.first.None? then Some(e.now) else entry.first, entry.lastSent);
          state := state[e.agent := entry];
          if e.io.saves { file := state; }
          return Decision(false, None);
        }
        if entry.suppressed > 0 { annotated := Some(entry.suppressed); }
        entry := Entry(0, None, Some(e.now));
        state := state[e.agent := entry];
        if e.io.saves { file := state; }
        return Decision(true, annotated);
      }
      if entry.suppressed > 0 {
        annotated := Some(entry.suppressed);
        entry := Entry(0, None, entry.lastSent);
      }
      entry := Entry(entry.suppressed, entry.first, Some(e.now));
      state := state[e.agent := entry];
      if e.io.saves { file := state; }
      return Decision(true, annotated);
    }
  }

  // ---- accounting ------------------------------------------------------------------------------

  /** The file after the first n events. */
  function After(file: Agents, es: seq<Event>, n: nat): Agents
    requires n <= |es|
  {
    if n == 0 then file else FileAfter(After(file, es, n - 1), es[n - 1])
  }

  function At(file: Agents, es: seq<Event>, i: nat): Decision
    requires i < |es|
  {
    Decide(After(file, es, i), es[i])
  }

  /** How many routine runs of the agent there were among the first n events. */
  function Routine(es: seq<Event>, n: nat, agent: string): nat
    requires n <= |es|
  {
    if n == 0 then 0 else Routine(es, n - 1, agent) + if es[n - 1].agent == agent && es[n - 1].routine then 1 else 0
  }

  /** How many of them were delivered. */
  function Delivered(file: Agents, es: seq<Event>, n: nat, agent: string): nat
    requires n <= |es|
  {
    if n == 0 then 0
    else Delivered(file, es, n - 1, agent) + if es[n - 1].agent == agent && es[n - 1].routine && At(file, es, n - 1).send then 1 else 0
  }

  /** The sum of the counts that annotations reported. */
  function Reported(file: Agents, es: seq<Event>, n: nat, agent: string): nat
    requires n <= |es|
  {
    if n == 0 then 0
    else
      var d := At(file, es, n - 1);
      Reported(file, es, n - 1, agent) + if es[n - 1].agent == agent && d.reported.Some? then d.reported.value else 0
  }

  predicate Persists(es: seq<Event>) { forall e | e in es :: e.io == Io(true, true) }

  /** Every routine run is accounted for exactly once: it was delivered, it is still pending, or
      its count was reported by a later notification, never by two. */
  lemma {:induction false} RoutineRunsAreConserved(file: Agents, es: seq<Event>, n: nat, agent: string)
    requires n <= |es| && Persists(es)
    ensures Routine(es, n, agent) + EntryOf(file, agent).suppressed ==
              Delivered(file, es, n, agent) + EntryOf(After(file, es, n), agent).suppressed + Reported(file, es, n, agent)
  {
    if n > 0 {
      RoutineRunsAreConserved(file, es, n - 1, agent);
      assert es[n - 1] in es;
    }
  }

  /** A decision about one agent never touches another's state. */
  lemma {:induction false} OthersAreUntouched(file: Agents, es: seq<Event>, n: nat, agent: string)
    requires n <= |es| && Persists(es) && forall e | e in es :: e.agent != agent
    ensures EntryOf(After(file, es, n), agent) == EntryOf(file, agent) && (agent in After(file, es, n) <==> agent in file)
  {
    if n > 0 {
      OthersAreUntouched(file, es, n - 1, agent);
      assert es[n - 1] in es;
    }
  }

  /** The last delivery the file remembers. */
  lemma LastSentMoves(file: Agents, e: Event)
    requires e.io == Io(true, true)
    ensures EntryOf(FileAfter(file, e), e.agent).lastSent ==
              if Decide(file, e).send then Some(e.now) else EntryOf(file, e.agent).lastSent
  {}

  lemma LastSentStays(file: Agents, e: Event, other: string)
    requires e.io == Io(true, true) && other != e.agent
    ensures EntryOf(FileAfter(file, e), other) == EntryOf(file, other)
  {}

  /** The last of the first n events that was delivered for the agent; n if there is none. */
  function LastDelivery(file: Agents, es: seq<Event>, n: nat, agent: string): (k: nat)
    requires n <= |es|
    ensures k <= n
  {
    if n == 0 then 0
    else if es[n - 1].agent == agent && At(file, es, n - 1).send then n - 1
    else
      var k := LastDelivery(file, es, n - 1, agent);
      if k == n - 1 then n else k
  }

  /** The file's last delivery time is that of the agent's last delivered notification. */
  lemma {:induction false} LastSentIsLastDelivery(file: Agents, es: seq<Event>, n: nat, agent: string)
    requires n <= |es| && Persists(es)
    ensures var k := LastDelivery(file, es, n, agent);
      && EntryOf(After(file, es, n), agent).lastSent == (if k == n then EntryOf(file, agent).lastSent else Some(es[k].now))
      && (k < n ==> es[k].agent == agent && At(file, es, k).send)
  {
    if n > 0 {
      LastSentIsLastDelivery(file, es, n - 1, agent);
      var before, e := After(file, es, n - 1), es[n - 1];
      assert e in es;
      if e.agent == agent { LastSentMoves(before, e); } else { LastSentStays(before, e, agent); }
      assert After(file, es, n) == FileAfter(before, e);
    }
  }

  predicate DeliveredAt(file: Agents, es: seq<Event>, j: nat, agent: string)
    requires j < |es|
  {
    es[j].agent == agent && At(file, es, j).send
  }

  /** Whatever reads and writes fail, a delivery time in the file is that of a delivery of the run
      or was in the file before it. */
  lemma {:induction false} LastSentWasDelivered(file: Agents, es: seq<Event>, n: nat, agent: string)
    requires n <= |es| && EntryOf(After(file, es, n), agent).lastSent.Some?
    ensures var last := EntryOf(After(file, es, n), agent).lastSent;
      last == EntryOf(file, agent).lastSent || exists j | 0 <= j < n :: DeliveredAt(file, es, j, agent) && last == Some(es[j].now)
  {
    if n > 0 {
      var before, e := After(file, es, n - 1), es[n - 1];
      if EntryOf(FileAfter(before, e), agent).lastSent == EntryOf(before, agent).lastSent {
        LastSentWasDelivered(file, es, n - 1, agent);
      } else {
        assert DeliveredAt(file, es, n - 1, agent);
      }
    }
  }

  /** Quiet is not dead: whatever reads and writes fail, a routine run is held back only within a
      day of a delivered notification of its own agent, in this run or before it. */
  lemma HeldBackOnlyWithinADay(file: Agents, es: seq<Event>, i: nat)
    requires i < |es| && !At(file, es, i).send
    ensures var agent, before := es[i].agent, EntryOf(file, es[i].agent).lastSent;
      && es[i].routine && es[i].io.loads
      && ((before.Some? && es[i].now - before.value < HEARTBEAT)
          || exists j | 0 <= j < i :: DeliveredAt(file, es, j, agent) && es[i].now - es[j].now < HEARTBEAT)
  {
    LastSentWasDelivered(file, es, i, es[i].agent);
  }

  // ---- when the state file fails -------------------------------------------------------------------

  function Pending(file: Agents, agent: string): int { EntryOf(file, agent).suppressed }

  /** What one event changes in the agent's balance of pending, delivered and reported runs. */
  function Drift(file: Agents, e: Event): int {
    var d := Decide(file, e);
    Pending(FileAfter(file, e), e.agent) - Pending(file, e.agent)
    + (if e.routine && d.send then 1 else 0) + (if d.reported.Some? then d.reported.value else 0)
    - (if e.routine then 1 else 0)
  }

  /** An event is held back exactly when the file could be read and says so: failed state I/O
      delivers the event but for one case, a suppression whose count cannot be written and which
      loses the run altogether. A count that cannot be reset is reported again, and a file that
      cannot be read but is replaced forgets what was pending. The balance is kept exactly when
      none of this happens. */
  lemma DriftOfOneEvent(file: Agents, e: Event)
    ensures Drift(file, e) ==
              var entry := EntryOf(Loaded(file, e.io), e.agent);
              if e.io.saves then (if e.io.loads then 0 else -Pending(file, e.agent))
              else if Suppresses(entry, e.routine, e.now) then -1
              else entry.suppressed
    ensures !Decide(file, e).send <==> e.io.loads && Suppresses(EntryOf(file, e.agent), e.routine, e.now)
  {}

  /** Not every I/O problem delivers the event: a routine run inside the window is dropped when
      only the write fails. */
  lemma FailedWriteDropsTheRun(file: Agents, agent: string, now: int)
    requires agent in file && file[agent].lastSent.Some? && now - file[agent].lastSent.value < HEARTBEAT
    ensures var e := Event(agent, true, now, Io(true, false));
      !Decide(file, e).send && FileAfter(file, e) == file && Drift(file, e) == -1
  {
    DriftOfOneEvent(file, Event(agent, true, now, Io(true, false)));
  }

  /** An event leaves another agent's state alone exactly if the file could be read or could not
      be replaced, or held nothing of that agent to lose. */
  lemma UnreadableFileForgetsOthers(file: Agents, e: Event, other: string)
    requires other != e.agent
    ensures EntryOf(FileAfter(file, e), other) == EntryOf(file, other) <==>
              e.io.loads || !e.io.saves || EntryOf(file, other) == QUIET
    ensures !e.io.loads && e.io.saves ==> other !in FileAfter(file, e) && Decide(file, e).send
  {}

  /** What an event about anybody changes in one agent's balance. */
  function DriftFor(file: Agents, e: Event, agent: string): int {
    if e.agent == agent then Drift(file, e) else Pending(FileAfter(file, e), agent) - Pending(file, agent)
  }

  function Drifted(file: Agents, es: seq<Event>, n: nat, agent: string): int
    requires n <= |es|
  {
    if n == 0 then 0 else Drifted(file, es, n - 1, agent) + DriftFor(After(file, es, n - 1), es[n - 1], agent)
  }

  /** Whatever fails when: the account of a run is out of balance by exactly what its single
      events are, and an event about another agent costs this one its pending count or nothing. */
  lemma {:induction false} BalanceOfARun(file: Agents, es: seq<Event>, n: nat, agent: string)
    requires n <= |es|
    ensures Routine(es, n, agent) + Pending(file, agent) + Drifted(file, es, n, agent) ==
              Delivered(file, es, n, agent) + Pending(After(file, es, n), agent) + Reported(file, es, n, agent)
    ensures n < |es| && es[n].agent != agent ==>
              DriftFor(After(file, es, n), es[n], agent) ==
                if !es[n].io.loads && es[n].io.saves then -Pending(After(file, es, n), agent) else 0
  {
    if n > 0 {
      BalanceOfARun(file, es, n - 1, agent);
      DriftOfOneEvent(After(file, es, n - 1), es[n - 1]);
    }
  }
}

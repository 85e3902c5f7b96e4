/**
 The rebuild throttle of the deploy-drift watcher (internal/agent/rebuild.go): consecutive
 failures against one repository head are counted, spaced and finally refused.
*/
module RebuildGuard {
  datatype Guard = Guard(head: string, attempts: nat, lastFail: int, built: bool)
  datatype Limits = Limits(maxAttempts: int, base: int, maxDelay: int)

  const FRESH := Guard("", 0, 0, false)
  const MINUTE := 60_000_000_000
  const DEFAULTS := Limits(5, MINUTE, 30 * MINUTE)
  const TWO_63 := 0x8000_0000_0000_0000
  const TWO_64 := 0x1_0000_0000_0000_0000

  function Pow2(n: nat): nat { if n == 0 then 1 else 2 * Pow2(n - 1) }

  /** A time.Duration is a 64-bit two's complement integer. */
  function Wrap64(x: int): int { (x + TWO_63) % TWO_64 - TWO_63 }

  /** The delay after the k-th consecutive failure. */
  function Delay(l: Limits, k: nat): int
    requires k > 0
  {
    var delay := Wrap64(l.base * Pow2(k - 1));
    if l.maxDelay > 0 && delay > l.maxDelay then l.maxDelay else delay
  }

  function Allowed(g: Guard, l: Limits, head: string, now: int): bool {
    || head != g.head
    || g.attempts == 0
    || (g.attempts < l.maxAttempts && now - g.lastFail >= Delay(l, g.attempts))
  }

  function Asked(g: Guard, head: string): Guard {
    if head != g.head then Guard(head, 0, g.lastFail, false) else g
  }

  function Failed(g: Guard, head: string, now: int): Guard {
    Guard(head, if head != g.head then 1 else g.attempts + 1, now, false)
  }

  function Succeeded(g: Guard, head: string): Guard { Guard(head, 0, g.lastFail, true) }

  predicate BuiltAt(g: Guard, head: string) { g.built && head == g.head }

  lemma {:induction false} Pow2Grows(a: nat, b: nat)
    requires a <= b
    ensures Pow2(a) <= Pow2(b)
  {
    if a < b { Pow2Grows(a, b - 1); }
  }

  /** The shift is exact exactly when the mathematical delay fits in 63 bits. */
  lemma ShiftIsExact(base: int, k: nat)
    requires 0 <= base && k > 0
    ensures Wrap64(base * Pow2(k - 1)) == base * Pow2(k - 1) <==> base * Pow2(k - 1) < TWO_63
  {}

  lemma ScaledGrows(base: int, a: nat, b: nat)
    requires 0 <= base && a <= b
    ensures base * Pow2(a) <= base * Pow2(b)
  {
    Pow2Grows(a, b);
  }

  /** Whenever the delay is consulted it is the capped exponential, if the largest one the
      attempt limit leaves reachable fits. */
  lemma DelayIsCappedExponential(l: Limits, k: nat)
    requires 0 <= l.base && 0 < k < l.maxAttempts && l.base * Pow2(l.maxAttempts - 2) < TWO_63
    ensures Delay(l, k) == if l.maxDelay > 0 && l.base * Pow2(k - 1) > l.maxDelay then l.maxDelay else l.base * Pow2(k - 1)
    ensures Delay(l, k) >= 0
  {
    ScaledGrows(l.base, k - 1, l.maxAttempts - 2);
    ShiftIsExact(l.base, k);
  }

  lemma DefaultsFit()
    ensures DEFAULTS.base * Pow2(DEFAULTS.maxAttempts - 2) < TWO_63
    ensures Delay(DEFAULTS, 1) == MINUTE && Delay(DEFAULTS, 4) == 8 * MINUTE
  {
    assert Pow2(0) == 1 && Pow2(1) == 2 && Pow2(2) == 4 && Pow2(3) == 8;
  }

  /** Out of range the guard gives up its spacing: one doubling too many makes the computed
      delay negative, so the next attempt is allowed at once. */
  lemma OverflowWaivesTheDelay(g: Guard, l: Limits)
    requires 0 < g.attempts < l.maxAttempts && TWO_63 <= l.base * Pow2(g.attempts - 1) < TWO_64
    ensures Delay(l, g.attempts) < 0 && Allowed(g, l, g.head, g.lastFail)
  {}

  // ---- what the guard remembers -----------------------------------------------------------

  /** Moved: the guard saw a new head. Built: a rebuild completed. Broke: one failed, attempted
      at `tried` and recorded at `at`. */
  datatype Event = Moved(head: string) | Built(head: string) | Broke(head: string, tried: int, at: int)

  /** How many failures the log ends with. */
  function Streak(log: seq<Event>): nat {
    if log == [] || !log[|log| - 1].Broke? then 0 else 1 + Streak(log[..|log| - 1])
  }

  /** The guard is the summary of its log. */
  predicate Tracks(g: Guard, log: seq<Event>) {
    && g.attempts == Streak(log)
    && (g.built ==> g.attempts == 0)
    && (log != [] ==> log[|log| - 1].head == g.head)
    && (g.attempts > 0 ==> log != [] && log[|log| - 1].at == g.lastFail)
  }

  function Most(a: int, b: int): int { if a < b then b else a }

  /** Every streak of failures concerns one head, is no longer than the attempt limit (one
      attempt is always granted), and its k-th failure is followed by a delay before the next
      attempt. */
  predicate Paced(log: seq<Event>, l: Limits) {
    log == [] ||
    var last, front := log[|log| - 1], log[..|log| - 1];
    && Paced(front, l)
    && (last.Broke? ==>
          && 1 + Streak(front) <= Most(1, l.maxAttempts)
          && (Streak(front) > 0 ==>
                front[|front| - 1].head == last.head && last.tried - front[|front| - 1].at >= Delay(l, Streak(front))))
  }

  lemma Snoc(log: seq<Event>, e: Event)
    ensures (log + [e])[..|log|] == log && (log + [e])[|log|] == e
    ensures Streak(log + [e]) == if e.Broke? then 1 + Streak(log) else 0
  {
    assert (log + [e])[..|log + [e]| - 1] == log;
  }

  lemma AskingKeeps(g: Guard, l: Limits, log: seq<Event>, head: string)
    requires Tracks(g, log) && Paced(log, l)
    ensures var log' := if head != g.head then log + [Moved(head)] else log;
      Tracks(Asked(g, head), log') && Paced(log', l)
  {
    Snoc(log, Moved(head));
  }

  lemma SuccessKeeps(g: Guard, l: Limits, log: seq<Event>)
    requires Tracks(g, log) && Paced(log, l)
    ensures Tracks(Succeeded(g, g.head), log + [Built(g.head)]) && Paced(log + [Built(g.head)], l)
  {
    Snoc(log, Built(g.head));
  }

  /** A failed attempt that the guard had allowed keeps the pace. */
  lemma FailureKeeps(g: Guard, l: Limits, log: seq<Event>, tried: int, at: int)
    requires Tracks(g, log) && Paced(log, l) && Allowed(g, l, g.head, tried)
    ensures var log' := log + [Broke(g.head, tried, at)];
      Tracks(Failed(g, g.head, at), log') && Paced(log', l)
  {
    Snoc(log, Broke(g.head, tried, at));
  }

  /** Completed rebuilds whose smoke test then fails are a different matter: success clears the
      count first, so such a head is retried for ever, unless only one attempt is allowed. */
  lemma SmokeFailuresAreRetried(g: Guard, l: Limits, head: string, at: int)
    ensures var g' := Failed(Succeeded(g, head), head, at);
      && g'.attempts == 1
      && (l.maxAttempts > 1 <==> exists now: int :: Allowed(g', l, head, now))
  {
    var g' := Failed(Succeeded(g, head), head, at);
    if l.maxAttempts > 1 {
      assert Allowed(g', l, head, at + Delay(l, 1));
    }
  }

  /** A head change restarts the count at once. */
  lemma NewHeadIsAlwaysAllowed(g: Guard, l: Limits, head: string, now: int)
    requires head != g.head
    ensures Allowed(g, l, head, now) && Asked(g, head).attempts == 0 && !BuiltAt(g, head)
  {}

  lemma {:induction false} PrefixIsPaced(log: seq<Event>, l: Limits, n: nat)
    requires Paced(log, l) && n <= |log|
    ensures Paced(log[..n], l)
  {
    if n < |log| {
      PrefixIsPaced(log[..|log| - 1], l, n);
      assert log[..|log| - 1][..n] == log[..n];
    } else {
      assert log[..n] == log;
    }
  }

  lemma {:induction false} StreakIsBounded(log: seq<Event>, l: Limits)
    requires Paced(log, l)
    ensures Streak(log) <= Most(1, l.maxAttempts)
  {}

  /** At any point of a paced log, failures of one head in a row number at most MaxAttempts (one
      is always granted), and the next one after k of them was attempted no sooner than
      min(Base * 2^(k-1), MaxDelay) after the k-th. */
  lemma FailuresAreBoundedAndSpaced(log: seq<Event>, l: Limits, n: nat)
    requires Paced(log, l) && n < |log|
    requires 0 <= l.base && (l.maxAttempts >= 2 ==> l.base * Pow2(l.maxAttempts - 2) < TWO_63)
    ensures Streak(log[..n]) <= Most(1, l.maxAttempts)
    ensures var k := Streak(log[..n]);
      log[n].Broke? && k > 0 ==>
        && k < l.maxAttempts && log[n - 1].Broke? && log[n - 1].head == log[n].head
        && var exact := l.base * Pow2(k - 1);
           log[n].tried - log[n - 1].at >= if l.maxDelay > 0 && exact > l.maxDelay then l.maxDelay else exact
  {
    var front, k := log[..n], Streak(log[..n]);
    PrefixIsPaced(log, l, n + 1);
    PrefixIsPaced(log, l, n);
    StreakIsBounded(front, l);
    assert log[..n + 1][..n] == front;
    if log[n].Broke? && k > 0 {
      assert front[n - 1] == log[n - 1];
      DelayIsCappedExponential(l, k);
    }
  }

  class RebuildBackoff {
    const limits: Limits
    var head: string
    var attempts: nat
    var lastFail: int
    var built: bool

    function Value(): Guard
      reads this
    {
      Guard(head, attempts, lastFail, built)
    }

    constructor (limits: Limits)
      ensures Value() == FRESH && this.limits == limits
    {
      this.limits := limits;
      head, attempts, lastFail, built := "", 0, 0, false;
    }

    method Allow(candidate: string, now: int) returns (ok: bool)
      modifies this
      ensures ok == Allowed(old(Value()), limits, candidate, now)
      ensures Value() == Asked(old(Value()), candidate)
    {
      if candidate != head {
        head := candidate;
        attempts := 0;
        built := false;
        return true;
      }
      if attempts == 0 { return true; }
      if attempts >= limits.maxAttempts { return false; }
      return now - lastFail >= BackoffDelay();
    }

    function BackoffDelay(): int
      requires attempts > 0
      reads this
    {
      Delay(limits, attempts)
    }

    method RecordFailure(failed: string, now: int)
      modifies this
      ensures Value() == Failed(old(Value()), failed, now)
    {
      if failed != head {
        head := failed;
        attempts := 0;
      }
      attempts := attempts + 1;
      lastFail := now;
      built := false;
    }

    method RecordSuccess(succeeded: string)
      modifies this
      ensures Value() == Succeeded(old(Value()), succeeded)
    {
      head := succeeded;
      attempts := 0;
      built := true;
    }
  }
}

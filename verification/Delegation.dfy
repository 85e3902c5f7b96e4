/**
 Delegating a task to a peer (internal/a2a/client.go, internal/reliability/errors.go): the retry
 loop may send again only when the peer proved that it did not admit the request.
*/
module Delegation {
  import opened Common
  import opened ExecutionErrors
  import opened TaskReplies

  const MAX_RETRIES: nat := 3

  /** What one request meets: whether the peer starts executing it, and what comes back. */
  datatype Answer =
    | Lost(error: Err)                                                   // no reply, whatever happened remotely
    | Refusal(declares: bool, sameOrigin: bool, error: Err)              // a non-2xx reply, maybe with the admission header
    | Garbled(error: Err)                                                // a reply the SDK could not use
    | Replied(reply: Reply)

  datatype Peer = Peer(admits: bool, answer: Answer)

  /** The peer's word can be trusted: it declares non-admission only of requests it did not
      admit, and has a result only for one it did. */
  predicate Honest(p: Peer) {
    && (p.answer.Refusal? && p.answer.declares && p.answer.sameOrigin ==> !p.admits)
    && (p.answer.Replied? ==> p.admits)
  }

  /** One attempt: the caller's deadline, the peer, how the error is classified by its text,
      and whether the backoff sleep is cut short. */
  datatype Attempt = Attempt(expired: Option<Err>, peer: Peer, category: Category, cut: Option<Err>)

  datatype Poll = Poll(wait: Option<Err>, error: Option<Err>, next: Option<RemoteTask>)

  datatype World = World(expired: Option<Err>, unresolved: Option<Err>, unconnected: Option<Err>,
                         attempts: seq<Attempt>, polls: seq<Poll>)

  predicate Trusted(w: World) {
    |w.attempts| == MAX_RETRIES && forall a | a in w.attempts :: Honest(a.peer)
  }

  /** RetryPolicy.ExecuteContext without RetryUnknown: try again only after an error that is not
      terminal, of a transient category, within the attempt limit. */
  predicate TriesAgain(e: Err, category: Category, attempt: nat) {
    !IsTerminal(Some(e)) && category.Retryable() && attempt < MAX_RETRIES
  }

  /** How the policy ends with an error: as it is, refused, exhausted, or cut short in its sleep. */
  function PolicyError(e: Err, cut: Option<Err>): Err {
    if IsTerminal(Some(e)) then e else Wrap(if cut.Some? then cut.value else e)
  }

  lemma WrapKeepsKind(e: Err)
    ensures KindOf(Some(Wrap(e))) == KindOf(Some(e))
    ensures IsTerminal(Some(Wrap(e))) <==> IsTerminal(Some(e))
  {}

  /** A cut sleep reports the context's error, which is never a diagnostic. */
  predicate PlainCuts(w: World) { forall a | a in w.attempts && a.cut.Some? :: !IsTerminal(a.cut) }

  // ---- one send, and the retries around it ---------------------------------------------------

  /** What came of it, and how many requests the peer admitted on the way. */
  datatype Sent = Sent(reply: Option<Reply>, error: Option<Err>, admissions: nat)

  /** An error without proof of non-admission is uncertain. */
  function SentOnce(a: Attempt): Sent {
    if a.expired.Some? then Sent(None, Some(Categorized(Validation, a.expired.value)), 0)
    else
      var admitted := if a.peer.admits then 1 else 0;
      match a.peer.answer
      case Replied(r) => Sent(Some(r), None, admitted)
      case Refusal(declares, sameOrigin, e) => Sent(None, Some(if declares && sameOrigin then e else Uncertain(e)), admitted)
      case Lost(e) => Sent(None, Some(Uncertain(e)), admitted)
      case Garbled(e) => Sent(None, Some(Uncertain(e)), admitted)
  }

  function CategoryOf(a: Attempt): Category { if a.expired.Some? then Validation else a.category }

  /** The attempts from the i-th on. */
  function Retried(attempts: seq<Attempt>, i: nat): (all: Sent)
    requires i < |attempts| == MAX_RETRIES
    ensures all.reply.Some? <==> all.error.None?
    decreases |attempts| - i
  {
    var one := SentOnce(attempts[i]);
    if one.error.None? then one
    else if !TriesAgain(one.error.value, CategoryOf(attempts[i]), i + 1) then
      Sent(None, Some(PolicyError(one.error.value, None)), one.admissions)
    else if attempts[i].cut.Some? then Sent(None, Some(PolicyError(one.error.value, attempts[i].cut)), one.admissions)
    else
      var rest := Retried(attempts, i + 1);
      Sent(rest.reply, rest.error, one.admissions + rest.admissions)
  }

  /** A failed attempt that is not uncertain was not admitted. */
  lemma UnprovedIsUncertain(a: Attempt)
    requires Honest(a.peer)
    ensures var one := SentOnce(a);
      && one.admissions <= 1 && (one.reply.Some? <==> one.error.None?)
      && (one.error.None? ==> one.admissions == 1)
      && (one.error.Some? && !IsUncertain(one.error) ==> one.admissions == 0)
  {}

  /** However replies are lost, at most one attempt is admitted; a reply means exactly one, and
      an error that is not a terminal diagnostic means none. */
  lemma {:induction false} RetriesAdmitAtMostOnce(attempts: seq<Attempt>, i: nat)
    requires i < |attempts| == MAX_RETRIES && forall a | a in attempts :: Honest(a.peer)
    requires forall a | a in attempts && a.cut.Some? :: !IsTerminal(a.cut)
    ensures var all := Retried(attempts, i);
      && all.admissions <= 1
      && (all.error.None? ==> all.admissions == 1)
      && (all.error.Some? && !IsTerminal(all.error) ==> all.admissions == 0)
    decreases |attempts| - i
  {
    var a, one := attempts[i], SentOnce(attempts[i]);
    UnprovedIsUncertain(a);
    if one.error.Some? {
      WrapKeepsKind(one.error.value);
      if a.cut.Some? { WrapKeepsKind(a.cut.value); }
      if TriesAgain(one.error.value, CategoryOf(a), i + 1) && a.cut.None? { RetriesAdmitAtMostOnce(attempts, i + 1); }
    }
  }

  class Transport {
    /** The peer asserted that the last request was rejected before admission. */
    var notAdmitted: bool
    /** How many requests the peer has admitted. */
    ghost var admissions: nat

    constructor ()
      ensures !notAdmitted && admissions == 0
    {
      notAdmitted, admissions := false, 0;
    }

    method RoundTrip(p: Peer)
      modifies this
      ensures admissions == old(admissions) + if p.admits then 1 else 0
      ensures notAdmitted == (old(notAdmitted) || (p.answer.Refusal? && p.answer.declares && p.answer.sameOrigin))
    {
      admissions := admissions + if p.admits then 1 else 0;
      if p.answer.Refusal? && p.answer.declares && p.answer.sameOrigin { notAdmitted := true; }
    }

    /** The attempt as the policy runs it. */
    method SendOnce(a: Attempt) returns (reply: Option<Reply>, err: Option<Err>)
      modifies this
      ensures admissions >= old(admissions) && Sent(reply, err, admissions - old(admissions)) == SentOnce(a)
    {
      if a.expired.Some? { return None, Some(Categorized(Validation, a.expired.value)); }
      notAdmitted := false;
      RoundTrip(a.peer);
      match a.peer.answer {
        case Replied(r) => return Some(r), None;
        case _ =>
          var e := a.peer.answer.error;
          return None, Some(if notAdmitted then e else Uncertain(e));
      }
    }

    /** The policy around it. */
    method SendWithRetry(attempts: seq<Attempt>) returns (reply: Option<Reply>, err: Option<Err>)
      requires |attempts| == MAX_RETRIES
      modifies this
      ensures admissions >= old(admissions) && Sent(reply, err, admissions - old(admissions)) == Retried(attempts, 0)
    {
      var i := 0;
      while true
        invariant 0 <= i < |attempts| && admissions >= old(admissions)
        invariant Retried(attempts, 0) ==
                    var rest := Retried(attempts, i); Sent(rest.reply, rest.error, admissions - old(admissions) + rest.admissions)
        decreases |attempts| - i
      {
        var a := attempts[i];
        reply, err := SendOnce(a);
        if err.None? { return; }
        i := i + 1;
        var again := TriesAgain(err.value, if a.expired.Some? then Validation else a.category, i);
        if !again || a.cut.Some? {
          err := Some(PolicyError(err.value, if again then a.cut else None));
          return;
        }
      }
    }
  }

  // ---- polling -----------------------------------------------------------------------------------

  /** A poll may only continue the task it was started for. */
  predicate Continues(t: RemoteTask, next: RemoteTask) { next.id == t.id && next.contextId == t.contextId }

  /** What a reply comes to when its task is polled from the i-th poll on; the deadline budget is
      the number of polls left. */
  function Polled(resp: Reply, polls: seq<Poll>, i: nat, names: Names): Outcome
    requires i <= |polls|
    decreases |polls| - i
  {
    if !resp.TaskReply? || !Active(resp.task.state) then Interpret(resp, names)
    else if resp.task.id == "" then Outcome("", Some(Doubt("active task has no ID")))
    else if i == |polls| then Outcome("", Some(Uncertain(Plain("deadline"))))
    else if polls[i].wait.Some? then Outcome("", Some(Uncertain(polls[i].wait.value)))
    else if polls[i].error.Some? then Outcome("", Some(Uncertain(polls[i].error.value)))
    else if polls[i].next.None? || !Continues(resp.task, polls[i].next.value) then
      Outcome("", Some(Doubt("poll returned a different or missing task")))
    else Polled(TaskReply(polls[i].next.value), polls, i + 1, names)
  }

  /** Polling follows one task to a state that is interpreted, or ends in doubt: every failure is
      typed, and a result is an honest reading of the same task. */
  lemma {:induction false} PollingIsHonest(resp: Reply, polls: seq<Poll>, i: nat, names: Names) returns (last: Reply)
    requires i <= |polls|
    ensures var o := Polled(resp, polls, i, names);
      && (o.error.Some? ==> IsTerminal(o.error))
      && (o.error.None? ==> Interpret(last, names) == o)
    ensures last.TaskReply? <==> resp.TaskReply?
    ensures resp.TaskReply? ==> Continues(resp.task, last.task)
    decreases |polls| - i
  {
    last := resp;
    if !resp.TaskReply? || !Active(resp.task.state) {
      FailuresAreTyped(resp, names);
    } else if resp.task.id != "" && i < |polls| && polls[i].wait.None? && polls[i].error.None?
              && polls[i].next.Some? && Continues(resp.task, polls[i].next.value)
    {
      last := PollingIsHonest(TaskReply(polls[i].next.value), polls, i + 1, names);
    }
  }

  /** Polls a task that already has an owner; never sends again. */
  method Await(first: Reply, polls: seq<Poll>, names: Names) returns (text: string, err: Option<Err>)
    ensures Outcome(text, err) == Polled(first, polls, 0, names)
  {
    var resp := first;
    var i := 0;
    while true
      invariant 0 <= i <= |polls| && Polled(first, polls, 0, names) == Polled(resp, polls, i, names)
      decreases |polls| - i
    {
      if !resp.TaskReply? || !Active(resp.task.state) {
        var o := Interpret(resp, names);
        return o.text, o.error;
      }
      if resp.task.id == "" { return "", Some(Doubt("active task has no ID")); }
      if i == |polls| { return "", Some(Uncertain(Plain("deadline"))); }
      if polls[i].wait.Some? { return "", Some(Uncertain(polls[i].wait.value)); }
      if polls[i].error.Some? { return "", Some(Uncertain(polls[i].error.value)); }
      if polls[i].next.None? || !Continues(resp.task, polls[i].next.value) {
        return "", Some(Doubt("poll returned a different or missing task"));
      }
      resp := TaskReply(polls[i].next.value);
      i := i + 1;
    }
  }

  // ---- one delegation ------------------------------------------------------------------------------

  datatype Delegated = Delegated(text: string, error: Option<Err>, admissions: nat)

  function Delegate(w: World, names: Names): Delegated
    requires |w.attempts| == MAX_RETRIES
  {
    if w.expired.Some? then Delegated("", w.expired, 0)
    else if w.unresolved.Some? then Delegated("", Some(Wrap(w.unresolved.value)), 0)
    else if w.unconnected.Some? then Delegated("", Some(Wrap(w.unconnected.value)), 0)
    else
      var sent := Retried(w.attempts, 0);
      if sent.error.Some? then Delegated("", Some(Wrap(sent.error.value)), sent.admissions)
      else
        var o := Polled(sent.reply.value, w.polls, 0, names);
        Delegated(o.text, o.error, sent.admissions)
  }

  /** At most one admission; a result means exactly one and has text; an error that is not a
      terminal diagnostic means none. */
  predicate AtMostOnce(text: string, error: Option<Err>, admissions: nat) {
    && admissions <= 1
    && (error.None? ==> admissions == 1 && text != "")
    && (error.Some? && !IsTerminal(error) ==> admissions == 0)
  }

  /** Whatever replies are lost, the peer admits a delegated task at most once, and only an error
      that is not typed uncertain, stopped or persistence may be answered by delegating again. */
  lemma DelegationIsAtMostOnce(w: World, names: Names)
    requires Trusted(w) && PlainCuts(w)
    ensures var d := Delegate(w, names); AtMostOnce(d.text, d.error, d.admissions)
  {
    RetriesAdmitAtMostOnce(w.attempts, 0);
    var sent := Retried(w.attempts, 0);
    if sent.error.Some? {
      WrapKeepsKind(sent.error.value);
    } else {
      var last := PollingIsHonest(sent.reply.value, w.polls, 0, names);
      if Polled(sent.reply.value, w.polls, 0, names).error.None? { SuccessIsHonest(last, names); }
    }
  }

  method SendTask(w: World, names: Names) returns (text: string, err: Option<Err>, ghost admissions: nat)
    requires Trusted(w) && PlainCuts(w)
    ensures text == Delegate(w, names).text && err == Delegate(w, names).error
    ensures admissions == Delegate(w, names).admissions
    ensures AtMostOnce(text, err, admissions)
  {
    DelegationIsAtMostOnce(w, names);
    if w.expired.Some? { return "", w.expired, 0; }
    if w.unresolved.Some? { return "", Some(Wrap(w.unresolved.value)), 0; }
    if w.unconnected.Some? { return "", Some(Wrap(w.unconnected.value)), 0; }
    var transport := new Transport();
    var reply, sendErr := transport.SendWithRetry(w.attempts);
    admissions := transport.admissions;
    if sendErr.Some? { return "", Some(Wrap(sendErr.value)), admissions; }
    text, err := Await(reply.value, w.polls, names);
  }

  // ---- the auction's dispatch ---------------------------------------------------------------------

  /** One try of the winner dispatch: a whole delegation, how the outer policy classifies its
      error, whether the error's text already speaks of an exhausted retry, and the sleep. */
  datatype Try = Try(world: World, category: Category, mentions: bool, cut: Option<Err>)

  predicate Sound(t: Try) { Trusted(t.world) && PlainCuts(t.world) && (t.cut.Some? ==> !IsTerminal(t.cut)) }

  predicate AllSound(tries: seq<Try>) { |tries| == MAX_RETRIES && forall t | t in tries :: Sound(t) }

  /** What the dispatch comes to, and whether its error reads as exhausted. */
  datatype Dispatched = Dispatched(text: string, error: Option<Err>, exhausted: bool, admissions: nat)

  function Dispatch(tries: seq<Try>, i: nat, names: Names): Dispatched
    requires AllSound(tries) && i < |tries|
    decreases |tries| - i
  {
    assert tries[i] in tries;
    var d := Delegate(tries[i].world, names);
    if d.error.None? then Dispatched(d.text, None, false, d.admissions)
    else if !TriesAgain(d.error.value, tries[i].category, i + 1) then
      Dispatched(d.text, Some(PolicyError(d.error.value, None)),
                 !IsTerminal(d.error) && (tries[i].mentions || tries[i].category.Retryable()), d.admissions)
    else if tries[i].cut.Some? then Dispatched(d.text, Some(PolicyError(d.error.value, tries[i].cut)), false, d.admissions)
    else
      var rest := Dispatch(tries, i + 1, names);
      Dispatched(rest.text, rest.error, rest.exhausted, d.admissions + rest.admissions)
  }

  /** The outer retry keeps it at most once across whole delegations: it only repeats one that
      admitted nothing. */
  lemma {:induction false} DispatchIsAtMostOnce(tries: seq<Try>, i: nat, names: Names)
    requires AllSound(tries) && i < |tries|
    ensures var d := Dispatch(tries, i, names);
      AtMostOnce(d.text, d.error, d.admissions) && (d.exhausted ==> d.error.Some? && !IsTerminal(d.error))
    decreases |tries| - i
  {
    var t := tries[i];
    assert t in tries;
    DelegationIsAtMostOnce(t.world, names);
    var d := Delegate(t.world, names);
    if d.error.Some? {
      WrapKeepsKind(d.error.value);
      if t.cut.Some? { WrapKeepsKind(t.cut.value); }
      if TriesAgain(d.error.value, t.category, i + 1) && t.cut.None? { DispatchIsAtMostOnce(tries, i + 1, names); }
    }
  }

  /** RunAuction's outer retry around SendTask. */
  method DispatchToWinner(tries: seq<Try>, names: Names) returns (text: string, err: Option<Err>, exhausted: bool, ghost admissions: nat)
    requires AllSound(tries)
    ensures var d := Dispatch(tries, 0, names); text == d.text && err == d.error && exhausted == d.exhausted
    ensures admissions == Dispatch(tries, 0, names).admissions
  {
    admissions, exhausted := 0, false;
    var i := 0;
    while true
      invariant 0 <= i < |tries| && !exhausted
      invariant Dispatch(tries, 0, names) ==
                  var rest := Dispatch(tries, i, names);
                  Dispatched(rest.text, rest.error, rest.exhausted, admissions + rest.admissions)
      decreases |tries| - i
    {
      var t := tries[i];
      assert t in tries;
      ghost var admitted;
      text, err, admitted := SendTask(t.world, names);
      admissions := admissions + admitted;
      if err.None? { return; }
      i := i + 1;
      var again := TriesAgain(err.value, t.category, i);
      if !again || t.cut.Some? {
        exhausted := !IsTerminal(err) && !again && (t.mentions || t.category.Retryable());
        err := Some(PolicyError(err.value, if again then t.cut else None));
        return;
      }
    }
  }

  /** How an auction ended before or at its dispatch. */
  datatype Auction = NoCandidates | NoEligibleBids | BreakerOpen | Broken(error: Err) | Won(tries: seq<Try>)

  predicate Plausible(a: Auction, cancelled: Option<Err>) {
    (a.Won? ==> AllSound(a.tries)) && (cancelled.Some? ==> !IsTerminal(cancelled))
  }

  datatype Award = Award(text: string, awarded: bool, error: Option<Err>, admissions: nat)

  /** What the delegating action sees: a result, an error, or the signal to fall back. */
  function Settle(a: Auction, cancelled: Option<Err>, names: Names): Award
    requires Plausible(a, cancelled)
  {
    match a
    case NoCandidates => Award("", false, None, 0)
    case NoEligibleBids => Award("", false, cancelled, 0)
    case BreakerOpen => Award("", false, cancelled, 0)
    case Broken(e) => Award("", false, if IsTerminal(Some(e)) || cancelled.None? then Some(e) else cancelled, 0)
    case Won(tries) =>
      var d := Dispatch(tries, 0, names);
      if d.error.None? then Award(d.text, true, None, d.admissions)
      else if IsTerminal(d.error) then Award(d.text, true, Some(Wrap(d.error.value)), d.admissions)
      else if cancelled.Some? then Award("", false, cancelled, d.admissions)
      else if d.exhausted then Award("", false, None, d.admissions)
      else Award("", false, Some(Wrap(d.error.value)), d.admissions)
  }

  /** Falling back to another executor (no error, not awarded) is answered only when the winner
      admitted nothing, so the work is never done twice; an award has a result and one admission. */
  lemma FallbackMeansNothingAdmitted(a: Auction, cancelled: Option<Err>, names: Names)
    requires Plausible(a, cancelled)
    ensures var r := Settle(a, cancelled, names);
      && r.admissions <= 1
      && (!r.awarded && r.error.None? ==> r.admissions == 0)
      && (r.awarded && r.error.None? ==> r.admissions == 1 && r.text != "")
      && (r.error.Some? && !IsTerminal(r.error) ==> r.admissions == 0)
      && (r.awarded ==> r.error.None? || IsTerminal(r.error))
  {
    if a.Won? {
      DispatchIsAtMostOnce(a.tries, 0, names);
      var d := Dispatch(a.tries, 0, names);
      if d.error.Some? { WrapKeepsKind(d.error.value); }
    }
  }

  method AuctionDelegate(a: Auction, cancelled: Option<Err>, names: Names)
    returns (text: string, awarded: bool, err: Option<Err>, ghost admissions: nat)
    requires Plausible(a, cancelled)
    ensures var r := Settle(a, cancelled, names); text == r.text && awarded == r.awarded && err == r.error
    ensures admissions == Settle(a, cancelled, names).admissions
  {
    admissions := 0;
    match a
    case NoCandidates => return "", false, None, 0;
    case NoEligibleBids => return "", false, cancelled, 0;
    case BreakerOpen => return "", false, cancelled, 0;
    case Broken(e) =>
      if IsTerminal(Some(e)) { return "", false, Some(e), 0; }
      return "", false, if cancelled.Some? then cancelled else Some(e), 0;
    case Won(tries) =>
      var result, dispatchErr, exhausted, admitted := DispatchToWinner(tries, names);
      if dispatchErr.None? { return result, true, None, admitted; }
      if IsTerminal(dispatchErr) { return result, true, Some(Wrap(dispatchErr.value)), admitted; }
      if cancelled.Some? { return "", false, cancelled, admitted; }
      if exhausted { return "", false, None, admitted; }
      return "", false, Some(Wrap(dispatchErr.value)), admitted;
  }
}

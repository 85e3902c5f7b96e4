/**
 The agents' event bus (internal/agent/bus.go): buffered channels that drop when full, a bounded
 history, and one Close. Channels are handles into the bus; what happened to each is its ledger.
*/
module EventBus {
  import opened Common

  datatype Event = Event(kind: string, payload: string, stamp: Option<int>)

  const BUFFER: nat := 16

  datatype Channel = Channel(buffer: seq<Event>, closed: bool)

  /** The record of one subscription: what it asked for, the position in the published events
      where it began, the events it was offered with the number of unread ones at that moment,
      which of them were kept, and what its reader has taken. */
  datatype Ledger = Ledger(kind: string, since: nat, offered: seq<Event>, unread: seq<nat>, kept: seq<nat>, received: seq<Event>)

  predicate Matches(kind: string, e: Event) { kind == "" || kind == e.kind }

  /** The events among the first n published ones from `since` on that match the subscription. */
  function Matching(published: seq<Event>, since: nat, n: nat, kind: string): seq<Event>
    requires since <= n <= |published|
  {
    if n == since then []
    else
      var front := Matching(published, since, n - 1, kind);
      if Matches(kind, published[n - 1]) then front + [published[n - 1]] else front
  }

  lemma {:induction false} MatchingPrefix(published: seq<Event>, e: Event, since: nat, n: nat, kind: string)
    requires since <= n <= |published|
    ensures Matching(published + [e], since, n, kind) == Matching(published, since, n, kind)
  {
    if n > since { MatchingPrefix(published, e, since, n - 1, kind); }
  }

  function Offer(ch: Channel, e: Event): Channel {
    if |ch.buffer| < BUFFER then Channel(ch.buffer + [e], ch.closed) else ch
  }

  function Noted(l: Ledger, e: Event, unread: nat): Ledger {
    Ledger(l.kind, l.since, l.offered + [e], l.unread + [unread],
           if unread < BUFFER then l.kept + [|l.offered|] else l.kept, l.received)
  }

  /** What a subscriber has received, followed by what is waiting for it. */
  function Seen(ch: Channel, l: Ledger): seq<Event> { l.received + ch.buffer }

  /** What it has seen is an in-order subsequence of what it was offered, missing exactly the
      events that came while its buffer was full. */
  predicate Faithful(ch: Channel, l: Ledger) {
    && |ch.buffer| <= BUFFER && |l.unread| == |l.offered|
    && Picks(Seen(ch, l), l.offered, l.kept) && Increasing(l.kept) && MissesOnlyFull(l.kept, l.unread)
  }

  /** The events seen are those at the kept places. */
  predicate Picks(seen: seq<Event>, offered: seq<Event>, kept: seq<nat>) {
    |kept| == |seen| && forall i | 0 <= i < |kept| :: kept[i] < |offered| && seen[i] == offered[kept[i]]
  }

  predicate Increasing(kept: seq<nat>) { forall i, j | 0 <= i < j < |kept| :: kept[i] < kept[j] }

  /** An event was kept exactly if fewer than a full buffer were unread when it came. */
  predicate MissesOnlyFull(kept: seq<nat>, unread: seq<nat>) {
    forall n {:trigger unread[n]} | 0 <= n < |unread| :: n in kept <==> unread[n] < BUFFER
  }

  lemma PicksGrow(seen: seq<Event>, offered: seq<Event>, kept: seq<nat>, e: Event)
    requires Picks(seen, offered, kept)
    ensures Picks(seen, offered + [e], kept) && Picks(seen + [e], offered + [e], kept + [|offered|])
  {}

  lemma KeptGrows(kept: seq<nat>, offered: nat, unread: seq<nat>, u: nat)
    requires Increasing(kept) && MissesOnlyFull(kept, unread) && |unread| == offered
    requires forall i | 0 <= i < |kept| :: kept[i] < offered
    ensures Increasing(kept + [offered])
    ensures u < BUFFER ==> MissesOnlyFull(kept + [offered], unread + [u])
    ensures u >= BUFFER ==> MissesOnlyFull(kept, unread + [u])
  {
    var more := kept + [offered];
    assert more[|kept|] == offered && offered !in kept;
    forall n | 0 <= n <= |unread|
      ensures u < BUFFER ==> (n in more <==> (unread + [u])[n] < BUFFER)
      ensures u >= BUFFER ==> (n in kept <==> (unread + [u])[n] < BUFFER)
    {
      if n < |unread| {
        assert n in kept <==> unread[n] < BUFFER;
        assert n in more <==> n in kept || n == offered;
      }
    }
  }

  lemma OfferIsFaithful(ch: Channel, l: Ledger, e: Event)
    requires Faithful(ch, l)
    ensures Faithful(Offer(ch, e), Noted(l, e, |ch.buffer|))
  {
    PicksGrow(Seen(ch, l), l.offered, l.kept, e);
    KeptGrows(l.kept, |l.offered|, l.unread, |ch.buffer|);
    if |ch.buffer| < BUFFER { assert Seen(Offer(ch, e), Noted(l, e, |ch.buffer|)) == Seen(ch, l) + [e]; }
  }

  lemma TakeIsFaithful(ch: Channel, l: Ledger)
    requires Faithful(ch, l) && ch.buffer != []
    ensures Faithful(Channel(ch.buffer[1..], ch.closed), l.(received := l.received + [ch.buffer[0]]))
    ensures Seen(Channel(ch.buffer[1..], ch.closed), l.(received := l.received + [ch.buffer[0]])) == Seen(ch, l)
  {}

  lemma {:induction false} KeptInOrder(ch: Channel, l: Ledger, n: nat)
    requires Faithful(ch, l) && n <= |l.offered| && forall i | 0 <= i < |l.offered| :: l.unread[i] < BUFFER
    ensures n <= |l.kept| && forall i | 0 <= i < n :: l.kept[i] == i
  {
    if n > 0 {
      KeptInOrder(ch, l, n - 1);
      assert l.unread[n - 1] < BUFFER && n - 1 in l.kept;
      var i :| 0 <= i < |l.kept| && l.kept[i] == n - 1;
      assert i >= n - 1;
      AtLeastItsPlace(l.kept, n - 1);
    }
  }

  /** Strictly increasing positions are at least as large as their places. */
  lemma {:induction false} AtLeastItsPlace(kept: seq<nat>, i: nat)
    requires i < |kept| && Increasing(kept)
    ensures kept[i] >= i
  {
    if i > 0 { AtLeastItsPlace(kept, i - 1); }
  }

  /** A subscriber that never had a full buffer when an event came has missed nothing. */
  lemma GaplessUntilFull(ch: Channel, l: Ledger)
    requires Faithful(ch, l) && forall i | 0 <= i < |l.offered| :: l.unread[i] < BUFFER
    ensures Seen(ch, l) == l.offered
  {
    KeptInOrder(ch, l, |l.offered|);
    if |l.kept| > |l.offered| { AtLeastItsPlace(l.kept, |l.offered|); }
  }

  predicate Distinct(ids: seq<nat>) { forall i, j | 0 <= i < j < |ids| :: ids[i] != ids[j] }

  /** The channels once the first n of these subscribers were offered the event. */
  function Delivered(channels: seq<Channel>, ids: seq<nat>, n: nat, e: Event): seq<Channel>
    requires n <= |ids|
  {
    seq(|channels|, id requires 0 <= id < |channels| => if id in ids[..n] then Offer(channels[id], e) else channels[id])
  }

  function LastOf(published: seq<Event>, max: nat): seq<Event> {
    if |published| <= max then published else published[|published| - max..]
  }

  /** The history after one more event. */
  function Recorded(history: seq<Event>, e: Event, max: nat): seq<Event> { LastOf(history + [e], max) }

  /** Truncating as one goes keeps exactly the last events of the whole run. */
  lemma HistoryGrows(published: seq<Event>, e: Event, max: nat)
    ensures LastOf(published + [e], max) == Recorded(LastOf(published, max), e, max)
  {}

  function Stamped(e: Event, now: int): Event { Event(e.kind, e.payload, if e.stamp.None? then Some(now) else e.stamp) }

  // ---- all subscriptions together ---------------------------------------------------------------

  type Subscribers = map<string, seq<nat>>

  /** Which channels subscribed to exactly this kind; "" stands for everything. */
  function Listeners(subs: Subscribers, all: seq<nat>, kind: string): seq<nat> {
    if kind == "" then all else if kind in subs then subs[kind] else []
  }

  predicate ListOk(ids: seq<nat>, kinds: seq<string>, kind: string) {
    Distinct(ids) && forall id | id in ids :: id < |kinds| && kinds[id] == kind
  }

  predicate Listed(subs: Subscribers, all: seq<nat>, kind: string, id: nat) { id in Listeners(subs, all, kind) }

  /** The lists name each channel once, under its kind; while the bus is open they name all. */
  ghost predicate Registered(subs: Subscribers, all: seq<nat>, kinds: seq<string>, closed: bool) {
    && "" !in subs
    && (forall kind: string {:trigger ListOk(Listeners(subs, all, kind), kinds, kind)} ::
          ListOk(Listeners(subs, all, kind), kinds, kind))
    && (!closed ==> forall id {:trigger Listed(subs, all, kinds[id], id)} | 0 <= id < |kinds| :: Listed(subs, all, kinds[id], id))
  }

  /** One subscription: faithful to what it was offered, which is everything that matched. */
  predicate Sound(ch: Channel, l: Ledger, published: seq<Event>, closed: bool) {
    && Faithful(ch, l) && ch.closed == closed && l.since <= |published|
    && l.offered == Matching(published, l.since, |published|, l.kind)
  }

  /** The first n subscriptions are sound and of the kinds they were registered under. */
  predicate AllSound(channels: seq<Channel>, ledgers: seq<Ledger>, kinds: seq<string>, published: seq<Event>, closed: bool, n: nat)
    requires n <= |channels| == |ledgers| == |kinds|
  {
    n == 0 ||
    (AllSound(channels, ledgers, kinds, published, closed, n - 1)
     && Sound(channels[n - 1], ledgers[n - 1], published, closed) && ledgers[n - 1].kind == kinds[n - 1])
  }

  lemma {:induction false} SoundAt(channels: seq<Channel>, ledgers: seq<Ledger>, kinds: seq<string>, published: seq<Event>,
                                   closed: bool, n: nat, id: nat)
    requires id < n <= |channels| == |ledgers| == |kinds| && AllSound(channels, ledgers, kinds, published, closed, n)
    ensures Sound(channels[id], ledgers[id], published, closed) && ledgers[id].kind == kinds[id]
  {
    if id < n - 1 { SoundAt(channels, ledgers, kinds, published, closed, n - 1, id); }
  }

  /** Soundness of the first n depends on nothing beyond them. */
  lemma {:induction false} SoundPrefix(cs: seq<Channel>, ls: seq<Ledger>, ks: seq<string>, cs': seq<Channel>, ls': seq<Ledger>,
                                       ks': seq<string>, published: seq<Event>, closed: bool, n: nat)
    requires n <= |cs| == |ls| == |ks| && n <= |cs'| == |ls'| == |ks'| && AllSound(cs, ls, ks, published, closed, n)
    requires forall i | 0 <= i < n :: cs[i] == cs'[i] && ls[i] == ls'[i] && ks[i] == ks'[i]
    ensures AllSound(cs', ls', ks', published, closed, n)
  {
    if n > 0 { SoundPrefix(cs, ls, ks, cs', ls', ks', published, closed, n - 1); }
  }

  // ---- publishing -----------------------------------------------------------------------------------

  function Heard(ch: Channel, l: Ledger, e: Event): Channel { if Matches(l.kind, e) then Offer(ch, e) else ch }
  function NotedIf(ch: Channel, l: Ledger, e: Event): Ledger { if Matches(l.kind, e) then Noted(l, e, |ch.buffer|) else l }

  /** One publication as everybody whose subscription it matches sees it. */
  function Offered(channels: seq<Channel>, ledgers: seq<Ledger>, e: Event): seq<Channel>
    requires |channels| == |ledgers|
  {
    seq(|channels|, i requires 0 <= i < |channels| => Heard(channels[i], ledgers[i], e))
  }

  function NotedAll(channels: seq<Channel>, ledgers: seq<Ledger>, e: Event): seq<Ledger>
    requires |channels| == |ledgers|
  {
    seq(|channels|, i requires 0 <= i < |channels| => NotedIf(channels[i], ledgers[i], e))
  }

  lemma HearingIsSound(ch: Channel, l: Ledger, published: seq<Event>, e: Event)
    requires Sound(ch, l, published, false)
    ensures Sound(Heard(ch, l, e), NotedIf(ch, l, e), published + [e], false)
  {
    OfferIsFaithful(ch, l, e);
    MatchingPrefix(published, e, l.since, |published|, l.kind);
  }

  lemma {:induction false} PublishingIsSound(channels: seq<Channel>, ledgers: seq<Ledger>, kinds: seq<string>,
                                             published: seq<Event>, e: Event, n: nat)
    requires n <= |channels| == |ledgers| == |kinds| && AllSound(channels, ledgers, kinds, published, false, n)
    ensures AllSound(Offered(channels, ledgers, e), NotedAll(channels, ledgers, e), kinds, published + [e], false, n)
  {
    if n > 0 {
      PublishingIsSound(channels, ledgers, kinds, published, e, n - 1);
      HearingIsSound(channels[n - 1], ledgers[n - 1], published, e);
    }
  }

  /** While the bus is open, a list is exactly the channels of its kind, each once. */
  lemma ListIsItsKind(subs: Subscribers, all: seq<nat>, kinds: seq<string>, kind: string)
    requires Registered(subs, all, kinds, false)
    ensures Distinct(Listeners(subs, all, kind))
    ensures forall id: nat :: id in Listeners(subs, all, kind) <==> id < |kinds| && kinds[id] == kind
  {
    assert ListOk(Listeners(subs, all, kind), kinds, kind);
    forall id: nat | id < |kinds| && kinds[id] == kind ensures id in Listeners(subs, all, kind) {
      assert Listed(subs, all, kinds[id], id);
    }
  }

  predicate Ready(channels: seq<Channel>, ids: seq<nat>) {
    Distinct(ids) && forall id | id in ids :: id < |channels| && !channels[id].closed
  }

  /** Sending to the kind's list and then to those that hear everything reaches exactly the
      matching subscriptions, each once, and no closed channel. */
  lemma ListsReachMatching(subs: Subscribers, all: seq<nat>, channels: seq<Channel>, ledgers: seq<Ledger>, kinds: seq<string>,
                           published: seq<Event>, e: Event)
    requires |channels| == |ledgers| == |kinds| && Registered(subs, all, kinds, false)
    requires AllSound(channels, ledgers, kinds, published, false, |channels|)
    ensures var typed := if e.kind in subs then subs[e.kind] else [];
      && Ready(channels, typed) && Ready(channels, all)
      && Delivered(Delivered(channels, typed, |typed|, e), all, |all|, e) == Offered(channels, ledgers, e)
  {
    var typed := if e.kind in subs then subs[e.kind] else [];
    ListIsItsKind(subs, all, kinds, e.kind);
    ListIsItsKind(subs, all, kinds, "");
    forall id: nat | id < |channels|
      ensures !channels[id].closed && ledgers[id].kind == kinds[id]
    {
      SoundAt(channels, ledgers, kinds, published, false, |channels|, id);
    }
    ReachMatching(typed, all, channels, ledgers, e);
  }

  lemma ReachMatching(typed: seq<nat>, all: seq<nat>, channels: seq<Channel>, ledgers: seq<Ledger>, e: Event)
    requires |channels| == |ledgers|
    requires forall id: nat :: id in typed <==> id < |ledgers| && ledgers[id].kind != "" && ledgers[id].kind == e.kind
    requires forall id: nat :: id in all <==> id < |ledgers| && ledgers[id].kind == ""
    ensures Delivered(Delivered(channels, typed, |typed|, e), all, |all|, e) == Offered(channels, ledgers, e)
  {
    assert typed[..|typed|] == typed && all[..|all|] == all;
  }

  /** The non-blocking sends of one publication, in subscription order. */
  method SendAll(channels: seq<Channel>, ids: seq<nat>, e: Event) returns (after: seq<Channel>)
    requires Ready(channels, ids)
    ensures after == Delivered(channels, ids, |ids|, e)
  {
    after := channels;
    for i := 0 to |ids|
      invariant after == Delivered(channels, ids, i, e)
    {
      var ch := ids[i];
      assert ch in ids && ch !in ids[..i];
      assert ids[..i + 1] == ids[..i] + [ch];
      if |after[ch].buffer| < BUFFER {
        after := after[ch := Channel(after[ch].buffer + [e], after[ch].closed)];
      }
    }
  }

  /** Both lists of an open bus, in order. */
  method Broadcast(subs: Subscribers, all: seq<nat>, channels: seq<Channel>, e: Event, ghost ledgers: seq<Ledger>,
                   ghost kinds: seq<string>, ghost published: seq<Event>) returns (after: seq<Channel>)
    requires |channels| == |ledgers| == |kinds| && Registered(subs, all, kinds, false)
    requires AllSound(channels, ledgers, kinds, published, false, |channels|)
    ensures after == Offered(channels, ledgers, e)
    ensures AllSound(after, NotedAll(channels, ledgers, e), kinds, published + [e], false, |channels|)
  {
    ListsReachMatching(subs, all, channels, ledgers, kinds, published, e);
    PublishingIsSound(channels, ledgers, kinds, published, e, |channels|);
    var typed := if e.kind in subs then subs[e.kind] else [];
    var heard := SendAll(channels, typed, e);
    after := SendAll(heard, all, e);
  }

  // ---- subscribing and receiving ------------------------------------------------------------------

  function NewLedger(kind: string, since: nat): Ledger { Ledger(kind, since, [], [], [], []) }

  function Took(l: Ledger, e: Event): Ledger { Ledger(l.kind, l.since, l.offered, l.unread, l.kept, l.received + [e]) }

  lemma SubscribingIsSound(channels: seq<Channel>, ledgers: seq<Ledger>, kinds: seq<string>, published: seq<Event>, closed: bool,
                           kind: string) returns (cs: seq<Channel>, ls: seq<Ledger>, ks: seq<string>)
    requires |channels| == |ledgers| == |kinds| && AllSound(channels, ledgers, kinds, published, closed, |channels|)
    ensures cs == channels + [Channel([], closed)] && ls == ledgers + [NewLedger(kind, |published|)] && ks == kinds + [kind]
    ensures AllSound(cs, ls, ks, published, closed, |cs|)
  {
    cs, ls, ks := channels + [Channel([], closed)], ledgers + [NewLedger(kind, |published|)], kinds + [kind];
    NewIsSound(published, closed, kind);
    SoundSnoc(channels, ledgers, kinds, Channel([], closed), NewLedger(kind, |published|), kind, published, closed);
  }

  lemma NewIsSound(published: seq<Event>, closed: bool, kind: string)
    ensures Sound(Channel([], closed), NewLedger(kind, |published|), published, closed)
  {}

  lemma SoundSnoc(cs: seq<Channel>, ls: seq<Ledger>, ks: seq<string>, ch: Channel, l: Ledger, k: string,
                  published: seq<Event>, closed: bool)
    requires |cs| == |ls| == |ks| && AllSound(cs, ls, ks, published, closed, |cs|)
    requires Sound(ch, l, published, closed) && l.kind == k
    ensures AllSound(cs + [ch], ls + [l], ks + [k], published, closed, |cs| + 1)
  {
    SoundPrefix(cs, ls, ks, cs + [ch], ls + [l], ks + [k], published, closed, |cs|);
  }

  lemma ListGrows(ids: seq<nat>, kinds: seq<string>, kind: string, k: string)
    requires ListOk(ids, kinds, kind)
    ensures ListOk(ids, kinds + [k], kind) && (k == kind ==> ListOk(ids + [|kinds|], kinds + [k], kind))
  {
    assert forall i | 0 <= i < |ids| :: ids[i] in ids;
  }

  /** A fresh channel is appended to its kind's list, or to none once the bus is closed. */
  lemma SubscribingIsRegistered(subs: Subscribers, all: seq<nat>, kinds: seq<string>, closed: bool, k: string,
                                subs': Subscribers, all': seq<nat>)
    requires Registered(subs, all, kinds, closed)
    requires subs' == if closed || k == "" then subs else subs[k := (if k in subs then subs[k] else []) + [|kinds|]]
    requires all' == if closed || k != "" then all else all + [|kinds|]
    ensures Registered(subs', all', kinds + [k], closed)
  {
    forall kind: string ensures ListOk(Listeners(subs', all', kind), kinds + [k], kind) {
      assert ListOk(Listeners(subs, all, kind), kinds, kind);
      ListGrows(Listeners(subs, all, kind), kinds, kind, k);
    }
    if !closed {
      var ks := kinds + [k];
      forall i | 0 <= i < |ks| ensures Listed(subs', all', ks[i], i) {
        if i < |kinds| { assert Listed(subs, all, kinds[i], i); }
      }
    }
  }

  method Enlist(subs: Subscribers, all: seq<nat>, closed: bool, kind: string, id: nat, ghost kinds: seq<string>)
    returns (subs': Subscribers, all': seq<nat>)
    requires Registered(subs, all, kinds, closed) && id == |kinds|
    ensures Registered(subs', all', kinds + [kind], closed)
    ensures !closed ==> Listeners(subs', all', kind) == Listeners(subs, all, kind) + [id]
  {
    subs', all' := subs, all;
    if !closed {
      if kind == "" {
        all' := all + [id];
      } else {
        subs' := subs[kind := (if kind in subs then subs[kind] else []) + [id]];
      }
    }
    SubscribingIsRegistered(subs, all, kinds, closed, kind, subs', all');
  }

  lemma {:induction false} TakingIsSound(channels: seq<Channel>, ledgers: seq<Ledger>, kinds: seq<string>, published: seq<Event>,
                                         closed: bool, id: nat, n: nat)
    requires id < |channels| && n <= |channels| == |ledgers| == |kinds| && channels[id].buffer != []
    requires AllSound(channels, ledgers, kinds, published, closed, n)
    ensures var ch, l := channels[id], ledgers[id];
      AllSound(channels[id := Channel(ch.buffer[1..], ch.closed)], ledgers[id := Took(l, ch.buffer[0])], kinds, published, closed, n)
  {
    if n > 0 {
      TakingIsSound(channels, ledgers, kinds, published, closed, id, n - 1);
      if n - 1 == id { TakeIsFaithful(channels[id], ledgers[id]); }
    }
  }

  // ---- closing ---------------------------------------------------------------------------------------

  function Shut(channels: seq<Channel>, ids: set<nat>): seq<Channel> {
    seq(|channels|, id requires 0 <= id < |channels| => if id in ids then Channel(channels[id].buffer, true) else channels[id])
  }

  function ShutAll(channels: seq<Channel>): seq<Channel> {
    seq(|channels|, id requires 0 <= id < |channels| => Channel(channels[id].buffer, true))
  }

  lemma {:induction false} ShuttingIsSound(channels: seq<Channel>, ledgers: seq<Ledger>, kinds: seq<string>, published: seq<Event>, n: nat)
    requires n <= |channels| == |ledgers| == |kinds| && AllSound(channels, ledgers, kinds, published, false, n)
    ensures AllSound(ShutAll(channels), ledgers, kinds, published, true, n)
  {
    if n > 0 {
      ShuttingIsSound(channels, ledgers, kinds, published, n - 1);
      assert Seen(ShutAll(channels)[n - 1], ledgers[n - 1]) == Seen(channels[n - 1], ledgers[n - 1]);
    }
  }

  /** Closing a list of channels; closing one that is closed already panics. */
  method CloseAll(channels: seq<Channel>, ids: seq<nat>) returns (after: seq<Channel>, panicked: bool)
    requires Distinct(ids) && forall id | id in ids :: id < |channels|
    ensures panicked <==> exists id :: id in ids && channels[id].closed
    ensures !panicked ==> after == Shut(channels, set id | id in ids)
  {
    after, panicked := channels, false;
    for i := 0 to |ids|
      invariant after == Shut(channels, set id | id in ids[..i])
      invariant forall j | 0 <= j < i :: ids[j] in ids && !channels[ids[j]].closed
    {
      var ch := ids[i];
      assert ch in ids && ch !in ids[..i];
      assert ids[..i + 1] == ids[..i] + [ch];
      if after[ch].closed { return after, true; }
      after := after[ch := Channel(after[ch].buffer, true)];
    }
    assert ids[..|ids|] == ids;
  }

  /** The channels whose kind is among these. */
  ghost function OfKinds(kinds: seq<string>, among: set<string>): set<nat> { set id: nat | id < |kinds| && kinds[id] in among }

  lemma ShutNext(channels: seq<Channel>, kinds: seq<string>, done: set<string>, kind: string, ids: seq<nat>)
    requires forall id: nat :: id in ids <==> id < |kinds| && kinds[id] == kind
    ensures Shut(Shut(channels, OfKinds(kinds, done)), set id | id in ids) == Shut(channels, OfKinds(kinds, done + {kind}))
  {}

  lemma EverybodyIsListed(subs: Subscribers, all: seq<nat>, channels: seq<Channel>, kinds: seq<string>)
    requires Registered(subs, all, kinds, false) && |channels| == |kinds|
    ensures Shut(channels, OfKinds(kinds, subs.Keys + {""})) == ShutAll(channels)
  {
    forall id: nat | id < |kinds| ensures kinds[id] in subs.Keys + {""} { assert Listed(subs, all, kinds[id], id); }
  }

  /** Closing every list of an open bus: nothing is closed twice, and everybody is closed. */
  method CloseLists(subs: Subscribers, all: seq<nat>, channels: seq<Channel>, ghost kinds: seq<string>)
    returns (after: seq<Channel>, panicked: bool)
    requires |channels| == |kinds| && Registered(subs, all, kinds, false)
    requires forall id | 0 <= id < |channels| :: !channels[id].closed
    ensures !panicked && after == ShutAll(channels)
  {
    after, panicked := channels, false;
    var rest := subs.Keys;
    ghost var done: set<string> := {};
    while rest != {}
      invariant rest <= subs.Keys && done == subs.Keys - rest
      invariant after == Shut(channels, OfKinds(kinds, done)) && !panicked
      decreases |rest|
    {
      var kind :| kind in rest;
      ListIsItsKind(subs, all, kinds, kind);
      after, panicked := CloseAll(after, subs[kind]);
      if panicked { return; }
      ShutNext(channels, kinds, done, kind, subs[kind]);
      rest, done := rest - {kind}, done + {kind};
    }
    ListIsItsKind(subs, all, kinds, "");
    after, panicked := CloseAll(after, all);
    if panicked { return; }
    ShutNext(channels, kinds, done, "", all);
    EverybodyIsListed(subs, all, channels, kinds);
  }

  class AgentBus {
    const maxHistory: nat
    var subscribers: Subscribers
    var allSubs: seq<nat>
    var history: seq<Event>
    var closed: bool
    var channels: seq<Channel>
    ghost var published: seq<Event>
    ghost var ledgers: seq<Ledger>
    ghost var kinds: seq<string>

    ghost predicate Valid()
      reads this
    {
      && |channels| == |ledgers| == |kinds|
      && Registered(subscribers, allSubs, kinds, closed)
      && AllSound(channels, ledgers, kinds, published, closed, |channels|)
      && history == LastOf(published, maxHistory)
    }

    constructor (maxHistory: int)
      ensures Valid() && !closed && channels == [] && published == []
      ensures this.maxHistory == if maxHistory <= 0 then 100 else maxHistory
    {
      this.maxHistory := if maxHistory <= 0 then 100 else maxHistory;
      subscribers, allSubs, history, closed, channels := map[], [], [], false, [];
      published, ledgers, kinds := [], [], [];
    }

    /** After Close a subscriber gets a channel that is closed already and hears nothing. */
    method Subscribe(kind: string) returns (id: nat)
      requires Valid()
      modifies this`subscribers, this`allSubs, this`channels, this`ledgers, this`kinds
      ensures Valid() && id == old(|channels|)
      ensures channels == old(channels) + [Channel([], closed)]
      ensures ledgers == old(ledgers) + [NewLedger(kind, |published|)]
    {
      id := |channels|;
      var subs, all := Enlist(subscribers, allSubs, closed, kind, id, kinds);
      ghost var _, ls, ks := SubscribingIsSound(channels, ledgers, kinds, published, closed, kind);
      channels, subscribers, allSubs := channels + [Channel([], closed)], subs, all;
      ledgers, kinds := ls, ks;
    }

    /** Stamps, records and offers the event to everybody whose subscription it matches. */
    method Publish(event: Event, now: int)
      requires Valid()
      modifies this
      ensures Valid() && closed == old(closed)
      ensures if closed then channels == old(channels) && ledgers == old(ledgers) && published == old(published)
              else
                && published == old(published) + [Stamped(event, now)]
                && channels == Offered(old(channels), old(ledgers), Stamped(event, now))
                && ledgers == NotedAll(old(channels), old(ledgers), Stamped(event, now))
    {
      if closed { return; }
      var e := Stamped(event, now);
      HistoryGrows(published, e, maxHistory);
      var heard := Broadcast(subscribers, allSubs, channels, e, ledgers, kinds, published);
      ledgers, published := NotedAll(channels, ledgers, e), published + [e];
      history, channels := Recorded(history, e, maxHistory), heard;
    }

    /** What the reader of a channel takes next; a closed channel still hands out its rest. */
    method Receive(id: nat) returns (e: Option<Event>)
      requires Valid() && id < |channels|
      modifies this`channels, this`ledgers
      ensures Valid()
      ensures e == if old(channels)[id].buffer == [] then None else Some(old(channels)[id].buffer[0])
      ensures e.None? ==> channels == old(channels) && ledgers == old(ledgers)
      ensures e.Some? ==>
                && channels == old(channels)[id := Channel(old(channels)[id].buffer[1..], old(channels)[id].closed)]
                && ledgers == old(ledgers)[id := Took(old(ledgers)[id], e.value)]
    {
      var ch := channels[id];
      if ch.buffer == [] { return None; }
      TakingIsSound(channels, ledgers, kinds, published, closed, id, |channels|);
      ledgers := ledgers[id := Took(ledgers[id], ch.buffer[0])];
      channels := channels[id := Channel(ch.buffer[1..], ch.closed)];
      return Some(ch.buffer[0]);
    }

    method History(limit: int) returns (recent: seq<Event>)
      requires Valid()
      ensures recent == LastOf(published, if limit <= 0 then maxHistory else Min(limit, maxHistory))
    {
      var n := if limit <= 0 || limit > |history| then |history| else limit;
      return history[|history| - n..];
    }

    /** The first Close closes every subscriber's channel; a second one panics exactly if there is
        a subscriber whose channel it would close again. */
    method Close() returns (panicked: bool)
      requires Valid()
      modifies this`channels, this`closed
      ensures Valid() && closed
      ensures panicked <==> old(closed) && (allSubs != [] || exists kind :: kind in subscribers && subscribers[kind] != [])
      ensures channels == if old(closed) then old(channels) else ShutAll(old(channels))
    {
      if closed { panicked := CloseAgain(); } else { panicked := CloseOpenBus(); }
    }

    method CloseOpenBus() returns (panicked: bool)
      requires Valid() && !closed
      modifies this`channels, this`closed
      ensures Valid() && !panicked && closed && channels == ShutAll(old(channels))
    {
      forall id: nat | id < |channels| ensures !channels[id].closed {
        SoundAt(channels, ledgers, kinds, published, false, |channels|, id);
      }
      ShuttingIsSound(channels, ledgers, kinds, published, |channels|);
      closed := true;
      channels, panicked := CloseLists(subscribers, allSubs, channels, kinds);
    }

    method CloseAgain() returns (panicked: bool)
      requires Valid() && closed
      ensures panicked <==> allSubs != [] || exists kind :: kind in subscribers && subscribers[kind] != []
    {
      var rest := subscribers.Keys;
      while rest != {}
        invariant rest <= subscribers.Keys
        invariant forall k | k in subscribers.Keys - rest :: subscribers[k] == []
        decreases |rest|
      {
        var kind :| kind in rest;
        if subscribers[kind] != [] {
          var id := subscribers[kind][0];
          assert ListOk(Listeners(subscribers, allSubs, kind), kinds, kind) && id in subscribers[kind];
          SoundAt(channels, ledgers, kinds, published, true, |channels|, id);
          return channels[id].closed;
        }
        rest := rest - {kind};
      }
      if allSubs != [] {
        assert ListOk(Listeners(subscribers, allSubs, ""), kinds, "") && allSubs[0] in allSubs;
        SoundAt(channels, ledgers, kinds, published, true, |channels|, allSubs[0]);
        return channels[allSubs[0]].closed;
      }
      return false;
    }

    /** What a subscriber was promised, at any time: an in-order subsequence of the events that
        matched since it subscribed, with nothing missing until its buffer was full. */
    lemma SubscriberSees(id: nat)
      requires Valid() && id < |channels|
      ensures var l, ch := ledgers[id], channels[id];
        && l.since <= |published| && Faithful(ch, l)
        && l.offered == Matching(published, l.since, |published|, l.kind)
        && ((forall i | 0 <= i < |l.offered| :: l.unread[i] < BUFFER) ==> Seen(ch, l) == l.offered)
    {
      SoundAt(channels, ledgers, kinds, published, closed, |channels|, id);
      if forall i | 0 <= i < |ledgers[id].offered| :: ledgers[id].unread[i] < BUFFER {
        GaplessUntilFull(channels[id], ledgers[id]);
      }
    }
  }
}

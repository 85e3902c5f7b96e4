/**
 The auction (internal/a2a/auction.go, card.go): which bids are collected, which one wins, and
 what honest bidders bid. Costs and confidences are reals.
*/
module Auction {
  import opened Common
  import Sorting

  datatype Announcement = Announcement(taskId: string, requiredTags: seq<string>, minConfidence: real)
  datatype Bid = Bid(taskId: string, bidder: string, cost: real, confidence: real)

  predicate ValidAnnouncement(a: Announcement) { a.taskId != "" && 0.0 <= a.minConfidence <= 1.0 }
  predicate ValidBid(b: Bid) { b.taskId != "" && b.bidder != "" && 0.0 <= b.cost && 0.0 <= b.confidence <= 1.0 }

  // ---- names -------------------------------------------------------------------------------

  /** Byte-wise string order, as cmp.Compare and slices.Sort use it. */
  predicate NotAfter(a: string, b: string) {
    a == "" || (b != "" && (a[0] < b[0] || (a[0] == b[0] && NotAfter(a[1..], b[1..]))))
  }

  lemma {:induction false} NamesAreOrdered(a: string, b: string)
    ensures NotAfter(a, b) || NotAfter(b, a)
    ensures NotAfter(a, b) && NotAfter(b, a) ==> a == b
  {
    if a != "" && b != "" && a[0] == b[0] {
      NamesAreOrdered(a[1..], b[1..]);
      assert a == [a[0]] + a[1..] && b == [b[0]] + b[1..];
    }
  }

  lemma {:induction false} NamesAreTransitive(a: string, b: string, c: string)
    requires NotAfter(a, b) && NotAfter(b, c)
    ensures NotAfter(a, c)
  {
    if a != "" && b != "" && c != "" && a[0] == b[0] && b[0] == c[0] { NamesAreTransitive(a[1..], b[1..], c[1..]); }
  }

  predicate ByName(a: Bid, b: Bid) { NotAfter(a.bidder, b.bidder) }

  lemma ByNameIsPreorder()
    ensures Sorting.TotalPreorder(ByName)
  {
    forall x: Bid, y: Bid ensures ByName(x, y) || ByName(y, x) { NamesAreOrdered(x.bidder, y.bidder); }
    forall x: Bid, y: Bid, z: Bid | ByName(x, y) && ByName(y, z) ensures ByName(x, z) {
      NamesAreTransitive(x.bidder, y.bidder, z.bidder);
    }
  }

  // ---- the evaluator --------------------------------------------------------------------------

  predicate Eligible(a: Announcement, b: Bid) { b.taskId == a.taskId && b.confidence >= a.minConfidence }

  predicate Better(candidate: Bid, incumbent: Bid) {
    if candidate.cost != incumbent.cost then candidate.cost < incumbent.cost else candidate.confidence > incumbent.confidence
  }

  /** w beats every eligible bid: cheaper, or as cheap and surer, or equal and not later by name. */
  predicate Wins(w: Bid, b: Bid) { Better(w, b) || (!Better(b, w) && NotAfter(w.bidder, b.bidder)) }

  ghost predicate IsAward(a: Announcement, bids: seq<Bid>, w: Bid) {
    w in bids && Eligible(a, w) && forall b | b in bids && Eligible(a, b) :: Wins(w, b)
  }

  /** The single pass of ScoreEvaluator over bids sorted by bidder name. */
  method Evaluate(a: Announcement, bids: seq<Bid>) returns (award: Option<Bid>)
    requires Sorting.SortedBy(bids, ByName)
    ensures award.None? <==> forall b | b in bids :: !Eligible(a, b)
    ensures award.Some? ==> IsAward(a, bids, award.value)
  {
    award := None;
    ghost var at := 0;
    for i := 0 to |bids|
      invariant award.None? <==> forall j | 0 <= j < i :: !Eligible(a, bids[j])
      invariant award.Some? ==> at < i && award.value == bids[at] && Eligible(a, bids[at])
      invariant award.Some? ==> forall j | 0 <= j < i && Eligible(a, bids[j]) :: Wins(award.value, bids[j])
    {
      var b := bids[i];
      if b.taskId != a.taskId { continue; }
      if b.confidence < a.minConfidence { continue; }
      if award.None? || Better(b, award.value) {
        NamesAreOrdered(b.bidder, b.bidder);
        award, at := Some(b), i;
      } else {
        assert ByName(bids[at], b);
      }
    }
  }

  /** The same bids have one award, in whatever order they are listed. */
  lemma AwardIsUnique(a: Announcement, xs: seq<Bid>, ys: seq<Bid>, v: Bid, w: Bid)
    requires multiset(xs) == multiset(ys) && IsAward(a, xs, v) && IsAward(a, ys, w)
    ensures v == w
  {
    assert w in multiset(xs) && v in multiset(ys);
    NamesAreOrdered(v.bidder, w.bidder);
  }

  // ---- collecting bids ---------------------------------------------------------------------------

  /** A candidate's answer: nothing usable, or a bid as it reports it. */
  datatype Response = Silent | Answered(bid: Bid)

  /** The bid as the auctioneer keeps it: under the name the announcement was delivered to. */
  function Kept(a: Announcement, name: string, r: Response): Option<Bid> {
    if r.Silent? || r.bid.taskId != a.taskId then None
    else
      var b := Bid(r.bid.taskId, name, r.bid.cost, r.bid.confidence);
      if ValidBid(b) then Some(b) else None
  }

  predicate Distinct(names: seq<string>) { forall i, j | 0 <= i < j < |names| :: names[i] != names[j] }

  /** The bids kept from the first n arrivals, in arrival order. */
  function Arrived(a: Announcement, names: seq<string>, answers: map<string, Response>, n: nat): seq<Bid>
    requires n <= |names| && forall i | 0 <= i < |names| :: names[i] in answers
  {
    if n == 0 then []
    else
      var front, kept := Arrived(a, names, answers, n - 1), Kept(a, names[n - 1], answers[names[n - 1]]);
      if kept.Some? then front + [kept.value] else front
  }

  /** The fan-out: `arrivals` is the order in which the candidates' goroutines append. */
  method CollectBids(a: Announcement, arrivals: seq<string>, answers: map<string, Response>) returns (bids: Option<seq<Bid>>)
    requires Distinct(arrivals) && forall i | 0 <= i < |arrivals| :: arrivals[i] in answers
    ensures bids.None? <==> !ValidAnnouncement(a)
    ensures bids.Some? ==> bids.value == Sorting.Sort(Arrived(a, arrivals, answers, |arrivals|), ByName)
  {
    if !ValidAnnouncement(a) { return None; }
    var collected: seq<Bid> := [];
    for i := 0 to |arrivals|
      invariant collected == Arrived(a, arrivals, answers, i)
    {
      var name := arrivals[i];
      var kept := Kept(a, name, answers[name]);
      if kept.Some? { collected := collected + [kept.value]; }
    }
    return Some(Sorting.Sort(collected, ByName));
  }

  lemma {:induction false} ArrivedBids(a: Announcement, names: seq<string>, answers: map<string, Response>, n: nat)
    requires n <= |names| && forall i | 0 <= i < |names| :: names[i] in answers
    ensures forall b :: b in Arrived(a, names, answers, n) <==>
              exists i | 0 <= i < n :: Kept(a, names[i], answers[names[i]]) == Some(b)
    ensures forall b | b in Arrived(a, names, answers, n) :: b.bidder in names[..n] && ValidBid(b) && b.taskId == a.taskId
  {
    if n > 0 {
      ArrivedBids(a, names, answers, n - 1);
      assert names[..n] == names[..n - 1] + [names[n - 1]];
    }
  }

  /** The award of a whole auction, for the order in which the answers happened to arrive. */
  method HoldAuction(a: Announcement, arrivals: seq<string>, answers: map<string, Response>) returns (award: Option<Bid>)
    requires Distinct(arrivals) && (forall i | 0 <= i < |arrivals| :: arrivals[i] in answers)
    requires ValidAnnouncement(a)
    ensures award.Some? ==> IsAwardAmong(a, arrivals, answers, award.value)
    ensures award.None? <==> forall name | name in arrivals :: var k := Kept(a, name, answers[name]); k.None? || !Eligible(a, k.value)
  {
    var bids := CollectBids(a, arrivals, answers);
    var collected := Arrived(a, arrivals, answers, |arrivals|);
    ByNameIsPreorder();
    Sorting.SortIsSorted(collected, ByName);
    award := Evaluate(a, bids.value);
    ArrivedBids(a, arrivals, answers, |arrivals|);
    SortKeepsMembers(collected);
  }

  lemma SortKeepsMembers(bids: seq<Bid>)
    ensures forall b :: b in Sorting.Sort(bids, ByName) <==> b in bids
  {
    forall b ensures b in Sorting.Sort(bids, ByName) <==> b in bids {
      assert b in multiset(Sorting.Sort(bids, ByName)) <==> b in multiset(bids);
    }
  }

  /** w is what its candidate's answer is kept as, and beats every other eligible answer. */
  ghost predicate IsAwardAmong(a: Announcement, names: seq<string>, answers: map<string, Response>, w: Bid)
    requires forall i | 0 <= i < |names| :: names[i] in answers
  {
    && w.bidder in names && Kept(a, w.bidder, answers[w.bidder]) == Some(w) && Eligible(a, w)
    && forall name | name in names :: var k := Kept(a, name, answers[name]); k.Some? && Eligible(a, k.value) ==> Wins(w, k.value)
  }

  /** The award does not depend on the order in which the answers arrive, and its winner is
      always one of the candidates the announcement was sent to. */
  lemma AwardIgnoresArrivalOrder(a: Announcement, xs: seq<string>, ys: seq<string>, answers: map<string, Response>, v: Bid, w: Bid)
    requires multiset(xs) == multiset(ys)
    requires forall i | 0 <= i < |xs| :: xs[i] in answers
    requires forall i | 0 <= i < |ys| :: ys[i] in answers
    requires IsAwardAmong(a, xs, answers, v) && IsAwardAmong(a, ys, answers, w)
    ensures v == w && v.bidder in answers
  {
    assert w.bidder in multiset(xs) && v.bidder in multiset(ys);
    NamesAreOrdered(v.bidder, w.bidder);
  }
}

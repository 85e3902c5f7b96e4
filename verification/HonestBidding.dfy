/**
 What bidders that score themselves honestly make of an auction (internal/a2a/auction.go,
 card.go, server.go): the award goes to the most focused agent that covers the demand.
*/
module HonestBidding {
  import opened Common
  import opened Auction
  import Sorting

  /** An agent card: the tags of each of its skills. */
  type Card = seq<seq<string>>

  function TagsOf(card: Card): set<string> {
    set i, j | 0 <= i < |card| && 0 <= j < |card[i]| :: card[i][j]
  }

  function Demand(a: Announcement): set<string> { set t | t in a.requiredTags }

  predicate Covers(card: Card, a: Announcement) { Demand(a) <= TagsOf(card) }

  /** The share of the card's distinct capabilities that the task demands. */
  function Focus(card: Card, a: Announcement): real {
    var have := TagsOf(card);
    if a.requiredTags == [] || have == {} then 1.0 else |have * Demand(a)| as real / |have| as real
  }

  /** Its capabilities that the task has no use for. */
  function Waste(card: Card, a: Announcement): real {
    if a.requiredTags == [] then 0.0 else |TagsOf(card)| as real - |TagsOf(card) * Demand(a)| as real
  }

  function Score(name: string, card: Card, a: Announcement): Option<Bid> {
    if !Covers(card, a) || Focus(card, a) < a.minConfidence then None
    else Some(Bid(a.taskId, name, Waste(card, a), Focus(card, a)))
  }

  // ---- the bidder, as it runs -----------------------------------------------------------------

  lemma TagsGrow(card: Card, i: nat, j: nat, have: set<string>)
    requires i < |card| && j < |card[i]|
    requires forall t :: t in have <==> t in TagsOf(card[..i]) || t in card[i][..j]
    ensures forall t :: t in have + {card[i][j]} <==> t in TagsOf(card[..i]) || t in card[i][..j + 1]
  {
    assert card[i][..j + 1] == card[i][..j] + [card[i][j]];
  }

  method CollectTags(card: Card) returns (have: set<string>)
    ensures have == TagsOf(card)
  {
    have := {};
    for i := 0 to |card|
      invariant have == TagsOf(card[..i])
    {
      for j := 0 to |card[i]|
        invariant forall t :: t in have <==> t in TagsOf(card[..i]) || t in card[i][..j]
      {
        TagsGrow(card, i, j, have);
        have := have + {card[i][j]};
      }
      assert have == TagsOf(card[..i + 1]) by { TagsOfPrefix(card, i); }
    }
    assert card[..|card|] == card;
  }

  lemma TagsOfPrefix(card: Card, i: nat)
    requires i < |card|
    ensures forall t :: t in TagsOf(card[..i + 1]) <==> t in TagsOf(card[..i]) || t in card[i]
  {
    forall t ensures t in TagsOf(card[..i + 1]) <==> t in TagsOf(card[..i]) || t in card[i] {
      if t in TagsOf(card[..i]) {
        var k, j :| 0 <= k < i && 0 <= j < |card[k]| && card[k][j] == t;
        assert card[..i + 1][k][j] == t;
      }
      if t in card[i] {
        var j :| 0 <= j < |card[i]| && card[i][j] == t;
        assert card[..i + 1][i][j] == t;
      }
      if t in TagsOf(card[..i + 1]) && t !in card[i] {
        var k, j :| 0 <= k <= i && 0 <= j < |card[..i + 1][k]| && card[..i + 1][k][j] == t;
        assert card[..i][k][j] == t;
      }
    }
  }

  method CardCoversTags(card: Card, required: seq<string>) returns (ok: bool)
    ensures ok <==> forall t | t in required :: t in TagsOf(card)
  {
    if |required| == 0 { return true; }
    var have := CollectTags(card);
    for i := 0 to |required|
      invariant forall k | 0 <= k < i :: required[k] in have
    {
      if required[i] !in have { return false; }
    }
    ok := true;
  }

  lemma OneMoreSeen(have: set<string>, rest: set<string>, tag: string, required: set<string>)
    requires rest <= have && tag in rest
    ensures |(have - (rest - {tag})) * required| == |(have - rest) * required| + if tag in required then 1 else 0
  {
    var seen, more := (have - rest) * required, (have - (rest - {tag})) * required;
    if tag in required { assert more == seen + {tag}; } else { assert more == seen; }
  }

  method CountDemanded(have: set<string>, required: set<string>) returns (demanded: nat)
    ensures demanded == |have * required|
  {
    demanded := 0;
    var rest := have;
    while rest != {}
      invariant rest <= have && demanded == |(have - rest) * required|
      decreases |rest|
    {
      var tag :| tag in rest;
      OneMoreSeen(have, rest, tag, required);
      if tag in required { demanded := demanded + 1; }
      rest := rest - {tag};
    }
    assert have - rest == have;
  }

  /** The bidder's side: no bid for an uncovered demand or one below the confidence asked for. */
  method ScoreAnnouncement(name: string, card: Option<Card>, a: Announcement) returns (bid: Option<Bid>)
    ensures bid == if card.None? then None else Score(name, card.value, a)
  {
    if card.None? { return None; }
    var covers := CardCoversTags(card.value, a.requiredTags);
    if !covers { return None; }
    var confidence, cost := 1.0, 0.0;
    if |a.requiredTags| > 0 {
      var have := CollectTags(card.value);
      var demanded := CountDemanded(have, Demand(a));
      assert a.requiredTags[0] in have;
      confidence := demanded as real / |have| as real;
      cost := (|have| - demanded) as real;
    }
    if confidence < a.minConfidence { return None; }
    return Some(Bid(a.taskId, name, cost, confidence));
  }

  // ---- who is asked -----------------------------------------------------------------------------

  /** The sorted names of the agents whose cards cover the demand. */
  method EligibleBidders(cards: map<string, Option<Card>>, a: Announcement) returns (names: seq<string>)
    ensures forall n :: n in names <==> n in cards && cards[n].Some? && Covers(cards[n].value, a)
    ensures Distinct(names) && Sorting.SortedBy(names, NotAfter)
  {
    var eligible: seq<string> := [];
    var rest := cards.Keys;
    while rest != {}
      invariant rest <= cards.Keys && Distinct(eligible)
      invariant forall n :: n in eligible <==> n in cards.Keys - rest && cards[n].Some? && Covers(cards[n].value, a)
      decreases |rest|
    {
      var name :| name in rest;
      if cards[name].Some? {
        var covers := CardCoversTags(cards[name].value, a.requiredTags);
        if covers { eligible := eligible + [name]; }
      }
      rest := rest - {name};
    }
    names := Sorting.Sort(eligible, NotAfter);
    NamesArePreordered();
    Sorting.SortIsSorted(eligible, NotAfter);
    SameMembers(eligible, names);
  }

  lemma NamesArePreordered()
    ensures Sorting.TotalPreorder(NotAfter)
  {
    forall x: string, y: string ensures NotAfter(x, y) || NotAfter(y, x) { NamesAreOrdered(x, y); }
    forall x: string, y: string, z: string | NotAfter(x, y) && NotAfter(y, z) ensures NotAfter(x, z) {
      NamesAreTransitive(x, y, z);
    }
  }

  lemma SameMembers(xs: seq<string>, ys: seq<string>)
    requires multiset(xs) == multiset(ys) && Distinct(xs)
    ensures Distinct(ys) && forall n :: n in ys <==> n in xs
  {
    forall n ensures n in ys <==> n in xs { assert n in multiset(ys) <==> n in multiset(xs); }
    forall i, j | 0 <= i < j < |ys| ensures ys[i] != ys[j] {
      if ys[i] == ys[j] {
        assert ys == ys[..i] + [ys[i]] + ys[i + 1..j] + [ys[j]] + ys[j + 1..];
        assert multiset(ys)[ys[i]] >= 2;
        DistinctOnce(xs, ys[i]);
      }
    }
  }

  lemma {:induction false} DistinctOnce(xs: seq<string>, x: string)
    requires Distinct(xs)
    ensures multiset(xs)[x] <= 1
  {
    if xs != [] {
      var front, last := xs[..|xs| - 1], xs[|xs| - 1];
      assert xs == front + [last];
      DistinctOnce(front, x);
      assert last !in front;
      assert last !in multiset(front);
    }
  }

  // ---- what honest bids come to -------------------------------------------------------------------

  lemma SubsetSize<T>(a: set<T>, b: set<T>)
    requires a <= b
    ensures |a| <= |b|
  {
    assert b == a + (b - a);
  }

  /** On a card that covers the demand, focus and waste are functions of the card's size alone:
      the smaller card is cheaper and surer. */
  lemma SmallerIsBetter(a: Announcement, x: Card, y: Card)
    requires a.requiredTags != [] && Covers(x, a) && Covers(y, a)
    ensures 0 < |Demand(a)| <= |TagsOf(x)| && Focus(x, a) == |Demand(a)| as real / |TagsOf(x)| as real
    ensures Waste(x, a) < Waste(y, a) <==> |TagsOf(x)| < |TagsOf(y)|
    ensures |TagsOf(x)| <= |TagsOf(y)| ==> Focus(x, a) >= Focus(y, a)
    ensures |TagsOf(x)| == |TagsOf(y)| ==> Focus(x, a) == Focus(y, a)
  {
    var r, hx, hy := Demand(a), TagsOf(x), TagsOf(y);
    assert a.requiredTags[0] in r;
    assert hx * r == r && hy * r == r;
    SubsetSize(r, hx);
    SubsetSize(r, hy);
    if |hx| <= |hy| { ShareShrinks(|r|, |hx|, |hy|); }
  }

  lemma ShareShrinks(r: nat, m: nat, n: nat)
    requires 0 < r <= m <= n
    ensures r as real / m as real >= r as real / n as real
  {
    var q := r as real / n as real;
    assert q * n as real == r as real;
    assert q * m as real <= r as real;
  }

  /** Candidates answer an announcement with their own score. */
  function Honestly(cards: map<string, Card>, a: Announcement): map<string, Response> {
    map n | n in cards :: var s := Score(n, cards[n], a); if s.Some? then Answered(s.value) else Silent
  }

  predicate Qualifies(card: Card, a: Announcement) { Covers(card, a) && Focus(card, a) >= a.minConfidence }

  lemma HonestAnswersAreKept(cards: map<string, Card>, a: Announcement, name: string)
    requires ValidAnnouncement(a) && name in cards && name != ""
    ensures var k := Kept(a, name, Honestly(cards, a)[name]);
      k == Score(name, cards[name], a) && (k.Some? <==> Qualifies(cards[name], a))
  {
    var have := TagsOf(cards[name]);
    if Covers(cards[name], a) && a.requiredTags != [] {
      SmallerIsBetter(a, cards[name], cards[name]);
      SubsetSize(have * Demand(a), have);
      assert Focus(cards[name], a) <= 1.0 by { ShareShrinks(|Demand(a)|, |Demand(a)|, |have|); }
    }
  }

  /** With honest bidders a demand is awarded to the covering candidate with the fewest distinct
      capabilities that is confident enough, the first by name among equals; and it stays
      unawarded exactly when no candidate qualifies. */
  method AuctionFindsTheSpecialist(cards: map<string, Card>, a: Announcement, arrivals: seq<string>)
    returns (award: Option<Bid>)
    requires ValidAnnouncement(a) && a.requiredTags != [] && "" !in cards
    requires Distinct(arrivals) && forall n :: n in arrivals <==> n in cards
    ensures award.None? <==> forall n | n in cards :: !Qualifies(cards[n], a)
    ensures award.Some? ==>
              var w := award.value.bidder;
              && w in cards && Qualifies(cards[w], a)
              && forall n | n in cards && Qualifies(cards[n], a) ::
                   |TagsOf(cards[w])| < |TagsOf(cards[n])| || (|TagsOf(cards[w])| == |TagsOf(cards[n])| && NotAfter(w, n))
  {
    var answers := Honestly(cards, a);
    award := HoldAuction(a, arrivals, answers);
    forall n | n in cards
      ensures Kept(a, n, answers[n]) == Score(n, cards[n], a) && (Score(n, cards[n], a).Some? <==> Qualifies(cards[n], a))
    {
      HonestAnswersAreKept(cards, a, n);
    }
    if award.Some? {
      var w := award.value.bidder;
      forall n | n in cards && Qualifies(cards[n], a)
        ensures |TagsOf(cards[w])| < |TagsOf(cards[n])| || (|TagsOf(cards[w])| == |TagsOf(cards[n])| && NotAfter(w, n))
      {
        assert n in arrivals;
        SmallerIsBetter(a, cards[w], cards[n]);
        SmallerIsBetter(a, cards[n], cards[w]);
        assert Wins(award.value, Score(n, cards[n], a).value);
      }
    }
  }

  /** A demand without tags is a perfect fit for everybody: focus plays no part, and the award
      goes to the first candidate by name. */
  lemma OpenDemandGoesByName(cards: map<string, Card>, a: Announcement, arrivals: seq<string>, w: Bid, n: string)
    requires ValidAnnouncement(a) && a.requiredTags == [] && "" !in cards
    requires (forall m :: m in arrivals <==> m in cards) && n in cards
    requires IsAwardAmong(a, arrivals, Honestly(cards, a), w)
    ensures NotAfter(w.bidder, n)
  {
    HonestAnswersAreKept(cards, a, n);
    HonestAnswersAreKept(cards, a, w.bidder);
    assert n in arrivals;
  }
}

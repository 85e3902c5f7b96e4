/**
 The per-agent memory (internal/agent/memory.go): a bounded key-value store that forgets the
 least recently written key. It refines a truncated move-to-front list.
*/
module MemoryStore {
  import opened Common
  import Sorting

  datatype Entry = Entry(value: string, category: string, priority: string, source: string,
                         created: int, updated: int, hits: nat)

  datatype Error = Full | NotSaved

  // ---- the specification -------------------------------------------------------------------

  /** What a reader of the memory cares about, most recently written first. */
  type Recency = seq<(string, string)>

  predicate Named(xs: Recency, key: string) { exists i :: 0 <= i < |xs| && xs[i].0 == key }

  function Without(xs: Recency, key: string): Recency {
    if xs == [] then []
    else if xs[0].0 == key then Without(xs[1..], key) else [xs[0]] + Without(xs[1..], key)
  }

  function Front(xs: Recency, n: nat): Recency { if |xs| <= n then xs else xs[..n] }

  function Touch(xs: Recency, key: string, value: string): Recency { [(key, value)] + Without(xs, key) }

  /** A write moves its key to the front and drops what no longer fits. */
  function Remember(xs: Recency, key: string, value: string, max: nat): Recency { Front(Touch(xs, key, value), max) }

  predicate DistinctKeys(xs: Recency) { forall i, j | 0 <= i < j < |xs| :: xs[i].0 != xs[j].0 }

  lemma {:induction false} WithoutKeys(xs: Recency, key: string)
    ensures forall x :: x in Without(xs, key) <==> x in xs && x.0 != key
    ensures DistinctKeys(xs) ==> DistinctKeys(Without(xs, key))
    ensures |Without(xs, key)| <= |xs|
    ensures !Named(xs, key) ==> Without(xs, key) == xs
  {
    if xs != [] {
      assert xs == [xs[0]] + xs[1..];
      WithoutKeys(xs[1..], key);
      if DistinctKeys(xs) && xs[0].0 != key {
        var w := Without(xs[1..], key);
        forall i | 0 <= i < |w| ensures w[i].0 != xs[0].0 {
          assert w[i] in xs[1..];
          var j :| 0 <= j < |xs| - 1 && xs[1..][j] == w[i];
          assert xs[j + 1] == w[i];
        }
      }
      if !Named(xs, key) {
        forall i | 0 <= i < |xs| - 1 ensures xs[1..][i].0 != key { assert xs[i + 1].0 != key; }
        assert !Named(xs[1..], key);
      }
    }
  }

  datatype Write = Write(key: string, value: string)

  /** The whole history of writes as an untruncated list. */
  function Recent(ws: seq<Write>): Recency {
    if ws == [] then [] else Touch(Recent(ws[..|ws| - 1]), ws[|ws| - 1].key, ws[|ws| - 1].value)
  }

  function Remembered(ws: seq<Write>, max: nat): Recency {
    if ws == [] then [] else Remember(Remembered(ws[..|ws| - 1], max), ws[|ws| - 1].key, ws[|ws| - 1].value, max)
  }

  lemma RestIsDistinct(xs: Recency)
    requires DistinctKeys(xs) && xs != []
    ensures DistinctKeys(xs[1..]) && !Named(xs[1..], xs[0].0)
  {
    forall i | 0 <= i < |xs| - 1 ensures xs[1..][i].0 != xs[0].0 { assert xs[1..][i] == xs[i + 1]; }
  }

  /** What is dropped beyond the bound never changes what stays within it. */
  lemma {:induction false} WithoutFront(xs: Recency, key: string, n: nat)
    requires DistinctKeys(xs)
    ensures Front(Without(Front(xs, n + 1), key), n) == Front(Without(xs, key), n)
    decreases |xs|
  {
    if |xs| > n + 1 {
      RestIsDistinct(xs);
      var near, far := xs[1..n + 1], xs[1..];
      assert Front(xs, n + 1) == [xs[0]] + near && near == far[..n];
      if xs[0].0 == key {
        forall i | 0 <= i < |near| ensures near[i].0 != key { assert near[i] == far[i]; }
        WithoutKeys(near, key);
        WithoutKeys(far, key);
      } else if n > 0 {
        assert Front(far, n) == near;
        WithoutFront(far, key, n - 1);
        FrontCons(xs[0], Without(near, key), n);
        FrontCons(xs[0], Without(far, key), n);
      }
    }
  }

  lemma FrontCons(x: (string, string), xs: Recency, n: nat)
    requires n > 0
    ensures Front([x] + xs, n) == [x] + Front(xs, n - 1)
  {}

  lemma {:induction false} RecentIsDistinct(ws: seq<Write>)
    ensures DistinctKeys(Recent(ws))
  {
    if ws != [] {
      var before, w := Recent(ws[..|ws| - 1]), ws[|ws| - 1];
      RecentIsDistinct(ws[..|ws| - 1]);
      WithoutKeys(before, w.key);
      var rest := Without(before, w.key);
      forall i | 0 <= i < |rest| ensures rest[i].0 != w.key { assert rest[i] in rest; }
    }
  }

  /** Forgetting as one goes is the same as remembering everything and keeping the first
      places: after any run of writes the memory holds exactly the `max` most recent keys. */
  lemma {:induction false} BoundedIsMostRecent(ws: seq<Write>, max: nat)
    requires max > 0
    ensures Remembered(ws, max) == Front(Recent(ws), max)
  {
    if ws != [] {
      var front, w := ws[..|ws| - 1], ws[|ws| - 1];
      BoundedIsMostRecent(front, max);
      RecentIsDistinct(front);
      WithoutFront(Recent(front), w.key, max - 1);
      FrontCons((w.key, w.value), Without(Remembered(front, max), w.key), max);
      FrontCons((w.key, w.value), Without(Recent(front), w.key), max);
    }
  }

  /** The last write of a key; |ws| if it was never written. */
  function LastWrite(ws: seq<Write>, key: string): (n: nat)
    ensures n <= |ws|
  {
    if ws == [] then 0
    else if ws[|ws| - 1].key == key then |ws| - 1
    else
      var n := LastWrite(ws[..|ws| - 1], key);
      if n == |ws| - 1 then |ws| else n
  }

  /** x stands for its key's last write. */
  predicate IsLatest(ws: seq<Write>, x: (string, string)) {
    var n := LastWrite(ws, x.0);
    n < |ws| && ws[n] == Write(x.0, x.1)
  }

  lemma LastWriteSnoc(ws: seq<Write>, w: Write, key: string)
    ensures LastWrite(ws + [w], key) ==
              if key == w.key then |ws| else if LastWrite(ws, key) == |ws| then |ws| + 1 else LastWrite(ws, key)
  {
    assert (ws + [w])[..|ws|] == ws;
  }

  /** The untruncated list names each written key once, with its latest value. */
  lemma {:induction false} RecentHoldsLatest(ws: seq<Write>)
    ensures forall x :: x in Recent(ws) <==> IsLatest(ws, x)
  {
    if ws != [] {
      var front, w := ws[..|ws| - 1], ws[|ws| - 1];
      assert ws == front + [w];
      RecentHoldsLatest(front);
      WithoutKeys(Recent(front), w.key);
      forall x ensures x in Recent(ws) <==> IsLatest(ws, x) { LastWriteSnoc(front, w, x.0); }
    }
  }

  predicate NewestFirst(ws: seq<Write>, xs: Recency) {
    forall i, j | 0 <= i < j < |xs| :: LastWrite(ws, xs[i].0) > LastWrite(ws, xs[j].0)
  }

  lemma NewestFirstSplits(ws: seq<Write>, x: (string, string), xs: Recency)
    ensures NewestFirst(ws, [x] + xs) <==>
              NewestFirst(ws, xs) && forall y | y in xs :: LastWrite(ws, x.0) > LastWrite(ws, y.0)
  {
    var all := [x] + xs;
    assert all[0] == x;
    if NewestFirst(ws, all) {
      forall i, j | 0 <= i < j < |xs| ensures LastWrite(ws, xs[i].0) > LastWrite(ws, xs[j].0) {
        assert all[i + 1] == xs[i] && all[j + 1] == xs[j];
      }
      forall j | 0 <= j < |xs| ensures LastWrite(ws, x.0) > LastWrite(ws, xs[j].0) { assert all[j + 1] == xs[j]; }
    }
  }

  lemma {:induction false} WithoutKeepsOrder(ws: seq<Write>, xs: Recency, key: string)
    requires NewestFirst(ws, xs)
    ensures NewestFirst(ws, Without(xs, key))
  {
    if xs != [] {
      assert xs == [xs[0]] + xs[1..];
      NewestFirstSplits(ws, xs[0], xs[1..]);
      WithoutKeepsOrder(ws, xs[1..], key);
      WithoutKeys(xs[1..], key);
      NewestFirstSplits(ws, xs[0], Without(xs[1..], key));
    }
  }

  /** And it names them from the newest last write to the oldest. */
  lemma {:induction false} RecentIsNewestFirst(ws: seq<Write>)
    ensures NewestFirst(ws, Recent(ws))
  {
    if ws != [] {
      var front, w := ws[..|ws| - 1], ws[|ws| - 1];
      var before, now := Recent(front), Recent(ws);
      assert ws == front + [w];
      RecentIsNewestFirst(front);
      RecentHoldsLatest(front);
      WithoutKeepsOrder(front, before, w.key);
      WithoutKeys(before, w.key);
      forall i, j | 0 <= i < j < |now| ensures LastWrite(ws, now[i].0) > LastWrite(ws, now[j].0) {
        assert now[j] == Without(before, w.key)[j - 1];
        assert IsLatest(front, now[j]);
        LastWriteSnoc(front, w, now[j].0);
        LastWriteSnoc(front, w, now[i].0);
        if i > 0 {
          assert now[i] == Without(before, w.key)[i - 1];
          assert IsLatest(front, now[i]);
        }
      }
    }
  }

  // ---- the store as it runs --------------------------------------------------------------------

  /** The entries in memory are what the list says, stamped in its order. */
  ghost predicate Reflects(entries: map<string, Entry>, xs: Recency) {
    DistinctKeys(xs) && SameKeys(entries, xs) && SameValues(entries, xs) && StampedInOrder(entries, xs)
  }

  ghost predicate SameKeys(entries: map<string, Entry>, xs: Recency) { forall k :: k in entries <==> Named(xs, k) }

  ghost predicate SameValues(entries: map<string, Entry>, xs: Recency) {
    forall x | x in xs :: x.0 in entries && entries[x.0].value == x.1
  }

  ghost predicate StampedInOrder(entries: map<string, Entry>, xs: Recency) {
    && (forall x | x in xs :: x.0 in entries)
    && forall i, j | 0 <= i < j < |xs| :: entries[xs[i].0].updated > entries[xs[j].0].updated
  }

  predicate Lists(xs: Recency, key: string) { exists x :: x in xs && x.0 == key }

  lemma ListsIsNamed(xs: Recency, key: string)
    ensures Lists(xs, key) <==> Named(xs, key)
  {
    if Named(xs, key) {
      var i :| 0 <= i < |xs| && xs[i].0 == key;
      assert xs[i] in xs;
    }
  }

  lemma {:induction false} SameSize(entries: map<string, Entry>, xs: Recency)
    requires DistinctKeys(xs) && SameKeys(entries, xs)
    ensures |entries| == |xs|
    decreases |xs|
  {
    if xs == [] {
      assert entries.Keys == {};
    } else {
      RestIsDistinct(xs);
      var first, rest := xs[0].0, entries - {xs[0].0};
      forall k ensures k in rest <==> Named(xs[1..], k) {
        if Named(xs[1..], k) {
          var i :| 0 <= i < |xs| - 1 && xs[1..][i].0 == k;
          assert xs[i + 1].0 == k;
        }
        if k in rest {
          var i :| 0 <= i < |xs| && xs[i].0 == k;
          assert xs[1..][i - 1].0 == k;
        }
      }
      SameSize(rest, xs[1..]);
      assert Named(xs, first);
      assert rest.Keys == entries.Keys - {first};
      assert |rest.Keys| == |entries.Keys| - 1;
    }
  }

  lemma WithoutKeepsKeys(entries: map<string, Entry>, xs: Recency, key: string)
    requires SameKeys(entries, xs)
    ensures SameKeys(entries - {key}, Without(xs, key))
  {
    WithoutKeys(xs, key);
    forall k ensures k in entries - {key} <==> Named(Without(xs, key), k) {
      ListsIsNamed(xs, k);
      ListsIsNamed(Without(xs, key), k);
      if k in entries && k != key {
        var x :| x in xs && x.0 == k;
        assert x in Without(xs, key);
      }
    }
  }

  lemma WithoutReflects(entries: map<string, Entry>, xs: Recency, key: string)
    requires Reflects(entries, xs)
    ensures Reflects(entries - {key}, Without(xs, key))
  {
    WithoutKeys(xs, key);
    WithoutKeepsKeys(entries, xs, key);
    WithoutKeepsStamps(entries, xs, key);
    var rest := Without(xs, key);
    forall i | 0 <= i < |rest| ensures rest[i].0 != key { assert rest[i] in rest; }
  }

  lemma StampsSplit(entries: map<string, Entry>, x: (string, string), xs: Recency)
    ensures StampedInOrder(entries, [x] + xs) <==>
              && x.0 in entries && StampedInOrder(entries, xs)
              && forall y | y in xs :: entries[x.0].updated > entries[y.0].updated
  {
    var all := [x] + xs;
    assert all[0] == x && all[1..] == xs;
    if StampedInOrder(entries, all) {
      assert forall y | y in xs :: y in all;
      forall i, j | 0 <= i < j < |xs| ensures entries[xs[i].0].updated > entries[xs[j].0].updated {
        assert all[i + 1] == xs[i] && all[j + 1] == xs[j];
      }
      forall j | 0 <= j < |xs| ensures entries[x.0].updated > entries[xs[j].0].updated { assert all[j + 1] == xs[j]; }
    }
  }

  lemma {:induction false} WithoutKeepsStamps(entries: map<string, Entry>, xs: Recency, key: string)
    requires StampedInOrder(entries, xs)
    ensures StampedInOrder(entries, Without(xs, key))
    decreases |xs|
  {
    if xs != [] {
      assert xs == [xs[0]] + xs[1..];
      StampsSplit(entries, xs[0], xs[1..]);
      WithoutKeepsStamps(entries, xs[1..], key);
      WithoutKeys(xs[1..], key);
      StampsSplit(entries, xs[0], Without(xs[1..], key));
    }
  }

  lemma TouchKeepsKeys(entries: map<string, Entry>, xs: Recency, key: string, e: Entry)
    requires SameKeys(entries, xs)
    ensures SameKeys(entries[key := e], Touch(xs, key, e.value))
  {
    var rest, all := Without(xs, key), Touch(xs, key, e.value);
    WithoutKeepsKeys(entries, xs, key);
    assert all[0] == (key, e.value);
    forall k ensures k in entries[key := e] <==> Named(all, k) {
      ListsIsNamed(all, k);
      ListsIsNamed(rest, k);
      assert k in entries - {key} <==> Named(rest, k);
      if Lists(rest, k) {
        var x :| x in rest && x.0 == k;
        assert x in all;
      }
    }
  }

  lemma TouchIsDistinct(xs: Recency, key: string, value: string)
    requires DistinctKeys(xs)
    ensures DistinctKeys(Touch(xs, key, value))
  {
    WithoutKeys(xs, key);
    var rest := Without(xs, key);
    forall i | 0 <= i < |rest| ensures rest[i].0 != key { assert rest[i] in rest; }
  }

  lemma RestampOne(entries: map<string, Entry>, xs: Recency, key: string, e: Entry)
    requires StampedInOrder(entries, xs) && forall x | x in xs :: x.0 != key
    ensures StampedInOrder(entries[key := e], xs)
  {
    forall i | 0 <= i < |xs| ensures entries[key := e][xs[i].0] == entries[xs[i].0] { assert xs[i] in xs; }
  }

  /** Writing a key with a stamp newer than all others moves it to the front. */
  lemma TouchReflects(entries: map<string, Entry>, xs: Recency, key: string, e: Entry)
    requires Reflects(entries, xs) && NewerThanAll(entries, e.updated)
    ensures Reflects(entries[key := e], Touch(xs, key, e.value))
  {
    TouchKeepsKeys(entries, xs, key, e);
    TouchIsDistinct(xs, key, e.value);
    TouchKeepsValues(entries, xs, key, e);
    TouchKeepsStamps(entries, xs, key, e);
  }

  lemma TouchKeepsValues(entries: map<string, Entry>, xs: Recency, key: string, e: Entry)
    requires SameValues(entries, xs)
    ensures SameValues(entries[key := e], Touch(xs, key, e.value))
  {
    WithoutKeys(xs, key);
  }

  lemma TouchKeepsStamps(entries: map<string, Entry>, xs: Recency, key: string, e: Entry)
    requires StampedInOrder(entries, xs) && NewerThanAll(entries, e.updated)
    ensures StampedInOrder(entries[key := e], Touch(xs, key, e.value))
  {
    WithoutKeys(xs, key);
    WithoutKeepsStamps(entries, xs, key);
    RestampOne(entries, Without(xs, key), key, e);
    StampsSplit(entries[key := e], (key, e.value), Without(xs, key));
  }

  predicate NewerThanAll(entries: map<string, Entry>, now: int) { forall k | k in entries :: entries[k].updated < now }

  /** The entry a write leaves: an update keeps the source and creation time, and the old
      category and priority where none is given. */
  function Written(entries: map<string, Entry>, key: string, value: string, category: string, priority: string,
                   source: string, now: int): Entry
  {
    if key in entries then
      var e := entries[key];
      Entry(value, if category != "" then category else e.category, if priority != "" then priority else e.priority,
            e.source, e.created, now, e.hits)
    else Entry(value, category, priority, source, now, now, 0)
  }

  /** The list after the eviction that a new key may cause: the least recent key goes, unless
      it is the empty string, which eviction mistakes for "nothing found". */
  function AfterEviction(xs: Recency, isNew: bool, max: int): Recency {
    if isNew && |xs| >= max && xs != [] && xs[|xs| - 1].0 != "" then xs[..|xs| - 1] else xs
  }

  lemma LastIsOldest(entries: map<string, Entry>, xs: Recency, key: string)
    requires Reflects(entries, xs) && key in entries
    requires forall k | k in entries :: entries[key].updated <= entries[k].updated
    ensures xs != [] && xs[|xs| - 1].0 == key
    ensures Without(xs, key) == xs[..|xs| - 1]
  {
    var i :| 0 <= i < |xs| && xs[i].0 == key;
    assert xs[|xs| - 1] in xs;
    assert entries[xs[i].0].updated <= entries[xs[|xs| - 1].0].updated;
    WithoutLast(xs);
  }

  lemma {:induction false} WithoutLast(xs: Recency)
    requires DistinctKeys(xs) && xs != []
    ensures Without(xs, xs[|xs| - 1].0) == xs[..|xs| - 1]
    decreases |xs|
  {
    if |xs| > 1 {
      RestIsDistinct(xs);
      WithoutLast(xs[1..]);
      assert xs[..|xs| - 1] == [xs[0]] + xs[1..][..|xs| - 2];
    }
  }

  lemma EvictionReflects(entries: map<string, Entry>, xs: Recency, key: string)
    requires Reflects(entries, xs)
    requires if entries == map[] then key == ""
             else key in entries && forall k | k in entries :: entries[key].updated <= entries[k].updated
    ensures Reflects(if key != "" then entries - {key} else entries, AfterEviction(xs, true, 0))
  {
    SameSize(entries, xs);
    if entries != map[] {
      LastIsOldest(entries, xs, key);
      WithoutReflects(entries, xs, key);
    } else {
      assert xs == [];
    }
  }

  /** Changing nothing but what the list does not record. */
  lemma CountingReflects(entries: map<string, Entry>, xs: Recency, key: string, e: Entry)
    requires Reflects(entries, xs) && key in entries && e.value == entries[key].value && e.updated == entries[key].updated
    ensures Reflects(entries[key := e], xs)
  {}

  /** With a positive bound that is respected, and no empty key, a write is the list's write. */
  lemma WriteIsRemember(xs: Recency, key: string, value: string, max: nat)
    requires DistinctKeys(xs) && 0 < max && |xs| <= max && !Named(xs, "")
    ensures Touch(AfterEviction(xs, !Named(xs, key), max), key, value) == Remember(xs, key, value, max)
    ensures !Named(xs, key) ==> |AfterEviction(xs, true, max)| < max
  {
    if Named(xs, key) {
      ShorterWithout(xs, key);
    } else {
      NewKeyIsRemember(xs, key, value, max);
    }
  }

  lemma NewKeyIsRemember(xs: Recency, key: string, value: string, max: nat)
    requires 0 < max && |xs| <= max && !Named(xs, "") && !Named(xs, key)
    ensures Touch(AfterEviction(xs, true, max), key, value) == Remember(xs, key, value, max)
    ensures |AfterEviction(xs, true, max)| < max
  {
    var kept := AfterEviction(xs, true, max);
    assert kept == Front(xs, max - 1);
    forall i | 0 <= i < |kept| ensures kept[i].0 != key { assert kept[i] == xs[i]; }
    WithoutKeys(kept, key);
    WithoutKeys(xs, key);
    FrontCons((key, value), xs, max);
  }

  /** Within its bound the memory refuses a new key exactly when it is full and the least recent
      key is the empty string: eviction takes that key for "nothing found". */
  lemma RefusalNeedsTheEmptyKey(xs: Recency, max: nat)
    requires 0 < max && |xs| <= max
    ensures |AfterEviction(xs, true, max)| >= max <==> |xs| == max && xs[|xs| - 1].0 == ""
  {}

  lemma {:induction false} ShorterWithout(xs: Recency, key: string)
    requires Named(xs, key)
    ensures |Without(xs, key)| < |xs|
    decreases |xs|
  {
    WithoutKeys(xs[1..], key);
    if xs[0].0 != key {
      var i :| 0 <= i < |xs| && xs[i].0 == key;
      assert xs[1..][i - 1].0 == key;
      ShorterWithout(xs[1..], key);
    }
  }

  // ---- whole runs ----------------------------------------------------------------------------------

  /** What a caller does to the memory besides reading it. */
  datatype Op = Put(key: string, value: string) | Drop(key: string)

  function Recall(xs: Recency, op: Op, max: int): Recency {
    match op
    case Put(key, value) =>
      var kept := AfterEviction(xs, !Named(xs, key), max);
      if !Named(xs, key) && |kept| >= max then kept else Touch(kept, key, value)
    case Drop(key) => Without(xs, key)
  }

  predicate Refuses(xs: Recency, key: string, max: int) {
    !Named(xs, key) && |AfterEviction(xs, true, max)| >= max
  }

  lemma PutOutcome(xs: Recency, key: string, value: string, max: int)
    requires DistinctKeys(xs)
    ensures var kept := AfterEviction(xs, !Named(xs, key), max);
      Recall(xs, Put(key, value), max) == if Refuses(xs, key, max) then kept else Touch(kept, key, value)
    ensures 0 < max && |xs| <= max && !Named(xs, "") ==>
              !Refuses(xs, key, max) && Recall(xs, Put(key, value), max) == Remember(xs, key, value, max)
  {
    if 0 < max && |xs| <= max && !Named(xs, "") { WriteIsRemember(xs, key, value, max); }
  }

  /** The list after a whole run on an empty memory. */
  function Recalled(ops: seq<Op>, max: int): Recency {
    if ops == [] then [] else Recall(Recalled(ops[..|ops| - 1], max), ops[|ops| - 1], max)
  }

  lemma RecalledSnoc(ops: seq<Op>, op: Op, max: int)
    ensures Recalled(ops + [op], max) == Recall(Recalled(ops, max), op, max)
  {
    assert (ops + [op])[..|ops|] == ops;
  }

  lemma EvictionKeepsDistinct(xs: Recency, isNew: bool, max: int)
    requires DistinctKeys(xs)
    ensures DistinctKeys(AfterEviction(xs, isNew, max))
  {}

  lemma RecallFits(xs: Recency, op: Op, max: int)
    requires DistinctKeys(xs) && |xs| <= (if max > 0 then max else 0)
    ensures DistinctKeys(Recall(xs, op, max)) && |Recall(xs, op, max)| <= if max > 0 then max else 0
  {
    WithoutKeys(xs, op.key);
    if op.Put? {
      var kept := AfterEviction(xs, !Named(xs, op.key), max);
      EvictionKeepsDistinct(xs, !Named(xs, op.key), max);
      WithoutKeys(kept, op.key);
      TouchIsDistinct(kept, op.key, op.value);
      if Named(xs, op.key) { ShorterWithout(xs, op.key); }
    }
  }

  /** Whatever is written and deleted, with whatever keys: the memory never outgrows its bound
      and never names a key twice. */
  lemma {:induction false} RunsFit(ops: seq<Op>, max: int)
    ensures DistinctKeys(Recalled(ops, max)) && |Recalled(ops, max)| <= if max > 0 then max else 0
  {
    if ops != [] {
      RunsFit(ops[..|ops| - 1], max);
      RecallFits(Recalled(ops[..|ops| - 1], max), ops[|ops| - 1], max);
    }
  }

  predicate NamedPut(op: Op) { op.Put? && op.key != "" }
  predicate OnlyNamedPuts(ops: seq<Op>) { forall op | op in ops :: NamedPut(op) }

  function Writes(ops: seq<Op>): seq<Write>
    requires OnlyNamedPuts(ops)
  {
    seq(|ops|, i requires 0 <= i < |ops| => assert NamedPut(ops[i]); Write(ops[i].key, ops[i].value))
  }

  lemma RememberedIsUnnamed(xs: Recency, key: string, value: string, max: nat)
    requires !Named(xs, "") && key != ""
    ensures !Named(Remember(xs, key, value, max), "")
  {
    var all := Touch(xs, key, value);
    WithoutKeys(xs, key);
    ListsIsNamed(xs, "");
    ListsIsNamed(Remember(xs, key, value, max), "");
    assert forall x | x in Remember(xs, key, value, max) :: x in all;
    assert forall x | x in all :: x == (key, value) || x in xs;
  }

  /** A run that only writes, and never the empty key, leaves what the bounded list says. */
  lemma {:induction false} PutsAreRemembered(ops: seq<Op>, max: nat)
    requires max > 0 && OnlyNamedPuts(ops)
    ensures Recalled(ops, max) == Remembered(Writes(ops), max) && !Named(Recalled(ops, max), "")
  {
    if ops != [] {
      var front, op := ops[..|ops| - 1], ops[|ops| - 1];
      assert NamedPut(op) && forall o | o in front :: o in ops;
      PutsAreRemembered(front, max);
      RunsFit(front, max);
      WriteIsRemember(Recalled(front, max), op.key, op.value, max);
      RememberedIsUnnamed(Recalled(front, max), op.key, op.value, max);
      assert Writes(ops)[..|ops| - 1] == Writes(front);
    }
  }

  /** Any client's whole run of writes, with reads anywhere between: the memory holds exactly
      the keys last written, with their latest values, as many as its bound allows. */
  lemma MemoryHoldsTheMostRecent(m: Memory)
    requires m.Valid() && m.maxSize > 0 && OnlyNamedPuts(m.history)
    ensures Reflects(m.entries, Front(Recent(Writes(m.history)), m.maxSize))
  {
    PutsAreRemembered(m.history, m.maxSize);
    BoundedIsMostRecent(Writes(m.history), m.maxSize);
  }

  predicate Wedged(xs: Recency, max: nat) { |xs| == max > 0 && DistinctKeys(xs) && xs[|xs| - 1].0 == "" }

  lemma WithoutKeepsLast(xs: Recency, key: string)
    requires DistinctKeys(xs) && xs != [] && Named(xs, key) && xs[|xs| - 1].0 != key
    ensures |Without(xs, key)| == |xs| - 1 && Without(xs, key) != [] && Without(xs, key)[|xs| - 2] == xs[|xs| - 1]
    decreases |xs|
  {
    RestIsDistinct(xs);
    if xs[0].0 == key {
      WithoutKeys(xs[1..], key);
    } else {
      var i :| 0 <= i < |xs| && xs[i].0 == key;
      assert xs[1..][i - 1].0 == key;
      WithoutKeepsLast(xs[1..], key);
    }
  }

  lemma WedgedStays(xs: Recency, op: Op, max: nat)
    requires Wedged(xs, max) && NamedPut(op)
    ensures Wedged(Recall(xs, op, max), max)
    ensures !Named(xs, op.key) ==> Recall(xs, op, max) == xs
  {
    if Named(xs, op.key) {
      WithoutKeepsLast(xs, op.key);
      TouchIsDistinct(xs, op.key, op.value);
    }
  }

  /** A full memory whose least recent key is the empty one stays so, and refuses every new key,
      through any writes of other keys: nothing but a write of the empty key or a deletion can
      end it. */
  lemma {:induction false} RefusalLasts(ops: seq<Op>, more: seq<Op>, max: nat, op: Op)
    requires Wedged(Recalled(ops, max), max) && OnlyNamedPuts(more) && NamedPut(op)
    ensures var xs := Recalled(ops + more, max);
      Wedged(xs, max) && (!Named(xs, op.key) ==> Recall(xs, op, max) == xs)
  {
    if more == [] {
      assert ops + more == ops;
    } else {
      var front, last := more[..|more| - 1], more[|more| - 1];
      assert NamedPut(last) && forall o | o in front :: o in more;
      RefusalLasts(ops, front, max, last);
      assert Recalled(ops + more, max) == Recall(Recalled(ops + front, max), last, max) by {
        assert ops + more == (ops + front) + [last];
        RecalledSnoc(ops + front, last, max);
      }
      WedgedStays(Recalled(ops + front, max), last, max);
    }
    WedgedStays(Recalled(ops + more, max), op, max);
  }

  /** The scan for the oldest stamp; "" if there is no entry. */
  method Oldest(entries: map<string, Entry>) returns (oldestKey: string, found: bool)
    ensures found <==> entries != map[]
    ensures found ==> oldestKey in entries && forall k | k in entries :: entries[oldestKey].updated <= entries[k].updated
    ensures !found ==> oldestKey == ""
  {
    oldestKey, found := "", false;
    var oldestTime := 0;
    var rest := entries.Keys;
    while rest != {}
      invariant rest <= entries.Keys
      invariant !found ==> rest == entries.Keys && oldestKey == ""
      invariant found ==> oldestKey in entries && oldestTime == entries[oldestKey].updated
      invariant found ==> forall k | k in entries.Keys - rest :: oldestTime <= entries[k].updated
      decreases |rest|
    {
      var k :| k in rest;
      if !found || entries[k].updated < oldestTime {
        oldestKey, oldestTime, found := k, entries[k].updated, true;
      }
      rest := rest - {k};
    }
    assert found ==> entries.Keys - rest == entries.Keys;
    if !found { assert entries.Keys == {}; }
  }

  // ---- queries -----------------------------------------------------------------------------------

  datatype Hit = Hit(key: string, entry: Entry)

  function Weight(priority: string): nat {
    if priority == "high" then 3 else if priority == "medium" then 2 else if priority == "low" then 1 else 0
  }

  predicate Matches(e: Entry, category: string, priority: string) {
    (category == "" || category <= e.category) && (priority == "" || e.priority == priority)
  }

  /** Query order: heavier priority first, then the more recent. */
  predicate Precedes(a: Hit, b: Hit) {
    || Weight(a.entry.priority) > Weight(b.entry.priority)
    || (Weight(a.entry.priority) == Weight(b.entry.priority) && a.entry.updated >= b.entry.updated)
  }

  /** The matching entries, in any order. */
  method Select(entries: map<string, Entry>, category: string, priority: string) returns (hits: seq<Hit>)
    ensures forall h :: h in hits <==> h.key in entries && h.entry == entries[h.key] && Matches(h.entry, category, priority)
    ensures forall i, j | 0 <= i < j < |hits| :: hits[i].key != hits[j].key
  {
    hits := [];
    var rest := entries.Keys;
    while rest != {}
      invariant rest <= entries.Keys
      invariant forall h :: h in hits <==>
                  h.key in entries.Keys - rest && h.entry == entries[h.key] && Matches(h.entry, category, priority)
      invariant forall i, j | 0 <= i < j < |hits| :: hits[i].key != hits[j].key
      decreases |rest|
    {
      var k :| k in rest;
      if Matches(entries[k], category, priority) {
        assert forall h | h in hits :: h.key != k;
        hits := hits + [Hit(k, entries[k])];
      }
      rest := rest - {k};
    }
  }

  /** The best `limit` matches in order; a limit of zero or less asks for all. */
  method Query(entries: map<string, Entry>, category: string, priority: string, limit: int) returns (hits: seq<Hit>)
    ensures Sorting.SortedBy(hits, Precedes)
    ensures forall h | h in hits :: h.key in entries && h.entry == entries[h.key] && Matches(h.entry, category, priority)
    ensures limit > 0 ==> |hits| <= limit
    ensures forall k | k in entries && Matches(entries[k], category, priority) ::
              Hit(k, entries[k]) in hits || (0 < limit == |hits| && forall h | h in hits :: Precedes(h, Hit(k, entries[k])))
  {
    var all := Select(entries, category, priority);
    var sorted := Sorting.Sort(all, Precedes);
    Sorting.SortIsSorted(all, Precedes);
    forall h ensures h in sorted <==> h in all { assert h in multiset(sorted) <==> h in multiset(all); }
    hits := if 0 < limit < |sorted| then sorted[..limit] else sorted;
    forall k | k in entries && Matches(entries[k], category, priority)
      ensures Hit(k, entries[k]) in hits || (0 < limit == |hits| && forall h | h in hits :: Precedes(h, Hit(k, entries[k])))
    {
      var i :| 0 <= i < |sorted| && sorted[i] == Hit(k, entries[k]);
      if i < |hits| { assert hits[i] == sorted[i]; }
    }
  }

  class Memory {
    const maxSize: int
    var entries: map<string, Entry>
    ghost var recency: Recency
    /** Every write and delete since the memory was created. */
    ghost var history: seq<Op>

    ghost predicate Valid()
      reads this
    {
      Reflects(entries, recency) && recency == Recalled(history, maxSize)
    }

    constructor (maxSize: int)
      ensures Valid() && recency == [] && history == [] && this.maxSize == maxSize
    {
      this.maxSize := maxSize;
      entries, recency, history := map[], [], [];
    }

    /** Removes the entry with the oldest stamp. */
    method EvictLRU()
      requires Reflects(entries, recency)
      modifies this`entries, this`recency
      ensures Reflects(entries, recency) && recency == AfterEviction(old(recency), true, 0)
      ensures forall k | k in entries :: k in old(entries) && entries[k] == old(entries)[k]
    {
      var oldestKey, found := Oldest(entries);
      EvictionReflects(entries, recency, oldestKey);
      recency := AfterEviction(recency, true, 0);
      if oldestKey != "" { entries := entries - {oldestKey}; }
    }

    /** Enforces the size limit for a key about to be added. */
    method MakeRoom(key: string) returns (ok: bool)
      requires Reflects(entries, recency)
      modifies this`entries, this`recency
      ensures Reflects(entries, recency) && recency == AfterEviction(old(recency), key !in old(entries), maxSize)
      ensures ok <==> key in old(entries) || |recency| < maxSize
      ensures key in entries <==> key in old(entries)
      ensures forall k | k in entries :: k in old(entries) && entries[k] == old(entries)[k]
    {
      if key in entries { return true; }
      SameSize(entries, recency);
      if |entries| < maxSize { return true; }
      EvictLRU();
      SameSize(entries, recency);
      ok := |entries| < maxSize;
    }

    /** Puts an entry newer than all others under its key. */
    method Store(key: string, e: Entry)
      requires Reflects(entries, recency) && NewerThanAll(entries, e.updated)
      modifies this`entries, this`recency
      ensures Reflects(entries, recency) && recency == Touch(old(recency), key, e.value)
      ensures entries == old(entries)[key := e]
    {
      TouchReflects(entries, recency, key, e);
      recency := Touch(recency, key, e.value);
      entries := entries[key := e];
    }

    /** Makes room for the entry and puts it in, unless there is none. */
    method Admit(key: string, e: Entry) returns (ok: bool)
      requires Reflects(entries, recency) && NewerThanAll(entries, e.updated)
      modifies this`entries, this`recency
      ensures Reflects(entries, recency) && (ok <==> !Refuses(old(recency), key, maxSize))
      ensures key in old(entries) <==> Named(old(recency), key)
      ensures var kept := AfterEviction(old(recency), !Named(old(recency), key), maxSize);
        recency == if ok then Touch(kept, key, e.value) else kept
      ensures ok ==> key in entries && entries[key] == e
      ensures forall k | k in entries && k != key :: k in old(entries) && entries[k] == old(entries)[k]
      ensures !ok ==> key !in entries
    {
      assert key in entries <==> Named(recency, key);
      ok := MakeRoom(key);
      if ok {
        assert NewerThanAll(entries, e.updated);
        Store(key, e);
      }
    }

    /** With a strictly increasing clock: an existing key is updated in place; a new one may
        evict the least recent; it is refused exactly when that leaves no room. Either way
        every other entry keeps its value. */
    method Write(key: string, value: string, category: string, priority: string, source: string, now: int, saves: bool)
      returns (err: Option<Error>)
      requires Valid() && NewerThanAll(entries, now)
      modifies this
      ensures Valid() && history == old(history) + [Put(key, value)]
      ensures var kept := AfterEviction(old(recency), key !in old(entries), maxSize);
        && (err == Some(Full) <==> key !in old(entries) && |kept| >= maxSize)
        && (err == Some(NotSaved) <==> err != Some(Full) && !saves)
        && recency == (if err == Some(Full) then kept else Touch(kept, key, value))
      ensures 0 < maxSize && |old(recency)| <= maxSize && !Named(old(recency), "") ==>
                err != Some(Full) && recency == Remember(old(recency), key, value, maxSize)
      ensures err != Some(Full) ==>
                key in entries && entries[key] == Written(old(entries), key, value, category, priority, source, now)
      ensures forall k | k in entries && k != key :: k in old(entries) && entries[k] == old(entries)[k]
    {
      var e := Written(entries, key, value, category, priority, source, now);
      PutOutcome(recency, key, value, maxSize);
      RecalledSnoc(history, Put(key, value), maxSize);
      history := history + [Put(key, value)];
      var stored := Admit(key, e);
      if !stored { return Some(Full); }
      return if saves then None else Some(NotSaved);
    }

    /** Reading counts the hit and changes nothing a write order depends on. */
    method Read(key: string) returns (value: string)
      requires Valid()
      modifies this`entries
      ensures Valid() && entries.Keys == old(entries).Keys
      ensures value == if key in old(entries) then old(entries)[key].value else ""
      ensures forall k | k in entries ::
                entries[k] == old(entries)[k].(hits := old(entries)[k].hits + if k == key then 1 else 0)
    {
      if key !in entries { return ""; }
      var e := entries[key];
      CountingReflects(entries, recency, key, e.(hits := e.hits + 1));
      entries := entries[key := e.(hits := e.hits + 1)];
      value := e.value;
    }

    method Delete(key: string) returns (ok: bool)
      requires Valid()
      modifies this
      ensures Valid() && history == old(history) + [Drop(key)] && ok == (key in old(entries))
      ensures recency == Without(old(recency), key) && entries == old(entries) - {key}
    {
      WithoutReflects(entries, recency, key);
      RecalledSnoc(history, Drop(key), maxSize);
      history, recency := history + [Drop(key)], Without(recency, key);
      if key !in entries {
        assert entries - {key} == entries;
        return false;
      }
      entries := entries - {key};
      ok := true;
    }
  }
}

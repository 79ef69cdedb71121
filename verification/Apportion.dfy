/** The distribution law: largest-remainder shares, clamped to supply, the shortfall redistributed. */
module Apportion {
  import opened Basics

  function Sum(s: seq<nat>): nat {
    if s == [] then 0 else Sum(s[..|s| - 1]) + s[|s| - 1]
  }

  lemma {:induction false} SumUpdate(s: seq<nat>, i: nat, v: nat)
    requires i < |s|
    ensures Sum(s[i := v]) == Sum(s) - s[i] + v
  {
    var last := |s| - 1;
    if i == last {
      assert s[i := v][..last] == s[..last];
    } else {
      assert s[i := v][..last] == s[..last][i := v];
      SumUpdate(s[..last], i, v);
    }
  }

  lemma {:induction false} SumMonotone(a: seq<nat>, b: seq<nat>)
    requires |a| == |b| && forall i :: 0 <= i < |a| ==> a[i] <= b[i]
    ensures Sum(a) <= Sum(b)
  {
    if a != [] {
      SumMonotone(a[..|a| - 1], b[..|b| - 1]);
    }
  }

  // ----- sorting by remainder -----

  datatype Entry = Entry(remainder: nat, slot: nat)

  /** Larger remainder first; equal remainders by slot, which is rank. */
  predicate Before(a: Entry, b: Entry) {
    a.remainder > b.remainder || (a.remainder == b.remainder && a.slot < b.slot)
  }

  function Insert(e: Entry, sorted: seq<Entry>): seq<Entry> {
    if sorted == [] || Before(e, sorted[0]) then [e] + sorted
    else [sorted[0]] + Insert(e, sorted[1..])
  }

  function Sort(entries: seq<Entry>): seq<Entry> {
    if entries == [] then [] else Insert(entries[|entries| - 1], Sort(entries[..|entries| - 1]))
  }

  function Remainders(entries: seq<Entry>): nat {
    if entries == [] then 0 else entries[0].remainder + Remainders(entries[1..])
  }

  ghost predicate Sorted(s: seq<Entry>) {
    forall i, j :: 0 <= i < j < |s| ==> Before(s[i], s[j])
  }

  lemma {:induction false} InsertSorts(e: Entry, sorted: seq<Entry>)
    requires Sorted(sorted) && forall x :: x in sorted ==> x.slot != e.slot
    ensures var r := Insert(e, sorted);
            Sorted(r) && |r| == |sorted| + 1 && Remainders(r) == Remainders(sorted) + e.remainder &&
            forall x :: x in r <==> x == e || x in sorted
  {
    if sorted == [] || Before(e, sorted[0]) {
      assert ([e] + sorted)[1..] == sorted;
    } else {
      var rest := Insert(e, sorted[1..]);
      InsertSorts(e, sorted[1..]);
      assert ([sorted[0]] + rest)[1..] == rest;
      assert sorted == [sorted[0]] + sorted[1..];
    }
  }

  /** Slot `k` of `entries` is entry number `k`. */
  ghost predicate Slotted(entries: seq<Entry>) {
    forall k :: 0 <= k < |entries| ==> entries[k].slot == k
  }

  lemma {:induction false} SortSorts(entries: seq<Entry>)
    requires Slotted(entries)
    ensures var r := Sort(entries);
            Sorted(r) && |r| == |entries| && (forall x :: x in r <==> x in entries)
    ensures Remainders(Sort(entries)) == Sum(RemaindersOf(entries))
  {
    if entries != [] {
      var rest := entries[..|entries| - 1];
      SortSorts(rest);
      InsertSorts(entries[|entries| - 1], Sort(rest));
      assert entries == rest + [entries[|entries| - 1]];
    }
  }

  function RemaindersOf(entries: seq<Entry>): (r: seq<nat>)
    ensures |r| == |entries| && forall k :: 0 <= k < |r| ==> r[k] == entries[k].remainder
  {
    if entries == [] then [] else RemaindersOf(entries[..|entries| - 1]) + [entries[|entries| - 1].remainder]
  }

  /** If the remainders add up to `leftover` pools, more than `leftover` of them are positive. */
  lemma {:induction false} EnoughRemainders(sorted: seq<Entry>, leftover: nat, pool: nat)
    requires Sorted(sorted) && (forall x :: x in sorted ==> x.remainder < pool)
    requires Remainders(sorted) == leftover * pool && sorted != []
    ensures leftover < |sorted| && forall i :: 0 <= i < leftover ==> sorted[i].remainder > 0
  {
    RemaindersBound(sorted, pool);
    MulMonotone(|sorted|, leftover, pool);
    forall i | 0 <= i < leftover ensures sorted[i].remainder > 0 {
      if sorted[i].remainder == 0 {
        ZeroTail(sorted, i, pool);
        TooManyPools(i, leftover, pool);
      }
    }
  }

  lemma {:induction false} TooManyPools(few: nat, many: nat, p: nat)
    requires few < many && p > 0
    ensures few * p < many * p
  {
    MulMonotone(few + 1, many, p);
  }

  lemma {:induction false} ZeroTail(sorted: seq<Entry>, i: nat, pool: nat)
    requires Sorted(sorted) && i < |sorted| && sorted[i].remainder == 0
    requires pool > 0 && forall x :: x in sorted ==> x.remainder < pool
    ensures Remainders(sorted) <= i * pool
  {
    assert sorted == sorted[..i] + sorted[i..];
    RemaindersSplit(sorted[..i], sorted[i..]);
    RemaindersZero(sorted[i..]);
    if i > 0 {
      RemaindersBound(sorted[..i], pool);
    }
  }

  lemma {:induction false} RemaindersBound(s: seq<Entry>, pool: nat)
    requires s != [] && forall x :: x in s ==> x.remainder < pool
    ensures Remainders(s) < |s| * pool
  {
    if |s| > 1 {
      RemaindersBound(s[1..], pool);
      assert |s| * pool == |s[1..]| * pool + pool;
    } else {
      assert s[1..] == [];
    }
  }

  lemma {:induction false} RemaindersZero(s: seq<Entry>)
    requires forall x :: x in s ==> x.remainder == 0
    ensures Remainders(s) == 0
  {
    if s != [] {
      RemaindersZero(s[1..]);
    }
  }

  lemma {:induction false} RemaindersSplit(a: seq<Entry>, b: seq<Entry>)
    ensures Remainders(a + b) == Remainders(a) + Remainders(b)
  {
    if a == [] {
      assert a + b == b;
    } else {
      assert (a + b)[1..] == a[1..] + b;
      RemaindersSplit(a[1..], b);
    }
  }

  // ----- one proportional split -----

  function Pick(weights: seq<u64>, open: seq<nat>): (picked: seq<nat>)
    requires forall k :: 0 <= k < |open| ==> open[k] < |weights|
    ensures |picked| == |open| && forall k :: 0 <= k < |open| ==> picked[k] == weights[open[k]]
  {
    if open == [] then [] else Pick(weights, open[..|open| - 1]) + [weights[open[|open| - 1]] as nat]
  }

  /** The share of one weight, rounded down, and what rounding dropped. */
  function Floor(total: nat, weight: nat, pool: nat): nat
    requires pool > 0
  {
    total * weight / pool
  }

  function Dropped(total: nat, weight: nat, pool: nat): nat
    requires pool > 0
  {
    total * weight % pool
  }

  function EntriesUpTo(total: nat, weights: seq<nat>, pool: nat, n: nat): (entries: seq<Entry>)
    requires pool > 0 && n <= |weights|
    ensures |entries| == n && forall k :: 0 <= k < n ==> entries[k] == Entry(Dropped(total, weights[k], pool), k)
  {
    if n == 0 then []
    else EntriesUpTo(total, weights, pool, n - 1) + [Entry(Dropped(total, weights[n - 1], pool), n - 1)]
  }

  function FloorsUpTo(total: nat, weights: seq<nat>, pool: nat, n: nat): (floors: seq<nat>)
    requires pool > 0 && n <= |weights|
    ensures |floors| == n && forall k :: 0 <= k < n ==> floors[k] == Floor(total, weights[k], pool)
  {
    if n == 0 then [] else FloorsUpTo(total, weights, pool, n - 1) + [Floor(total, weights[n - 1], pool)]
  }

  lemma {:induction false} FloorDropped(total: nat, weight: nat, pool: nat)
    requires pool > 0
    ensures total * weight == Floor(total, weight, pool) * pool + Dropped(total, weight, pool)
    ensures Dropped(total, weight, pool) < pool
  {
  }

  lemma {:induction false} AddProducts(pool: nat, a: nat, x: nat, total: nat, b: nat, y: nat, r: nat, s: nat)
    requires a * pool + r == total * b && total * y == x * pool + s
    ensures (a + x) * pool + (r + s) == total * (b + y)
  {
    Distribute(total, b, y);
    Distribute(pool, a, x);
  }

  lemma {:induction false} FloorsAndDropped(total: nat, weights: seq<nat>, pool: nat, n: nat)
    requires pool > 0 && n <= |weights|
    ensures Sum(FloorsUpTo(total, weights, pool, n)) * pool + Sum(RemaindersOf(EntriesUpTo(total, weights, pool, n)))
            == total * Sum(weights[..n])
  {
    hide Floor, Dropped;
    if n > 0 {
      FloorsAndDropped(total, weights, pool, n - 1);
      var w := weights[n - 1];
      assert weights[..n][..n - 1] == weights[..n - 1];
      var floors := FloorsUpTo(total, weights, pool, n);
      assert floors[..n - 1] == FloorsUpTo(total, weights, pool, n - 1);
      var entries := EntriesUpTo(total, weights, pool, n);
      assert entries[..n - 1] == EntriesUpTo(total, weights, pool, n - 1);
      var dropped := RemaindersOf(entries);
      assert dropped[..n - 1] == RemaindersOf(entries[..n - 1]);
      FloorDropped(total, w, pool);
      AddProducts(pool, Sum(floors[..n - 1]), floors[n - 1], total, Sum(weights[..n - 1]), w,
                  Sum(dropped[..n - 1]), dropped[n - 1]);
      assert Sum(floors) == Sum(floors[..n - 1]) + floors[n - 1];
      assert Sum(dropped) == Sum(dropped[..n - 1]) + dropped[n - 1];
      assert Sum(weights[..n]) == Sum(weights[..n - 1]) + w;
    }
  }

  lemma {:induction false} Distribute(a: nat, b: nat, c: nat)
    ensures a * (b + c) == a * b + a * c
    ensures (b + c) * a == b * a + c * a
  {
  }

  /** What a largest-remainder split guarantees: it hands out exactly the total, every entry gets its quota
      rounded down or up (up only when rounding down dropped something), and whoever is rounded up
      dropped at least as much as anyone who is not, ties going to the lower index. */
  ghost predicate IsSplit(total: nat, weights: seq<nat>, pool: nat, targets: seq<nat>)
    requires pool > 0
  {
    |targets| == |weights| && Sum(targets) == total &&
    (forall k :: 0 <= k < |targets| ==>
       targets[k] == Floor(total, weights[k], pool) ||
       (targets[k] == Floor(total, weights[k], pool) + 1 && Dropped(total, weights[k], pool) > 0)) &&
    forall k, l :: 0 <= k < |targets| && 0 <= l < |targets| && targets[k] == Floor(total, weights[k], pool) &&
                   targets[l] == Floor(total, weights[l], pool) + 1
      ==> Before(Entry(Dropped(total, weights[l], pool), l), Entry(Dropped(total, weights[k], pool), k))
  }

  /** Has slot `k` been rounded up by the first `n` entries of the sorted list? */
  ghost predicate Bumped(sorted: seq<Entry>, n: nat, k: nat)
    requires n <= |sorted|
  {
    exists i :: 0 <= i < n && sorted[i].slot == k
  }

  method LargestRemainder(remaining: nat, open: seq<nat>, weights: seq<u64>, pool: nat) returns (targets: seq<nat>)
    requires forall k :: 0 <= k < |open| ==> open[k] < |weights|
    requires pool == Sum(Pick(weights, open)) && pool > 0
    ensures IsSplit(remaining, Pick(weights, open), pool, targets)
  {
    hide Floor, Dropped, Sum, Remainders, Sort, Pick, FloorsUpTo, EntriesUpTo, RemaindersOf, IsSplit;
    ghost var picked := Pick(weights, open);
    var entries;
    targets, entries := FloorsAndEntries(remaining, open, weights, pool);
    var floors := Sum(targets);
    assert picked[..|open|] == picked;
    FloorsAndDropped(remaining, picked, pool, |open|);
    SortSorts(entries);
    var sorted := Sort(entries);
    forall x | x in sorted ensures x.remainder < pool {
      FloorDropped(remaining, picked[x.slot], pool);
    }
    LeftoverFits(remaining, floors, pool, sorted);
    forall i | 0 <= i < |sorted| ensures !Bumped(sorted, i, sorted[i].slot) {
      SlotsAreDistinct(entries, sorted, i);
    }
    var leftover := remaining - floors;
    targets := RoundUp(targets, sorted, leftover);
    SplitIsSound(remaining, picked, pool, entries, sorted, leftover, targets);
  }

  method FloorsAndEntries(remaining: nat, open: seq<nat>, weights: seq<u64>, pool: nat)
    returns (floors: seq<nat>, entries: seq<Entry>)
    requires (forall k :: 0 <= k < |open| ==> open[k] < |weights|) && pool > 0
    ensures floors == FloorsUpTo(remaining, Pick(weights, open), pool, |open|)
    ensures entries == EntriesUpTo(remaining, Pick(weights, open), pool, |open|)
  {
    hide Floor, Dropped, Pick;
    ghost var picked := Pick(weights, open);
    floors, entries := [], [];
    for slot := 0 to |open|
      invariant floors == FloorsUpTo(remaining, picked, pool, slot)
      invariant entries == EntriesUpTo(remaining, picked, pool, slot)
    {
      floors := floors + [Floor(remaining, weights[open[slot]], pool)];
      entries := entries + [Entry(Dropped(remaining, weights[open[slot]], pool), slot)];
    }
  }

  /** One more for each of the first `extra` slots of the sorted list. */
  method RoundUp(floors: seq<nat>, sorted: seq<Entry>, extra: nat) returns (targets: seq<nat>)
    requires extra <= |sorted| && forall x :: x in sorted ==> x.slot < |floors|
    requires forall i :: 0 <= i < |sorted| ==> !Bumped(sorted, i, sorted[i].slot)
    ensures |targets| == |floors| && Sum(targets) == Sum(floors) + extra
    ensures forall k :: 0 <= k < |targets| ==> targets[k] == floors[k] + if Bumped(sorted, extra, k) then 1 else 0
  {
    targets := floors;
    var leftover := extra;
    var i := 0;
    while i < |sorted|
      invariant 0 <= i <= |sorted| && i + leftover == extra
      invariant |targets| == |floors| && Sum(targets) == Sum(floors) + i
      invariant forall k :: 0 <= k < |targets| ==> targets[k] == floors[k] + if Bumped(sorted, i, k) then 1 else 0
    {
      if leftover == 0 {
        break;
      }
      var slot := sorted[i].slot;
      assert sorted[i] in sorted;
      SumUpdate(targets, slot, targets[slot] + 1);
      BumpStep(sorted, i);
      targets := targets[slot := targets[slot] + 1];
      leftover := leftover - 1;
      i := i + 1;
    }
  }

  lemma {:induction false} BumpStep(sorted: seq<Entry>, i: nat)
    requires i < |sorted|
    ensures forall k: nat :: Bumped(sorted, i + 1, k) <==> Bumped(sorted, i, k) || k == sorted[i].slot
  {
    forall k: nat ensures Bumped(sorted, i + 1, k) <==> Bumped(sorted, i, k) || k == sorted[i].slot {
      if Bumped(sorted, i, k) {
        var j :| 0 <= j < i && sorted[j].slot == k;
        assert 0 <= j < i + 1 && sorted[j].slot == k;
      }
      if k == sorted[i].slot {
        assert 0 <= i < i + 1 && sorted[i].slot == k;
      }
    }
  }

  /** The rounding leftover is a whole number of slots, and fewer of them than there are entries. */
  lemma {:induction false} LeftoverFits(total: nat, floors: nat, pool: nat, sorted: seq<Entry>)
    requires pool > 0 && floors * pool + Remainders(sorted) == total * pool
    requires Sorted(sorted) && forall x :: x in sorted ==> x.remainder < pool
    ensures floors <= total && total - floors <= |sorted|
    ensures forall i :: 0 <= i < total - floors ==> sorted[i].remainder > 0
  {
    if floors > total {
      MulMonotone(total + 1, floors, pool);
    }
    Distribute(pool, floors, total - floors);
    if sorted != [] {
      EnoughRemainders(sorted, total - floors, pool);
    } else if total > floors {
      MulMonotone(1, total - floors, pool);
    }
  }

  lemma {:induction false} SlotsAreDistinct(entries: seq<Entry>, sorted: seq<Entry>, i: nat)
    requires Slotted(entries) && Sorted(sorted) && (forall x :: x in sorted <==> x in entries) && i < |sorted|
    ensures !Bumped(sorted, i, sorted[i].slot)
  {
    forall j | 0 <= j < i ensures sorted[j].slot != sorted[i].slot {
      assert sorted[j] in entries && sorted[i] in entries;
      assert sorted[j] == entries[sorted[j].slot] && sorted[i] == entries[sorted[i].slot];
    }
  }

  lemma {:induction false} SplitIsSound(total: nat, weights: seq<nat>, pool: nat, entries: seq<Entry>, sorted: seq<Entry>,
                                        n: nat, targets: seq<nat>)
    requires pool > 0 && entries == EntriesUpTo(total, weights, pool, |weights|)
    requires Sorted(sorted) && (forall x :: x in sorted <==> x in entries) && n <= |sorted|
    requires forall i :: 0 <= i < n ==> sorted[i].remainder > 0
    requires |targets| == |weights| && Sum(targets) == total
    requires forall k :: 0 <= k < |targets| ==>
               targets[k] == Floor(total, weights[k], pool) + if Bumped(sorted, n, k) then 1 else 0
    ensures IsSplit(total, weights, pool, targets)
  {
    forall k | 0 <= k < |targets| && Bumped(sorted, n, k) ensures Dropped(total, weights[k], pool) > 0 {
      var i :| 0 <= i < n && sorted[i].slot == k;
      assert sorted[i] in entries;
      assert sorted[i] == entries[k];
    }
    forall k, l | 0 <= k < |targets| && 0 <= l < |targets| && !Bumped(sorted, n, k) && Bumped(sorted, n, l)
      ensures Before(entries[l], entries[k])
    {
      var i :| 0 <= i < n && sorted[i].slot == l;
      assert sorted[i] in entries;
      assert sorted[i] == entries[l];
      assert entries[k] in sorted;
      var j :| 0 <= j < |sorted| && sorted[j] == entries[k];
      assert j >= n;
    }
  }

  /** Heavier, or equally heavy and earlier in the ranking. */
  predicate Outranks(weights: seq<nat>, k: nat, l: nat)
    requires k < |weights| && l < |weights|
  {
    weights[k] > weights[l] || (weights[k] == weights[l] && k < l)
  }

  /** A split never gives a lower rank more than a higher one. */
  lemma {:induction false} SplitIsMonotone(total: nat, weights: seq<nat>, pool: nat, targets: seq<nat>, k: nat, l: nat)
    requires pool > 0 && IsSplit(total, weights, pool, targets)
    requires k < |weights| && l < |weights| && Outranks(weights, k, l)
    ensures targets[k] >= targets[l]
  {
    FloorMonotone(total, weights[k], weights[l], pool);
    FloorDropped(total, weights[k], pool);
    FloorDropped(total, weights[l], pool);
    if targets[k] < targets[l] {
      DroppedMonotone(total, weights[k], weights[l], pool);
    }
  }

  lemma {:induction false} FloorMonotone(total: nat, heavy: nat, light: nat, pool: nat)
    requires pool > 0 && heavy >= light
    ensures Floor(total, heavy, pool) >= Floor(total, light, pool)
  {
    Distribute(total, light, heavy - light);
    DivMonotone(total * light, total * heavy, pool);
  }

  lemma {:induction false} DivMonotone(a: nat, b: nat, p: nat)
    requires a <= b && p > 0
    ensures a / p <= b / p
  {
    QuotientOrder(a / p, a % p, b / p, b % p, p);
  }

  lemma {:induction false} DroppedMonotone(total: nat, heavy: nat, light: nat, pool: nat)
    requires pool > 0 && heavy >= light && Floor(total, heavy, pool) == Floor(total, light, pool)
    ensures Dropped(total, heavy, pool) >= Dropped(total, light, pool)
    ensures total > 0 && heavy > light ==> Dropped(total, heavy, pool) > Dropped(total, light, pool)
  {
    FloorDropped(total, heavy, pool);
    FloorDropped(total, light, pool);
    Distribute(total, light, heavy - light);
    if total > 0 && heavy > light {
      MulMonotone(1, heavy - light, total);
    }
  }

  /** An entry whose target overshoots its supply holds strictly less than its exact quota. */
  lemma {:induction false} OvershootIsShort(total: nat, weights: seq<nat>, pool: nat, targets: seq<nat>, k: nat, held: nat)
    requires pool > 0 && IsSplit(total, weights, pool, targets) && k < |weights| && held < targets[k]
    ensures weights[k] > 0 && held * pool < total * weights[k]
  {
    FloorDropped(total, weights[k], pool);
    MulMonotone(held, Floor(total, weights[k], pool), pool);
    if held < Floor(total, weights[k], pool) {
      MulMonotone(held + 1, Floor(total, weights[k], pool), pool);
      assert (held + 1) * pool == held * pool + pool;
    }
  }
}

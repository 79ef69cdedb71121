/** Clamping and redistribution: `allocate` divides a total over weights without exceeding any supply. */
module Allocate {
  import opened Basics
  import opened Apportion

  /** The weights still in play: a clamped entry weighs nothing. */
  function Masked(weights: seq<u64>, clamped: seq<bool>): (masked: seq<nat>)
    requires |clamped| <= |weights|
    ensures |masked| == |clamped|
    ensures forall i :: 0 <= i < |clamped| ==> masked[i] == if clamped[i] then 0 else weights[i]
  {
    if clamped == [] then []
    else Masked(weights, clamped[..|clamped| - 1]) +
         [if clamped[|clamped| - 1] then 0 else weights[|clamped| - 1] as nat]
  }

  function OpenUpTo(clamped: seq<bool>, n: nat): (open: seq<nat>)
    requires n <= |clamped|
    ensures forall k :: 0 <= k < |open| ==> open[k] < n && !clamped[open[k]]
    ensures forall k, l :: 0 <= k < l < |open| ==> open[k] < open[l]
    ensures forall i :: 0 <= i < n && !clamped[i] ==> i in open
  {
    if n == 0 then [] else OpenUpTo(clamped, n - 1) + (if clamped[n - 1] then [] else [n - 1])
  }

  function ClampedCount(clamped: seq<bool>): (n: nat)
    ensures n <= |clamped|
  {
    if clamped == [] then 0
    else ClampedCount(clamped[..|clamped| - 1]) + if clamped[|clamped| - 1] then 1 else 0
  }

  lemma {:induction false} ClampCounts(clamped: seq<bool>, i: nat)
    requires i < |clamped| && !clamped[i]
    ensures ClampedCount(clamped[i := true]) == ClampedCount(clamped) + 1
  {
    var last := |clamped| - 1;
    if i == last {
      assert clamped[i := true][..last] == clamped[..last];
    } else {
      assert clamped[i := true][..last] == clamped[..last][i := true];
      ClampCounts(clamped[..last], i);
    }
  }

  lemma {:induction false} SumAppend(s: seq<nat>, x: nat)
    ensures Sum(s + [x]) == Sum(s) + x
  {
    assert (s + [x])[..|s|] == s;
  }

  lemma {:induction false} PickAppend(weights: seq<u64>, open: seq<nat>, i: nat)
    requires (forall k :: 0 <= k < |open| ==> open[k] < |weights|) && i < |weights|
    ensures Pick(weights, open + [i]) == Pick(weights, open) + [weights[i] as nat]
  {
    assert (open + [i])[..|open|] == open;
  }

  lemma {:induction false} PickedPool(weights: seq<u64>, clamped: seq<bool>, n: nat)
    requires n <= |clamped| <= |weights|
    ensures Sum(Pick(weights, OpenUpTo(clamped, n))) == Sum(Masked(weights, clamped)[..n])
  {
    hide Pick, Sum, Masked;
    if n == 0 {
      assert Masked(weights, clamped)[..0] == [] && Pick(weights, []) == [];
    } else {
      PickedPool(weights, clamped, n - 1);
      var before := OpenUpTo(clamped, n - 1);
      var masked := Masked(weights, clamped);
      assert masked[..n] == masked[..n - 1] + [masked[n - 1]];
      SumAppend(masked[..n - 1], masked[n - 1]);
      if !clamped[n - 1] {
        PickAppend(weights, before, n - 1);
        SumAppend(Pick(weights, before), weights[n - 1]);
      } else {
        assert before + [] == before;
      }
    }
  }

  function Pool(weights: seq<u64>, clamped: seq<bool>): nat
    requires |clamped| <= |weights|
  {
    Sum(Masked(weights, clamped))
  }

  function NoneClamped(count: nat): (clamped: seq<bool>)
    ensures |clamped| == count && forall i :: 0 <= i < count ==> !clamped[i]
  {
    seq(count, _ => false)
  }

  /** The total weight the whole split divides by. */
  function FullPool(weights: seq<u64>, count: nat): nat
    requires count <= |weights|
  {
    Pool(weights, NoneClamped(count))
  }

  /** Entries with no weight have no claim, so their supply does not count. */
  function ClaimedSupply(weights: seq<u64>, supply: seq<u64>, count: nat): (claimed: seq<nat>)
    requires count <= |weights| && count <= |supply|
    ensures |claimed| == count
    ensures forall i :: 0 <= i < count ==> claimed[i] == if weights[i] > 0 then supply[i] else 0
  {
    if count == 0 then []
    else ClaimedSupply(weights, supply, count - 1) + [if weights[count - 1] > 0 then supply[count - 1] as nat else 0]
  }

  // ----- what an allocation promises -----

  /** Never more than the supply, nothing for no weight, and all of the total that the claims can absorb. */
  ghost predicate IsExact(weights: seq<u64>, supply: seq<u64>, total: nat, allocation: seq<nat>)
    requires |allocation| <= |weights| && |allocation| <= |supply|
  {
    (forall i :: 0 <= i < |allocation| ==> allocation[i] <= supply[i] && (weights[i] == 0 ==> allocation[i] == 0)) &&
    Sum(allocation) == Min(total, Sum(ClaimedSupply(weights, supply, |allocation|)))
  }

  /** Redistribution never robs: everyone gets the proportional share, or all they hold. */
  ghost predicate NeverRobs(weights: seq<u64>, supply: seq<u64>, total: nat, allocation: seq<nat>)
    requires |allocation| <= |weights| && |allocation| <= |supply|
  {
    FullPool(weights, |allocation|) > 0 ==>
      forall i :: 0 <= i < |allocation| ==>
        allocation[i] >= Min(supply[i], Floor(total, weights[i], FullPool(weights, |allocation|)))
  }

  /** A higher rank gets at least what a lower one gets, or all it holds. */
  ghost predicate FollowsRank(weights: seq<u64>, supply: seq<u64>, allocation: seq<nat>)
    requires |allocation| <= |weights| && |allocation| <= |supply|
  {
    forall i, j :: 0 <= i < |allocation| && 0 <= j < |allocation| && Outranks(weights, i, j)
      ==> allocation[i] >= Min(supply[i], allocation[j])
  }

  /** What the clamped entries hold. */
  function HeldBy(supply: seq<u64>, clamped: seq<bool>): (held: seq<nat>)
    requires |clamped| <= |supply|
    ensures |held| == |clamped|
    ensures forall i :: 0 <= i < |clamped| ==> held[i] == if clamped[i] then supply[i] else 0
  {
    if clamped == [] then []
    else HeldBy(supply, clamped[..|clamped| - 1]) + [if clamped[|clamped| - 1] then supply[|clamped| - 1] as nat else 0]
  }

  /** The quota rounded down, or up if rounding down drops anything. */
  ghost predicate Rounded(total: nat, weight: nat, pool: nat, share: nat)
    requires pool > 0
  {
    share == Floor(total, weight, pool) || (share == Floor(total, weight, pool) + 1 && Dropped(total, weight, pool) > 0)
  }

  /** Of two rounded quotas, only the one that dropped more was rounded up alone, or the earlier one if both dropped as much. */
  ghost predicate FairlyRounded(total: nat, pool: nat, a: nat, i: nat, share: nat, b: nat, j: nat, share': nat)
    requires pool > 0
  {
    share == Floor(total, a, pool) && share' == Floor(total, b, pool) + 1 ==>
      Dropped(total, b, pool) > Dropped(total, a, pool) || (Dropped(total, b, pool) == Dropped(total, a, pool) && j < i)
  }

  /** The clamped entries hold their whole supply, and none of them could take its quota of the rest; the others share the rest by
      largest remainders. */
  ghost predicate DividedBy(weights: seq<u64>, supply: seq<u64>, total: nat, allocation: seq<nat>, clamped: seq<bool>, rest: nat)
  {
    |clamped| == |allocation| && |clamped| <= |weights| && |clamped| <= |supply| &&
    Sum(HeldBy(supply, clamped)) + rest == total &&
    var pool := Pool(weights, clamped);
    (forall i :: 0 <= i < |clamped| && clamped[i] ==>
       allocation[i] == supply[i] && weights[i] > 0 && supply[i] * pool <= rest * weights[i]) &&
    if rest == 0 || pool == 0 then forall i :: 0 <= i < |clamped| && !clamped[i] ==> allocation[i] == 0
    else Sum(allocation) == total &&
         (forall i :: 0 <= i < |clamped| && !clamped[i] ==> Rounded(rest, weights[i], pool, allocation[i])) &&
         forall i, j :: 0 <= i < |clamped| && 0 <= j < |clamped| && !clamped[i] && !clamped[j]
           ==> FairlyRounded(rest, pool, weights[i], i, allocation[i], weights[j], j, allocation[j])
  }

  /** What the short entries leave is divided among the others as if they had never been there. */
  ghost predicate Redistributed(weights: seq<u64>, supply: seq<u64>, total: nat, allocation: seq<nat>) {
    exists clamped: seq<bool>, rest: nat :: DividedBy(weights, supply, total, allocation, clamped, rest)
  }

  // ----- the state between rounds -----

  /** Clamped entries hold their supply, which is no more than their quota of what is still undivided; open
      entries hold nothing; and the undivided rest per open weight has not fallen below where it started. */
  ghost predicate Between(weights: seq<u64>, supply: seq<u64>, total: nat, allocation: seq<nat>, clamped: seq<bool>,
                          remaining: nat)
  {
    |allocation| == |clamped| && |clamped| <= |weights| && |clamped| <= |supply| &&
    (forall i :: 0 <= i < |clamped| && clamped[i] ==>
       allocation[i] == supply[i] && weights[i] > 0 && supply[i] * Pool(weights, clamped) <= remaining * weights[i]) &&
    (forall i :: 0 <= i < |clamped| && !clamped[i] ==> allocation[i] == 0) &&
    Sum(allocation) + remaining == total &&
    total * Pool(weights, clamped) <= remaining * FullPool(weights, |clamped|) &&
    (total > 0 ==> remaining > 0)
  }

  /** The key inequality: quotas measured against an earlier pool still hold when the rest per weight has grown. */
  lemma {:induction false} RatioCarries(a: nat, b: nat, pool: nat, remaining: nat, pool': nat, remaining': nat)
    requires pool > 0 && a * pool <= remaining * b && remaining * pool' <= remaining' * pool
    ensures a * pool' <= remaining' * b
  {
    MulMonotone(a * pool, remaining * b, pool');
    MulMonotone(remaining * pool', remaining' * pool, b);
    assert (a * pool) * pool' == (a * pool') * pool by { Rearrange(a, pool, pool'); }
    assert (remaining * b) * pool' == (remaining * pool') * b by { Rearrange(remaining, b, pool'); }
    assert (remaining' * pool) * b == (remaining' * b) * pool by { Rearrange(remaining', pool, b); }
    Cancel(a * pool', remaining' * b, pool);
  }

  lemma {:induction false} Rearrange(a: nat, b: nat, c: nat)
    ensures (a * b) * c == (a * c) * b
  {
  }

  lemma {:induction false} Cancel(a: nat, b: nat, p: nat)
    requires p > 0 && a * p <= b * p
    ensures a <= b
  {
    if b < a {
      MulMonotone(b + 1, a, p);
    }
  }

  /** Taking one overshooting entry out of the pool: the subtraction cannot go under, and the rest per
      weight strictly grows. */
  lemma {:induction false} ClampGrowsRatio(remaining: nat, pool: nat, rest: nat, open: nat, held: nat, weight: nat)
    requires pool > 0 && weight <= open
    requires held * pool < remaining * weight && rest * pool >= remaining * open
    ensures held < rest && remaining * (open - weight) < (rest - held) * pool
  {
    Distribute(remaining, weight, open - weight);
    assert held * pool < rest * pool;
    if rest <= held {
      MulMonotone(rest, held, pool);
    }
    Distribute(pool, held, rest - held);
  }

  lemma {:induction false} PoolWithout(weights: seq<u64>, clamped: seq<bool>, i: nat)
    requires |clamped| <= |weights| && i < |clamped| && !clamped[i]
    ensures weights[i] <= Pool(weights, clamped)
    ensures Pool(weights, clamped[i := true]) == Pool(weights, clamped) - weights[i]
  {
    var masked := Masked(weights, clamped);
    SumUpdate(masked, i, 0);
    assert Masked(weights, clamped[i := true]) == masked[i := 0];
  }

  /** An entry that overshot is strictly short of its quota of the round. */
  ghost predicate Short(weights: seq<u64>, supply: seq<u64>, remaining: nat, pool: nat, i: nat)
    requires i < |weights| && i < |supply|
  {
    weights[i] > 0 && supply[i] * pool < remaining * weights[i]
  }

  /** In the middle of a round: quotas are still those of the round's own pool and rest. */
  ghost predicate Clamping(weights: seq<u64>, supply: seq<u64>, total: nat, pool: nat, remainingIn: nat,
                           allocation: seq<nat>, clamped: seq<bool>, remaining: nat)
  {
    |allocation| == |clamped| && |clamped| <= |weights| && |clamped| <= |supply| &&
    (forall i :: 0 <= i < |clamped| && clamped[i] ==>
       allocation[i] == supply[i] && weights[i] > 0 && supply[i] * pool <= remainingIn * weights[i]) &&
    (forall i :: 0 <= i < |clamped| && !clamped[i] ==> allocation[i] == 0) &&
    Sum(allocation) + remaining == total &&
    remaining * pool >= remainingIn * Pool(weights, clamped)
  }

  lemma {:induction false} ClampOne(weights: seq<u64>, supply: seq<u64>, total: nat, pool: nat, remainingIn: nat,
                                    allocation: seq<nat>, clamped: seq<bool>, remaining: nat, index: nat)
    requires pool > 0 && Clamping(weights, supply, total, pool, remainingIn, allocation, clamped, remaining)
    requires index < |clamped| && !clamped[index] && Short(weights, supply, remainingIn, pool, index)
    ensures supply[index] < remaining
    ensures Clamping(weights, supply, total, pool, remainingIn, allocation[index := supply[index] as nat],
                     clamped[index := true], remaining - supply[index])
    ensures ClampedCount(clamped[index := true]) == ClampedCount(clamped) + 1
  {
    hide Sum, Pool, ClampedCount;
    PoolWithout(weights, clamped, index);
    ClampGrowsRatio(remainingIn, pool, remaining, Pool(weights, clamped), supply[index], weights[index]);
    SumUpdate(allocation, index, supply[index]);
    ClampCounts(clamped, index);
  }

  /** Clamp every overshooting entry of one round. */
  method ClampAll(weights: seq<u64>, supply: seq<u64>, ghost total: nat, overshot: seq<nat>, allocationIn: seq<nat>,
                  clampedIn: seq<bool>, remainingIn: nat)
    returns (allocation: seq<nat>, clamped: seq<bool>, remaining: nat)
    requires Between(weights, supply, total, allocationIn, clampedIn, remainingIn)
    requires Pool(weights, clampedIn) > 0 && overshot != []
    requires forall k :: 0 <= k < |overshot| ==> overshot[k] < |clampedIn| && !clampedIn[overshot[k]]
    requires forall k :: 0 <= k < |overshot| ==> Short(weights, supply, remainingIn, Pool(weights, clampedIn), overshot[k])
    requires forall k, l :: 0 <= k < l < |overshot| ==> overshot[k] < overshot[l]
    ensures |allocation| == |clamped| == |clampedIn|
    ensures Between(weights, supply, total, allocation, clamped, remaining)
    ensures ClampedCount(clamped) > ClampedCount(clampedIn)
  {
    hide Short, ClampedCount, Sum, Pool, FullPool;
    allocation, clamped, remaining := allocationIn, clampedIn, remainingIn;
    ghost var pool := Pool(weights, clampedIn);
    for k := 0 to |overshot|
      invariant |clamped| == |clampedIn|
      invariant Clamping(weights, supply, total, pool, remainingIn, allocation, clamped, remaining)
      invariant forall l :: k <= l < |overshot| ==> !clamped[overshot[l]]
      invariant k > 0 ==> remaining > 0
      invariant ClampedCount(clamped) == ClampedCount(clampedIn) + k
    {
      var index := overshot[k];
      ClampOne(weights, supply, total, pool, remainingIn, allocation, clamped, remaining, index);
      allocation := allocation[index := supply[index] as nat];
      clamped := clamped[index := true];
      remaining := remaining - supply[index];
    }
    CarryBetween(weights, supply, total, clampedIn, remainingIn, allocation, clamped, remaining);
  }

  lemma {:induction false} CarryBetween(weights: seq<u64>, supply: seq<u64>, total: nat, clampedIn: seq<bool>, remainingIn: nat,
                                        allocation: seq<nat>, clamped: seq<bool>, remaining: nat)
    requires |clamped| == |clampedIn| && |clamped| <= |weights| && Pool(weights, clampedIn) > 0 && remaining > 0
    requires Clamping(weights, supply, total, Pool(weights, clampedIn), remainingIn, allocation, clamped, remaining)
    requires total * Pool(weights, clampedIn) <= remainingIn * FullPool(weights, |clamped|)
    ensures Between(weights, supply, total, allocation, clamped, remaining)
  {
    var pool, pool' := Pool(weights, clampedIn), Pool(weights, clamped);
    RatioCarries(total, FullPool(weights, |clamped|), pool, remainingIn, pool', remaining);
    forall i | 0 <= i < |clamped| && clamped[i]
      ensures supply[i] * pool' <= remaining * weights[i]
    {
      RatioCarries(supply[i], weights[i], pool, remainingIn, pool', remaining);
    }
  }

  /** The open entries whose target exceeds what they hold, in index order. */
  function Overshot(open: seq<nat>, targets: seq<nat>, supply: seq<u64>, n: nat): seq<nat>
    requires n <= |open| == |targets| && forall k :: 0 <= k < |open| ==> open[k] < |supply|
  {
    if n == 0 then [] else
    var init := Overshot(open, targets, supply, n - 1);
    if targets[n - 1] > supply[open[n - 1]] then init + [open[n - 1]] else init
  }

  /** `x` is one of the first `n` open entries, and its target exceeds what it holds. */
  ghost predicate Overshoots(open: seq<nat>, targets: seq<nat>, supply: seq<u64>, n: nat, x: nat)
    requires n <= |open| == |targets| && forall k :: 0 <= k < |open| ==> open[k] < |supply|
  {
    exists k :: 0 <= k < n && x == open[k] && targets[k] > supply[open[k]]
  }

  lemma {:induction false} OvershotMembers(open: seq<nat>, targets: seq<nat>, supply: seq<u64>, n: nat)
    requires n <= |open| == |targets| && forall k :: 0 <= k < |open| ==> open[k] < |supply|
    ensures forall x: nat :: x in Overshot(open, targets, supply, n) <==> Overshoots(open, targets, supply, n, x)
  {
    if n > 0 {
      OvershotMembers(open, targets, supply, n - 1);
      var last := open[n - 1];
      forall x: nat ensures Overshoots(open, targets, supply, n, x) <==>
                            Overshoots(open, targets, supply, n - 1, x) || (x == last && targets[n - 1] > supply[last])
      {
      }
      hide Overshoots;
    }
  }

  /** With nothing overshooting, every target is within its entry's supply; otherwise each overshooting entry is one
      of the open ones. */
  lemma {:induction false} OvershotMeaning(open: seq<nat>, targets: seq<nat>, supply: seq<u64>)
    requires |open| == |targets| && forall k :: 0 <= k < |open| ==> open[k] < |supply|
    ensures var over := Overshot(open, targets, supply, |open|);
            (over == [] ==> forall k :: 0 <= k < |open| ==> targets[k] <= supply[open[k]]) &&
            forall m :: 0 <= m < |over| ==> Overshoots(open, targets, supply, |open|, over[m])
  {
    OvershotMembers(open, targets, supply, |open|);
    forall k | 0 <= k < |open| && targets[k] > supply[open[k]] ensures open[k] in Overshot(open, targets, supply, |open|) {
      assert Overshoots(open, targets, supply, |open|, open[k]);
    }
  }

  ghost predicate Ascends(s: seq<nat>) {
    forall l, m :: 0 <= l < m < |s| ==> s[l] < s[m]
  }

  lemma {:induction false} OvershotAscends(open: seq<nat>, targets: seq<nat>, supply: seq<u64>, n: nat)
    requires n <= |open| == |targets| && forall k :: 0 <= k < |open| ==> open[k] < |supply|
    requires forall k, l :: 0 <= k < l < |open| ==> open[k] < open[l]
    ensures Ascends(Overshot(open, targets, supply, n))
  {
    if n > 0 {
      OvershotAscends(open, targets, supply, n - 1);
      OvershotMembers(open, targets, supply, n - 1);
      var init := Overshot(open, targets, supply, n - 1);
      forall m | 0 <= m < |init| ensures init[m] < open[n - 1] {
        assert init[m] in init;
        assert Overshoots(open, targets, supply, n - 1, init[m]);
        var k :| 0 <= k < n - 1 && init[m] == open[k];
      }
    }
  }

  /** What is still open is settled at its target; the rest stays. */
  method Commit(open: seq<nat>, targets: seq<nat>, allocationIn: seq<nat>) returns (allocation: seq<nat>)
    requires |open| == |targets| && forall k :: 0 <= k < |open| ==> open[k] < |allocationIn| && allocationIn[open[k]] == 0
    requires forall k, l :: 0 <= k < l < |open| ==> open[k] < open[l]
    ensures |allocation| == |allocationIn| && Sum(allocation) == Sum(allocationIn) + Sum(targets)
    ensures forall k :: 0 <= k < |open| ==> allocation[open[k]] == targets[k]
    ensures forall i :: 0 <= i < |allocation| && i !in open ==> allocation[i] == allocationIn[i]
  {
    allocation := allocationIn;
    for k := 0 to |open|
      invariant |allocation| == |allocationIn| && Sum(allocation) == Sum(allocationIn) + Sum(targets[..k])
      invariant forall l :: 0 <= l < k ==> allocation[open[l]] == targets[l]
      invariant forall i :: 0 <= i < |allocation| && i !in open[..k] ==> allocation[i] == allocationIn[i]
    {
      SumUpdate(allocation, open[k], targets[k]);
      assert targets[..k + 1][..k] == targets[..k];
      assert open[..k + 1] == open[..k] + [open[k]];
      allocation := allocation[open[k] := targets[k]];
    }
    assert targets[..|open|] == targets && open[..|open|] == open;
  }

  /** What the open entries got in the round that committed, stated by index. */
  ghost predicate Shared(weights: seq<u64>, clamped: seq<bool>, remaining: nat, allocation: seq<nat>)
    requires |clamped| == |allocation| <= |weights| && Pool(weights, clamped) > 0
  {
    (forall i :: 0 <= i < |clamped| && !clamped[i] ==>
       allocation[i] >= Floor(remaining, weights[i], Pool(weights, clamped)) && (weights[i] == 0 ==> allocation[i] == 0)) &&
    forall i, j :: 0 <= i < |clamped| && 0 <= j < |clamped| && !clamped[i] && !clamped[j] && Outranks(weights, i, j)
      ==> allocation[i] >= allocation[j]
  }

  lemma {:induction false} SplitIsShared(weights: seq<u64>, clamped: seq<bool>, remaining: nat, allocation: seq<nat>,
                                         targets: seq<nat>)
    requires |clamped| == |allocation| <= |weights| && Pool(weights, clamped) > 0
    requires var open := OpenUpTo(clamped, |clamped|);
             IsSplit(remaining, Pick(weights, open), Pool(weights, clamped), targets) &&
             forall k :: 0 <= k < |open| ==> allocation[open[k]] == targets[k]
    ensures Shared(weights, clamped, remaining, allocation)
  {
    hide Floor, Dropped, Sum, Pool, OpenUpTo, Pick;
    var open := OpenUpTo(clamped, |clamped|);
    var pool := Pool(weights, clamped);
    var picked := Pick(weights, open);
    NothingForNoWeight(remaining, pool);
    forall i | 0 <= i < |clamped| && !clamped[i]
      ensures allocation[i] >= Floor(remaining, weights[i], pool) && (weights[i] == 0 ==> allocation[i] == 0)
    {
      var k :| 0 <= k < |open| && open[k] == i;
      assert picked[k] == weights[i];
    }
    forall i, j | 0 <= i < |clamped| && 0 <= j < |clamped| && !clamped[i] && !clamped[j] && Outranks(weights, i, j)
      ensures allocation[i] >= allocation[j]
    {
      var k :| 0 <= k < |open| && open[k] == i;
      var l :| 0 <= l < |open| && open[l] == j;
      assert picked[k] == weights[i] && picked[l] == weights[j];
      assert i < j ==> k < l;
      SplitIsMonotone(remaining, picked, pool, targets, k, l);
    }
  }

  /** The round that commits, by index. */
  lemma {:induction false} SplitIsFair(weights: seq<u64>, clamped: seq<bool>, remaining: nat, allocation: seq<nat>,
                                       targets: seq<nat>)
    requires |clamped| == |allocation| <= |weights| && Pool(weights, clamped) > 0
    requires var open := OpenUpTo(clamped, |clamped|);
             IsSplit(remaining, Pick(weights, open), Pool(weights, clamped), targets) &&
             forall k :: 0 <= k < |open| ==> allocation[open[k]] == targets[k]
    ensures forall i :: 0 <= i < |clamped| && !clamped[i] ==>
              Rounded(remaining, weights[i], Pool(weights, clamped), allocation[i])
    ensures forall i, j :: 0 <= i < |clamped| && 0 <= j < |clamped| && !clamped[i] && !clamped[j] ==>
              FairlyRounded(remaining, Pool(weights, clamped), weights[i], i, allocation[i], weights[j], j, allocation[j])
  {
    hide Floor, Dropped, Sum, Pool, OpenUpTo, Pick;
    var open := OpenUpTo(clamped, |clamped|);
    var pool, picked := Pool(weights, clamped), Pick(weights, open);
    forall i | 0 <= i < |clamped| && !clamped[i] ensures Rounded(remaining, weights[i], pool, allocation[i]) {
      var k :| 0 <= k < |open| && open[k] == i;
      assert picked[k] == weights[i];
    }
    forall i, j | 0 <= i < |clamped| && 0 <= j < |clamped| && !clamped[i] && !clamped[j]
      ensures FairlyRounded(remaining, pool, weights[i], i, allocation[i], weights[j], j, allocation[j])
    {
      var k :| 0 <= k < |open| && open[k] == i;
      var l :| 0 <= l < |open| && open[l] == j;
      assert picked[k] == weights[i] && picked[l] == weights[j];
      assert i < j ==> k < l;
    }
  }

  lemma {:induction false} NothingForNoWeight(total: nat, pool: nat)
    requires pool > 0
    ensures Floor(total, 0, pool) == 0 && Dropped(total, 0, pool) == 0
  {
    assert total * 0 == 0;
  }

  /** `q` is a proportional share of the whole; the same entry's share of the rest is no smaller. */
  lemma {:induction false} ShareSurvives(total: nat, weight: nat, fullPool: nat, remaining: nat, pool: nat)
    requires fullPool > 0 && pool > 0 && total * pool <= remaining * fullPool
    ensures Floor(total, weight, fullPool) <= Floor(remaining, weight, pool)
  {
    var q := Floor(total, weight, fullPool);
    FloorDropped(total, weight, fullPool);
    RatioCarries(q, weight, fullPool, total, pool, remaining);
    DivMonotone(q * pool, remaining * weight, pool);
    DivExact(q, pool);
  }

  lemma {:induction false} DivExact(q: nat, p: nat)
    requires p > 0
    ensures q * p / p == q
  {
    var d := q * p / p;
    assert d * p <= q * p < d * p + p;
    assert (d + 1) * p == d * p + p;
    Cancel(d, q, p);
    if d < q {
      MulMonotone(d + 1, q, p);
    }
  }

  lemma {:induction false} SumZero(s: seq<nat>)
    requires forall i :: 0 <= i < |s| ==> s[i] == 0
    ensures Sum(s) == 0
  {
    if s != [] {
      SumZero(s[..|s| - 1]);
    }
  }

  lemma {:induction false} PoolBounds(weights: seq<u64>, clamped: seq<bool>, i: nat)
    requires |clamped| <= |weights| && i < |clamped|
    ensures !clamped[i] ==> weights[i] <= Pool(weights, clamped)
    ensures weights[i] <= FullPool(weights, |clamped|)
  {
    PoolWithout(weights, NoneClamped(|clamped|), i);
    if !clamped[i] {
      PoolWithout(weights, clamped, i);
    }
  }

  /** The round in which nothing overshoots ends the split well. */
  lemma {:induction false} CommittedIsSound(weights: seq<u64>, supply: seq<u64>, total: nat, before: seq<nat>,
                                            clamped: seq<bool>, remaining: nat, allocation: seq<nat>)
    requires Between(weights, supply, total, before, clamped, remaining) && Pool(weights, clamped) > 0
    requires |allocation| == |clamped| && Shared(weights, clamped, remaining, allocation)
    requires forall i :: 0 <= i < |clamped| && clamped[i] ==> allocation[i] == before[i]
    requires forall i :: 0 <= i < |clamped| && !clamped[i] ==> allocation[i] <= supply[i]
    requires Sum(allocation) == total
    ensures IsExact(weights, supply, total, allocation)
    ensures NeverRobs(weights, supply, total, allocation)
    ensures FollowsRank(weights, supply, allocation)
  {
    hide Sum, Pool, Floor;
    SumMonotone(allocation, ClaimedSupply(weights, supply, |allocation|));
    var pool, full := Pool(weights, clamped), FullPool(weights, |clamped|);
    forall i | full > 0 && 0 <= i < |allocation|
      ensures allocation[i] >= Min(supply[i], Floor(total, weights[i], full))
    {
      ShareSurvives(total, weights[i], full, remaining, pool);
    }
    forall i, j | 0 <= i < |allocation| && 0 <= j < |allocation| && Outranks(weights, i, j)
      ensures allocation[i] >= Min(supply[i], allocation[j])
    {
      if !clamped[i] && clamped[j] {
        MulMonotone(weights[j], weights[i], remaining);
        ClampedWithin(supply[j], remaining, weights[i], pool);
      }
    }
  }

  lemma {:induction false} ClampedWithin(held: nat, remaining: nat, weight: nat, pool: nat)
    requires pool > 0 && held * pool <= remaining * weight
    ensures held <= Floor(remaining, weight, pool)
  {
    DivMonotone(held * pool, remaining * weight, pool);
    DivExact(held, pool);
  }

  /** Nothing left to divide, or no weight left to divide by, also ends it well. */
  lemma {:induction false} ExhaustedIsSound(weights: seq<u64>, supply: seq<u64>, total: nat, allocation: seq<nat>,
                                            clamped: seq<bool>, remaining: nat)
    requires Between(weights, supply, total, allocation, clamped, remaining)
    requires remaining == 0 || Pool(weights, clamped) == 0
    ensures IsExact(weights, supply, total, allocation)
    ensures NeverRobs(weights, supply, total, allocation)
    ensures FollowsRank(weights, supply, allocation)
  {
    hide Pool, Floor;
    var claimed := ClaimedSupply(weights, supply, |allocation|);
    forall i | 0 <= i < |clamped|
      ensures !clamped[i] && total > 0 ==> weights[i] == 0
      ensures total == 0 ==> allocation[i] == 0 && Floor(0, weights[i], 1) == 0
    {
      PoolBounds(weights, clamped, i);
      if total == 0 {
        AtMostSum(allocation, i);
        NothingOfNothing(weights[i], 1);
      }
    }
    if total > 0 {
      assert allocation == claimed;
      forall i | FullPool(weights, |clamped|) > 0 && 0 <= i < |allocation|
        ensures allocation[i] >= Min(supply[i], Floor(total, weights[i], FullPool(weights, |clamped|)))
      {
        if !clamped[i] {
          NothingForNoWeight(total, FullPool(weights, |clamped|));
        }
      }
    } else {
      forall i | FullPool(weights, |clamped|) > 0 && 0 <= i < |allocation|
        ensures Floor(total, weights[i], FullPool(weights, |clamped|)) == 0
      {
        NothingOfNothing(weights[i], FullPool(weights, |clamped|));
      }
    }
  }

  lemma {:induction false} NothingOfNothing(weight: nat, pool: nat)
    requires pool > 0
    ensures Floor(0, weight, pool) == 0
  {
    assert 0 * weight == 0;
  }

  lemma {:induction false} AtMostSum(s: seq<nat>, i: nat)
    requires i < |s|
    ensures s[i] <= Sum(s)
  {
    SumUpdate(s, i, 0);
  }

  lemma {:induction false} OpenPool(weights: seq<u64>, clamped: seq<bool>)
    requires |clamped| <= |weights|
    ensures Sum(Pick(weights, OpenUpTo(clamped, |clamped|))) == Pool(weights, clamped)
  {
    PickedPool(weights, clamped, |clamped|);
    assert Masked(weights, clamped)[..|clamped|] == Masked(weights, clamped);
  }

  /** Every entry gets its quota of the whole total, rounded one way or the other. */
  ghost predicate AllRounded(weights: seq<u64>, total: nat, allocation: seq<nat>)
    requires |allocation| <= |weights|
  {
    var pool := FullPool(weights, |allocation|);
    pool > 0 ==> forall i :: 0 <= i < |allocation| ==> Rounded(total, weights[i], pool, allocation[i])
  }

  /** No supply is short of the whole total. */
  ghost predicate Ample(supply: seq<u64>, total: nat, count: nat)
    requires count <= |supply|
  {
    forall i :: 0 <= i < count ==> supply[i] >= total
  }

  lemma {:induction false} SplitIsRounded(weights: seq<u64>, clamped: seq<bool>, remaining: nat, open: seq<nat>,
                                          targets: seq<nat>, allocation: seq<nat>)
    requires |allocation| == |clamped| <= |weights| && clamped == NoneClamped(|clamped|) && Pool(weights, clamped) > 0
    requires open == OpenUpTo(clamped, |clamped|) && IsSplit(remaining, Pick(weights, open), Pool(weights, clamped), targets)
    requires forall k :: 0 <= k < |open| ==> allocation[open[k]] == targets[k]
    ensures AllRounded(weights, remaining, allocation)
  {
    hide Floor, Dropped, Pool, Sum, Pick;
    forall i | 0 <= i < |allocation| ensures Rounded(remaining, weights[i], Pool(weights, clamped), allocation[i]) {
      assert i in open;
      var k :| 0 <= k < |open| && open[k] == i;
      assert Pick(weights, open)[k] == weights[i];
    }
  }

  lemma {:induction false} NothingIsRounded(weights: seq<u64>, allocation: seq<nat>)
    requires |allocation| <= |weights| && forall i :: 0 <= i < |allocation| ==> allocation[i] == 0
    ensures AllRounded(weights, 0, allocation)
  {
    forall i | FullPool(weights, |allocation|) > 0 && 0 <= i < |allocation|
      ensures Floor(0, weights[i], FullPool(weights, |allocation|)) == 0
    {
      NothingForNoWeight(weights[i], FullPool(weights, |allocation|));
      assert 0 * weights[i] == 0;
    }
  }

  lemma {:induction false} NoPoolIsRounded(weights: seq<u64>, total: nat, allocation: seq<nat>)
    requires |allocation| <= |weights| && FullPool(weights, |allocation|) == 0
    ensures AllRounded(weights, total, allocation)
  {
  }

  lemma {:induction false} CommittedIsDivided(weights: seq<u64>, supply: seq<u64>, total: nat, open: seq<nat>,
                                              targets: seq<nat>, allocationIn: seq<nat>, clamped: seq<bool>, remaining: nat,
                                              allocation: seq<nat>)
    requires Between(weights, supply, total, allocationIn, clamped, remaining) && Pool(weights, clamped) > 0 && remaining > 0
    requires open == OpenUpTo(clamped, |clamped|) && IsSplit(remaining, Pick(weights, open), Pool(weights, clamped), targets)
    requires |allocation| == |allocationIn| && Sum(allocation) == Sum(allocationIn) + Sum(targets)
    requires forall k :: 0 <= k < |open| ==> allocation[open[k]] == targets[k]
    requires forall i :: 0 <= i < |allocation| && i !in open ==> allocation[i] == allocationIn[i]
    ensures Redistributed(weights, supply, total, allocation)
  {
    hide Floor, Dropped, Sum, Pool, Pick, Rounded, FairlyRounded, FullPool;
    assert HeldBy(supply, clamped) == allocationIn;
    SplitIsFair(weights, clamped, remaining, allocation, targets);
    assert DividedBy(weights, supply, total, allocation, clamped, remaining);
  }

  lemma {:induction false} ExhaustedIsDivided(weights: seq<u64>, supply: seq<u64>, total: nat, allocation: seq<nat>,
                                              clamped: seq<bool>, remaining: nat)
    requires Between(weights, supply, total, allocation, clamped, remaining)
    requires remaining == 0 || Pool(weights, clamped) == 0
    ensures Redistributed(weights, supply, total, allocation)
  {
    hide Sum, Pool, FullPool;
    assert HeldBy(supply, clamped) == allocation;
    assert DividedBy(weights, supply, total, allocation, clamped, remaining);
  }

  /** The last round: no target overshoots, and all that is still open is settled. */
  method CommitRound(weights: seq<u64>, supply: seq<u64>, ghost total: nat, open: seq<nat>, targets: seq<nat>,
                     allocationIn: seq<nat>, ghost clamped: seq<bool>, ghost remaining: nat)
    returns (allocation: seq<nat>)
    requires Between(weights, supply, total, allocationIn, clamped, remaining) && Pool(weights, clamped) > 0 && remaining > 0
    requires open == OpenUpTo(clamped, |clamped|) && IsSplit(remaining, Pick(weights, open), Pool(weights, clamped), targets)
    requires forall k :: 0 <= k < |open| ==> targets[k] <= supply[open[k]]
    ensures |allocation| == |allocationIn|
    ensures IsExact(weights, supply, total, allocation)
    ensures NeverRobs(weights, supply, total, allocation)
    ensures FollowsRank(weights, supply, allocation) && Redistributed(weights, supply, total, allocation)
    ensures clamped == NoneClamped(|clamped|) && |clamped| <= |weights| ==> AllRounded(weights, remaining, allocation)
  {
    hide Sum, Pool, FullPool, Floor, Dropped, IsExact, NeverRobs, FollowsRank, Outranks, Shared, OpenUpTo, Pick, AllRounded,
         Redistributed;
    allocation := Commit(open, targets, allocationIn);
    CommittedIsDivided(weights, supply, total, open, targets, allocationIn, clamped, remaining, allocation);
    if clamped == NoneClamped(|clamped|) {
      SplitIsRounded(weights, clamped, remaining, open, targets, allocation);
    }
    SplitIsShared(weights, clamped, remaining, allocation, targets);
    CommittedIsSound(weights, supply, total, allocationIn, clamped, remaining, allocation);
  }

  /** Rounds of largest remainders over the entries still open; an entry that gets more than it can take keeps its supply
      and leaves the rest to the next round. Where every supply covers the whole total, the first round is the last. */
  method Allocate(weights: seq<u64>, supply: seq<u64>, total: u64) returns (allocation: seq<nat>)
    ensures |allocation| == Min(|weights|, |supply|)
    ensures IsExact(weights, supply, total, allocation)
    ensures NeverRobs(weights, supply, total, allocation)
    ensures FollowsRank(weights, supply, allocation)
    ensures Redistributed(weights, supply, total, allocation)
    ensures Ample(supply, total, |allocation|) ==> AllRounded(weights, total, allocation)
  {
    hide Sum, Pick, Pool, FullPool, Floor, ClampedCount, IsExact, NeverRobs, FollowsRank, IsSplit, Short, Between, Overshoots,
         Overshot, AllRounded, Ample, Redistributed;
    var count := Min(|weights|, |supply|);
    allocation := seq(count, _ => 0);
    var clamped := NoneClamped(count);
    var remaining: nat := total;
    StartsBetween(weights, supply, total, allocation, clamped);
    ghost var settled := false;
    var round := 0;
    while round <= count
      invariant 0 <= round <= count + 1 && !settled && |clamped| == |allocation| == count
      invariant Between(weights, supply, total, allocation, clamped, remaining)
      invariant ClampedCount(clamped) >= round
      invariant Ample(supply, total, count) ==>
                  remaining == total && clamped == NoneClamped(count) && forall i :: 0 <= i < count ==> allocation[i] == 0
    {
      if remaining == 0 {
        if Ample(supply, total, count) {
          NothingIsRounded(weights, allocation);
        }
        ExhaustedIsSound(weights, supply, total, allocation, clamped, remaining);
        ExhaustedIsDivided(weights, supply, total, allocation, clamped, remaining);
        settled := true;
        break;
      }
      var open := OpenUpTo(clamped, count);
      var pool := Sum(Pick(weights, open));
      OpenPool(weights, clamped);
      if |open| == 0 || pool == 0 {
        NothingOpen(weights, clamped);
        if Ample(supply, total, count) {
          NoPoolLeft(weights, clamped, total, allocation);
        }
        ExhaustedIsSound(weights, supply, total, allocation, clamped, remaining);
        ExhaustedIsDivided(weights, supply, total, allocation, clamped, remaining);
        settled := true;
        break;
      }
      var targets := LargestRemainder(remaining, open, weights, pool);
      SplitFits(remaining, Pick(weights, open), pool, targets);
      var overshot := Overshot(open, targets, supply, |open|);
      OvershotMeaning(open, targets, supply);
      OvershotAscends(open, targets, supply, |open|);
      if overshot == [] {
        allocation := CommitRound(weights, supply, total, open, targets, allocation, clamped, remaining);
        settled := true;
        break;
      }
      OvershootsAreShort(weights, supply, remaining, pool, open, targets, overshot);
      SomeSupplyIsShort(open, targets, supply, remaining, count, overshot[0]);
      allocation, clamped, remaining := ClampAll(weights, supply, total, overshot, allocation, clamped, remaining);
      round := round + 1;
    }
    assert settled;
  }

  lemma {:induction false} NoPoolLeft(weights: seq<u64>, clamped: seq<bool>, total: nat, allocation: seq<nat>)
    requires |allocation| == |clamped| <= |weights| && clamped == NoneClamped(|clamped|) && Pool(weights, clamped) == 0
    ensures AllRounded(weights, total, allocation)
  {
    NoPoolIsRounded(weights, total, allocation);
  }

  /** Whatever overshoots is held in a supply smaller than what is divided. */
  lemma {:induction false} SomeSupplyIsShort(open: seq<nat>, targets: seq<nat>, supply: seq<u64>, remaining: nat,
                                             count: nat, x: nat)
    requires |open| == |targets| && count <= |supply|
    requires forall k :: 0 <= k < |open| ==> open[k] < count && targets[k] <= remaining
    requires Overshoots(open, targets, supply, |open|, x)
    ensures !Ample(supply, remaining, count)
  {
    var k :| 0 <= k < |open| && x == open[k] && targets[k] > supply[open[k]];
  }

  lemma {:induction false} StartsBetween(weights: seq<u64>, supply: seq<u64>, total: nat, allocation: seq<nat>,
                                         clamped: seq<bool>)
    requires |allocation| == |clamped| == Min(|weights|, |supply|) && clamped == NoneClamped(|clamped|)
    requires forall i :: 0 <= i < |allocation| ==> allocation[i] == 0
    ensures Between(weights, supply, total, allocation, clamped, total)
  {
    SumZero(allocation);
  }

  lemma {:induction false} NothingOpen(weights: seq<u64>, clamped: seq<bool>)
    requires |clamped| <= |weights|
    ensures OpenUpTo(clamped, |clamped|) == [] ==> Pool(weights, clamped) == 0
  {
    if OpenUpTo(clamped, |clamped|) == [] {
      SumZero(Masked(weights, clamped));
    }
  }

  lemma {:induction false} SplitFits(total: nat, weights: seq<nat>, pool: nat, targets: seq<nat>)
    requires pool > 0 && IsSplit(total, weights, pool, targets)
    ensures |targets| == |weights| && Sum(targets) == total
    ensures forall k :: 0 <= k < |targets| ==> targets[k] <= total
  {
    forall k | 0 <= k < |targets| ensures targets[k] <= total {
      AtMostSum(targets, k);
    }
  }

  lemma {:induction false} OvershootsAreShort(weights: seq<u64>, supply: seq<u64>, remaining: nat, pool: nat, open: seq<nat>,
                                              targets: seq<nat>, overshot: seq<nat>)
    requires pool > 0 && |open| == |targets|
    requires forall k :: 0 <= k < |open| ==> open[k] < |weights| && open[k] < |supply|
    requires IsSplit(remaining, Pick(weights, open), pool, targets)
    requires forall m :: 0 <= m < |overshot| ==> Overshoots(open, targets, supply, |open|, overshot[m])
    ensures forall m :: 0 <= m < |overshot| ==>
              overshot[m] in open && overshot[m] < |weights| && overshot[m] < |supply| &&
              Short(weights, supply, remaining, pool, overshot[m])
  {
    forall m | 0 <= m < |overshot|
      ensures overshot[m] in open && overshot[m] < |weights| && overshot[m] < |supply| &&
              Short(weights, supply, remaining, pool, overshot[m])
    {
      assert Overshoots(open, targets, supply, |open|, overshot[m]);
      var k :| 0 <= k < |open| && overshot[m] == open[k] && targets[k] > supply[open[k]];
      OvershootIsShort(remaining, Pick(weights, open), pool, targets, k, supply[open[k]]);
    }
  }

  /** The same split without supplies: with any weight at all the whole total is handed out,
      everyone gets the exact quota rounded down or up, and rank order holds outright. */
  method Proportional(weights: seq<u64>, total: u64) returns (shares: seq<nat>)
    ensures |shares| == |weights|
    ensures Sum(shares) == if FullPool(weights, |weights|) > 0 then total else 0
    ensures FullPool(weights, |weights|) > 0 ==>
              forall i :: 0 <= i < |shares| ==> shares[i] >= Floor(total, weights[i], FullPool(weights, |weights|))
    ensures AllRounded(weights, total, shares)
    ensures forall i, j :: 0 <= i < |shares| && 0 <= j < |shares| && Outranks(weights, i, j) ==> shares[i] >= shares[j]
  {
    hide Sum, FullPool, Floor;
    var supply: seq<u64> := seq(|weights|, _ => U64_MAX);
    shares := Allocate(weights, supply, total);
    ClaimsAbsorb(weights, supply, total);
    forall i | 0 <= i < |shares| ensures shares[i] <= U64_MAX {
      AtMostSum(shares, i);
    }
    forall i | FullPool(weights, |weights|) > 0 && 0 <= i < |shares|
      ensures Floor(total, weights[i], FullPool(weights, |weights|)) <= total
    {
      PoolBounds(weights, NoneClamped(|weights|), i);
      QuotaWithin(total, weights[i], FullPool(weights, |weights|));
    }
  }

  lemma {:induction false} QuotaWithin(total: nat, weight: nat, pool: nat)
    requires pool > 0 && weight <= pool
    ensures Floor(total, weight, pool) <= total
  {
    MulMonotone(weight, pool, total);
    DivMonotone(total * weight, total * pool, pool);
    DivExact(total, pool);
  }

  lemma {:induction false} ClaimsAbsorb(weights: seq<u64>, supply: seq<u64>, total: u64)
    requires |supply| == |weights| && forall i :: 0 <= i < |supply| ==> supply[i] == U64_MAX
    ensures Min(total, Sum(ClaimedSupply(weights, supply, |weights|))) ==
            if FullPool(weights, |weights|) > 0 then total else 0
  {
    var claimed := ClaimedSupply(weights, supply, |weights|);
    var masked := Masked(weights, NoneClamped(|weights|));
    if i :| 0 <= i < |weights| && weights[i] > 0 {
      AtMostSum(claimed, i);
      AtMostSum(masked, i);
    } else {
      SumZero(claimed);
      SumZero(masked);
    }
  }
}

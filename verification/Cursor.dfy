/** The follower's cursor against the consumer it feeds: what must hold between any two node calls. */
module Cursor {
  import opened Basics
  import opened Chain
  import opened Backfill

  const MIN_REORG_WINDOW_BLOCKS := 2

  /** The rollback the program promises to be able to prove exactly. */
  ghost function Horizon(reorgWindow: u64): u64 {
    Max(reorgWindow, 2)
  }

  /** Height `n` is no further below `top` than the rollback that has to stay provable. With the largest window the count of
      retained heights saturates, one short of it. */
  ghost predicate Provable(n: u64, top: u64, reorgWindow: u64) {
    n + Min(Max(reorgWindow, 2), U64_MAX - 1) >= top
  }

  // ----- the anchors -----

  /** Later entries at one height win. */
  function Seeded(anchors: map<u64, Hash>, more: seq<Anchor>): map<u64, Hash> {
    if more == [] then anchors
    else Seeded(anchors, more[..|more| - 1])[more[|more| - 1].number := more[|more| - 1].hash]
  }

  function RetainFrom(latest: u64, reorgWindow: u64): u64 {
    SatSub(latest, SatSub(SatSucc(Max(reorgWindow, MIN_REORG_WINDOW_BLOCKS)), 1))
  }

  function Pruned(anchors: map<u64, Hash>, latest: u64, reorgWindow: u64): map<u64, Hash> {
    map n | n in anchors && n >= RetainFrom(latest, reorgWindow) :: anchors[n]
  }

  /** Pruning keeps exactly what has to stay provable. */
  lemma {:induction false} PrunedIsProvable(anchors: map<u64, Hash>, latest: u64, reorgWindow: u64)
    ensures forall n: u64 :: n in Pruned(anchors, latest, reorgWindow) <==> n in anchors && Provable(n, latest, reorgWindow)
    ensures forall n: u64 :: n in Pruned(anchors, latest, reorgWindow) ==> Pruned(anchors, latest, reorgWindow)[n] == anchors[n]
  {
  }

  /** Of the anchors at one height the last one counts. */
  lemma {:induction false} LastAnchorCounts(m: map<u64, Hash>, more: seq<Anchor>, i: nat)
    requires i < |more| && forall j :: i < j < |more| ==> more[j].number != more[i].number
    ensures more[i].number in Seeded(m, more) && Seeded(m, more)[more[i].number] == more[i].hash
  {
    var last := |more| - 1;
    if i < last {
      assert more[last].number != more[i].number;
      LastAnchorCounts(m, more[..last], i);
    }
  }

  lemma {:induction false} OtherAnchorsStay(m: map<u64, Hash>, more: seq<Anchor>, n: u64)
    requires forall i :: 0 <= i < |more| ==> more[i].number != n
    ensures n in Seeded(m, more) <==> n in m
    ensures n in m ==> Seeded(m, more)[n] == m[n]
  {
    if more != [] {
      OtherAnchorsStay(m, more[..|more| - 1], n);
    }
  }

  function Below(anchors: map<u64, Hash>, height: u64): map<u64, Hash> {
    map n | n in anchors && n < height :: anchors[n]
  }

  /** An interval of heights ending at `top`, or nothing. */
  ghost predicate Contiguous(anchors: map<u64, Hash>, top: u64) {
    (forall n :: n in anchors ==> n <= top) &&
    (forall n: u64, m: u64 :: n in anchors && n <= m <= top ==> m in anchors)
  }

  /** Anchors and held blocks agree, down to the parent of the lowest held block. */
  ghost predicate Agree(anchors: map<u64, Hash>, chain: seq<Held>) {
    (forall i :: 0 <= i < |chain| && chain[i].number in anchors ==> anchors[chain[i].number] == chain[i].block.hash) &&
    ((chain != [] && chain[0].number > 0 && chain[0].number - 1 in anchors) ==>
       anchors[chain[0].number - 1] == chain[0].block.parentHash)
  }

  /** A consumer that a rollback left with nothing waits for exactly the block the cursor will ask for next, on the
      hash the cursor has anchored. */
  ghost predicate WaitsFor(lastTip: Option<u64>, anchors: map<u64, Hash>, c: Consumer) {
    c.awaiting.Some? ==>
      c.chain == [] && c.awaiting.value.Onward? && lastTip.Some? && c.awaiting.value.number == lastTip.value + 1 &&
      (c.awaiting.value.parent.Some? ==> lastTip.value in anchors && anchors[lastTip.value] == c.awaiting.value.parent.value)
  }

  /** The invariant of the follower. */
  ghost predicate Coherent(lastTip: Option<u64>, anchors: map<u64, Hash>, attempts: nat, c: Consumer) {
    WaitsFor(lastTip, anchors, c) && Linked(c.chain) &&
    (attempts > 0 ==> lastTip.None?) &&
    (lastTip.None? ==> anchors == map[] && c.chain == []) &&
    (lastTip.Some? ==> Contiguous(anchors, lastTip.value)) &&
    (c.chain != [] ==>
       lastTip == Some(Top(c.chain).number) && Top(c.chain).number in anchors && Agree(anchors, c.chain) &&
       (|c.chain| > 1 && Top(c.chain).number == U64_MAX ==> U64_MAX - 1 in anchors))
  }

  /** Nothing the cursor can roll back to lies deeper than the horizon below the highest block announced or
      restored. */
  ghost predicate Shallow(lastTip: Option<u64>, anchors: map<u64, Hash>, highest: Option<u64>, reorgWindow: u64) {
    highest.Some? ==>
      lastTip.Some? && lastTip.value + Max(reorgWindow, 2) >= highest.value &&
      forall n :: n in anchors ==> n + Max(reorgWindow, 2) >= highest.value
  }

  /** Every held block within the horizon of the highest announcement is anchored, so a rollback to it can be
      proven. */
  ghost predicate Retained(anchors: map<u64, Hash>, chain: seq<Held>, highest: Option<u64>, reorgWindow: u64) {
    chain != [] ==>
      highest.Some? && Top(chain).number <= highest.value &&
      forall i :: 0 <= i < |chain| && Provable(chain[i].number, highest.value, reorgWindow) ==> chain[i].number in anchors
  }

  lemma {:induction false} EmittingRetains(
      anchors: map<u64, Hash>, chain: seq<Held>, highest: Option<u64>, number: u64, block: FetchedBlock, reorgWindow: u64)
    requires Retained(anchors, chain, highest, reorgWindow)
    ensures Retained(Pruned(anchors[number := block.hash], number, reorgWindow), chain + [Held(number, block)],
                     Some(Raised(highest, number)), reorgWindow)
  {
    var longer := chain + [Held(number, block)];
    assert Top(longer) == Held(number, block);
    forall i | 0 <= i < |chain| ensures longer[i] == chain[i] {
    }
  }

  lemma {:induction false} PruningRetains(
      anchors: map<u64, Hash>, chain: seq<Held>, highest: Option<u64>, top: u64, reorgWindow: u64)
    requires Retained(anchors, chain, highest, reorgWindow) && (chain != [] ==> Top(chain).number == top)
    ensures Retained(Pruned(anchors, top, reorgWindow), chain, highest, reorgWindow)
  {
  }

  lemma {:induction false} LearningRetains(
      anchors: map<u64, Hash>, chain: seq<Held>, highest: Option<u64>, number: u64, hash: Hash, reorgWindow: u64)
    ensures Retained(anchors, chain, highest, reorgWindow) ==> Retained(anchors[number := hash], chain, highest, reorgWindow)
  {
  }

  lemma {:induction false} RollbackRetains(
      anchors: map<u64, Hash>, chain: seq<Held>, highest: Option<u64>, from: u64, reorgWindow: u64)
    requires Linked(chain) && Retained(anchors, chain, highest, reorgWindow)
    ensures Retained(Below(anchors, from), Truncate(chain, from), highest, reorgWindow)
  {
    var kept := Truncate(chain, from);
    TruncateIsExact(chain, from);
    PrefixByHeight(chain, from);
    HeightsFromTop(chain);
    forall i | 0 <= i < |kept| ensures kept[i] == chain[i] && kept[i].number < from {
      assert kept[i] in kept;
    }
  }

  lemma {:induction false} WindowRetains(descending: seq<Held>, tip: u64, highest: u64, reorgWindow: u64)
    requires descending != [] && DescendsFrom(descending, tip) && tip <= highest
    ensures var anchors, chain := Seeded(map[], WindowAnchors(descending)), Ascending(descending);
            Retained(anchors, chain, Some(highest), reorgWindow) &&
            Retained(Pruned(anchors, tip, reorgWindow), chain, Some(highest), reorgWindow)
  {
    var chain := Ascending(descending);
    AscendingIsLinked(descending, tip);
    SeededParent(chain[0]);
    SeededTwice(map[], ParentAnchor(chain[0]), HeldAnchors(chain));
    SeededHeld(Seeded(map[], ParentAnchor(chain[0])), chain);
    PruningRetains(Seeded(map[], WindowAnchors(descending)), chain, Some(highest), tip, reorgWindow);
  }

  // ----- how each move keeps it -----

  lemma {:induction false} AppendKeepsCoherent(
      top: u64, anchors: map<u64, Hash>, attempts: nat, c: Consumer, number: u64, block: FetchedBlock)
    requires Coherent(Some(top), anchors, attempts, c)
    requires number == top + 1 && top in anchors && anchors[top] == block.parentHash
    ensures Accepts(c, BlockMined(number, block.hash, block.parentHash))
    ensures Coherent(Some(number), anchors[number := block.hash], attempts,
                     Consumer(c.chain + [Held(number, block)], None))
  {
    hide Agree, Contiguous, Linked, Accepts, WaitsFor;
    NextIsAccepted(top, anchors, attempts, c, number, block);
    WaitsNoMore(number, anchors[number := block.hash], Consumer(c.chain + [Held(number, block)], None));
    OneHigher(anchors, top, block.hash);
    LinkedOneMore(c.chain, Held(number, block));
    if c.chain != [] {
      AppendAgrees(top, anchors, c.chain, number, block);
    } else {
      assert c.chain + [Held(number, block)] == [Held(number, block)];
      FirstAgrees(anchors, number, block);
    }
  }

  lemma {:induction false} NextIsAccepted(
      top: u64, anchors: map<u64, Hash>, attempts: nat, c: Consumer, number: u64, block: FetchedBlock)
    requires Coherent(Some(top), anchors, attempts, c)
    requires number == top + 1 && top in anchors && anchors[top] == block.parentHash
    ensures Accepts(c, BlockMined(number, block.hash, block.parentHash))
  {
    hide Linked, Contiguous;
    if c.chain != [] {
      assert c.chain[|c.chain| - 1] == Top(c.chain);
    }
  }

  lemma {:induction false} WaitsNoMore(top: u64, anchors: map<u64, Hash>, c: Consumer)
    requires c.awaiting.None?
    ensures WaitsFor(Some(top), anchors, c)
  {
  }

  lemma {:induction false} OneHigher(anchors: map<u64, Hash>, top: u64, hash: Hash)
    requires Contiguous(anchors, top) && top in anchors && top < U64_MAX
    ensures Contiguous(anchors[top + 1 := hash], top + 1) && top + 1 !in anchors
  {
  }

  lemma {:induction false} AppendAgrees(top: u64, anchors: map<u64, Hash>, chain: seq<Held>, number: u64, block: FetchedBlock)
    requires chain != [] && Linked(chain) && Top(chain).number == top && number == top + 1 && Agree(anchors, chain)
    ensures top in anchors ==> anchors[top] == Top(chain).block.hash
    ensures Agree(anchors[number := block.hash], chain + [Held(number, block)])
  {
    HeightsFromTop(chain);
    var longer := chain + [Held(number, block)];
    assert longer[0] == chain[0];
    forall i | 0 <= i < |chain| ensures longer[i] == chain[i] && longer[i].number < number {
    }
  }

  lemma {:induction false} FirstAgrees(anchors: map<u64, Hash>, number: u64, block: FetchedBlock)
    requires number > 0 && number - 1 in anchors && anchors[number - 1] == block.parentHash
    ensures Agree(anchors[number := block.hash], [Held(number, block)])
  {
  }

  lemma {:induction false} PruneKeepsCoherent(top: u64, anchors: map<u64, Hash>, attempts: nat, c: Consumer, reorgWindow: u64)
    requires Coherent(Some(top), anchors, attempts, c)
    ensures Coherent(Some(top), Pruned(anchors, top, reorgWindow), attempts, c)
    ensures Shallow(Some(top), Pruned(anchors, top, reorgWindow), Some(top), reorgWindow)
    ensures forall highest :: Shallow(Some(top), anchors, highest, reorgWindow)
              ==> Shallow(Some(top), Pruned(anchors, top, reorgWindow), highest, reorgWindow)
  {
  }

  /** A missing top anchor can only mean that nothing is anchored or held; learning it keeps the invariant. */
  lemma {:induction false} LearnedTopKeeps(
      top: u64, anchors: map<u64, Hash>, attempts: nat, c: Consumer, hash: Hash, highest: Option<u64>, reorgWindow: u64)
    requires Coherent(Some(top), anchors, attempts, c) && top !in anchors
    ensures Coherent(Some(top), anchors[top := hash], attempts, c)
    ensures Shallow(Some(top), anchors, highest, reorgWindow) ==>
              Shallow(Some(top), anchors[top := hash], highest, reorgWindow)
  {
    if n :| n in anchors {
      assert false;
    }
  }

  /** A block that names the top anchor as its parent can be emitted, recorded and pruned around. */
  lemma {:induction false} EmittingKeeps(
      top: u64, anchors: map<u64, Hash>, attempts: nat, c: Consumer, number: u64, block: FetchedBlock, reorgWindow: u64)
    requires Coherent(Some(top), anchors, attempts, c)
    requires number == top + 1 && top in anchors && anchors[top] == block.parentHash
    ensures Accepts(c, BlockMined(number, block.hash, block.parentHash))
    ensures var after := Pruned(anchors[number := block.hash], number, reorgWindow);
            Coherent(Some(number), after, attempts, Consumer(c.chain + [Held(number, block)], None)) &&
            Shallow(Some(number), after, Some(number), reorgWindow) && number in after
  {
    AppendKeepsCoherent(top, anchors, attempts, c, number, block);
    PruneKeepsCoherent(number, anchors[number := block.hash], attempts,
                       Consumer(c.chain + [Held(number, block)], None), reorgWindow);
  }

  /** Announcing the next block raises the highest by at most what pruning cuts off. */
  lemma {:induction false} EmittingStaysShallow(
      top: u64, anchors: map<u64, Hash>, highest: Option<u64>, number: u64, hash: Hash, reorgWindow: u64)
    requires number == top + 1 && Shallow(Some(top), anchors, highest, reorgWindow)
    ensures Shallow(Some(number), Pruned(anchors[number := hash], number, reorgWindow), Some(Raised(highest, number)), reorgWindow)
  {
  }

  lemma {:induction false} PrefixByHeight(chain: seq<Held>, from: u64)
    ensures Truncate(chain, from) <= chain
  {
    if chain != [] && chain[|chain| - 1].number >= from {
      PrefixByHeight(chain[..|chain| - 1], from);
    }
  }

  /** What survives a rollback into a held chain ends right below the boundary. */
  lemma {:induction false} KeptEndsAtBoundary(chain: seq<Held>, from: u64)
    requires Linked(chain)
    ensures var kept := Truncate(chain, from);
            kept <= chain && Linked(kept) &&
            (kept != [] ==> kept[0] == chain[0]) &&
            (kept != [] && kept != chain ==> Top(kept).number + 1 == from) &&
            (kept == chain && chain != [] ==> Top(chain).number < from)
  {
    var kept := Truncate(chain, from);
    TruncateIsExact(chain, from);
    PrefixByHeight(chain, from);
    if kept != [] && kept != chain {
      HeightsFromTop(kept);
      assert kept == chain[..|kept|];
      var next := chain[|kept|];
      assert Top(kept) == chain[|kept| - 1];
      assert next !in kept;
      assert next.number == Top(kept).number + 1;
    }
  }

  /** Rolling back to a retained height: everything above it goes, everything up to it stays. */
  lemma {:induction false} RollbackKeepsCoherent(top: u64, anchors: map<u64, Hash>, c: Consumer, height: u64)
    requires Coherent(Some(top), anchors, 0, c) && height in anchors
    ensures var from := SatSucc(height);
            Accepts(c, ChainReorganized(from)) &&
            Coherent(Some(SatSub(from, 1)), Below(anchors, from), 0, Consume(c, ChainReorganized(from)))
    ensures height < U64_MAX ==> height in Below(anchors, SatSucc(height))
  {
    var from := SatSucc(height);
    KeptEndsAtBoundary(c.chain, from);
    var kept := Truncate(c.chain, from);
    assert Agree(anchors, c.chain) ==> Agree(Below(anchors, from), kept);
  }

  lemma {:induction false} RollbackKeepsShallow(
      top: u64, anchors: map<u64, Hash>, highest: Option<u64>, reorgWindow: u64, height: u64)
    requires Shallow(Some(top), anchors, highest, reorgWindow) && height in anchors
    ensures Depth(highest, SatSucc(height)) <= Horizon(reorgWindow)
    ensures Shallow(Some(SatSub(SatSucc(height), 1)), Below(anchors, SatSucc(height)), highest, reorgWindow)
  {
  }

  /** `m` holds `before` below a chain, and the hash of every block of the chain. */
  ghost predicate Covers(m: map<u64, Hash>, before: map<u64, Hash>, chain: seq<Held>) {
    (forall n :: n in m ==> (n in before && m[n] == before[n]) || (chain != [] && chain[0].number <= n <= Top(chain).number)) &&
    (forall n :: n in before ==> n in m) &&
    forall i :: 0 <= i < |chain| ==> chain[i].number in m && m[chain[i].number] == chain[i].block.hash
  }

  lemma {:induction false} SeededHeld(before: map<u64, Hash>, chain: seq<Held>)
    requires Linked(chain)
    requires chain != [] ==> forall n :: n in before ==> n < chain[0].number
    ensures Covers(Seeded(before, HeldAnchors(chain)), before, chain)
  {
    if chain != [] {
      hide Linked, Covers, Seeded, HeldAnchors;
      var rest := chain[..|chain| - 1];
      LinkedPrefix(chain);
      TopAboveRest(chain);
      SeededOneMore(before, chain);
      SeededHeld(before, rest);
      CoversOneMore(Seeded(before, HeldAnchors(rest)), before, rest, Top(chain));
      assert rest + [Top(chain)] == chain;
    }
  }

  lemma {:induction false} TopAboveRest(chain: seq<Held>)
    requires Linked(chain) && chain != []
    ensures chain[0].number <= Top(chain).number
    ensures |chain| > 1 ==>
              var rest := chain[..|chain| - 1];
              rest[0] == chain[0] && Top(chain).number == Top(rest).number + 1
  {
    HeightsFromTop(chain);
  }

  lemma {:induction false} SeededOneMore(before: map<u64, Hash>, chain: seq<Held>)
    requires chain != []
    ensures Seeded(before, HeldAnchors(chain)) ==
            Seeded(before, HeldAnchors(chain[..|chain| - 1]))[Top(chain).number := Top(chain).block.hash]
  {
    var anchors := HeldAnchors(chain);
    assert anchors[..|anchors| - 1] == HeldAnchors(chain[..|chain| - 1]);
  }

  lemma {:induction false} CoversOneMore(m: map<u64, Hash>, before: map<u64, Hash>, chain: seq<Held>, next: Held)
    requires Covers(m, before, chain) && Linked(chain)
    requires forall n :: n in before ==> n < next.number
    requires chain != [] ==> next.number == Top(chain).number + 1
    ensures Covers(m[next.number := next.block.hash], before, chain + [next])
  {
    HeightsFromTop(chain);
  }

  lemma {:induction false} SeededTwice(m: map<u64, Hash>, first: seq<Anchor>, second: seq<Anchor>)
    ensures Seeded(m, first + second) == Seeded(Seeded(m, first), second)
  {
    if second == [] {
      assert first + second == first;
    } else {
      var rest := second[..|second| - 1];
      SeededTwice(m, first, rest);
      assert (first + second)[..|first + second| - 1] == first + rest;
    }
  }

  lemma {:induction false} SeededParent(lowest: Held)
    ensures Seeded(map[], ParentAnchor(lowest)) ==
            if lowest.number == 0 then map[] else map[lowest.number - 1 := lowest.block.parentHash]
  {
    var parent := ParentAnchor(lowest);
    if lowest.number > 0 {
      assert parent[..|parent| - 1] == [];
      assert Seeded(map[], []) == map[];
    }
  }

  lemma {:induction false} CoverIsCoherent(m: map<u64, Hash>, before: map<u64, Hash>, chain: seq<Held>)
    requires chain != [] && Linked(chain) && Covers(m, before, chain)
    requires before == map[] || (chain[0].number > 0 && before == map[chain[0].number - 1 := chain[0].block.parentHash])
    ensures Coherent(Some(Top(chain).number), m, 0, Consumer(chain, None))
  {
    HeightsFromTop(chain);
    var top := Top(chain).number;
    forall n: u64, k: u64 | n in m && n <= k <= top ensures k in m {
      if k >= chain[0].number {
        assert chain[k - chain[0].number].number == k;
      }
    }
    if |chain| > 1 {
      assert chain[|chain| - 2].number == top - 1;
    }
  }

  /** A proven window, adopted as the cursor, is coherent with the consumer it was replayed into. */
  lemma {:induction false} WindowIsCoherent(descending: seq<Held>, tip: u64)
    requires descending != [] && DescendsFrom(descending, tip)
    ensures Coherent(Some(tip), Seeded(map[], WindowAnchors(descending)), 0, Consumer(Ascending(descending), None))
  {
    var chain := Ascending(descending);
    AscendingIsLinked(descending, tip);
    var before := Seeded(map[], ParentAnchor(chain[0]));
    SeededParent(chain[0]);
    SeededTwice(map[], ParentAnchor(chain[0]), HeldAnchors(chain));
    SeededHeld(before, chain);
    CoverIsCoherent(Seeded(before, HeldAnchors(chain)), before, chain);
  }
}

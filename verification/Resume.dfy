/** What a start owes to what was there before it: saved anchors that reach too deep, boot windows that are too long,
    and a height saved without its hash. `Adapter.Run` says what any run does over any node; here are the nodes. */
module Resume {
  import opened Basics
  import opened Chain
  import opened Node
  import opened Backfill
  import opened Cursor
  import opened Poll
  import opened Adapter

  /** How many recent blocks the server saves. */
  const RECENT_BLOCKS_CAP := 50

  /** How many blocks a consumer can undo in production. */
  const DEFAULT_REORG_WINDOW_BLOCKS: u64 := 48

  // ----- chains and their forks -----

  /** A hash that is not this one. */
  function Unlike(hash: Hash): (r: Hash)
    ensures r != hash
  {
    Digest(hash.id + 1)
  }

  /** Two chains that share their blocks up to height `n` and no hash above it. With `n == -1` they share nothing. */
  ghost predicate Splits(world: seq<FetchedBlock>, fork: seq<FetchedBlock>, n: int) {
    IsWorld(world) && IsWorld(fork) && -1 <= n < |world| <= |fork| &&
    world[..n + 1] == fork[..n + 1] &&
    forall k :: n < k < |world| ==> fork[k].hash != world[k].hash
  }

  /** Every chain can fork anywhere, and grow to any length while it does. */
  lemma {:induction false} ForkExists(world: seq<FetchedBlock>, n: int, length: nat) returns (fork: seq<FetchedBlock>)
    requires IsWorld(world) && -1 <= n < |world| <= length <= U64_MAX + 1
    ensures Splits(world, fork, n) && |fork| == length
  {
    fork := seq(length, k requires 0 <= k < length =>
      if k <= n then world[k]
      else FetchedBlock(ForkHash(world, n, k), if k == 0 then Digest(0) else ForkHash(world, n, k - 1), []));
    forall i | 0 < i < |fork| ensures fork[i].parentHash == fork[i - 1].hash {
      assert i <= n ==> world[i].parentHash == world[i - 1].hash;
    }
  }

  function ForkHash(world: seq<FetchedBlock>, n: int, k: nat): Hash {
    if k >= |world| then Digest(0) else if k <= n then world[k].hash else Unlike(world[k].hash)
  }

  /** What a cursor has anchored and what its consumer holds are of one chain. */
  ghost predicate LiesOn(lastTip: u64, anchors: map<u64, Hash>, chain: seq<Held>, world: seq<FetchedBlock>) {
    IsWorld(world) && lastTip < |world| && AllFrom(chain, world) &&
    forall k :: k in anchors ==> k <= lastTip && anchors[k] == world[k].hash
  }

  /** The hash that a cursor's state fixes at a height, or any hash. */
  function HashAt(anchors: map<u64, Hash>, chain: seq<Held>, k: u64): Hash {
    if k in anchors then anchors[k]
    else if chain == [] then Digest(0)
    else if 0 <= k - chain[0].number < |chain| then chain[k - chain[0].number].block.hash
    else if k + 1 == chain[0].number then chain[0].block.parentHash
    else Digest(0)
  }

  function BlockAt(anchors: map<u64, Hash>, chain: seq<Held>, k: u64): FetchedBlock {
    if chain != [] && 0 <= k - chain[0].number < |chain| then chain[k - chain[0].number].block
    else FetchedBlock(HashAt(anchors, chain, k), if k == 0 then Digest(0) else HashAt(anchors, chain, k - 1), [])
  }

  lemma {:induction false} BlockMeetsHash(lastTip: u64, anchors: map<u64, Hash>, chain: seq<Held>, k: u64)
    requires Coherent(Some(lastTip), anchors, 0, Consumer(chain, None)) && k <= lastTip
    ensures BlockAt(anchors, chain, k).hash == HashAt(anchors, chain, k)
    ensures k > 0 ==> BlockAt(anchors, chain, k).parentHash == HashAt(anchors, chain, k - 1)
  {
    if chain != [] {
      HeightsFromTop(chain);
      var i := k - chain[0].number;
      if 0 <= i < |chain| {
        assert chain[i].number == k;
        if i > 0 {
          assert chain[i - 1].number == k - 1;
        }
      }
    }
  }

  /** Whatever can be restored lies on some chain. */
  lemma {:induction false} ChainExists(lastTip: u64, anchors: map<u64, Hash>, chain: seq<Held>)
    returns (world: seq<FetchedBlock>)
    requires Coherent(Some(lastTip), anchors, 0, Consumer(chain, None))
    ensures LiesOn(lastTip, anchors, chain, world) && |world| == lastTip + 1
  {
    world := seq(lastTip + 1, k requires 0 <= k <= lastTip => BlockAt(anchors, chain, k));
    hide HashAt, BlockAt, Linked, Agree;
    forall k: u64 | k <= lastTip
      ensures world[k].hash == HashAt(anchors, chain, k)
      ensures k > 0 ==> world[k].parentHash == HashAt(anchors, chain, k - 1)
    {
      BlockMeetsHash(lastTip, anchors, chain, k);
    }
    forall i | 0 < i < |world| ensures world[i].parentHash == world[i - 1].hash {
    }
    HeldIsAt(lastTip, anchors, chain);
    AnchoredIsAt(anchors, chain);
  }

  lemma {:induction false} AnchoredIsAt(anchors: map<u64, Hash>, chain: seq<Held>)
    ensures forall k :: k in anchors ==> HashAt(anchors, chain, k) == anchors[k]
  {
  }

  lemma {:induction false} HeldIsAt(lastTip: u64, anchors: map<u64, Hash>, chain: seq<Held>)
    requires Coherent(Some(lastTip), anchors, 0, Consumer(chain, None))
    ensures forall i :: 0 <= i < |chain| ==>
              chain[i].number <= lastTip && BlockAt(anchors, chain, chain[i].number) == chain[i].block
  {
    if chain != [] {
      HeightsFromTop(chain);
    }
  }

  // ----- the nodes that stand on them -----

  /** A node that stands on one chain. */
  function Serving(world: seq<FetchedBlock>): Script
    requires 0 < |world| <= U64_MAX + 1
  {
    Script(
      (t: nat) => Ok(|world| - 1),
      (t: nat, n: u64) => Ok(if n < |world| then Some(world[n].hash) else None),
      (t: nat, n: u64) => Ok(if n < |world| then Some(world[n]) else None))
  }

  /** A node that stands on one chain until call `turn`, and on another from then on. */
  function Reorganizing(world: seq<FetchedBlock>, fork: seq<FetchedBlock>, turn: nat): Script
    requires 0 < |world| <= U64_MAX + 1 && 0 < |fork| <= U64_MAX + 1
  {
    var before, after := Serving(world), Serving(fork);
    Script(
      (t: nat) => if t < turn then before.tip(t) else after.tip(t),
      (t: nat, n: u64) => if t < turn then before.hash(t, n) else after.hash(t, n),
      (t: nat, n: u64) => if t < turn then before.block(t, n) else after.block(t, n))
  }

  lemma {:induction false} ServingServes(world: seq<FetchedBlock>)
    requires IsWorld(world)
    ensures Serves(Serving(world), 0, world) && Commits(Serving(world), world)
  {
  }

  lemma {:induction false} TurnedServes(world: seq<FetchedBlock>, fork: seq<FetchedBlock>, turn: nat)
    requires IsWorld(world) && IsWorld(fork)
    ensures Serves(Reorganizing(world, fork, turn), turn, fork)
  {
  }

  /** A cursor's chain has forked above the anchor at `n`, which lies below the cursor: the node stands on a chain that
      splits from it there. */
  ghost predicate ForkedAt(lastTip: u64, anchors: map<u64, Hash>, chain: seq<Held>, world: seq<FetchedBlock>,
                           fork: seq<FetchedBlock>, n: u64) {
    LiesOn(lastTip, anchors, chain, world) && Splits(world, fork, n) && n in anchors && n < lastTip
  }

  /** A poll meets such a fork as soon as the node stands on it. */
  lemma {:induction false} ForkIsMet(script: Script, since: nat, t: nat, lastTip: u64, anchors: map<u64, Hash>,
                                     chain: seq<Held>, world: seq<FetchedBlock>, fork: seq<FetchedBlock>, n: u64)
    requires ForkedAt(lastTip, anchors, chain, world, fork, n) && Serves(script, since, fork) && since <= t
    ensures PollForks(script, t, Some(lastTip), anchors, n)
  {
    hide AllFrom, ServesBlocks;
    IsServedWorld(script, since, fork);
    forall k | k in anchors ensures k < |fork| && (fork[k].hash == anchors[k] <==> k <= n) {
      assert k <= n ==> world[..n + 1][k] == fork[..n + 1][k];
    }
  }

  // ----- saved anchors -----

  /** The saved anchors are within the horizon exactly when no fork of the restored chain, right above one of them, is
      deeper than it. `Adapter.Run` bounds every rollback if they are, and if they are not, its first poll rolls back to
      any such anchor once the node stands on the fork. */
  lemma {:induction false} SavedWithinHorizonIff(config: Config, base: seq<Held>)
    requires config.Restorable(base) && config.resumeFrom.Some?
    ensures config.SavedWithinHorizon(base) <==>
            forall world, fork, n: u64 ::
              ForkedAt(config.resumeFrom.value, Seeded(map[], config.resumeAnchors), base, world, fork, n)
              ==> Depth(AuditLog(base, []).highest, SatSucc(n)) <= Horizon(config.reorgWindow)
  {
    hide Coherent, Seeded, ForkedAt;
    RestoredTop(config, base);
    if config.SavedWithinHorizon(base) {
      ForkedAtAnchor(config.resumeFrom.value, Seeded(map[], config.resumeAnchors), base);
    } else {
      var world, fork, n := ResumeExceedsHorizon(config, base);
    }
  }

  lemma {:induction false} ForkedAtAnchor(lastTip: u64, anchors: map<u64, Hash>, chain: seq<Held>)
    ensures forall world, fork, n: u64 :: ForkedAt(lastTip, anchors, chain, world, fork, n) ==> n in anchors && n < lastTip
  {
  }

  lemma {:induction false} RestoredTop(config: Config, base: seq<Held>)
    requires config.Restorable(base) && config.resumeFrom.Some?
    ensures AuditLog(base, []).highest == (if base == [] then None else config.resumeFrom)
    ensures base != [] ==> config.resumeFrom == Some(Top(base).number)
  {
  }

  /** Over saved anchors that reach deeper than the horizon, there is a node that makes the first poll of every run exceed
      it, by `Adapter.Run`. It stands on a chain that shares the restored one up to the deepest saved anchor. */
  lemma {:induction false} ResumeExceedsHorizon(config: Config, base: seq<Held>)
    returns (world: seq<FetchedBlock>, fork: seq<FetchedBlock>, n: u64)
    requires config.Restorable(base) && config.resumeFrom.Some? && !config.SavedWithinHorizon(base)
    ensures ForkedAt(config.resumeFrom.value, Seeded(map[], config.resumeAnchors), base, world, fork, n)
    ensures forall first: nat :: ResumeForks(config, Serving(fork), first, n)
    ensures Depth(AuditLog(base, []).highest, SatSucc(n)) > Horizon(config.reorgWindow)
  {
    hide Coherent, Seeded, Splits, LiesOn, PollForks;
    RestoredTop(config, base);
    var top, anchors := config.resumeFrom.value, Seeded(map[], config.resumeAnchors);
    n :| n in anchors && n + Horizon(config.reorgWindow) < top;
    world := ChainExists(top, anchors, base);
    assert IsWorld(world) by { LyingIsWorld(top, anchors, base, world); }
    fork := ForkExists(world, n, |world|);
    assert IsWorld(fork) by { ForkIsWorld(world, fork, n); }
    ServingServes(fork);
    forall first: nat ensures PollForks(Serving(fork), first, Some(top), anchors, n) {
      ForkIsMet(Serving(fork), 0, first, top, anchors, base, world, fork, n);
    }
  }

  lemma {:induction false} LyingIsWorld(lastTip: u64, anchors: map<u64, Hash>, chain: seq<Held>, world: seq<FetchedBlock>)
    requires LiesOn(lastTip, anchors, chain, world)
    ensures IsWorld(world)
  {
  }

  lemma {:induction false} ForkIsWorld(world: seq<FetchedBlock>, fork: seq<FetchedBlock>, n: int)
    requires Splits(world, fork, n)
    ensures IsWorld(fork)
  {
  }

  /** The saved ring of recent blocks, used as anchors, is within the horizon exactly when it is at most one block
      longer than the horizon. */
  lemma {:induction false} RingWithinHorizonIff(config: Config, ring: seq<Held>)
    requires ring != [] && Linked(ring)
    requires config.resumeFrom == Some(Top(ring).number) && config.resumeAnchors == HeldAnchors(ring)
    ensures config.Restorable(ring)
    ensures config.SavedWithinHorizon(ring) <==> |ring| <= Horizon(config.reorgWindow) + 1
  {
    hide Seeded, HeldAnchors, Linked, Coherent;
    SeededHeld(map[], ring);
    CoverIsCoherent(Seeded(map[], HeldAnchors(ring)), map[], ring);
    HeightsFromTop(ring);
  }

  /** The full ring of the server exceeds the production horizon by one block: there is a node that makes the first poll
      after every resume from it roll back by more. */
  lemma {:induction false} FullRingExceedsHorizon(config: Config, ring: seq<Held>) returns (fork: seq<FetchedBlock>, n: u64)
    requires |ring| == RECENT_BLOCKS_CAP && Linked(ring)
    requires config.resumeFrom == Some(Top(ring).number) && config.resumeAnchors == HeldAnchors(ring)
    requires config.reorgWindow == DEFAULT_REORG_WINDOW_BLOCKS
    ensures IsWorld(fork) && forall first: nat :: ResumeForks(config, Serving(fork), first, n)
    ensures Depth(AuditLog(ring, []).highest, SatSucc(n)) > DEFAULT_REORG_WINDOW_BLOCKS
  {
    hide Linked, HeldAnchors, Seeded, Coherent, ForkedAt, ResumeForks;
    RingWithinHorizonIff(config, ring);
    var world;
    world, fork, n := ResumeExceedsHorizon(config, ring);
    ForkedIsWorld(Top(ring).number, Seeded(map[], config.resumeAnchors), ring, world, fork, n);
  }

  lemma {:induction false} ForkedIsWorld(lastTip: u64, anchors: map<u64, Hash>, chain: seq<Held>, world: seq<FetchedBlock>,
                                         fork: seq<FetchedBlock>, n: u64)
    requires ForkedAt(lastTip, anchors, chain, world, fork, n)
    ensures IsWorld(fork)
  {
  }

  // ----- hydrated windows -----

  /** The cursor that boot takes from a window of a chain lies on that chain. */
  lemma {:induction false} WindowLiesOn(window: seq<Held>, policy: HydrationPolicy, tip: u64, world: seq<FetchedBlock>)
    requires window != [] && IsWorld(world) && WorldWindow(window, policy, tip, world) && tip < |world|
    ensures LiesOn(tip, Seeded(map[], WindowAnchors(window)), Ascending(window), world)
  {
    hide Seeded, HeldAnchors, Linked, Shortest, Coherent, Agree;
    var chain, anchors := Ascending(window), Seeded(map[], WindowAnchors(window));
    WindowAnchorHeights(window, tip);
    AscendingStaysOnWorld(window, world);
    AscendingIsLinked(window, tip);
    HeightsFromTop(chain);
    WindowIsCoherent(window, tip);
    AnchorsAgree(tip, anchors, chain);
    forall k | k in anchors ensures anchors[k] == world[k].hash {
      var i := k - chain[0].number;
      if 0 <= i {
        assert chain[i].number == k;
      } else {
        assert world[k + 1].parentHash == world[k].hash;
      }
    }
  }

  lemma {:induction false} AnchorsAgree(lastTip: u64, anchors: map<u64, Hash>, chain: seq<Held>)
    requires Coherent(Some(lastTip), anchors, 0, Consumer(chain, None)) && chain != []
    ensures Agree(anchors, chain)
  {
  }

  /** A node that stands on a chain while boot reads its window off it, and has moved to a fork by the first poll. */
  lemma {:induction false} WindowIsRead(policy: HydrationPolicy, window: seq<Held>, tip: u64, world: seq<FetchedBlock>,
                                        fork: seq<FetchedBlock>, first: nat)
    requires IsWorld(world) && IsWorld(fork) && tip == |world| - 1
    requires window != [] && WorldWindow(window, policy, tip, world)
    ensures BootReads(policy, Reorganizing(world, fork, first + 2 + |window|), first, window)
  {
    hide Shortest, IsWorld;
  }

  /** A hydrated window is short exactly when no fork above one of its anchors is deeper than the horizon. A boot over a
      node that then moves to such a fork ends with exactly this window, and meets the fork in its first poll: by
      `Adapter.Run`, boot hydration keeps the bound for every node exactly when its window is short. */
  lemma {:induction false} BootWindowIff(config: Config, window: seq<Held>, tip: u64, world: seq<FetchedBlock>, first: nat)
    requires config.HydratesAtBoot() && IsWorld(world) && tip == |world| - 1
    requires window != [] && WorldWindow(window, HydrationPolicy(config.cellTarget, config.backfillBlocks), tip, world)
    ensures Ascending(window) != []
    ensures ShortWindow(Ascending(window), config.reorgWindow) <==>
            forall fork, n: u64 ::
              ForkedAt(tip, Seeded(map[], WindowAnchors(window)), Ascending(window), world, fork, n)
              ==> Depth(Some(tip), SatSucc(n)) <= Horizon(config.reorgWindow)
    ensures forall fork, n: u64 ::
              ForkedAt(tip, Seeded(map[], WindowAnchors(window)), Ascending(window), world, fork, n)
              ==> BootForks(config, Reorganizing(world, fork, first + 2 + |window|), first, window, n)
  {
    hide Seeded, WindowAnchors, Ascending, Linked, Shortest, LiesOn, PollForks, BootReads, AllFrom;
    var anchors, chain := Seeded(map[], WindowAnchors(window)), Ascending(window);
    WindowAnchorHeights(window, tip);
    WindowLiesOn(window, HydrationPolicy(config.cellTarget, config.backfillBlocks), tip, world);
    var deep := SatSub(chain[0].number, 1);
    if !ShortWindow(chain, config.reorgWindow) {
      var fork := ForkExists(world, deep, |world|);
      assert ForkedAt(tip, anchors, chain, world, fork, deep);
    }
    forall fork, n: u64 | ForkedAt(tip, anchors, chain, world, fork, n)
      ensures BootForks(config, Reorganizing(world, fork, first + 2 + |window|), first, window, n)
    {
      ForkIsWorld(world, fork, n);
      WindowIsRead(HydrationPolicy(config.cellTarget, config.backfillBlocks), window, tip, world, fork, first);
      TurnedServes(world, fork, first + 2 + |window|);
      var turn := first + 2 + |window|;
      ForkIsMet(Reorganizing(world, fork, turn), turn, turn, tip, anchors, chain, world, fork, n);
    }
  }

  // ----- a height saved without its hash -----

  /** Over any restored chain there is a node, on a chain that shares it up to below its top, over which every run that
      saved only the height sends a stream the restored consumer cannot apply, by `Adapter.Run`. */
  lemma {:induction false} ForeignTopExists(config: Config, restored: seq<Held>)
    returns (world: seq<FetchedBlock>, fork: seq<FetchedBlock>)
    requires config.SavedBare(restored) && Linked(restored)
    ensures LiesOn(Top(restored).number, map[], restored, world) && Splits(world, fork, Top(restored).number - 1)
    ensures Serves(Serving(fork), 0, fork) && Commits(Serving(fork), fork) && Top(restored).number + 1 < |fork|
    ensures fork[Top(restored).number].hash != Top(restored).block.hash
  {
    var top: int := Top(restored).number;
    world := LinkedChainExists(restored);
    fork := ForkExists(world, top - 1, top + 2);
    ServingServes(fork);
    assert restored[|restored| - 1].block == world[top];
  }

  /** A linked chain lies on some chain from genesis. */
  lemma {:induction false} LinkedChainExists(restored: seq<Held>) returns (world: seq<FetchedBlock>)
    requires restored != [] && Linked(restored)
    ensures LiesOn(Top(restored).number, map[], restored, world) && |world| == Top(restored).number + 1
  {
    hide Coherent, LiesOn;
    var anchors := Seeded(map[], HeldAnchors(restored));
    SeededHeld(map[], restored);
    CoverIsCoherent(anchors, map[], restored);
    world := ChainExists(Top(restored).number, anchors, restored);
    Unanchored(Top(restored).number, anchors, restored, world);
  }

  lemma {:induction false} Unanchored(lastTip: u64, anchors: map<u64, Hash>, chain: seq<Held>, world: seq<FetchedBlock>)
    requires LiesOn(lastTip, anchors, chain, world)
    ensures LiesOn(lastTip, map[], chain, world)
  {
  }
}

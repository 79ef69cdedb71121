/** Target-driven historical hydration: discover a canonical window downwards, then replay it upwards. */
module Backfill {
  import opened Basics
  import opened Chain
  import opened Node
  import opened LiveOutputs

  const DISCOVERY_PROGRESS_EVERY := 256
  const REPLAY_PROGRESS_EVERY := 25
  const BLOCK_FETCH_ATTEMPTS := 3

  datatype HydrationPolicy = HydrationPolicy(targetCells: u64, blockLimit: Option<u64>) {
    /** The same policy, scanning one block where it would scan none. */
    function ForRebuild(): HydrationPolicy {
      this.(blockLimit := match blockLimit
                          case Some(limit) => Some(Max(limit, 1))
                          case None => if targetCells == 0 then Some(1) else None)
    }

    /** How many blocks a discovery anchored at `tip` may scan. */
    function ScanBlocks(tip: u64): u64 {
      Min(if blockLimit.Some? then blockLimit.value else SatSucc(tip), SatSucc(tip))
    }
  }

  datatype Anchor = Anchor(number: u64, hash: Hash)

  datatype BackfillOutcome = BackfillOutcome(tip: u64, anchors: seq<Anchor>)

  datatype DiscoveredWindow = DiscoveredWindow(
    tip: u64, fromBlock: u64, available: u64, complete: bool, descending: seq<Held>)

  /** A policy normalised for rebuilds keeps its target and never yields an empty window; what would have is cut to one block.
      Normalising twice changes nothing, and the policies that reach boot hydration are left as they are. */
  lemma {:induction false} RebuildWindowIsNeverEmpty(policy: HydrationPolicy)
    ensures policy.ForRebuild().blockLimit != Some(0)
    ensures policy.ForRebuild().targetCells == policy.targetCells
    ensures policy.ForRebuild() != policy ==> policy.ForRebuild().blockLimit == Some(1)
    ensures policy.ForRebuild().ForRebuild() == policy.ForRebuild()
    ensures policy.ForRebuild() == policy <==>
              policy.blockLimit != Some(0) && (policy.blockLimit.None? ==> policy.targetCells > 0)
  {
  }

  // ----- windows -----

  function Blocks(held: seq<Held>): (blocks: seq<FetchedBlock>)
    ensures |blocks| == |held|
    ensures forall i :: 0 <= i < |held| ==> blocks[i] == held[i].block
  {
    if held == [] then [] else Blocks(held[..|held| - 1]) + [held[|held| - 1].block]
  }

  /** Heights `tip`, `tip - 1`, ..., each block the parent of the one above it. */
  ghost predicate DescendsFrom(descending: seq<Held>, tip: u64) {
    (forall i :: 0 <= i < |descending| ==> descending[i].number == tip - i) &&
    forall i :: 0 <= i < |descending| - 1 ==> descending[i].block.parentHash == descending[i + 1].block.hash
  }

  /** The live outputs found in the `k` newest blocks. */
  ghost function LiveIn(descending: seq<Held>, k: nat): nat
    requires k <= |descending|
  {
    Scan(Blocks(descending)[..k]).available
  }

  /** The shortest window that meets a positive target or, if none does, all there is: as many blocks as the limit allows, or
      down to genesis. (A chain of 2^64 blocks is scanned to all but its lowest.) */
  ghost predicate Shortest(descending: seq<Held>, policy: HydrationPolicy, tip: u64) {
    descending != [] && |descending| <= Min(tip + 1, U64_MAX) &&
    (policy.blockLimit.Some? ==> |descending| <= policy.blockLimit.value) &&
    (policy.targetCells > 0 ==>
       forall k :: 0 < k < |descending| ==> LiveIn(descending, k) < policy.targetCells) &&
    (policy.targetCells == 0 || LiveIn(descending, |descending|) < policy.targetCells ==>
       |descending| == Min(if policy.blockLimit.Some? then policy.blockLimit.value else tip + 1, Min(tip + 1, U64_MAX)))
  }

  /** A chain that is the shortest window below its top, read upwards. */
  ghost predicate Fills(chain: seq<Held>, policy: HydrationPolicy) {
    chain != [] && exists descending :: chain == Ascending(descending) && Shortest(descending, policy, Top(chain).number)
  }

  ghost predicate IsWindow(w: DiscoveredWindow, policy: HydrationPolicy, tip: u64) {
    w.tip == tip && DescendsFrom(w.descending, tip) && Shortest(w.descending, policy, tip) &&
    w.fromBlock == w.descending[|w.descending| - 1].number &&
    w.available == Capped(LiveIn(w.descending, |w.descending|)) &&
    (w.complete <==> w.available >= policy.targetCells || w.fromBlock == 0)
  }

  /** The count a window reports is what replaying it forward leaves live. */
  lemma {:induction false} WindowCountsLiveOutputs(w: DiscoveredWindow, policy: HydrationPolicy, tip: u64)
    requires IsWindow(w, policy, tip) && Sound(Blocks(w.descending))
    ensures w.available == Capped(|Replay({}, Blocks(w.descending))|)
  {
    ScanAgreesWithReplay(Blocks(w.descending));
    assert Blocks(w.descending)[..|w.descending|] == Blocks(w.descending);
  }

  function Ascending(descending: seq<Held>): (up: seq<Held>)
    ensures |up| == |descending|
    ensures forall i :: 0 <= i < |up| ==> up[i] == descending[|descending| - 1 - i]
  {
    if descending == [] then [] else [descending[|descending| - 1]] + Ascending(descending[..|descending| - 1])
  }

  lemma {:induction false} AscendingIsLinked(descending: seq<Held>, tip: u64)
    requires DescendsFrom(descending, tip)
    ensures Linked(Ascending(descending))
    ensures descending != [] ==> Top(Ascending(descending)) == descending[0]
  {
    var up := Ascending(descending);
    forall i | 0 < i < |up|
      ensures up[i].number == up[i - 1].number + 1 && up[i].block.parentHash == up[i - 1].block.hash
    {
      var j := |descending| - 1 - i;
      assert up[i] == descending[j] && up[i - 1] == descending[j + 1];
    }
  }

  function ParentAnchor(lowest: Held): seq<Anchor> {
    if lowest.number == 0 then [] else [Anchor(lowest.number - 1, lowest.block.parentHash)]
  }

  function HeldAnchors(chain: seq<Held>): seq<Anchor> {
    if chain == [] then []
    else HeldAnchors(chain[..|chain| - 1]) + [Anchor(chain[|chain| - 1].number, chain[|chain| - 1].block.hash)]
  }

  /** The parent of the lowest block, then every block of the window. */
  function WindowAnchors(descending: seq<Held>): seq<Anchor>
    requires descending != []
  {
    ParentAnchor(Ascending(descending)[0]) + HeldAnchors(Ascending(descending))
  }

  // ----- discovery -----

  /** The window a walk down one fixed chain reads. */
  ghost predicate WorldWindow(descending: seq<Held>, policy: HydrationPolicy, tip: u64, world: seq<FetchedBlock>) {
    tip < |world| && DescendsFrom(descending, tip) && Shortest(descending, policy, tip) && AllFrom(descending, world)
  }

  /** One chain has one shortest window below a tip. */
  lemma {:induction false} SameWindow(
      one: seq<Held>, other: seq<Held>, policy: HydrationPolicy, tip: u64, world: seq<FetchedBlock>)
    requires WorldWindow(one, policy, tip, world) && WorldWindow(other, policy, tip, world)
    ensures one == other
  {
    hide LiveIn;
    NotShorter(one, other, policy, tip, world);
    NotShorter(other, one, policy, tip, world);
    assert forall i :: 0 <= i < |one| ==> one[i] == Held(tip - i, world[tip - i]) == other[i];
  }

  lemma {:induction false} NotShorter(
      one: seq<Held>, other: seq<Held>, policy: HydrationPolicy, tip: u64, world: seq<FetchedBlock>)
    requires WorldWindow(one, policy, tip, world) && WorldWindow(other, policy, tip, world)
    ensures |one| >= |other|
  {
    hide LiveIn, Blocks;
    if |one| < |other| {
      assert forall i :: 0 <= i < |one| ==> one[i] == Held(tip - i, world[tip - i]) == other[i];
      PrefixLives(one, other);
    }
  }

  lemma {:induction false} PrefixLives(one: seq<Held>, other: seq<Held>)
    requires |one| <= |other| && one == other[..|one|]
    ensures LiveIn(one, |one|) == LiveIn(other, |one|)
  {
    assert Blocks(one)[..|one|] == Blocks(other)[..|one|];
  }

  ghost predicate Visible(reply: Result<Option<FetchedBlock>>) {
    reply.Ok? && reply.value.Some?
  }

  method FetchHydrationBlock(rpc: RpcClient, number: u64, ghost world: seq<FetchedBlock>)
    returns (r: Result<FetchedBlock>)
    modifies rpc
    ensures old(rpc.calls) < rpc.calls <= old(rpc.calls) + 3
    ensures r.Ok? ==> rpc.script.block(rpc.calls - 1, number) == Ok(Some(r.value))
    ensures r.Err? ==> rpc.calls == old(rpc.calls) + 3 && !Visible(rpc.script.block(rpc.calls - 1, number))
    ensures forall t :: old(rpc.calls) <= t < rpc.calls - 1 ==> !Visible(rpc.script.block(t, number))
    ensures ServesBlocks(rpc.script, old(rpc.calls), world) && number < |world|
            ==> r == Ok(world[number]) && rpc.calls == old(rpc.calls) + 1
    ensures var reply := rpc.script.block(old(rpc.calls), number);
            Visible(reply) ==> r == Ok(reply.value.value) && rpc.calls == old(rpc.calls) + 1
    ensures Commits(rpc.script, world) && r.Ok? && number < |world| && r.value.hash == world[number].hash
            ==> r.value == world[number]
  {
    var attempt := 1;
    while true
      invariant 1 <= attempt <= BLOCK_FETCH_ATTEMPTS
      invariant rpc.calls == old(rpc.calls) + attempt - 1
      invariant forall t :: old(rpc.calls) <= t < rpc.calls ==> !Visible(rpc.script.block(t, number))
      invariant Visible(rpc.script.block(old(rpc.calls), number)) ==> attempt == 1
      decreases BLOCK_FETCH_ATTEMPTS - attempt
    {
      var reply := rpc.FetchAndTranslate(number);
      if reply.Ok? && reply.value.Some? {
        return Ok(reply.value.value);
      }
      var failure := if reply.Err? then reply.fault else Missing(number);
      if attempt >= BLOCK_FETCH_ATTEMPTS {
        return Err(failure);
      }
      attempt := attempt + 1;
    }
  }

  /** The accumulators of a walk that has read `descending`, newest first. */
  ghost predicate Walk(descending: seq<Held>, tip: u64, spent: set<OutPoint>, available: u64, expectedHash: Option<Hash>) {
    DescendsFrom(descending, tip) &&
    expectedHash == (if descending == [] then None else Some(descending[|descending| - 1].block.parentHash)) &&
    spent == Scan(Blocks(descending)).spent &&
    available == Capped(LiveIn(descending, |descending|))
  }

  /** None of the windows of up to `n` blocks meets a positive target. */
  ghost predicate Short(descending: seq<Held>, n: nat, target: u64)
    requires n <= |descending|
  {
    target > 0 ==> forall k :: 0 <= k <= n ==> LiveIn(descending, k) < target
  }

  /** One more block, linked to the one above it, extends the walk. */
  lemma {:induction false} WalkOneMore(
      descending: seq<Held>, tip: u64, spent: set<OutPoint>, available: u64, expectedHash: Option<Hash>,
      next: Held, spent': set<OutPoint>, available': u64, target: u64)
    requires Walk(descending, tip, spent, available, expectedHash) && Short(descending, |descending|, target)
    requires next.number == tip - |descending|
    requires expectedHash.Some? ==> next.block.hash == expectedHash.value
    requires var t := Observe(Scan(Blocks(descending)), next.block);
             spent' == t.spent && available' == Capped(t.available)
    ensures Walk(descending + [next], tip, spent', available', Some(next.block.parentHash))
    ensures Short(descending + [next], |descending|, target)
    ensures available' < target || target == 0 ==> Short(descending + [next], |descending| + 1, target)
  {
    hide LiveIn, Observe, Scan, Blocks;
    var longer := descending + [next];
    assert longer[..|longer| - 1] == descending;
    ScanOneMore(descending, next);
  }

  /** Scanning one block further leaves every shorter window as it was. */
  lemma {:induction false} ScanOneMore(descending: seq<Held>, next: Held)
    ensures var longer, tally := descending + [next], Observe(Scan(Blocks(descending)), next.block);
            Scan(Blocks(longer)) == tally && LiveIn(longer, |longer|) == tally.available &&
            forall k :: 0 <= k <= |descending| ==> LiveIn(longer, k) == LiveIn(descending, k)
  {
    hide Observe;
    var longer := descending + [next];
    assert Blocks(longer) == Blocks(descending) + [next.block];
    assert Blocks(longer)[..|longer| - 1] == Blocks(descending);
    WholeWindow(longer);
    forall k | 0 <= k <= |descending| ensures LiveIn(longer, k) == LiveIn(descending, k) {
      assert Blocks(longer)[..k] == Blocks(descending)[..k];
    }
  }

  lemma {:induction false} WholeWindow(descending: seq<Held>)
    ensures LiveIn(descending, |descending|) == Scan(Blocks(descending)).available
  {
    assert Blocks(descending)[..|descending|] == Blocks(descending);
  }

  lemma {:induction false} WalkStarts(tip: u64, target: u64)
    ensures Walk([], tip, {}, 0, None) && Short([], 0, target)
  {
    assert Blocks([])[..0] == [];
  }

  /** Where the walk stops: the target is met, or the whole allowed scan was read. */
  lemma {:induction false} WalkEnds(descending: seq<Held>, tip: u64, policy: HydrationPolicy)
    requires 0 < |descending| <= policy.ScanBlocks(tip) && DescendsFrom(descending, tip)
    requires Short(descending, |descending| - 1, policy.targetCells)
    requires |descending| == policy.ScanBlocks(tip) || 0 < policy.targetCells <= LiveIn(descending, |descending|)
    ensures Shortest(descending, policy, tip)
  {
  }

  lemma {:induction false} NothingIsOnWorld(world: seq<FetchedBlock>)
    ensures AllFrom([], world) && HashesCommit([], world)
  {
  }

  lemma {:induction false} NextBelowOnWorld(descending: seq<Held>, tip: u64, world: seq<FetchedBlock>)
    requires 0 < |descending| <= tip && DescendsFrom(descending, tip) && IsWorld(world) && AllFrom(descending, world)
    ensures tip - |descending| < |world|
    ensures world[tip - |descending|].hash == descending[|descending| - 1].block.parentHash
  {
    var lowest := descending[|descending| - 1];
    assert lowest.number == tip - |descending| + 1 && lowest.block == world[lowest.number];
    assert world[lowest.number].parentHash == world[lowest.number - 1].hash;
  }

  /** From call `first` on, the node shows the blocks of a shortest window, one a call, newest first. */
  ghost predicate Shows(script: Script, first: nat, window: seq<Held>, policy: HydrationPolicy, tip: u64) {
    DescendsFrom(window, tip) && Shortest(window, policy, tip) &&
    forall i :: 0 <= i < |window| ==> script.block(first + i, window[i].number) == Ok(Some(window[i].block))
  }

  /** ... and then gives its tip's hash. */
  ghost predicate Confirms(script: Script, first: nat, window: seq<Held>, policy: HydrationPolicy, tip: u64) {
    Shows(script, first, window, policy, tip) && window != [] &&
    script.hash(first + |window|, tip) == Ok(Some(window[0].block.hash))
  }

  /** A walk that has neither met its target nor read the whole scan is still inside the window. */
  lemma {:induction false} NextShown(script: Script, first: nat, window: seq<Held>, policy: HydrationPolicy, tip: u64,
                                     descending: seq<Held>, expectedHash: Option<Hash>)
    requires Shows(script, first, window, policy, tip) && descending <= window
    requires |descending| < policy.ScanBlocks(tip) && Short(descending, |descending|, policy.targetCells)
    requires expectedHash == if descending == [] then None else Some(descending[|descending| - 1].block.parentHash)
    ensures |descending| < |window|
    ensures var reply := script.block(first + |descending|, tip - |descending|);
            Visible(reply) && reply.value.value == window[|descending|].block &&
            (expectedHash.Some? ==> reply.value.value.hash == expectedHash.value)
    ensures window[|descending|] == Held(tip - |descending|, window[|descending|].block)
  {
    hide LiveIn;
    assert |descending| == |window| ==> descending == window;
    var i := |descending|;
    assert window[i].number == tip - i && script.block(first + i, window[i].number) == Ok(Some(window[i].block));
  }

  /** What the walk has read is the whole window. */
  lemma {:induction false} WholeShown(script: Script, first: nat, window: seq<Held>, policy: HydrationPolicy, tip: u64,
                                      descending: seq<Held>)
    requires Shows(script, first, window, policy, tip) && descending <= window
    requires DescendsFrom(descending, tip) && Shortest(descending, policy, tip)
    ensures descending == window
  {
    hide LiveIn;
    if |descending| < |window| {
      PrefixLives(descending, window);
    }
  }

  /** One step of the backward walk: the next block down must be the parent of the one above it. */
  method FetchLinkedBlock(rpc: RpcClient, number: u64, expectedHash: Option<Hash>, ghost above: seq<Held>,
                          ghost tip: u64, ghost world: seq<FetchedBlock>)
    returns (r: Result<FetchedBlock>)
    requires |above| <= tip && number == tip - |above| && DescendsFrom(above, tip)
    requires expectedHash == if above == [] then None else Some(above[|above| - 1].block.parentHash)
    modifies rpc
    ensures rpc.calls > old(rpc.calls)
    ensures r.Ok? && expectedHash.Some? ==> r.value.hash == expectedHash.value
    ensures ServesBlocks(rpc.script, old(rpc.calls), world) && tip < |world| && AllFrom(above, world)
            ==> r == Ok(world[number]) && rpc.calls == old(rpc.calls) + 1
    ensures var reply := rpc.script.block(old(rpc.calls), number);
            Visible(reply) && (expectedHash.Some? ==> reply.value.value.hash == expectedHash.value)
            ==> r == Ok(reply.value.value) && rpc.calls == old(rpc.calls) + 1
    ensures Commits(rpc.script, world) && r.Ok? && number < |world| && r.value.hash == world[number].hash
            ==> r.value == world[number]
  {
    hide DescendsFrom, AllFrom, ServesBlocks, Commits;
    IsServedWorld(rpc.script, rpc.calls, world);
    if ServesBlocks(rpc.script, rpc.calls, world) && tip < |world| && AllFrom(above, world) && above != [] {
      NextBelowOnWorld(above, tip, world);
    }
    var fetched := FetchHydrationBlock(rpc, number, world);
    if fetched.Err? {
      return Err(fetched.fault);
    }
    var block := fetched.value;
    if expectedHash.Some? && block.hash != expectedHash.value {
      return Err(LinkageMismatch(number));
    }
    r := Ok(block);
  }

  /** What the node's answers from call `first` on have made of the walk by call `calls`, for a node that shows one chain,
      or at least this window. */
  ghost predicate Reads(script: Script, first: nat, calls: nat, descending: seq<Held>, policy: HydrationPolicy, tip: u64,
                        shown: seq<Held>, world: seq<FetchedBlock>)
  {
    first <= calls &&
    (ServesBlocks(script, first, world) && tip < |world| ==> AllFrom(descending, world) && calls == first + |descending|) &&
    (Shows(script, first, shown, policy, tip) ==> descending <= shown && calls == first + |descending|) &&
    (Commits(script, world) ==> HashesCommit(descending, world))
  }

  lemma {:induction false} ReadsNothingYet(script: Script, first: nat, policy: HydrationPolicy, tip: u64, shown: seq<Held>,
                                           world: seq<FetchedBlock>)
    ensures Reads(script, first, first, [], policy, tip, shown, world)
  {
    NothingIsOnWorld(world);
  }

  /** The next block of a walk that goes on. */
  method FetchNext(rpc: RpcClient, expectedHash: Option<Hash>, descending: seq<Held>, tip: u64, ghost first: nat,
                   ghost policy: HydrationPolicy, ghost shown: seq<Held>, ghost world: seq<FetchedBlock>)
    returns (r: Result<FetchedBlock>)
    requires |descending| < policy.ScanBlocks(tip) && DescendsFrom(descending, tip)
    requires expectedHash == if descending == [] then None else Some(descending[|descending| - 1].block.parentHash)
    requires Short(descending, |descending|, policy.targetCells)
    requires Reads(rpc.script, first, rpc.calls, descending, policy, tip, shown, world)
    modifies rpc
    ensures rpc.calls > old(rpc.calls)
    ensures r.Ok? && expectedHash.Some? ==> r.value.hash == expectedHash.value
    ensures r.Ok? ==> Reads(rpc.script, first, rpc.calls, descending + [Held(tip - |descending|, r.value)], policy, tip,
                            shown, world)
    ensures r.Err? ==> !(ServesBlocks(rpc.script, first, world) && tip < |world|) && !Shows(rpc.script, first, shown, policy, tip)
  {
    hide DescendsFrom, AllFrom, ServesBlocks, Commits, HashesCommit, Shows, Short, Visible;
    var number: u64 := tip - |descending|;
    StillServes(rpc.script, first, rpc.calls, world);
    IsServedWorld(rpc.script, first, world);
    if Shows(rpc.script, first, shown, policy, tip) {
      NextShown(rpc.script, first, shown, policy, tip, descending, expectedHash);
    }
    r := FetchLinkedBlock(rpc, number, expectedHash, descending, tip, world);
    if r.Ok? {
      AppendStaysOnWorld(descending, world, number, r.value);
    }
  }

  /** One block further down: fetched, linked, and observed. */
  method WalkOn(rpc: RpcClient, tip: u64, spentIn: set<OutPoint>, availableIn: u64, expectedHash: Option<Hash>,
                descending: seq<Held>, ghost first: nat, ghost policy: HydrationPolicy, ghost shown: seq<Held>,
                ghost world: seq<FetchedBlock>)
    returns (r: Result<FetchedBlock>, spent: set<OutPoint>, available: u64)
    requires |descending| < policy.ScanBlocks(tip) && Walk(descending, tip, spentIn, availableIn, expectedHash)
    requires Short(descending, |descending|, policy.targetCells)
    requires Reads(rpc.script, first, rpc.calls, descending, policy, tip, shown, world)
    modifies rpc
    ensures rpc.calls > old(rpc.calls)
    ensures r.Ok? ==>
              var longer := descending + [Held(tip - |descending|, r.value)];
              Walk(longer, tip, spent, available, Some(r.value.parentHash)) && Short(longer, |descending|, policy.targetCells) &&
              (available < policy.targetCells || policy.targetCells == 0 ==> Short(longer, |longer|, policy.targetCells)) &&
              Reads(rpc.script, first, rpc.calls, longer, policy, tip, shown, world)
    ensures r.Err? ==> !(ServesBlocks(rpc.script, first, world) && tip < |world|) && !Shows(rpc.script, first, shown, policy, tip)
  {
    hide Scan, Observe, Blocks, LiveIn, Short, DescendsFrom, Reads, Shows, ServesBlocks;
    spent, available := spentIn, availableIn;
    r := FetchNext(rpc, expectedHash, descending, tip, first, policy, shown, world);
    if r.Ok? {
      WholeWindow(descending);
      spent, available := ObserveLiveOutputs(r.value, spent, available, LiveIn(descending, |descending|));
      WalkOneMore(descending, tip, spentIn, availableIn, expectedHash, Held(tip - |descending|, r.value), spent, available,
                  policy.targetCells);
    }
  }

  /** The backward walk. `Err` leaves the run wherever it stopped; nothing but progress is published. */
  method WalkDown(rpc: RpcClient, tip: u64, policy: HydrationPolicy, out: Outbox, phase: ReplayPhase,
                  ghost shown: seq<Held>, ghost world: seq<FetchedBlock>)
    returns (r: Result<(seq<Held>, u64)>)
    requires out.Valid() && policy.ScanBlocks(tip) > 0
    modifies rpc, out
    ensures rpc.calls > old(rpc.calls)
    ensures out.Valid() && out.audit == old(out.audit).(progress := out.audit.progress)
    ensures r.Ok? ==> DescendsFrom(r.value.0, tip) && Shortest(r.value.0, policy, tip)
                      && r.value.1 == Capped(LiveIn(r.value.0, |r.value.0|))
    ensures ServesBlocks(rpc.script, old(rpc.calls), world) && tip < |world|
            ==> r.Ok? && AllFrom(r.value.0, world) && rpc.calls == old(rpc.calls) + |r.value.0|
    ensures Shows(rpc.script, old(rpc.calls), shown, policy, tip)
            ==> r.Ok? && r.value.0 == shown && rpc.calls == old(rpc.calls) + |shown|
    ensures Commits(rpc.script, world) && r.Ok? ==> HashesCommit(r.value.0, world)
  {
    hide AuditLog, AuditStep, Blocks, LiveIn, Short, Shortest, DescendsFrom, Reads, Shows, ServesBlocks, AllFrom, Commits,
         HashesCommit, Walk, AllFrom, Linked, Scan, Observe, Confirms, IsWorld;
    WalkStarts(tip, policy.targetCells);
    ReadsNothingYet(rpc.script, rpc.calls, policy, tip, shown, world);
    var scanBlocks := policy.ScanBlocks(tip);
    var spent: set<OutPoint> := {};
    var available: u64 := 0;
    var expectedHash: Option<Hash> := None;
    var descending: seq<Held> := [];

    while |descending| < scanBlocks
      invariant out.Valid() && out.audit == old(out.audit).(progress := out.audit.progress)
      invariant rpc.calls >= old(rpc.calls) && (descending != [] ==> rpc.calls > old(rpc.calls))
      invariant |descending| <= scanBlocks
      invariant Walk(descending, tip, spent, available, expectedHash)
      invariant Short(descending, |descending|, policy.targetCells)
      invariant descending != [] ==> Short(descending, |descending| - 1, policy.targetCells)
      invariant Reads(rpc.script, old(rpc.calls), rpc.calls, descending, policy, tip, shown, world)
    {
      var fetched;
      fetched, spent, available :=
        WalkOn(rpc, tip, spent, available, expectedHash, descending, old(rpc.calls), policy, shown, world);
      if fetched.Err? {
        return Err(fetched.fault);
      }
      expectedHash := Some(fetched.value.parentHash);
      descending := descending + [Held(tip - |descending|, fetched.value)];

      if policy.targetCells > 0 && available >= policy.targetCells {
        break;
      }
      if |descending| % DISCOVERY_PROGRESS_EVERY == 0 {
        out.Send(BackfillProgress(|descending|, 0, true, phase));
      }
    }
    WalkedDown(descending, tip, spent, available, expectedHash);
    WalkEnds(descending, tip, policy);
    WhatWasRead(rpc.script, old(rpc.calls), rpc.calls, descending, policy, tip, shown, world);
    r := Ok((descending, available));
  }

  lemma {:induction false} WalkedDown(descending: seq<Held>, tip: u64, spent: set<OutPoint>, available: u64,
                                      expectedHash: Option<Hash>)
    requires Walk(descending, tip, spent, available, expectedHash)
    ensures DescendsFrom(descending, tip) && available == Capped(LiveIn(descending, |descending|))
  {
  }

  lemma {:induction false} WhatWasRead(script: Script, first: nat, calls: nat, descending: seq<Held>, policy: HydrationPolicy,
                                       tip: u64, shown: seq<Held>, world: seq<FetchedBlock>)
    requires Reads(script, first, calls, descending, policy, tip, shown, world)
    requires DescendsFrom(descending, tip) && Shortest(descending, policy, tip)
    ensures ServesBlocks(script, first, world) && tip < |world| ==> AllFrom(descending, world) && calls == first + |descending|
    ensures Shows(script, first, shown, policy, tip) ==> descending == shown && calls == first + |shown|
    ensures Commits(script, world) ==> HashesCommit(descending, world)
  {
    hide AllFrom, HashesCommit, Commits, ServesBlocks, Shows, Shortest, DescendsFrom;
    if Shows(script, first, shown, policy, tip) {
      WholeShown(script, first, shown, policy, tip, descending);
    }
  }

  /** `Ok` is a proven canonical window; `Err` has published nothing but progress. `world` is only
      used to state what a stable node guarantees. */
  method DiscoverWindow(rpc: RpcClient, tip: u64, policy: HydrationPolicy, out: Outbox, phase: ReplayPhase,
                        ghost shown: seq<Held>, ghost world: seq<FetchedBlock>)
    returns (r: Result<DiscoveredWindow>)
    requires out.Valid()
    modifies rpc, out
    ensures rpc.calls >= old(rpc.calls)
    ensures out.Valid() && out.audit == old(out.audit).(progress := out.audit.progress)
    ensures r.Ok? ==> IsWindow(r.value, policy, tip) && rpc.calls > old(rpc.calls)
                      && rpc.script.hash(rpc.calls - 1, tip) == Ok(Some(r.value.descending[0].block.hash))
    ensures if policy.blockLimit == Some(0) then r == Err(EmptyWindow) && rpc.calls == old(rpc.calls)
            else rpc.calls > old(rpc.calls)
    ensures r.Ok? && (policy.targetCells == 0 || r.value.available < policy.targetCells) ==>
              if policy.blockLimit.Some? then |r.value.descending| == Min(policy.blockLimit.value, tip + 1)
              else tip < U64_MAX ==> r.value.fromBlock == 0
    ensures r.Ok? && policy.blockLimit.Some? ==> |r.value.descending| <= Min(policy.blockLimit.value, tip + 1)
    ensures policy.blockLimit != Some(0) && Serves(rpc.script, old(rpc.calls), world) && tip == |world| - 1
            ==> r.Ok? && AllFrom(r.value.descending, world)
    ensures Confirms(rpc.script, old(rpc.calls), shown, policy, tip)
            ==> r.Ok? && r.value.descending == shown && rpc.calls == old(rpc.calls) + |shown| + 1
    ensures Commits(rpc.script, world) && r.Ok? ==> HashesCommit(r.value.descending, world)
  {
    hide Shortest, Serves, ServesBlocks, Commits, HashesCommit, AuditLog, LiveIn;
    IsServedWorld(rpc.script, rpc.calls, world);
    StillServes(rpc.script, rpc.calls, rpc.calls, world);
    ShownIsAllowed(rpc.script, rpc.calls, shown, policy, tip);
    if policy.ScanBlocks(tip) == 0 {
      return Err(EmptyWindow);
    }
    var walked := WalkDown(rpc, tip, policy, out, phase, shown, world);
    if walked.Err? {
      return Err(walked.fault);
    }
    var (descending, available) := walked.value;
    FirstOfShortest(descending, policy, tip);
    HowFar(descending, policy, tip);
    var fromBlock := descending[|descending| - 1].number;
    var cachedTipHash := descending[0].block.hash;
    var reply := rpc.GetBlockHash(tip);
    if reply.Err? {
      return Err(reply.fault);
    }
    if reply.value.None? {
      return Err(Missing(tip));
    }
    if reply.value.value != cachedTipHash {
      return Err(TipMoved);
    }
    var complete := available >= policy.targetCells || fromBlock == 0;
    r := Ok(DiscoveredWindow(tip, fromBlock, available, complete, descending));
  }

  lemma {:induction false} ShownIsAllowed(script: Script, first: nat, shown: seq<Held>, policy: HydrationPolicy, tip: u64)
    ensures Confirms(script, first, shown, policy, tip) ==> policy.blockLimit != Some(0)
  {
  }

  /** A window that misses its target ends where the limit or the chain does. */
  lemma {:induction false} HowFar(descending: seq<Held>, policy: HydrationPolicy, tip: u64)
    requires DescendsFrom(descending, tip) && Shortest(descending, policy, tip)
    ensures policy.targetCells == 0 || Capped(LiveIn(descending, |descending|)) < policy.targetCells ==>
              if policy.blockLimit.Some? then |descending| == Min(policy.blockLimit.value, tip + 1)
              else tip < U64_MAX ==> descending[|descending| - 1].number == 0
    ensures policy.blockLimit.Some? ==> |descending| <= Min(policy.blockLimit.value, tip + 1)
  {
  }

  lemma {:induction false} FirstOfShortest(descending: seq<Held>, policy: HydrationPolicy, tip: u64)
    requires Shortest(descending, policy, tip)
    ensures descending != []
  {
  }

  // ----- replay -----

  /** The first `done` blocks of a window have been replayed into a consumer that held nothing. */
  ghost predicate Replayed(before: Audit, after: Audit, ascending: seq<Held>, done: nat)
    requires done <= |ascending|
  {
    after.legal && after.consumer == Consumer(ascending[..done], if done == 0 then before.consumer.awaiting else None) &&
    (done > 0 ==> after.lastMined == Some(ascending[done - 1].number)) &&
    after.highest == (if done == 0 then before.highest else Some(Raised(before.highest, ascending[done - 1].number))) &&
    after.deepest == before.deepest && after.rebuilds == before.rebuilds && after.certificate == before.certificate &&
    (before.junction.rebuilt ==> after.junction == before.junction)
  }

  lemma {:induction false} NothingReplayed(before: Audit, ascending: seq<Held>)
    requires before.legal && before.consumer.chain == []
    ensures Replayed(before, before, ascending, 0)
  {
  }

  /** The window's next block can be applied, and nothing else changes. */
  lemma {:induction false} ReplayedOneMore(before: Audit, middle: Audit, after: Audit, ascending: seq<Held>, done: nat)
    requires done < |ascending| && Linked(ascending) && Replayed(before, middle, ascending, done)
    requires before.consumer.awaiting.Some? ==> before.consumer.awaiting == Some(Start(ascending[0].number))
    requires Sent(middle, after, ascending[done].number, ascending[done].block)
    ensures Replayed(before, after, ascending, done + 1)
    ensures forall progress :: Replayed(before, after.(progress := progress), ascending, done + 1)
  {
    assert ascending[..done + 1] == ascending[..done] + [ascending[done]];
    var next := ascending[done];
    if done > 0 {
      assert middle.consumer.chain[done - 1] == ascending[done - 1];
    }
  }

  lemma {:induction false} AllReplayed(before: Audit, after: Audit, ascending: seq<Held>)
    requires ascending != [] && Replayed(before, after, ascending, |ascending|)
    ensures after.legal && after.consumer == Consumer(ascending, None) && after.lastMined == Some(Top(ascending).number)
    ensures after.highest == Some(Raised(before.highest, Top(ascending).number))
    ensures after.deepest == before.deepest && after.rebuilds == before.rebuilds
    ensures after.certificate == before.certificate
    ensures before.junction.rebuilt ==> after.junction == before.junction
  {
    assert ascending[..|ascending|] == ascending;
  }

  lemma {:induction false} AnchorsOneMore(ascending: seq<Held>, done: nat)
    requires done < |ascending|
    ensures HeldAnchors(ascending[..done + 1]) ==
            HeldAnchors(ascending[..done]) + [Anchor(ascending[done].number, ascending[done].block.hash)]
  {
    assert ascending[..done + 1][..done] == ascending[..done];
  }

  /** The ordered replay of an ascending window into an empty consumer. */
  method ReplayBlocks(ascending: seq<Held>, phase: ReplayPhase, out: Outbox) returns (anchors: seq<Anchor>)
    requires out.Valid() && out.audit.legal && out.Chain() == []
    requires ascending != [] && Linked(ascending)
    requires out.audit.consumer.awaiting.Some? ==> out.audit.consumer.awaiting == Some(Start(ascending[0].number))
    modifies out
    ensures out.Valid() && out.audit.legal
    ensures out.audit.consumer == Consumer(ascending, None)
    ensures out.audit.lastMined == Some(Top(ascending).number)
    ensures out.audit.deepest == old(out.audit.deepest) && out.audit.rebuilds == old(out.audit.rebuilds)
    ensures out.audit.certificate == old(out.audit.certificate)
    ensures out.audit.highest == Some(Raised(old(out.audit.highest), Top(ascending).number))
    ensures old(out.audit.junction.rebuilt) ==> out.audit.junction == old(out.audit.junction)
    ensures anchors == HeldAnchors(ascending)
  {
    hide AuditLog, AuditStep, Linked, Replayed, HeldAnchors, Sent;
    ghost var before := out.audit;
    anchors := [];
    var total := |ascending|;
    NothingReplayed(before, ascending);
    NoAnchors(ascending);
    for done := 0 to |ascending|
      invariant out.Valid() && Replayed(before, out.audit, ascending, done)
      invariant anchors == HeldAnchors(ascending[..done])
    {
      ghost var middle := out.audit;
      AnchorsOneMore(ascending, done);
      out.SendBlock(ascending[done].number, ascending[done].block);
      ReplayedOneMore(before, middle, out.audit, ascending, done);
      anchors := anchors + [Anchor(ascending[done].number, ascending[done].block.hash)];
      if (done + 1) % REPLAY_PROGRESS_EVERY == 0 && done + 1 != total {
        out.Send(BackfillProgress(done + 1, total, true, phase));
      }
    }
    AllReplayed(before, out.audit, ascending);
    assert ascending[..|ascending|] == ascending;
  }

  lemma {:induction false} NoAnchors(ascending: seq<Held>)
    ensures HeldAnchors(ascending[..0]) == []
  {
  }

  /** A reset empties the consumer first; the replay then announces itself. */
  method OpenReplay(discovered: DiscoveredWindow, phase: ReplayPhase, reset: bool, out: Outbox)
    requires out.Valid()
    modifies out
    ensures out.Valid() && out.audit.legal == old(out.audit.legal)
    ensures out.audit.consumer == if reset then Consumer([], Some(Start(discovered.fromBlock))) else old(out.audit.consumer)
    ensures out.audit.highest == if reset then None else old(out.audit.highest)
    ensures out.audit.junction == if reset then old(out.audit.junction).(rebuilt := true) else old(out.audit.junction)
    ensures out.audit.deepest == old(out.audit.deepest) && out.audit.certificate == old(out.audit.certificate)
    ensures out.audit.rebuilds == old(out.audit.rebuilds) + if reset then 1 else 0
  {
    hide AuditLog;
    if reset {
      out.Send(ChainRebuild(discovered.fromBlock));
    }
    out.Send(BackfillProgress(0, |discovered.descending|, true, phase));
  }

  /** The certificate of a window that met a real target or reached genesis. */
  method Certify(discovered: DiscoveredWindow, policy: HydrationPolicy, out: Outbox)
    requires out.Valid()
    modifies out
    ensures out.Valid()
    ensures out.audit == old(out.audit).(certificate := Some(
              CellHydrationCompleted(policy.targetCells, discovered.available, discovered.fromBlock, discovered.tip)))
  {
    hide AuditLog;
    out.Send(CellHydrationCompleted(policy.targetCells, discovered.available, discovered.fromBlock, discovered.tip));
  }

  method ReplayDiscovered(discovered: DiscoveredWindow, policy: HydrationPolicy, phase: ReplayPhase, reset: bool,
                          out: Outbox)
    returns (r: BackfillOutcome)
    requires out.Valid() && out.audit.legal
    requires IsWindow(discovered, policy, discovered.tip)
    requires !reset ==> out.audit.consumer == Consumer([], None)
    modifies out
    ensures out.Valid() && out.audit.legal
    ensures out.audit.consumer == Consumer(Ascending(discovered.descending), None)
    ensures out.audit.progress == Some(Progress(false, phase)) && out.audit.lastMined == Some(discovered.tip)
    ensures out.audit.rebuilds == old(out.audit.rebuilds) + if reset then 1 else 0
    ensures out.audit.deepest == old(out.audit.deepest)
    ensures out.audit.highest == Some(if reset then discovered.tip else Raised(old(out.audit.highest), discovered.tip))
    ensures reset || old(out.audit.junction.rebuilt) ==> out.audit.junction == old(out.audit.junction).(rebuilt := true)
    ensures out.audit.certificate ==
            if discovered.complete && policy.targetCells != U64_MAX
            then Some(CellHydrationCompleted(policy.targetCells, discovered.available, discovered.fromBlock, discovered.tip))
            else old(out.audit.certificate)
    ensures r == BackfillOutcome(discovered.tip, WindowAnchors(discovered.descending))
  {
    hide AuditLog, AuditStep, Linked, LiveIn, Capped;
    var total := |discovered.descending|;
    OpenReplay(discovered, phase, reset, out);

    var ascending := Ascending(discovered.descending);
    AscendingIsLinked(discovered.descending, discovered.tip);
    var anchors := ReplayBlocks(ascending, phase, out);

    if discovered.complete && policy.targetCells != U64_MAX {
      Certify(discovered, policy, out);
    }
    out.Send(BackfillProgress(total, total, false, phase));
    r := BackfillOutcome(discovered.tip, ParentAnchor(ascending[0]) + anchors);
  }

  /** Discover, then replay. Nothing that the consumer holds changes unless the whole window is proven;
      either way the progress envelope is closed. */
  method HydrateAtTip(rpc: RpcClient, tip: u64, policy: HydrationPolicy, phase: ReplayPhase, reset: bool, out: Outbox,
                      ghost shown: seq<Held>, ghost world: seq<FetchedBlock>)
    returns (r: Result<BackfillOutcome>, ghost window: DiscoveredWindow)
    requires out.Valid() && out.audit.legal
    requires !reset ==> out.audit.consumer == Consumer([], None)
    modifies rpc, out
    ensures rpc.calls >= old(rpc.calls)
    ensures out.Valid() && out.audit.legal && out.audit.progress == Some(Progress(false, phase))
    ensures out.audit.deepest == old(out.audit.deepest)
    ensures r.Err? ==> out.audit == old(out.audit).(progress := out.audit.progress)
    ensures r.Ok? ==>
              IsWindow(window, policy, tip) &&
              out.audit.consumer == Consumer(Ascending(window.descending), None) &&
              out.audit.lastMined == Some(tip) && out.audit.rebuilds == old(out.audit.rebuilds) + (if reset then 1 else 0) &&
              out.audit.highest == Some(if reset then tip else Raised(old(out.audit.highest), tip)) &&
              (reset || old(out.audit.junction.rebuilt)
               ==> out.audit.junction == old(out.audit.junction).(rebuilt := true)) &&
              r.value == BackfillOutcome(tip, WindowAnchors(window.descending)) &&
              out.audit.certificate ==
                (if window.complete && policy.targetCells != U64_MAX
                 then Some(CellHydrationCompleted(policy.targetCells, window.available, window.fromBlock, tip))
                 else old(out.audit.certificate))
    ensures policy.blockLimit != Some(0) && Serves(rpc.script, old(rpc.calls), world) && tip == |world| - 1
            ==> r.Ok? && AllFrom(window.descending, world)
    ensures Confirms(rpc.script, old(rpc.calls), shown, policy, tip)
            ==> r.Ok? && window.descending == shown && rpc.calls == old(rpc.calls) + |shown| + 1
    ensures Commits(rpc.script, world) && r.Ok? ==> HashesCommit(window.descending, world)
  {
    hide WorldWindow, ServesBlocks, Serves, Commits, HashesCommit, AllFrom, Linked, AuditLog, AuditStep;
    out.Send(BackfillProgress(0, 0, true, phase));
    var found := DiscoverWindow(rpc, tip, policy, out, phase, shown, world);
    window := DiscoveredWindow(tip, 0, 0, false, []);
    if found.Err? {
      out.Send(BackfillProgress(0, 0, false, phase));
      return Err(found.fault), window;
    }
    window := found.value;
    var outcome := ReplayDiscovered(found.value, policy, phase, reset, out);
    r := Ok(outcome);
  }
}

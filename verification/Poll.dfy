/** The canonical-chain follower: one poll validates the cursor, rolls back or rebuilds, and advances. */
module Poll {
  import opened Basics
  import opened Chain
  import opened Node
  import opened Backfill
  import opened Cursor

  const BOOT_HYDRATION_RETRY_ATTEMPTS: u64 := 3

  /** The cursor, and what the claims about it need of the stream. */
  datatype Stance = Stance(lastTip: Option<u64>, anchors: map<u64, Hash>, chain: seq<Held>, highest: Option<u64>,
                           junction: Junction)
  {
    /** The cursor resumed at the bare height `seat`. */
    ghost predicate Sits(script: Script, seat: u64) {
      SeatedOn(script, lastTip, anchors, chain, junction, seat)
    }

    /** No rollback it can make exceeds the horizon. */
    ghost predicate Bounded(reorgWindow: u64) {
      Shallow(lastTip, anchors, highest, reorgWindow)
    }

    /** Everything the consumer holds within the horizon of its highest block can still be proven. */
    ghost predicate Covered(reorgWindow: u64) {
      Retained(anchors, chain, highest, reorgWindow)
    }
  }

  /** Whether a replay is pending, and the last progress marker. */
  datatype Pace = Pace(progress: Option<Progress>, replaying: bool, catchingUp: bool)

  /** A walk from `height` towards a higher `tip` is reported if a replay was pending or it is longer than `threshold`;
      the marker it ends with is active, and the replay still pending, exactly while the tip has not been reached. */
  ghost predicate Paced(height: u64, tip: u64, threshold: u64, before: Pace, ok: bool, lastTip: Option<u64>, after: Pace) {
    var reached, phased := ok && lastTip == Some(tip), before.replaying || before.catchingUp || tip - height > threshold;
    if tip <= height then after == before
    else
      after.progress == (if phased then Some(Progress(ok && !reached, if before.replaying then Reorg else Catchup))
                         else before.progress) &&
      after.replaying == (!reached && before.replaying) &&
      after.catchingUp == (!reached && phased && (before.catchingUp || !before.replaying))
  }

  /** A rollback to `height` opens a replay, and says so itself when the tip leaves nothing to replay. */
  ghost function Replaying(height: u64, tip: u64, progress: Option<Progress>): Pace {
    Pace(if tip <= height then Some(Progress(true, Reorg)) else progress, true, false)
  }

  /** Wherever a cursor was seated, it still is, and on the same hash once its stream has named one. */
  ghost predicate KeepsSeats(script: Script, before: Stance, after: Stance) {
    forall seat: u64 :: before.Sits(script, seat) ==>
      after.Sits(script, seat) && (before.junction.parent.Some? ==> after.junction.parent == before.junction.parent)
  }

  /** What was true of a cursor still is: its rollbacks are bounded, its recent blocks provable, its seats kept. */
  ghost predicate Keeps(script: Script, reorgWindow: u64, before: Stance, after: Stance) {
    (before.Bounded(reorgWindow) ==> after.Bounded(reorgWindow)) &&
    (before.Covered(reorgWindow) ==> after.Covered(reorgWindow)) &&
    KeepsSeats(script, before, after)
  }

  lemma {:induction false} StillKeeps(script: Script, reorgWindow: u64, before: Stance, middle: Stance, after: Stance)
    requires Keeps(script, reorgWindow, before, middle) && Keeps(script, reorgWindow, middle, after)
    ensures Keeps(script, reorgWindow, before, after)
  {
    hide SeatedOn, Shallow, Retained;
  }

  lemma {:induction false} SameKeeps(script: Script, reorgWindow: u64, stance: Stance)
    ensures Keeps(script, reorgWindow, stance, stance)
  {
    hide SeatedOn, Shallow, Retained;
  }

  class PollState {
    var lastTip: Option<u64>
    var canonicalBlocks: map<u64, Hash>
    var replayingReorg: bool
    var catchingUp: bool
    var hydrationAttemptsLeft: u64

    /** The stream is legal and the cursor agrees with the consumer it feeds. */
    ghost predicate Follows(out: Outbox)
      reads this, out
    {
      out.Valid() && out.audit.legal &&
      Coherent(lastTip, canonicalBlocks, hydrationAttemptsLeft, out.audit.consumer)
    }

    /** The invariant between any two polls: besides, a progress envelope is only left open while a
        replay is pending. */
    ghost predicate Fits(out: Outbox)
      reads this, out
    {
      Follows(out) && (out.audit.Lit() ==> replayingReorg || catchingUp)
    }

    ghost predicate WithinHorizon(out: Outbox, reorgWindow: u64)
      reads this, out
    {
      StanceOver(out).Bounded(reorgWindow)
    }

    ghost function StanceOver(out: Outbox): Stance
      reads this, out
    {
      Stance(lastTip, canonicalBlocks, out.audit.consumer.chain, out.audit.highest, out.audit.junction)
    }

    ghost function PaceOver(out: Outbox): Pace
      reads this, out
    {
      Pace(out.audit.progress, replayingReorg, catchingUp)
    }

    ghost predicate Seated(out: Outbox, script: Script, seat: u64)
      reads this, out
    {
      StanceOver(out).Sits(script, seat)
    }

    ghost predicate Retains(out: Outbox, reorgWindow: u64)
      reads this, out
    {
      StanceOver(out).Covered(reorgWindow)
    }

    constructor ()
      ensures lastTip == None && canonicalBlocks == map[] && hydrationAttemptsLeft == 0
      ensures !replayingReorg && !catchingUp
    {
      lastTip, canonicalBlocks := None, map[];
      replayingReorg, catchingUp, hydrationAttemptsLeft := false, false, 0;
    }

    method SeedCanonical(anchors: seq<Anchor>)
      modifies this`canonicalBlocks
      ensures canonicalBlocks == Seeded(old(canonicalBlocks), anchors)
      ensures forall i :: 0 <= i < |anchors| && (forall j :: i < j < |anchors| ==> anchors[j].number != anchors[i].number)
                ==> anchors[i].number in canonicalBlocks && canonicalBlocks[anchors[i].number] == anchors[i].hash
      ensures forall n: u64 :: (forall i :: 0 <= i < |anchors| ==> anchors[i].number != n)
                ==> (n in canonicalBlocks <==> n in old(canonicalBlocks)) &&
                    (n in canonicalBlocks ==> canonicalBlocks[n] == old(canonicalBlocks)[n])
    {
      for i := 0 to |anchors|
        invariant canonicalBlocks == Seeded(old(canonicalBlocks), anchors[..i])
      {
        assert anchors[..i + 1][..i] == anchors[..i];
        canonicalBlocks := canonicalBlocks[anchors[i].number := anchors[i].hash];
      }
      assert anchors[..|anchors|] == anchors;
      forall i | 0 <= i < |anchors| && (forall j :: i < j < |anchors| ==> anchors[j].number != anchors[i].number)
        ensures anchors[i].number in canonicalBlocks && canonicalBlocks[anchors[i].number] == anchors[i].hash
      {
        LastAnchorCounts(old(canonicalBlocks), anchors, i);
      }
      forall n: u64 | forall i :: 0 <= i < |anchors| ==> anchors[i].number != n
        ensures (n in canonicalBlocks <==> n in old(canonicalBlocks)) &&
                (n in canonicalBlocks ==> canonicalBlocks[n] == old(canonicalBlocks)[n])
      {
        OtherAnchorsStay(old(canonicalBlocks), anchors, n);
      }
    }

    method ArmHydrationRetry()
      modifies this`hydrationAttemptsLeft
      ensures hydrationAttemptsLeft == BOOT_HYDRATION_RETRY_ATTEMPTS
    {
      hydrationAttemptsLeft := BOOT_HYDRATION_RETRY_ATTEMPTS;
    }

    method AdoptHydratedWindow(hydrated: BackfillOutcome, reorgWindow: u64)
      modifies this
      ensures lastTip == Some(hydrated.tip)
      ensures canonicalBlocks == Pruned(Seeded(map[], hydrated.anchors), hydrated.tip, reorgWindow)
      ensures !replayingReorg && !catchingUp && hydrationAttemptsLeft == old(hydrationAttemptsLeft)
    {
      canonicalBlocks := map[];
      SeedCanonical(hydrated.anchors);
      lastTip := Some(hydrated.tip);
      assert IsLatest(hydrated.tip);
      PruneCanonicalHistory(reorgWindow);
      replayingReorg := false;
      catchingUp := false;
    }

    /** The height pruning measures from: the cursor, or the highest anchor when there is no cursor. */
    ghost predicate IsLatest(latest: u64)
      reads this
    {
      lastTip == Some(latest) ||
      (lastTip.None? && latest in canonicalBlocks && forall n :: n in canonicalBlocks ==> n <= latest)
    }

    method PruneCanonicalHistory(reorgWindow: u64)
      modifies this`canonicalBlocks
      ensures forall latest :: old(IsLatest(latest)) ==>
                canonicalBlocks == Pruned(old(canonicalBlocks), latest, reorgWindow)
      ensures forall latest, n: u64 :: old(IsLatest(latest)) ==>
                (n in canonicalBlocks <==>
                 n in old(canonicalBlocks) && n + Min(Max(reorgWindow, 2), U64_MAX - 1) >= latest) &&
                (n in canonicalBlocks ==> canonicalBlocks[n] == old(canonicalBlocks)[n])
      ensures lastTip.None? && old(canonicalBlocks) == map[] ==> canonicalBlocks == map[]
    {
      var latest: u64;
      if lastTip.Some? {
        latest := lastTip.value;
      } else {
        if canonicalBlocks == map[] {
          return;
        }
        latest := HighestKey(canonicalBlocks);
      }
      canonicalBlocks := map n | n in canonicalBlocks && n >= RetainFrom(latest, reorgWindow) :: canonicalBlocks[n];
    }
  }

  // ----- over a consumer the cursor knows only by its height -----

  ghost predicate Said(script: Script, number: u64, hash: Hash) {
    exists t: nat :: script.hash(t, number) == Ok(Some(hash))
  }

  /** Everything anchored or sent lies on one block at the height `seat`, whose hash the first block above it names.
      The sent chain starts right above it, and the cursor never goes below it. */
  ghost predicate OverSeat(script: Script, lastTip: Option<u64>, anchors: map<u64, Hash>, chain: seq<Held>, j: Junction,
                           seat: u64) {
    lastTip.Some? &&
    (forall n :: n in anchors ==> n >= seat) &&
    (seat in anchors ==> Said(script, seat, anchors[seat]) && (j.parent.Some? ==> j.parent.value == anchors[seat])) &&
    (j.parent.Some? && (chain == [] || seat == U64_MAX - 1) ==> seat in anchors) &&
    (chain == [] ==> lastTip.value == seat) &&
    (chain != [] ==> chain[0].number == seat + 1 && j.seat.Some? && j.parent == Some(chain[0].block.parentHash))
  }

  /** The stream stands on one block at the height `seat`, whose hash the node gave, and never leaves it before a
      rebuild ends all dependence on it. */
  ghost predicate SeatedOn(script: Script, lastTip: Option<u64>, anchors: map<u64, Hash>, chain: seq<Held>, j: Junction,
                           seat: u64) {
    seat < U64_MAX && j.sound && (j.seat.Some? ==> j.seat.value == seat) &&
    (j.parent.Some? ==> Said(script, seat, j.parent.value)) &&
    (j.rebuilt || OverSeat(script, lastTip, anchors, chain, j, seat))
  }

  lemma {:induction false} LearningSits(
      script: Script, top: u64, anchors: map<u64, Hash>, attempts: nat, c: Consumer, highest: Option<u64>, j: Junction,
      hash: Hash)
    requires Coherent(Some(top), anchors, attempts, c) && top !in anchors && Said(script, top, hash)
    ensures KeepsSeats(script, Stance(Some(top), anchors, c.chain, highest, j),
                       Stance(Some(top), anchors[top := hash], c.chain, highest, j))
  {
  }

  lemma {:induction false} EmittingSits(
      script: Script, top: u64, anchors: map<u64, Hash>, attempts: nat, c: Consumer, highest: Option<u64>, j: Junction,
      number: u64, block: FetchedBlock, reorgWindow: u64)
    requires Coherent(Some(top), anchors, attempts, c)
    requires number == top + 1 && top in anchors && anchors[top] == block.parentHash
    ensures KeepsSeats(script, Stance(Some(top), anchors, c.chain, highest, j),
                       Stance(Some(number), Pruned(anchors[number := block.hash], number, reorgWindow),
                              c.chain + [Held(number, block)], Some(Raised(highest, number)),
                              JunctionStep(j, c.chain, BlockMined(number, block.hash, block.parentHash))))
  {
  }

  lemma {:induction false} RollbackSits(
      script: Script, top: u64, anchors: map<u64, Hash>, attempts: nat, c: Consumer, highest: Option<u64>, j: Junction,
      height: u64)
    requires Coherent(Some(top), anchors, attempts, c) && height in anchors
    ensures var from := SatSucc(height);
            KeepsSeats(script, Stance(Some(top), anchors, c.chain, highest, j),
                       Stance(Some(SatSub(from, 1)), Below(anchors, from), Truncate(c.chain, from), highest,
                              JunctionStep(j, c.chain, ChainReorganized(from))))
  {
    hide Linked, Agree, Truncate, Said, WaitsFor;
    CoherentIsLinked(Some(top), anchors, attempts, c);
    var from := SatSucc(height);
    var kept := Truncate(c.chain, from);
    KeptEndsAtBoundary(c.chain, from);
    TruncateIsExact(c.chain, from);
    if c.chain != [] && kept == [] {
      assert c.chain[0] !in kept;
    }
  }

  lemma {:induction false} EmittedKeeps(
      script: Script, top: u64, anchors: map<u64, Hash>, attempts: nat, c: Consumer, highest: Option<u64>, j: Junction,
      number: u64, block: FetchedBlock, reorgWindow: u64)
    requires Coherent(Some(top), anchors, attempts, c)
    requires number == top + 1 && top in anchors && anchors[top] == block.parentHash
    ensures Keeps(script, reorgWindow, Stance(Some(top), anchors, c.chain, highest, j),
                  Stance(Some(number), Pruned(anchors[number := block.hash], number, reorgWindow),
                         c.chain + [Held(number, block)], Some(Raised(highest, number)),
                         JunctionStep(j, c.chain, BlockMined(number, block.hash, block.parentHash))))
  {
    hide Coherent, Shallow, Retained, SeatedOn, Pruned, JunctionStep;
    if Shallow(Some(top), anchors, highest, reorgWindow) {
      EmittingStaysShallow(top, anchors, highest, number, block.hash, reorgWindow);
    }
    if Retained(anchors, c.chain, highest, reorgWindow) {
      EmittingRetains(anchors, c.chain, highest, number, block, reorgWindow);
    }
    EmittingSits(script, top, anchors, attempts, c, highest, j, number, block, reorgWindow);
  }

  lemma {:induction false} RolledBackKeeps(
      script: Script, top: u64, anchors: map<u64, Hash>, c: Consumer, highest: Option<u64>, j: Junction, height: u64,
      reorgWindow: u64)
    requires Coherent(Some(top), anchors, 0, c) && height in anchors
    ensures var from := SatSucc(height);
            Keeps(script, reorgWindow, Stance(Some(top), anchors, c.chain, highest, j),
                  Stance(Some(SatSub(from, 1)), Below(anchors, from), Truncate(c.chain, from), highest,
                         JunctionStep(j, c.chain, ChainReorganized(from))))
    ensures Shallow(Some(top), anchors, highest, reorgWindow) ==> Depth(highest, SatSucc(height)) <= Horizon(reorgWindow)
  {
    hide Coherent, Shallow, Retained, SeatedOn, Below, Truncate, JunctionStep, Depth;
    CoherentIsLinked(Some(top), anchors, 0, c);
    if Shallow(Some(top), anchors, highest, reorgWindow) {
      RollbackKeepsShallow(top, anchors, highest, reorgWindow, height);
    }
    if Retained(anchors, c.chain, highest, reorgWindow) {
      RollbackRetains(anchors, c.chain, highest, SatSucc(height), reorgWindow);
    }
    RollbackSits(script, top, anchors, 0, c, highest, j, height);
  }

  lemma {:induction false} PruningSits(
      script: Script, top: u64, anchors: map<u64, Hash>, chain: seq<Held>, highest: Option<u64>, j: Junction,
      reorgWindow: u64)
    ensures KeepsSeats(script, Stance(Some(top), anchors, chain, highest, j),
                       Stance(Some(top), Pruned(anchors, top, reorgWindow), chain, highest, j))
  {
  }

  /** After a rebuild nothing depends on the seat. */
  lemma {:induction false} RebuiltSits(script: Script, before: Stance, after: Stance)
    requires before.junction.rebuilt || before.lastTip.Some? ==> after.junction == before.junction.(rebuilt := true)
    ensures KeepsSeats(script, before, after)
  {
  }

  /** The last key of an ordered map. */
  method HighestKey(m: map<u64, Hash>) returns (highest: u64)
    requires m != map[]
    ensures highest in m && forall n :: n in m ==> n <= highest
  {
    var rest := m.Keys;
    highest :| highest in rest;
    rest := rest - {highest};
    while rest != {}
      invariant highest in m && rest <= m.Keys
      invariant forall n :: n in m ==> n <= highest || n in rest
      decreases |rest|
    {
      var n :| n in rest;
      rest := rest - {n};
      if n > highest {
        highest := n;
      }
    }
  }

  // ----- classifying the cursor -----

  datatype CanonicalChange = Unchanged | Reorganize(fromBlock: u64) | Rebuild

  /** The anchors at or below `height`, highest first: an ordered map's range, reversed. */
  function DescendingUpTo(anchors: map<u64, Hash>, height: u64): seq<Anchor>
    decreases height
  {
    (if height in anchors then [Anchor(height, anchors[height])] else []) +
    (if height == 0 then [] else DescendingUpTo(anchors, height - 1))
  }

  /** Anchor by anchor down from `height`, with no gap. */
  ghost predicate Listed(anchors: map<u64, Hash>, height: u64, list: seq<Anchor>) {
    forall i :: 0 <= i < |list| ==>
      list[i].number == height - i && list[i].number in anchors && list[i].hash == anchors[list[i].number]
  }

  lemma {:induction false} NothingBelow(anchors: map<u64, Hash>, height: u64)
    requires forall n :: n in anchors ==> n > height
    ensures DescendingUpTo(anchors, height) == []
    decreases height
  {
    if height > 0 {
      NothingBelow(anchors, height - 1);
    }
  }

  lemma {:induction false} DescendingIsInterval(anchors: map<u64, Hash>, top: u64, height: u64)
    requires Contiguous(anchors, top) && height <= top
    ensures Listed(anchors, height, DescendingUpTo(anchors, height))
    ensures forall n :: n in anchors && n <= height ==> height - n < |DescendingUpTo(anchors, height)|
    decreases height
  {
    if height > 0 {
      DescendingIsInterval(anchors, top, height - 1);
      if height !in anchors {
        NothingBelow(anchors, height - 1);
      }
    }
  }

  ghost predicate Differs(reply: Result<Option<Hash>>, hash: Hash) {
    reply.Ok? && reply.value.Some? && reply.value.value != hash
  }

  /** From call `first` on, the anchors from `search` down to `low` were asked for one by one, and all differed. */
  ghost predicate AllDiffer(script: Script, first: nat, search: u64, low: int, anchors: map<u64, Hash>) {
    forall n :: n in anchors && low <= n <= search ==> Differs(script.hash(first + search - n, n), anchors[n])
  }

  /** From call `since` on, the node has a hash for every anchored height. */
  ghost predicate NamesAll(script: Script, since: nat, anchors: map<u64, Hash>) {
    forall t: nat, n: u64 :: since <= t && n in anchors ==> script.hash(t, n).Ok? && script.hash(t, n).value.Some?
  }

  /** A fork right above `n`: whenever it is asked, the node confirms the anchors up to that one and no other. */
  ghost predicate ForksAt(script: Script, since: nat, lastTip: Option<u64>, anchors: map<u64, Hash>, tip: u64, n: u64) {
    NamesAll(script, since, anchors) && lastTip.Some? && n in anchors && n < lastTip.value && n <= tip &&
    forall t: nat, k: u64 :: since <= t && k in anchors
      ==> (script.hash(t, k) == Ok(Some(anchors[k])) <==> k <= n)
  }

  /** The poll that starts at call `t` reads a tip and meets a fork right above `n`. */
  ghost predicate PollForks(script: Script, t: nat, lastTip: Option<u64>, anchors: map<u64, Hash>, n: u64) {
    script.tip(t).Ok? && ForksAt(script, t + 1, lastTip, anchors, script.tip(t).value, n)
  }

  /** Walk the anchors from `search` down to the highest one the node confirms. */
  method FindAncestor(rpc: RpcClient, state: PollState, search: u64, ghost world: seq<FetchedBlock>)
    returns (r: Result<Option<u64>>)
    requires state.lastTip.Some? && search <= state.lastTip.value
    requires Contiguous(state.canonicalBlocks, state.lastTip.value)
    modifies rpc
    ensures rpc.calls >= old(rpc.calls)
    ensures r.Ok? && r.value.Some? ==>
              r.value.value in state.canonicalBlocks && r.value.value <= search &&
              rpc.script.hash(old(rpc.calls) + search - r.value.value, r.value.value)
                == Ok(Some(state.canonicalBlocks[r.value.value])) &&
              AllDiffer(rpc.script, old(rpc.calls), search, r.value.value + 1, state.canonicalBlocks)
    ensures r.Ok? && r.value.None? ==> AllDiffer(rpc.script, old(rpc.calls), search, 0, state.canonicalBlocks)
    ensures Serves(rpc.script, old(rpc.calls), world) && search < |world| ==> r.Ok?
    ensures NamesAll(rpc.script, old(rpc.calls), state.canonicalBlocks) ==> r.Ok?
  {
    var anchors := DescendingUpTo(state.canonicalBlocks, search);
    DescendingIsInterval(state.canonicalBlocks, state.lastTip.value, search);
    hide DescendingUpTo, Contiguous;
    ghost var kept := state.canonicalBlocks;
    assert Listed(kept, search, anchors);
    var i := 0;
    while i < |anchors|
      invariant 0 <= i <= |anchors| && rpc.calls == old(rpc.calls) + i && state.canonicalBlocks == kept
      invariant AllDiffer(rpc.script, old(rpc.calls), search, search + 1 - i, state.canonicalBlocks)
    {
      var number := anchors[i].number;
      assert number == search - i && number in state.canonicalBlocks;
      var reply := rpc.GetBlockHash(number);
      if reply.Err? {
        return Err(reply.fault);
      }
      if reply.value.None? {
        return Err(Missing(number));
      }
      if anchors[i].hash == reply.value.value {
        return Ok(Some(number));
      }
      i := i + 1;
    }
    r := Ok(None);
  }

  /** What the answers of one classification say, call by call. `first` is the call counter before it. */
  ghost predicate Classified(script: Script, first: nat, prev: u64, before: map<u64, Hash>, after: map<u64, Hash>,
                             tip: u64, change: CanonicalChange)
  {
    var search := Min(tip, prev);
    var walk := if tip >= prev then first + 1 else first;
    match change
    case Unchanged =>
      tip >= prev &&
      (var reply := script.hash(first, prev);
       if prev in before then after == before && reply == Ok(Some(before[prev]))
       else reply.Ok? && after == if reply.value.Some? then before[prev := reply.value.value] else before)
    case Reorganize(from) =>
      after == before &&
      (tip >= prev ==> prev in before && Differs(script.hash(first, prev), before[prev])) &&
      exists ancestor: u64 :: IsAncestor(script, walk, search, before, ancestor) && from == SatSucc(ancestor)
    case Rebuild =>
      after == before &&
      (tip >= prev ==> prev in before && Differs(script.hash(first, prev), before[prev])) &&
      AllDiffer(script, walk, search, 0, before)
  }

  /** The highest retained height at which the node agreed. */
  ghost predicate IsAncestor(script: Script, first: nat, search: u64, anchors: map<u64, Hash>, ancestor: u64) {
    ancestor in anchors && ancestor <= search &&
    script.hash(first + search - ancestor, ancestor) == Ok(Some(anchors[ancestor])) &&
    AllDiffer(script, first, search, ancestor + 1, anchors)
  }

  /** At call `t` the node answers for the cursor's own height, and does not contradict the hash the cursor knows. */
  ghost predicate ConfirmsTop(script: Script, t: nat, lastTip: Option<u64>, anchors: map<u64, Hash>) {
    lastTip.Some? && script.hash(t, lastTip.value).Ok? &&
    (lastTip.value in anchors ==> script.hash(t, lastTip.value) == Ok(Some(anchors[lastTip.value])))
  }

  /** A cursor that knows its height but no hash for it. */
  ghost predicate BareAt(lastTip: Option<u64>, anchors: map<u64, Hash>) {
    lastTip.Some? && lastTip.value !in anchors
  }

  method FindCanonicalChange(rpc: RpcClient, state: PollState, tip: u64, ghost world: seq<FetchedBlock>)
    returns (r: Result<CanonicalChange>)
    requires state.lastTip.Some? ==> Contiguous(state.canonicalBlocks, state.lastTip.value)
    modifies rpc, state`canonicalBlocks
    ensures rpc.calls >= old(rpc.calls)
    ensures r.Err? || state.lastTip.None? ==> state.canonicalBlocks == old(state.canonicalBlocks)
    ensures r.Ok? && state.lastTip.None? ==> r.value == Unchanged
    ensures r.Ok? && state.lastTip.Some? ==>
              Classified(rpc.script, old(rpc.calls), state.lastTip.value, old(state.canonicalBlocks),
                         state.canonicalBlocks, tip, r.value)
    ensures Serves(rpc.script, old(rpc.calls), world) && tip < |world| ==> r.Ok?
    ensures Serves(rpc.script, old(rpc.calls), world) && tip < |world| && state.lastTip.Some? && state.lastTip.value <= tip
            ==> r.value == Unchanged ==> state.lastTip.value in state.canonicalBlocks
    ensures state.lastTip.Some? && state.lastTip.value in old(state.canonicalBlocks) &&
            NamesAll(rpc.script, old(rpc.calls), old(state.canonicalBlocks))
            ==> r.Ok?
    ensures r == Ok(Unchanged) && state.lastTip.Some? ==> rpc.calls == old(rpc.calls) + 1
    ensures ConfirmsTop(rpc.script, old(rpc.calls), state.lastTip, old(state.canonicalBlocks)) && state.lastTip.value <= tip
            ==> r == Ok(Unchanged)
    ensures BareAt(state.lastTip, old(state.canonicalBlocks)) && state.lastTip.value <= tip
            ==> (r.Err? <==> rpc.script.hash(old(rpc.calls), state.lastTip.value).Err?)
  {
    if state.lastTip.None? {
      return Ok(Unchanged);
    }
    var prev := state.lastTip.value;
    if tip >= prev {
      if prev !in state.canonicalBlocks {
        var reply := rpc.GetBlockHash(prev);
        if reply.Err? {
          return Err(reply.fault);
        }
        if reply.value.Some? {
          state.canonicalBlocks := state.canonicalBlocks[prev := reply.value.value];
        }
        return Ok(Unchanged);
      }
      var localHash := state.canonicalBlocks[prev];
      var reply := rpc.GetBlockHash(prev);
      if reply.Err? {
        return Err(reply.fault);
      }
      if reply.value.None? {
        return Err(Missing(prev));
      }
      if localHash == reply.value.value {
        return Ok(Unchanged);
      }
    }

    var searchTip := Min(tip, prev);
    var ancestor := FindAncestor(rpc, state, searchTip, world);
    if ancestor.Err? {
      return Err(ancestor.fault);
    }
    if ancestor.value.None? {
      return Ok(CanonicalChange.Rebuild);
    }
    r := Ok(Reorganize(SatSucc(ancestor.value.value)));
  }

  // ----- emitting -----

  /** The hash the next block must name as its parent; asked of the node when no anchor holds it. */
  method ExpectedParent(rpc: RpcClient, state: PollState, parentHeight: u64, ghost world: seq<FetchedBlock>)
    returns (r: Result<Hash>)
    modifies rpc, state`canonicalBlocks
    ensures old(rpc.calls) <= rpc.calls <= old(rpc.calls) + 1
    ensures parentHeight in old(state.canonicalBlocks) ==>
              r == Ok(old(state.canonicalBlocks)[parentHeight]) && rpc.calls == old(rpc.calls)
    ensures parentHeight !in old(state.canonicalBlocks) ==>
              var reply := rpc.script.hash(old(rpc.calls), parentHeight);
              if reply.Ok? && reply.value.Some? then r == Ok(reply.value.value) else r.Err?
    ensures state.canonicalBlocks ==
            if r.Ok? then old(state.canonicalBlocks)[parentHeight := r.value] else old(state.canonicalBlocks)
    ensures Serves(rpc.script, old(rpc.calls), world) && parentHeight < |world| &&
            (parentHeight in old(state.canonicalBlocks) ==>
               old(state.canonicalBlocks)[parentHeight] == world[parentHeight].hash)
            ==> r == Ok(world[parentHeight].hash)
  {
    if parentHeight in state.canonicalBlocks {
      assert state.canonicalBlocks == state.canonicalBlocks[parentHeight := state.canonicalBlocks[parentHeight]];
      return Ok(state.canonicalBlocks[parentHeight]);
    }
    var reply := rpc.GetBlockHash(parentHeight);
    if reply.Err? {
      return Err(reply.fault);
    }
    if reply.value.None? {
      return Err(Missing(parentHeight));
    }
    state.canonicalBlocks := state.canonicalBlocks[parentHeight := reply.value.value];
    r := Ok(reply.value.value);
  }

  /** If the cursor knows a hash for its own height, it is the node's. */
  ghost predicate TopAgrees(lastTip: Option<u64>, anchors: map<u64, Hash>, world: seq<FetchedBlock>) {
    lastTip.Some? && lastTip.value < |world| &&
    (lastTip.value in anchors ==> anchors[lastTip.value] == world[lastTip.value].hash)
  }

  /** A node that served the cursor's own height is still the one the cursor follows. */
  ghost predicate OnWorld(lastTip: Option<u64>, anchors: map<u64, Hash>, chain: seq<Held>, world: seq<FetchedBlock>) {
    AllFrom(chain, world) && TopAgrees(lastTip, anchors, world)
  }

  /** What a block announced above `height` names as its parent: the retained anchor, or what the node says at
      call `t`. */
  ghost predicate NamesParent(script: Script, t: nat, anchors: map<u64, Hash>, height: u64, parent: Hash) {
    if height in anchors then parent == anchors[height] else script.hash(t, height) == Ok(Some(parent))
  }

  /** The block that a walk starting at call `t` announces above `height`, if any: the node shows it, and it names the
      right parent. */
  ghost function NextBlock(script: Script, t: nat, anchors: map<u64, Hash>, height: u64): Option<FetchedBlock>
    requires height < U64_MAX
  {
    var reply := script.block(t, height + 1);
    if Visible(reply) && NamesParent(script, t + 1, anchors, height, reply.value.value.parentHash) then reply.value else None
  }

  /** What was sent after `before` starts with `next`, and nothing was sent without one. */
  ghost predicate GrewFrom(before: seq<Held>, after: seq<Held>, number: int, next: Option<FetchedBlock>) {
    if next.None? then after == before
    else before < after && after[|before|].number == number && after[|before|].block == next.value
  }

  /** A block may follow only the block its header names. */
  method CheckParent(rpc: RpcClient, state: PollState, out: Outbox, number: u64, block: FetchedBlock, reorgWindow: u64,
                     ghost world: seq<FetchedBlock>)
    returns (r: Result<()>)
    requires state.Follows(out) && number > 0 && state.lastTip == Some(number - 1)
    modifies rpc, state`canonicalBlocks
    ensures rpc.calls >= old(rpc.calls)
    ensures state.Follows(out)
    ensures r.Ok? ==> number - 1 in state.canonicalBlocks && state.canonicalBlocks[number - 1] == block.parentHash
    ensures r.Ok? <==> NamesParent(rpc.script, old(rpc.calls), old(state.canonicalBlocks), number - 1, block.parentHash)
    ensures Keeps(rpc.script, reorgWindow, old(state.StanceOver(out)), state.StanceOver(out))
    ensures Serves(rpc.script, old(rpc.calls), world) && number < |world| && block == world[number] &&
            OnWorld(old(state.lastTip), old(state.canonicalBlocks), out.Chain(), world)
            ==> r.Ok?
  {
    hide Coherent, Shallow, Retained, AllFrom, SeatedOn;
    ghost var before := state.canonicalBlocks;
    var parent := ExpectedParent(rpc, state, number - 1, world);
    if parent.Err? {
      return Err(parent.fault);
    }
    LearningRetains(before, out.Chain(), out.audit.highest, number - 1, parent.value, reorgWindow);
    if number - 1 !in before {
      LearnedTopKeeps(number - 1, before, state.hydrationAttemptsLeft, out.audit.consumer, parent.value,
                      out.audit.highest, reorgWindow);
      LearningSits(rpc.script, number - 1, before, state.hydrationAttemptsLeft, out.audit.consumer, out.audit.highest,
                   out.audit.junction, parent.value);
    } else {
      assert before[number - 1 := parent.value] == before;
    }
    if block.parentHash != parent.value {
      return Err(LinkageMismatch(number));
    }
    r := Ok(());
  }

  /** Announce a block whose parent the cursor stands on, and move the cursor to it. */
  method Announce(state: PollState, out: Outbox, number: u64, block: FetchedBlock, reorgWindow: u64, ghost script: Script)
    requires state.Follows(out) && number > 0 && state.lastTip == Some(number - 1)
    requires number - 1 in state.canonicalBlocks && state.canonicalBlocks[number - 1] == block.parentHash
    modifies state`canonicalBlocks, state`lastTip, out
    ensures state.Follows(out)
    ensures state.lastTip == Some(number) && out.Chain() == old(out.Chain()) + [Held(number, block)]
    ensures state.canonicalBlocks == Pruned(old(state.canonicalBlocks)[number := block.hash], number, reorgWindow)
    ensures number in state.canonicalBlocks && state.canonicalBlocks[number] == block.hash
    ensures out.audit.lastMined == Some(number) && out.audit.mined == old(out.audit.mined) + 1
    ensures out.audit.progress == old(out.audit.progress) && out.audit.deepest == old(out.audit.deepest)
    ensures out.audit.rebuilds == old(out.audit.rebuilds)
    ensures out.audit.highest == Some(Raised(old(out.audit.highest), number))
    ensures out.audit.junction.rebuilt == old(out.audit.junction.rebuilt)
    ensures out.audit.highest == state.lastTip ==> state.WithinHorizon(out, reorgWindow)
    ensures Keeps(script, reorgWindow, old(state.StanceOver(out)), state.StanceOver(out))
  {
    hide AuditLog, Coherent, Shallow, Retained, SeatedOn, Keeps, JunctionStep, Accepts;
    EmittedKeeps(script, number - 1, state.canonicalBlocks, state.hydrationAttemptsLeft, out.audit.consumer,
                 out.audit.highest, out.audit.junction, number, block, reorgWindow);
    EmittingKeeps(number - 1, state.canonicalBlocks, state.hydrationAttemptsLeft, out.audit.consumer, number, block, reorgWindow);
    EmittingIsNoRebuild(out.audit.junction, out.Chain(), BlockMined(number, block.hash, block.parentHash));
    out.SendBlock(number, block);
    state.canonicalBlocks := state.canonicalBlocks[number := block.hash];
    state.lastTip := Some(number);
    assert state.IsLatest(number);
    state.PruneCanonicalHistory(reorgWindow);
  }

  lemma {:induction false} EmittingIsNoRebuild(j: Junction, chain: seq<Held>, m: Mutation)
    requires m.BlockMined?
    ensures JunctionStep(j, chain, m).rebuilt == j.rebuilt
  {
  }

  /** One block above the cursor: `Ok(true)` emitted it whole, `Ok(false)` found it not visible yet. */
  method EmitNext(rpc: RpcClient, state: PollState, out: Outbox, number: u64, reorgWindow: u64,
                  ghost world: seq<FetchedBlock>)
    returns (r: Result<bool>)
    requires state.Follows(out)
    requires number > 0 && state.lastTip == Some(number - 1)
    modifies rpc, state`canonicalBlocks, state`lastTip, out
    ensures rpc.calls >= old(rpc.calls)
    ensures state.Follows(out)
    ensures r == Ok(true) ==>
              var reply := rpc.script.block(old(rpc.calls), number);
              reply.Ok? && reply.value.Some? && out.Chain() == old(out.Chain()) + [Held(number, reply.value.value)] &&
              state.lastTip == Some(number) && out.audit.lastMined == Some(number) &&
              out.audit.mined == old(out.audit.mined) + 1 &&
              (out.audit.highest == state.lastTip ==> state.WithinHorizon(out, reorgWindow))
    ensures GrewFrom(old(out.Chain()), out.Chain(), number,
                     NextBlock(rpc.script, old(rpc.calls), old(state.canonicalBlocks), number - 1))
    ensures r != Ok(true) ==> state.lastTip == old(state.lastTip) && out.audit == old(out.audit)
    ensures out.audit.junction.rebuilt == old(out.audit.junction.rebuilt)
    ensures Keeps(rpc.script, reorgWindow, old(state.StanceOver(out)), state.StanceOver(out))
    ensures r == Ok(false) ==> rpc.calls > 0 && rpc.script.block(rpc.calls - 1, number) == Ok(None)
    ensures out.audit.progress == old(out.audit.progress) && out.audit.deepest == old(out.audit.deepest)
    ensures out.audit.rebuilds == old(out.audit.rebuilds)
    ensures Commits(rpc.script, world) && HashesCommit(old(out.Chain()), world) ==> HashesCommit(out.Chain(), world)
    ensures Serves(rpc.script, old(rpc.calls), world) && number < |world| &&
            OnWorld(old(state.lastTip), old(state.canonicalBlocks), old(out.Chain()), world)
            ==> r == Ok(true) && OnWorld(state.lastTip, state.canonicalBlocks, out.Chain(), world)
  {
    hide AuditLog, AllFrom, Coherent, Shallow, Retained, SeatedOn, NamesParent, Keeps;
    ghost var stance := state.StanceOver(out);
    SameKeeps(rpc.script, reorgWindow, stance);
    var fetched := rpc.FetchAndTranslate(number);
    if fetched.Err? {
      return Err(fetched.fault);
    }
    if fetched.value.None? {
      return Ok(false);
    }
    var block := fetched.value.value;
    StillServes(rpc.script, old(rpc.calls), rpc.calls, world);
    var linked := CheckParent(rpc, state, out, number, block, reorgWindow, world);
    if linked.Err? {
      return Err(linked.fault);
    }
    AppendStaysOnWorld(out.Chain(), world, number, block);
    ghost var checked := state.StanceOver(out);
    Announce(state, out, number, block, reorgWindow, rpc.script);
    StillKeeps(rpc.script, reorgWindow, stance, checked, state.StanceOver(out));
    r := Ok(true);
  }

  /** `blocks` blocks were announced, and nothing was rolled back or rebuilt. */
  ghost predicate GrewBy(before: Audit, after: Audit, blocks: nat) {
    before.consumer.chain <= after.consumer.chain &&
    |after.consumer.chain| == |before.consumer.chain| + blocks && after.mined == before.mined + blocks &&
    after.deepest == before.deepest && after.rebuilds == before.rebuilds &&
    after.junction.rebuilt == before.junction.rebuilt &&
    (blocks == 0 ==> after.junction == before.junction)
  }

  lemma {:induction false} NothingGrew(start: Audit)
    ensures GrewBy(start, start, 0)
  {
  }

  lemma {:induction false} GrewOneMore(start: Audit, before: Audit, after: Audit, done: nat, number: int,
                                       next: Option<FetchedBlock>)
    requires GrewBy(start, before, done)
    requires if done == 0 then before == start && GrewFrom(start.consumer.chain, after.consumer.chain, number, next)
             else GrewFrom(start.consumer.chain, before.consumer.chain, number, next)
    requires |after.consumer.chain| > 0 && after.consumer.chain == before.consumer.chain + [Top(after.consumer.chain)]
    requires after.mined == before.mined + 1 && after.deepest == before.deepest && after.rebuilds == before.rebuilds
    requires after.junction.rebuilt == before.junction.rebuilt
    ensures forall progress :: GrewBy(start, after.(progress := progress), done + 1)
    ensures GrewFrom(start.consumer.chain, after.consumer.chain, number, next)
  {
  }

  /** What a walk that starts at call `first` over the heights from `lo` to `hi` has made of the stream `start` and the cursor
      `from` once it has announced `done` blocks. */
  ghost predicate Walked(script: Script, reorgWindow: u64, world: seq<FetchedBlock>, first: nat, start: Audit, from: Stance,
                         lo: u64, hi: u64, audit: Audit, stance: Stance, done: nat)
  {
    0 < lo && GrewBy(start, audit, done) && Keeps(script, reorgWindow, from, stance) &&
    GrewFrom(start.consumer.chain, audit.consumer.chain, lo, NextBlock(script, first, from.anchors, lo - 1)) &&
    (done > 0 && audit.highest == stance.lastTip ==> stance.Bounded(reorgWindow)) &&
    (Commits(script, world) && HashesCommit(start.consumer.chain, world) ==> HashesCommit(audit.consumer.chain, world)) &&
    (Serves(script, first, world) && hi < |world| && OnWorld(from.lastTip, from.anchors, from.chain, world)
     ==> OnWorld(stance.lastTip, stance.anchors, stance.chain, world))
  }

  /** One step of it: `sent` says whether a block was announced, and a stable node always lets it. */
  lemma {:induction false} WalkedOneMore(
      script: Script, reorgWindow: u64, world: seq<FetchedBlock>, first: nat, start: Audit, from: Stance, lo: u64, hi: u64,
      calls: nat, before: Audit, stance: Stance, after: Audit, now: Stance, done: nat, sent: bool)
    requires 0 < lo && lo + done <= hi && first <= calls
    requires if done == 0 then before == start && stance == from && calls == first
             else Walked(script, reorgWindow, world, first, start, from, lo, hi, before, stance, done)
    requires Keeps(script, reorgWindow, stance, now)
    requires before.consumer.chain == stance.chain && after.consumer.chain == now.chain && after.highest == now.highest
    requires GrewFrom(stance.chain, now.chain, lo + done, NextBlock(script, calls, stance.anchors, lo + done - 1))
    requires if sent then |now.chain| > 0 && now.chain == stance.chain + [Top(now.chain)] &&
                          after.mined == before.mined + 1 && after.deepest == before.deepest &&
                          after.rebuilds == before.rebuilds &&
                          after.junction.rebuilt == before.junction.rebuilt &&
                          (after.highest == now.lastTip ==> now.Bounded(reorgWindow))
             else after == before && now.lastTip == stance.lastTip
    requires Commits(script, world) && HashesCommit(stance.chain, world) ==> HashesCommit(now.chain, world)
    requires Serves(script, calls, world) && lo + done < |world| &&
             OnWorld(stance.lastTip, stance.anchors, stance.chain, world)
             ==> sent && OnWorld(now.lastTip, now.anchors, now.chain, world)
    ensures forall progress :: Walked(script, reorgWindow, world, first, start, from, lo, hi, after.(progress := progress), now,
                                       if sent then done + 1 else done)
    ensures Serves(script, first, world) && hi < |world| && OnWorld(from.lastTip, from.anchors, from.chain, world) ==> sent
  {
    hide NextBlock, Commits, HashesCommit, Serves, OnWorld, Shallow, KeepsSeats, Retained;
    StillServes(script, first, calls, world);
    SameKeeps(script, reorgWindow, from);
    StillKeeps(script, reorgWindow, from, stance, now);
    var next := NextBlock(script, first, from.anchors, lo - 1);
    if done == 0 {
      NothingGrew(start);
    }
    if sent {
      GrewOneMore(start, before, after, done, lo, next);
    }
  }

  /** The loop over a range: `done` blocks are emitted whole and in order; it stops early, without an
      error, exactly at a block the node does not show yet. */
  method EmitBlocks(rpc: RpcClient, state: PollState, out: Outbox, lo: u64, hi: u64, phase: Option<ReplayPhase>,
                    reorgWindow: u64, ghost world: seq<FetchedBlock>)
    returns (r: Result<()>, done: nat)
    requires state.Follows(out)
    requires 0 < lo <= hi && state.lastTip == Some(lo - 1)
    modifies rpc, state`canonicalBlocks, state`lastTip, out
    ensures rpc.calls >= old(rpc.calls)
    ensures state.Follows(out)
    ensures done <= hi - lo + 1 && state.lastTip == Some(lo - 1 + done)
    ensures Walked(rpc.script, reorgWindow, world, old(rpc.calls), old(out.audit), old(state.StanceOver(out)), lo, hi,
                   out.audit, state.StanceOver(out), done)
    ensures phase.None? ==> out.audit.progress == old(out.audit.progress)
    ensures r.Ok? && done < hi - lo + 1 ==> rpc.calls > 0 && rpc.script.block(rpc.calls - 1, lo + done) == Ok(None)
    ensures Serves(rpc.script, old(rpc.calls), world) && hi < |world| &&
            OnWorld(old(state.lastTip), old(state.canonicalBlocks), old(out.Chain()), world)
            ==> r.Ok? && done == hi - lo + 1
  {
    hide AuditLog, AuditStep, AllFrom, Coherent, Shallow, Retained, Commits, HashesCommit, Keeps, NamesParent, OnWorld,
         Serves, GrewBy, GrewFrom, NextBlock, TopAgrees, Walked, SeatedOn;
    done := 0;
    ghost var first, start, from := rpc.calls, out.audit, state.StanceOver(out);
    while done < hi - lo + 1
      invariant done <= hi - lo + 1 && state.lastTip == Some(lo - 1 + done)
      invariant rpc.calls >= first
      invariant state.Follows(out)
      invariant if done == 0 then rpc.calls == first && out.audit == start && state.StanceOver(out) == from
                else Walked(rpc.script, reorgWindow, world, first, start, from, lo, hi, out.audit, state.StanceOver(out), done)
      invariant phase.None? ==> out.audit.progress == start.progress
    {
      ghost var calls, before, stance := rpc.calls, out.audit, state.StanceOver(out);
      var emitted := EmitNext(rpc, state, out, lo + done, reorgWindow, world);
      WalkedOneMore(rpc.script, reorgWindow, world, first, start, from, lo, hi, calls, before, stance, out.audit,
                    state.StanceOver(out), done, emitted == Ok(true));
      if emitted.Err? {
        return Err(emitted.fault), done;
      }
      if !emitted.value {
        return Ok(()), done;
      }
      done := done + 1;
      ReportEmitted(out, done, hi - lo + 1, phase);
    }
    r := Ok(());
  }

  /** A phased range reports every few blocks, but not its end. */
  method ReportEmitted(out: Outbox, done: nat, total: nat, phase: Option<ReplayPhase>)
    requires out.Valid()
    modifies out
    ensures out.Valid() && out.audit == old(out.audit).(progress := out.audit.progress)
    ensures phase.None? ==> out.audit.progress == old(out.audit.progress)
  {
    hide AuditLog, AuditStep;
    if phase.Some? && done % 25 == 0 && done != total {
      out.Send(BackfillProgress(done, total, true, phase.value));
    }
  }

  method EmitCanonicalRange(rpc: RpcClient, state: PollState, out: Outbox, lo: u64, hi: u64, phase: Option<ReplayPhase>,
                            reorgWindow: u64, ghost world: seq<FetchedBlock>)
    returns (r: Result<()>)
    requires state.Follows(out)
    requires 0 < lo && state.lastTip == Some(lo - 1)
    modifies rpc, state`canonicalBlocks, state`lastTip, out
    ensures rpc.calls >= old(rpc.calls)
    ensures state.Follows(out)
    ensures state.lastTip.Some? && lo - 1 <= state.lastTip.value <= Max(hi, lo - 1)
    ensures GrewBy(old(out.audit), out.audit, state.lastTip.value - (lo - 1))
    ensures r.Ok? && state.lastTip.value < hi ==>
              rpc.calls > 0 && rpc.script.block(rpc.calls - 1, state.lastTip.value + 1) == Ok(None)
    ensures out.audit.progress == if phase.None? || lo > hi then old(out.audit.progress)
                                  else Some(Progress(r.Ok? && state.lastTip != Some(hi), phase.value))
    ensures out.audit.mined > old(out.audit.mined) && out.audit.highest == state.lastTip
            ==> state.WithinHorizon(out, reorgWindow)
    ensures if lo > hi then out.Chain() == old(out.Chain())
            else GrewFrom(old(out.Chain()), out.Chain(), lo,
                          NextBlock(rpc.script, old(rpc.calls), old(state.canonicalBlocks), lo - 1))
    ensures Keeps(rpc.script, reorgWindow, old(state.StanceOver(out)), state.StanceOver(out))
    ensures Commits(rpc.script, world) && HashesCommit(old(out.Chain()), world) ==> HashesCommit(out.Chain(), world)
    ensures Serves(rpc.script, old(rpc.calls), world) && hi < |world| &&
            OnWorld(old(state.lastTip), old(state.canonicalBlocks), old(out.Chain()), world)
            ==> r.Ok? && state.lastTip == Some(Max(hi, lo - 1)) &&
                OnWorld(state.lastTip, state.canonicalBlocks, out.Chain(), world)
  {
    hide AuditLog, AllFrom, Coherent, Shallow, Retained, SeatedOn, NamesParent, TopAgrees, Commits, HashesCommit, Keeps;
    SameKeeps(rpc.script, reorgWindow, state.StanceOver(out));
    if lo > hi {
      return Ok(());
    }
    var total := hi - lo + 1;
    if phase.Some? {
      out.Send(BackfillProgress(0, total, true, phase.value));
    }
    var done;
    r, done := EmitBlocks(rpc, state, out, lo, hi, phase, reorgWindow, world);
    if phase.Some? {
      var complete := r.Ok? && state.lastTip == Some(hi);
      out.Send(BackfillProgress(done, total, r.Ok? && !complete, phase.value));
    }
  }

  // ----- one synchronisation -----

  /** A freshly replayed window becomes the cursor. */
  method Adopt(state: PollState, out: Outbox, outcome: BackfillOutcome, reorgWindow: u64, ghost descending: seq<Held>)
    requires out.Valid() && out.audit.legal && !out.audit.Lit() && state.hydrationAttemptsLeft == 0
    requires descending != [] && DescendsFrom(descending, outcome.tip)
    requires outcome.anchors == WindowAnchors(descending)
    requires out.audit.consumer == Consumer(Ascending(descending), None) && out.audit.lastMined == Some(outcome.tip)
    requires out.audit.highest.Some? && outcome.tip <= out.audit.highest.value
    modifies state
    ensures state.Fits(out) && state.Retains(out, reorgWindow)
    ensures out.audit.highest == state.lastTip ==> state.WithinHorizon(out, reorgWindow)
    ensures state.lastTip == Some(outcome.tip) && !state.replayingReorg && !state.catchingUp
    ensures state.hydrationAttemptsLeft == 0
  {
    hide AuditLog, Coherent, Shallow, Retained;
    WindowIsCoherent(descending, outcome.tip);
    WindowRetains(descending, outcome.tip, out.audit.highest.value, reorgWindow);
    PruneKeepsCoherent(outcome.tip, Seeded(map[], outcome.anchors), 0, out.audit.consumer, reorgWindow);
    state.AdoptHydratedWindow(outcome, reorgWindow);
  }

  /** A boot hydration still owed: either a whole window lands, or nothing but progress is published. */
  method RetryHydration(rpc: RpcClient, state: PollState, out: Outbox, tip: u64, policy: HydrationPolicy,
                        reorgWindow: u64, ghost world: seq<FetchedBlock>)
    returns (landed: bool)
    requires state.Fits(out) && state.hydrationAttemptsLeft > 0
    modifies rpc, state, out
    ensures rpc.calls >= old(rpc.calls)
    ensures state.Fits(out) && out.audit.progress == Some(Progress(false, Boot)) && out.audit.deepest == old(out.audit.deepest)
    ensures out.audit.rebuilds == old(out.audit.rebuilds) && (landed ==> Fills(out.Chain(), policy))
    ensures landed ==> state.lastTip == Some(tip) && !state.replayingReorg && !state.catchingUp &&
                       state.hydrationAttemptsLeft == 0 && state.Retains(out, reorgWindow) && out.Chain() != []
    ensures Keeps(rpc.script, reorgWindow, old(state.StanceOver(out)), state.StanceOver(out))
    ensures !landed ==> state.hydrationAttemptsLeft == old(state.hydrationAttemptsLeft) - 1 &&
                        out.audit == old(out.audit).(progress := out.audit.progress) && state.lastTip == None &&
                        state.lastTip == old(state.lastTip) && state.canonicalBlocks == old(state.canonicalBlocks)
    ensures Commits(rpc.script, world) && HashesCommit(old(out.Chain()), world) ==> HashesCommit(out.Chain(), world)
    ensures policy.blockLimit != Some(0) && Serves(rpc.script, old(rpc.calls), world) && tip == |world| - 1
            ==> landed && AllFrom(out.Chain(), world)
  {
    hide AuditLog, AllFrom, SeatedOn;
    ghost var stance := state.StanceOver(out);
    state.hydrationAttemptsLeft := SatSub(state.hydrationAttemptsLeft, 1);
    var hydrated, window := HydrateAtTip(rpc, tip, policy, ReplayPhase.Boot, false, out, [], world);
    if hydrated.Err? {
      return false;
    }
    state.hydrationAttemptsLeft := 0;
    Adopt(state, out, hydrated.value, reorgWindow, window.descending);
    AscendingStaysOnWorld(window.descending, world);
    RebuiltSits(rpc.script, stance, state.StanceOver(out));
    landed := true;
  }

  lemma {:induction false} AscendingStaysOnWorld(descending: seq<Held>, world: seq<FetchedBlock>)
    ensures AllFrom(descending, world) ==> AllFrom(Ascending(descending), world)
    ensures HashesCommit(descending, world) ==> HashesCommit(Ascending(descending), world)
  {
  }

  /** Replace everything with a freshly proven window, or leave everything as it was. */
  method RebuildCanonicalWindow(rpc: RpcClient, state: PollState, out: Outbox, tip: u64, policy: HydrationPolicy,
                                reorgWindow: u64, ghost world: seq<FetchedBlock>)
    returns (r: Result<()>)
    requires state.Follows(out) && state.hydrationAttemptsLeft == 0
    modifies rpc, state, out
    ensures rpc.calls >= old(rpc.calls)
    ensures state.Fits(out) && out.audit.progress == Some(Progress(false, ReplayPhase.Rebuild))
    ensures out.audit.deepest == old(out.audit.deepest)
    ensures r.Ok? ==> out.audit.rebuilds == old(out.audit.rebuilds) + 1 && Fills(out.Chain(), policy)
    ensures out.audit.junction == old(out.audit.junction).(rebuilt := out.audit.junction.rebuilt)
    ensures state.hydrationAttemptsLeft == 0 && (r.Ok? ==> out.Chain() != [])
    ensures Keeps(rpc.script, reorgWindow, old(state.StanceOver(out)), state.StanceOver(out))
    ensures r.Ok? ==> state.lastTip == Some(tip) && !state.replayingReorg && !state.catchingUp &&
                      state.WithinHorizon(out, reorgWindow) && state.Retains(out, reorgWindow)
    ensures r.Err? ==> out.audit == old(out.audit).(progress := out.audit.progress) && state.lastTip == old(state.lastTip) &&
                       state.canonicalBlocks == old(state.canonicalBlocks) &&
                       state.replayingReorg == old(state.replayingReorg) && state.catchingUp == old(state.catchingUp)
    ensures Commits(rpc.script, world) && HashesCommit(old(out.Chain()), world) ==> HashesCommit(out.Chain(), world)
    ensures policy.blockLimit != Some(0) && Serves(rpc.script, old(rpc.calls), world) && tip == |world| - 1
            ==> r.Ok? && AllFrom(out.Chain(), world)
  {
    hide AuditLog, AllFrom, SeatedOn;
    ghost var stance := state.StanceOver(out);
    var rebuilt, window := HydrateAtTip(rpc, tip, policy, ReplayPhase.Rebuild, true, out, [], world);
    if rebuilt.Err? {
      return Err(rebuilt.fault);
    }
    Adopt(state, out, rebuilt.value, reorgWindow, window.descending);
    AscendingStaysOnWorld(window.descending, world);
    RebuiltSits(rpc.script, stance, state.StanceOver(out));
    r := Ok(());
  }

  /** Invalidate everything above a proven ancestor. */
  method Invalidate(state: PollState, out: Outbox, fromBlock: u64, reorgWindow: u64, ghost ancestor: u64,
                    ghost script: Script, ghost world: seq<FetchedBlock>)
    requires state.Fits(out) && state.hydrationAttemptsLeft == 0 && state.lastTip.Some?
    requires ancestor in state.canonicalBlocks && fromBlock == SatSucc(ancestor)
    modifies state, out
    ensures state.Fits(out) && state.hydrationAttemptsLeft == 0
    ensures state.lastTip == Some(SatSub(fromBlock, 1)) && state.replayingReorg && !state.catchingUp
    ensures out.audit.mined == old(out.audit.mined) && out.audit.progress == old(out.audit.progress)
    ensures out.audit.rebuilds == old(out.audit.rebuilds)
    ensures out.Chain() == Truncate(old(out.Chain()), fromBlock)
    ensures out.audit.deepest == Max(old(out.audit.deepest), Depth(old(out.audit.highest), fromBlock))
    ensures out.audit.highest == old(out.audit.highest) && out.audit.junction.rebuilt == old(out.audit.junction.rebuilt)
    ensures old(state.WithinHorizon(out, reorgWindow)) ==> Depth(old(out.audit.highest), fromBlock) <= Horizon(reorgWindow)
    ensures Keeps(script, reorgWindow, old(state.StanceOver(out)), state.StanceOver(out))
    ensures HashesCommit(old(out.Chain()), world) ==> HashesCommit(out.Chain(), world)
    ensures IsWorld(world) && ancestor < |world| && ancestor < U64_MAX && HashesCommit(old(out.Chain()), world) &&
            old(state.canonicalBlocks)[ancestor] == world[ancestor].hash
            ==> OnWorld(state.lastTip, state.canonicalBlocks, out.Chain(), world)
  {
    hide AuditLog, AllFrom, HashesCommit, Retained, Coherent, Shallow, Truncate, SeatedOn, JunctionStep, Keeps, IsWorld,
         Accepts, Below, TopAgrees;
    RollbackKeepsCoherent(state.lastTip.value, state.canonicalBlocks, out.audit.consumer, ancestor);
    RolledBackKeeps(script, state.lastTip.value, state.canonicalBlocks, out.audit.consumer, out.audit.highest,
                    out.audit.junction, ancestor, reorgWindow);
    RollingBackIsNoRebuild(out.audit.junction, out.Chain(), fromBlock);
    AncestorAgrees(state.canonicalBlocks, ancestor, world);
    AncestorIsOnWorld(state.lastTip.value, state.canonicalBlocks, out.audit.consumer, ancestor, world);

    out.Send(ChainReorganized(fromBlock));
    state.canonicalBlocks := Below(state.canonicalBlocks, fromBlock);
    state.lastTip := Some(SatSub(fromBlock, 1));
    state.replayingReorg := true;
    state.catchingUp := false;
  }

  /** A tip below the boundary leaves the replay waiting, and says so. */
  method RollBack(state: PollState, out: Outbox, tip: u64, fromBlock: u64, reorgWindow: u64, ghost ancestor: u64,
                  ghost script: Script, ghost world: seq<FetchedBlock>)
    requires state.Fits(out) && state.hydrationAttemptsLeft == 0 && state.lastTip.Some?
    requires ancestor in state.canonicalBlocks && fromBlock == SatSucc(ancestor)
    modifies state, out
    ensures state.Fits(out) && state.hydrationAttemptsLeft == 0
    ensures state.lastTip == Some(SatSub(fromBlock, 1)) && state.replayingReorg && !state.catchingUp
    ensures out.audit.mined == old(out.audit.mined) && out.audit.rebuilds == old(out.audit.rebuilds)
    ensures out.audit.progress == if tip < fromBlock then Some(Progress(true, Reorg)) else old(out.audit.progress)
    ensures out.Chain() == Truncate(old(out.Chain()), fromBlock)
    ensures out.audit.deepest == Max(old(out.audit.deepest), Depth(old(out.audit.highest), fromBlock))
    ensures out.audit.highest == old(out.audit.highest) && out.audit.junction.rebuilt == old(out.audit.junction.rebuilt)
    ensures old(state.WithinHorizon(out, reorgWindow)) ==> Depth(old(out.audit.highest), fromBlock) <= Horizon(reorgWindow)
    ensures Keeps(script, reorgWindow, old(state.StanceOver(out)), state.StanceOver(out))
    ensures HashesCommit(old(out.Chain()), world) ==> HashesCommit(out.Chain(), world)
    ensures IsWorld(world) && ancestor < |world| && ancestor < U64_MAX && HashesCommit(old(out.Chain()), world) &&
            old(state.canonicalBlocks)[ancestor] == world[ancestor].hash
            ==> OnWorld(state.lastTip, state.canonicalBlocks, out.Chain(), world)
  {
    hide AuditLog, AuditStep, AllFrom, HashesCommit, Retained, Coherent, Shallow, Truncate, OnWorld, IsWorld, SeatedOn;
    Invalidate(state, out, fromBlock, reorgWindow, ancestor, script, world);
    if tip < fromBlock {
      out.Send(BackfillProgress(0, 0, true, Reorg));
    }
  }

  lemma {:induction false} AncestorAgrees(anchors: map<u64, Hash>, ancestor: u64, world: seq<FetchedBlock>)
    requires ancestor in anchors
    ensures ancestor < |world| && ancestor < U64_MAX && anchors[ancestor] == world[ancestor].hash
            ==> TopAgrees(Some(ancestor), Below(anchors, SatSucc(ancestor)), world)
  {
  }

  lemma {:induction false} RollingBackIsNoRebuild(j: Junction, chain: seq<Held>, fromBlock: u64)
    ensures JunctionStep(j, chain, ChainReorganized(fromBlock)).rebuilt == j.rebuilt
  {
  }

  lemma {:induction false} KeptCommits(chain: seq<Held>, kept: seq<Held>, world: seq<FetchedBlock>)
    requires kept <= chain
    ensures HashesCommit(chain, world) ==> HashesCommit(kept, world)
  {
  }

  /** If anything survives a rollback into a held chain, its top is the anchored ancestor. */
  lemma {:induction false} KeptTopIsAnchored(top: u64, anchors: map<u64, Hash>, c: Consumer, ancestor: u64, kept: seq<Held>)
    requires Coherent(Some(top), anchors, 0, c) && ancestor in anchors && ancestor < U64_MAX
    requires kept <= c.chain && (kept != [] && kept != c.chain ==> Top(kept).number == ancestor)
    requires kept == c.chain && c.chain != [] ==> Top(c.chain).number <= ancestor
    ensures kept != [] ==> Top(kept).number == ancestor && Top(kept).block.hash == anchors[ancestor]
  {
    if kept != [] {
      assert Top(kept) == c.chain[|kept| - 1];
    }
  }

  /** What survives a rollback to an ancestor the node confirmed is the node's own chain. */
  lemma {:induction false} AncestorIsOnWorld(top: u64, anchors: map<u64, Hash>, c: Consumer, ancestor: u64,
                                             world: seq<FetchedBlock>)
    requires Coherent(Some(top), anchors, 0, c) && ancestor in anchors
    ensures IsWorld(world) && ancestor < |world| && ancestor < U64_MAX && HashesCommit(c.chain, world) &&
            anchors[ancestor] == world[ancestor].hash
            ==> AllFrom(Truncate(c.chain, ancestor + 1), world)
    ensures HashesCommit(c.chain, world) ==> HashesCommit(Truncate(c.chain, SatSucc(ancestor)), world)
  {
    hide Coherent, HashesCommit, AllFrom, Truncate, Linked;
    PrefixByHeight(c.chain, SatSucc(ancestor));
    CoherentIsLinked(Some(top), anchors, 0, c);
    KeptCommits(c.chain, Truncate(c.chain, SatSucc(ancestor)), world);
    if IsWorld(world) && ancestor < |world| && ancestor < U64_MAX && HashesCommit(c.chain, world) &&
       anchors[ancestor] == world[ancestor].hash
    {
      var kept := Truncate(c.chain, ancestor + 1);
      KeptEndsAtBoundary(c.chain, ancestor + 1);
      KeptTopIsAnchored(top, anchors, c, ancestor, kept);
      KeptCommits(c.chain, kept, world);
      MatchedTopIsCanonical(kept, world);
    }
  }

  /** The forward half of a synchronisation: choose the replay phase, emit, and close the phase when the
      observed tip is reached. */
  method AdvanceTo(rpc: RpcClient, state: PollState, out: Outbox, tip: u64, catchupThreshold: u64, reorgWindow: u64,
                   ghost world: seq<FetchedBlock>)
    returns (r: Result<()>)
    requires state.Fits(out) && state.lastTip.Some? && state.hydrationAttemptsLeft == 0
    modifies rpc, state, out
    ensures rpc.calls >= old(rpc.calls)
    ensures state.Fits(out) && state.lastTip.Some? && state.hydrationAttemptsLeft == 0
    ensures state.lastTip.value >= old(state.lastTip.value)
    ensures GrewBy(old(out.audit), out.audit, state.lastTip.value - old(state.lastTip.value))
    ensures out.audit.mined > old(out.audit.mined) && out.audit.highest == state.lastTip
            ==> state.WithinHorizon(out, reorgWindow)
    ensures if tip <= old(state.lastTip.value) then out.Chain() == old(out.Chain())
            else GrewFrom(old(out.Chain()), out.Chain(), old(state.lastTip.value) + 1,
                          NextBlock(rpc.script, old(rpc.calls), old(state.canonicalBlocks), old(state.lastTip.value)))
    ensures Keeps(rpc.script, reorgWindow, old(state.StanceOver(out)), state.StanceOver(out))
    ensures Paced(old(state.lastTip.value), tip, catchupThreshold, old(state.PaceOver(out)), r.Ok?, state.lastTip,
                  state.PaceOver(out))
    ensures r.Ok? && state.lastTip == Some(tip) && out.audit.mined > old(out.audit.mined)
            ==> !out.audit.Lit() && !state.replayingReorg && !state.catchingUp
    ensures r.Ok? && state.lastTip.value < tip ==>
              rpc.calls > 0 && rpc.script.block(rpc.calls - 1, state.lastTip.value + 1) == Ok(None)
    ensures Commits(rpc.script, world) && HashesCommit(old(out.Chain()), world) ==> HashesCommit(out.Chain(), world)
    ensures Serves(rpc.script, old(rpc.calls), world) && tip == |world| - 1 &&
            OnWorld(old(state.lastTip), old(state.canonicalBlocks), old(out.Chain()), world)
            ==> r.Ok? && state.lastTip == Some(tip) && OnWorld(state.lastTip, state.canonicalBlocks, out.Chain(), world)
  {
    hide AuditLog, AllFrom, Coherent, Shallow, Retained, SeatedOn, NamesParent, Keeps, NextBlock, GrewFrom, Serves, OnWorld,
         HashesCommit, Commits;
    var prev := state.lastTip.value;
    if tip <= prev {
      PruneKeepsFit(state, out, reorgWindow, rpc.script);
      PruningStaysOnWorld(prev, state.canonicalBlocks, out.Chain(), reorgWindow, world);
      assert state.IsLatest(prev);
      state.PruneCanonicalHistory(reorgWindow);
      return Ok(());
    }
    var gap := tip - prev;
    var phase: Option<ReplayPhase> := None;
    if state.replayingReorg {
      phase := Some(Reorg);
    } else if state.catchingUp {
      phase := Some(Catchup);
    } else if gap > catchupThreshold {
      state.catchingUp := true;
      phase := Some(Catchup);
    }
    r := EmitCanonicalRange(rpc, state, out, prev + 1, tip, phase, reorgWindow, world);
    if r.Ok? && state.lastTip == Some(tip) {
      state.replayingReorg := false;
      state.catchingUp := false;
    }
  }

  lemma {:induction false} PruneKeepsFit(state: PollState, out: Outbox, reorgWindow: u64, script: Script)
    requires state.Follows(out) && state.lastTip.Some?
    ensures var kept := Pruned(state.canonicalBlocks, state.lastTip.value, reorgWindow);
            Coherent(state.lastTip, kept, state.hydrationAttemptsLeft, out.audit.consumer) &&
            Keeps(script, reorgWindow, state.StanceOver(out), state.StanceOver(out).(anchors := kept))
  {
    hide SeatedOn;
    PruningSits(script, state.lastTip.value, state.canonicalBlocks, out.Chain(), out.audit.highest, out.audit.junction,
                reorgWindow);
    PruneKeepsCoherent(state.lastTip.value, state.canonicalBlocks, state.hydrationAttemptsLeft, out.audit.consumer, reorgWindow);
  }

  lemma {:induction false} PruningStaysOnWorld(top: u64, anchors: map<u64, Hash>, chain: seq<Held>, reorgWindow: u64,
                                               world: seq<FetchedBlock>)
    ensures OnWorld(Some(top), anchors, chain, world)
            ==> top < |world| && OnWorld(Some(top), Pruned(anchors, top, reorgWindow), chain, world)
  {
    hide AllFrom;
  }

  /** Live-only boot: anchor the block below the tip without emitting it. */
  method AnchorBelowTip(rpc: RpcClient, state: PollState, out: Outbox, tip: u64, reorgWindow: u64,
                        ghost world: seq<FetchedBlock>)
    returns (r: Result<()>)
    requires state.Fits(out) && state.lastTip.None? && state.hydrationAttemptsLeft == 0
    modifies rpc, state`canonicalBlocks, state`lastTip
    ensures rpc.calls >= old(rpc.calls)
    ensures state.Fits(out)
    ensures r.Ok? ==> state.lastTip == Some(SatSub(tip, 1))
    ensures r.Err? ==> state.lastTip.None?
    ensures r.Ok? ==>
              var anchor, reply := SatSub(tip, 1), rpc.script.hash(old(rpc.calls), SatSub(tip, 1));
              reply.Ok? &&
              state.canonicalBlocks ==
              if reply.value.Some? then old(state.canonicalBlocks)[anchor := reply.value.value]
              else old(state.canonicalBlocks)
    ensures Keeps(rpc.script, reorgWindow, old(state.StanceOver(out)), state.StanceOver(out))
    ensures out.Chain() == [] && state.Retains(out, reorgWindow)
    ensures Serves(rpc.script, old(rpc.calls), world) && tip == |world| - 1
            ==> r.Ok? && OnWorld(state.lastTip, state.canonicalBlocks, out.Chain(), world)
  {
    hide AuditLog;
    var anchor := SatSub(tip, 1);
    var reply := rpc.GetBlockHash(anchor);
    if reply.Err? {
      return Err(reply.fault);
    }
    if reply.value.Some? {
      state.canonicalBlocks := state.canonicalBlocks[anchor := reply.value.value];
    }
    state.lastTip := Some(anchor);
    r := Ok(());
  }

  /** An unchanged cursor: learning its missing anchor, if it was missing, keeps the invariant. */
  lemma {:induction false} UnchangedKeeps(
      script: Script, first: nat, prev: u64, before: map<u64, Hash>, after: map<u64, Hash>, tip: u64,
      c: Consumer, highest: Option<u64>, reorgWindow: u64, j: Junction, world: seq<FetchedBlock>)
    requires Coherent(Some(prev), before, 0, c)
    requires Classified(script, first, prev, before, after, tip, Unchanged)
    ensures Coherent(Some(prev), after, 0, c)
    ensures Keeps(script, reorgWindow, Stance(Some(prev), before, c.chain, highest, j),
                  Stance(Some(prev), after, c.chain, highest, j))
    ensures Serves(script, first, world) && tip < |world| && HashesCommit(c.chain, world)
            ==> OnWorld(Some(prev), after, c.chain, world)
  {
    if prev !in before {
      if script.hash(first, prev).value.Some? {
        var h := script.hash(first, prev).value.value;
        LearnedTopKeeps(prev, before, 0, c, h, highest, reorgWindow);
        LearningSits(script, prev, before, 0, c, highest, j, h);
      }
    } else if Serves(script, first, world) && tip < |world| && HashesCommit(c.chain, world) {
      assert before[prev] == world[prev].hash;
      MatchedTopIsCanonical(c.chain, world);
    }
  }

  lemma {:induction false} NothingSharedKeeps(before: seq<Held>, after: seq<Held>, highest: Option<u64>, reorgWindow: u64,
                                              world: seq<FetchedBlock>)
    ensures (forall k :: 0 <= k < |before| ==> !Shared(before[k], highest, reorgWindow, world))
            ==> KeepsShared(before, after, highest, reorgWindow, world)
  {
  }

  /** The ancestor a stable node confirms lies on its chain, below the height it disagreed about. */
  lemma {:induction false} HonestAncestor(
      script: Script, first: nat, prev: u64, anchors: map<u64, Hash>, tip: u64, from: u64, world: seq<FetchedBlock>)
    returns (ancestor: u64)
    requires Classified(script, first, prev, anchors, anchors, tip, Reorganize(from))
    ensures ancestor in anchors && from == SatSucc(ancestor)
    ensures Serves(script, first, world) && tip == |world| - 1 ==>
              ancestor < |world| && ancestor < U64_MAX && anchors[ancestor] == world[ancestor].hash
  {
    var walk := if tip >= prev then first + 1 else first;
    ancestor :| IsAncestor(script, walk, Min(tip, prev), anchors, ancestor) && from == SatSucc(ancestor);
  }

  // ----- a reorganisation within the horizon -----

  /** A held block the node still has, no further below the highest announcement than the horizon. */
  ghost predicate Shared(h: Held, highest: Option<u64>, reorgWindow: u64, world: seq<FetchedBlock>) {
    h.number < |world| && h.block.hash == world[h.number].hash &&
    highest.Some? && h.number + Min(Max(reorgWindow, 2), U64_MAX - 1) >= highest.value
  }

  /** The chain up to every shared block is kept as it was. */
  ghost predicate KeepsShared(before: seq<Held>, after: seq<Held>, highest: Option<u64>, reorgWindow: u64,
                              world: seq<FetchedBlock>) {
    forall k :: 0 <= k < |before| && Shared(before[k], highest, reorgWindow, world)
      ==> k < |after| && before[..k + 1] == after[..k + 1]
  }

  lemma {:induction false} GrowingKeepsShared(before: seq<Held>, middle: seq<Held>, after: seq<Held>, highest: Option<u64>,
                                              reorgWindow: u64, world: seq<FetchedBlock>)
    requires KeepsShared(before, middle, highest, reorgWindow, world) && middle <= after
    ensures KeepsShared(before, after, highest, reorgWindow, world)
  {
    forall k | 0 <= k < |before| && Shared(before[k], highest, reorgWindow, world)
      ensures k < |after| && before[..k + 1] == after[..k + 1]
    {
      assert middle[..k + 1] == after[..k + 1];
    }
  }

  lemma {:induction false} SameKeepsShared(chain: seq<Held>, highest: Option<u64>, reorgWindow: u64, world: seq<FetchedBlock>)
    ensures KeepsShared(chain, chain, highest, reorgWindow, world)
    ensures forall after :: KeepsShared([], after, highest, reorgWindow, world)
  {
  }

  /** No walk over the anchors passes a shared block: a stable node confirms it. */
  lemma {:induction false} SharedIsConfirmed(
      script: Script, first: nat, walk: nat, prev: u64, anchors: map<u64, Hash>, low: int, c: Consumer, k: nat,
      highest: Option<u64>, reorgWindow: u64, world: seq<FetchedBlock>)
    requires Coherent(Some(prev), anchors, 0, c) && Retained(anchors, c.chain, highest, reorgWindow)
    requires Serves(script, first, world) && first <= walk && k < |c.chain|
    requires Shared(c.chain[k], highest, reorgWindow, world)
    requires AllDiffer(script, walk, Min(|world| - 1, prev), low, anchors)
    ensures c.chain[k].number < low
  {
    HeightsFromTop(c.chain);
    var n := c.chain[k].number;
    assert n in anchors && anchors[n] == world[n].hash && n <= prev;
    assert !Differs(script.hash(walk + Min(|world| - 1, prev) - n, n), anchors[n]);
  }

  lemma {:induction false} KeptBelowBoundary(chain: seq<Held>, from: u64, k: nat)
    requires Linked(chain) && k < |chain| && chain[k].number < from
    ensures k < |Truncate(chain, from)| && chain[..k + 1] == Truncate(chain, from)[..k + 1]
  {
    hide Truncate, Linked;
    var kept := Truncate(chain, from);
    TruncateIsExact(chain, from);
    PrefixByHeight(chain, from);
    HeightsFromTop(chain);
    var j :| 0 <= j < |kept| && kept[j] == chain[k];
    assert chain[j] == chain[k] && j == k;
  }

  /** While the node still has a held block within the horizon, the follower rolls back above it and never
      rebuilds. */
  lemma {:induction false} SharedSurvives(
      script: Script, first: nat, prev: u64, before: map<u64, Hash>, after: map<u64, Hash>, tip: u64,
      change: CanonicalChange, c: Consumer, highest: Option<u64>, reorgWindow: u64, world: seq<FetchedBlock>)
    requires Coherent(Some(prev), before, 0, c) && Retained(before, c.chain, highest, reorgWindow)
    requires Classified(script, first, prev, before, after, tip, change)
    requires Serves(script, first, world) && tip == |world| - 1
    ensures change.Reorganize? ==> KeepsShared(c.chain, Truncate(c.chain, change.fromBlock), highest, reorgWindow, world)
    ensures change.Rebuild? ==> forall k :: 0 <= k < |c.chain| ==> !Shared(c.chain[k], highest, reorgWindow, world)
  {
    hide Coherent, Retained, Truncate, Shared;
    CoherentIsLinked(Some(prev), before, 0, c);
    var walk := if tip >= prev then first + 1 else first;
    forall k | 0 <= k < |c.chain| && Shared(c.chain[k], highest, reorgWindow, world)
      ensures !change.Rebuild?
      ensures change.Reorganize? ==> k < |Truncate(c.chain, change.fromBlock)| &&
                                     c.chain[..k + 1] == Truncate(c.chain, change.fromBlock)[..k + 1]
    {
      if change.Rebuild? {
        SharedIsConfirmed(script, first, walk, prev, before, 0, c, k, highest, reorgWindow, world);
        assert false;
      } else if change.Reorganize? {
        var ancestor: u64 :| IsAncestor(script, walk, Min(tip, prev), before, ancestor) &&
          change.fromBlock == SatSucc(ancestor);
        SharedIsConfirmed(script, first, walk, prev, before, ancestor + 1, c, k, highest, reorgWindow, world);
        assert ancestor < U64_MAX;
        KeptBelowBoundary(c.chain, change.fromBlock, k);
      }
    }
  }

  lemma {:induction false} ForkIsNamed(script: Script, since: nat, lastTip: Option<u64>, anchors: map<u64, Hash>, tip: u64)
    ensures forall n: u64 :: ForksAt(script, since, lastTip, anchors, tip, n) && Contiguous(anchors, lastTip.value)
              ==> NamesAll(script, since, anchors) && lastTip.value in anchors && n < U64_MAX
    ensures forall n: u64, later: nat :: ForksAt(script, since, lastTip, anchors, tip, n) && since <= later
              ==> ForksAt(script, later, lastTip, anchors, tip, n)
  {
  }

  /** A fork right above a retained anchor is answered by a rollback to exactly that anchor, however deep it is. */
  lemma {:induction false} ForkIsReorganized(script: Script, first: nat, prev: u64, before: map<u64, Hash>,
                                             after: map<u64, Hash>, tip: u64, change: CanonicalChange)
    requires Classified(script, first, prev, before, after, tip, change) && Contiguous(before, prev)
    ensures forall n: u64 :: ForksAt(script, first, Some(prev), before, tip, n) ==> change == Reorganize(SatSucc(n))
  {
    forall n: u64 | ForksAt(script, first, Some(prev), before, tip, n) ensures change == Reorganize(SatSucc(n)) {
      var walk := if tip >= prev then first + 1 else first;
      var search := Min(tip, prev);
      assert script.hash(walk + search - n, n) == Ok(Some(before[n]));
    }
  }

  /** A cursor whose hash, if it knows one, is the node's is left alone. */
  lemma {:induction false} AgreeingIsUnchanged(
      script: Script, first: nat, prev: u64, before: map<u64, Hash>, after: map<u64, Hash>, tip: u64,
      change: CanonicalChange, world: seq<FetchedBlock>)
    requires Classified(script, first, prev, before, after, tip, change)
    ensures prev <= tip && prev !in before ==> change.Unchanged?
    ensures tip < prev && before == map[] ==> change.Rebuild?
    ensures Serves(script, first, world) && tip == |world| - 1 && TopAgrees(Some(prev), before, world) ==> change.Unchanged?
  {
  }

  /** Bring the cursor back onto the node's chain. `Ok(true)` leaves a cursor to advance from; `Ok(false)`
      has rebuilt up to the tip already. `change` is the classification the node's answers amount to. */
  method Reconcile(rpc: RpcClient, state: PollState, out: Outbox, tip: u64, policy: HydrationPolicy, reorgWindow: u64,
                   ghost world: seq<FetchedBlock>)
    returns (r: Result<bool>, ghost change: CanonicalChange)
    requires state.Fits(out) && state.lastTip.Some? && state.hydrationAttemptsLeft == 0
    modifies rpc, state, out
    ensures rpc.calls >= old(rpc.calls)
    ensures state.Fits(out) && state.lastTip.Some? && state.hydrationAttemptsLeft == 0
    ensures r.Ok? ==> exists after ::
              Classified(rpc.script, old(rpc.calls), old(state.lastTip.value), old(state.canonicalBlocks), after, tip, change)
    ensures r == Ok(true) && change.Unchanged? ==>
              Classified(rpc.script, old(rpc.calls), old(state.lastTip.value), old(state.canonicalBlocks),
                         state.canonicalBlocks, tip, change) &&
              state.lastTip == old(state.lastTip) && out.audit == old(out.audit) && rpc.calls == old(rpc.calls) + 1 &&
              state.PaceOver(out) == old(state.PaceOver(out))
    ensures ConfirmsTop(rpc.script, old(rpc.calls), old(state.lastTip), old(state.canonicalBlocks)) &&
            old(state.lastTip.value) <= tip
            ==> r == Ok(true) && change.Unchanged?
    ensures forall n: u64 :: ForksAt(rpc.script, old(rpc.calls), old(state.lastTip), old(state.canonicalBlocks), tip, n)
              ==> r == Ok(true) && change == Reorganize(SatSucc(n)) && state.lastTip == Some(n) &&
                  state.PaceOver(out) == Replaying(n, tip, old(out.audit.progress))
    ensures BareAt(old(state.lastTip), old(state.canonicalBlocks)) && old(state.lastTip.value) <= tip
            ==> change.Unchanged? && (r.Err? ==> rpc.script.hash(old(rpc.calls), old(state.lastTip.value)).Err?)
    ensures Serves(rpc.script, old(rpc.calls), world) && tip == |world| - 1 &&
            TopAgrees(old(state.lastTip), old(state.canonicalBlocks), world)
            ==> change.Unchanged?
    ensures out.audit.deepest ==
            if change.Reorganize? then Max(old(out.audit.deepest), Depth(old(out.audit.highest), change.fromBlock))
            else old(out.audit.deepest)
    ensures !change.Rebuild? ==> out.audit.junction.rebuilt == old(out.audit.junction.rebuilt)
    ensures change.Rebuild? ==> out.audit.junction == old(out.audit.junction).(rebuilt := out.audit.junction.rebuilt)
    ensures change.Rebuild? ==> !state.catchingUp && (r.Err? ==> state.replayingReorg == old(state.replayingReorg))
    ensures old(state.canonicalBlocks) == map[] && tip < old(state.lastTip.value) ==> r.Err? || change.Rebuild?
    ensures Keeps(rpc.script, reorgWindow, old(state.StanceOver(out)), state.StanceOver(out))
    ensures out.audit.rebuilds > old(out.audit.rebuilds) ==> r == Ok(false)
    ensures r == Ok(false) ==> Fills(out.Chain(), policy)
    ensures r == Ok(true) ==>
              out.audit.mined == old(out.audit.mined) && !change.Rebuild? &&
              out.Chain() == if change.Reorganize? then Truncate(old(out.Chain()), change.fromBlock) else old(out.Chain())
    ensures r == Ok(false) ==>
              change.Rebuild? && state.lastTip == Some(tip) && !out.audit.Lit() && !state.replayingReorg &&
              !state.catchingUp && out.Chain() != []
    ensures r.Err? ==> out.audit == old(out.audit).(progress := out.audit.progress)
    ensures old(state.WithinHorizon(out, reorgWindow)) && change.Reorganize?
            ==> Depth(old(out.audit.highest), change.fromBlock) <= Horizon(reorgWindow)
    ensures Commits(rpc.script, world) && HashesCommit(old(out.Chain()), world) ==> HashesCommit(out.Chain(), world)
    ensures Serves(rpc.script, old(rpc.calls), world) && tip == |world| - 1 && old(state.Retains(out, reorgWindow))
            ==> KeepsShared(old(out.Chain()), out.Chain(), old(out.audit.highest), reorgWindow, world)
    ensures Serves(rpc.script, old(rpc.calls), world) && tip == |world| - 1 && policy.blockLimit != Some(0) &&
            HashesCommit(old(out.Chain()), world)
            ==> r.Ok? && (r.value ==> OnWorld(state.lastTip, state.canonicalBlocks, out.Chain(), world)) &&
                (!r.value ==> AllFrom(out.Chain(), world))
  {
    hide AuditLog, AuditStep, AllFrom, Coherent, Shallow, Retained, Serves, HashesCommit, OnWorld, Classified, Truncate,
         KeepsShared, Shared, SeatedOn, ForksAt, TopAgrees, NamesAll, Keeps;
    SameKeeps(rpc.script, reorgWindow, state.StanceOver(out));
    ghost var first, before, chain, highest := rpc.calls, state.canonicalBlocks, out.Chain(), out.audit.highest;
    SameKeepsShared(chain, highest, reorgWindow, world);
    var prev := state.lastTip.value;
    change := Unchanged;
    CursorIsContiguous(state.lastTip, before, out.audit.consumer);
    ForkIsNamed(rpc.script, first, state.lastTip, before, tip);
    var found := FindCanonicalChange(rpc, state, tip, world);
    IsServedWorld(rpc.script, first, world);
    StillServes(rpc.script, first, rpc.calls, world);
    if found.Err? {
      return Err(found.fault), change;
    }
    change := found.value;
    AnchorsAfter(rpc.script, first, prev, before, state.canonicalBlocks, tip, found.value);
    ForkIsReorganized(rpc.script, first, prev, before, state.canonicalBlocks, tip, change);
    AgreeingIsUnchanged(rpc.script, first, prev, before, state.canonicalBlocks, tip, change, world);
    ghost var shares := Serves(rpc.script, first, world) && tip == |world| - 1 &&
                        Retained(before, chain, highest, reorgWindow);
    if shares {
      SharedSurvives(rpc.script, first, prev, before, state.canonicalBlocks, tip, change, out.audit.consumer, highest,
                     reorgWindow, world);
    }
    match found.value {
      case Unchanged =>
        UnchangedKeeps(rpc.script, first, prev, before, state.canonicalBlocks, tip, out.audit.consumer,
                       out.audit.highest, reorgWindow, out.audit.junction, world);
      case Reorganize(fromBlock) =>
        ghost var ancestor := HonestAncestor(rpc.script, first, prev, before, tip, fromBlock, world);
        RollBack(state, out, tip, fromBlock, reorgWindow, ancestor, rpc.script, world);
      case Rebuild =>
        state.catchingUp := false;
        var rebuilt := RebuildCanonicalWindow(rpc, state, out, tip, policy, reorgWindow, world);
        NothingSharedKeeps(chain, out.Chain(), highest, reorgWindow, world);
        return if rebuilt.Ok? then Ok(false) else Err(rebuilt.fault), change;
    }
    r := Ok(true);
  }

  /** The block that a synchronisation starting at call `t` announces first above a bare height, if any. Its parent is
      what the classification is told or, if it is told nothing, what the node says once the block has been fetched. */
  ghost function FirstBlock(script: Script, t: nat, height: u64, tip: u64): Option<FetchedBlock> {
    var reply := script.hash(t, height);
    if reply.Err? || tip <= height then None
    else NextBlock(script, t + 1, if reply.value.Some? then map[height := reply.value.value] else map[], height)
  }

  /** What a synchronisation starting at call `t` from a bare height adds to the stream: that first block, more blocks
      above it, and nothing else. */
  ghost predicate GrowsBare(script: Script, t: nat, height: u64, tip: u64, before: Audit, after: Audit) {
    after.junction.rebuilt == before.junction.rebuilt &&
    (after.consumer.chain == [] ==> after.junction == before.junction) &&
    GrewFrom([], after.consumer.chain, height + 1, FirstBlock(script, t, height, tip))
  }

  lemma {:induction false} NothingFirst(script: Script, t: nat, height: u64, tip: u64, before: Audit)
    requires script.hash(t, height).Err? && before.consumer.chain == []
    ensures forall progress :: GrowsBare(script, t, height, tip, before, before.(progress := progress))
  {
  }

  lemma {:induction false} BareFirstBlock(script: Script, t: nat, height: u64, before: map<u64, Hash>,
                                          after: map<u64, Hash>, tip: u64)
    requires Classified(script, t, height, before, after, tip, Unchanged) && height !in before && height < tip
    ensures FirstBlock(script, t, height, tip) == NextBlock(script, t + 1, after, height)
  {
  }

  lemma {:induction false} BareGrows(script: Script, t: nat, height: u64, before: map<u64, Hash>, after: map<u64, Hash>,
                                     tip: u64, start: Audit, end: Audit)
    requires Classified(script, t, height, before, after, tip, Unchanged) && height !in before && height <= tip
    requires start.consumer.chain == [] && end.junction.rebuilt == start.junction.rebuilt
    requires end.consumer.chain == [] ==> end.junction == start.junction
    requires if tip <= height then end.consumer.chain == []
             else GrewFrom([], end.consumer.chain, height + 1, NextBlock(script, t + 1, after, height))
    ensures GrowsBare(script, t, height, tip, start, end)
  {
    if height < tip {
      BareFirstBlock(script, t, height, before, after, tip);
    }
  }

  /** A bare height holds nothing that could disagree with it. */
  lemma {:induction false} BareHoldsNothing(lastTip: Option<u64>, anchors: map<u64, Hash>, attempts: nat, c: Consumer)
    requires Coherent(lastTip, anchors, attempts, c)
    ensures BareAt(lastTip, anchors) ==> c.chain == []
  {
  }

  /** A held chain that is the node's, with its top anchored, puts the cursor on the node's chain. */
  lemma {:induction false} HeldIsOnWorld(lastTip: Option<u64>, anchors: map<u64, Hash>, attempts: nat, c: Consumer,
                                         world: seq<FetchedBlock>)
    requires Coherent(lastTip, anchors, attempts, c)
    ensures c.chain != [] && AllFrom(c.chain, world) ==> OnWorld(lastTip, anchors, c.chain, world)
  {
  }

  /** Without a cursor there is nothing to fork from, to agree with, or to stand on. */
  lemma {:induction false} NoCursorYet(script: Script, since: nat, anchors: map<u64, Hash>, tip: u64,
                                       world: seq<FetchedBlock>)
    ensures forall n: u64 :: !ForksAt(script, since, None, anchors, tip, n)
    ensures !TopAgrees(None, anchors, world)
  {
  }

  /** What a synchronisation that starts at call `first` may make of the stream `start` and the cursor `from`. */
  ghost predicate Followed(script: Script, first: nat, tip: u64, policy: HydrationPolicy, reorgWindow: u64,
                           world: seq<FetchedBlock>, start: Audit, from: Stance, end: Audit, to: Stance)
  {
    var stable := Serves(script, first, world) && tip == |world| - 1;
    Keeps(script, reorgWindow, from, to) && end.deepest >= start.deepest &&
    (end.rebuilds > start.rebuilds ==> Fills(end.consumer.chain, policy)) &&
    (from.Bounded(reorgWindow) ==> end.deepest <= Max(start.deepest, Horizon(reorgWindow))) &&
    (forall n: u64 :: ForksAt(script, first, from.lastTip, from.anchors, tip, n)
       ==> end.deepest >= Depth(start.highest, SatSucc(n))) &&
    (from.lastTip.Some? && from.anchors == map[] && tip < from.lastTip.value
     ==> end.junction == start.junction.(rebuilt := end.junction.rebuilt)) &&
    (stable && TopAgrees(from.lastTip, from.anchors, world) ==> end.junction.rebuilt == start.junction.rebuilt) &&
    (Commits(script, world) && HashesCommit(start.consumer.chain, world) ==> HashesCommit(end.consumer.chain, world)) &&
    (stable && from.Covered(reorgWindow)
     ==> KeepsShared(start.consumer.chain, end.consumer.chain, start.highest, reorgWindow, world))
  }

  /** Announcing more blocks changes none of it. */
  lemma {:induction false} FollowedOn(script: Script, first: nat, tip: u64, policy: HydrationPolicy, reorgWindow: u64,
                                      world: seq<FetchedBlock>, start: Audit, from: Stance, middle: Audit, mid: Stance,
                                      blocks: nat, end: Audit, to: Stance)
    requires Followed(script, first, tip, policy, reorgWindow, world, start, from, middle, mid)
    requires from.lastTip.Some? && !(from.anchors == map[] && tip < from.lastTip.value)
    requires middle.rebuilds <= start.rebuilds
    requires GrewBy(middle, end, blocks) && Keeps(script, reorgWindow, mid, to)
    requires Commits(script, world) && HashesCommit(middle.consumer.chain, world) ==> HashesCommit(end.consumer.chain, world)
    ensures Followed(script, first, tip, policy, reorgWindow, world, start, from, end, to)
  {
    hide Keeps, ForksAt, Serves, TopAgrees, Commits, HashesCommit, KeepsShared, Shallow, Retained, Depth, Horizon, Fills;
    StillKeeps(script, reorgWindow, from, mid, to);
    if KeepsShared(start.consumer.chain, middle.consumer.chain, start.highest, reorgWindow, world) {
      GrowingKeepsShared(start.consumer.chain, middle.consumer.chain, end.consumer.chain, start.highest, reorgWindow, world);
    }
  }

  /** The part of a synchronisation that runs once no boot hydration is owed and there is a cursor. */
  method FollowTip(rpc: RpcClient, state: PollState, out: Outbox, tip: u64, catchupThreshold: u64,
                   policy: HydrationPolicy, reorgWindow: u64, ghost world: seq<FetchedBlock>)
    returns (r: Result<()>)
    requires state.Fits(out) && state.hydrationAttemptsLeft == 0 && state.lastTip.Some?
    modifies rpc, state, out
    ensures rpc.calls >= old(rpc.calls)
    ensures state.Fits(out) && state.hydrationAttemptsLeft == 0 && state.lastTip.Some?
    ensures Followed(rpc.script, old(rpc.calls), tip, policy, reorgWindow, world, old(out.audit), old(state.StanceOver(out)),
                     out.audit, state.StanceOver(out))
    ensures BareAt(old(state.lastTip), old(state.canonicalBlocks)) && old(state.lastTip).value <= tip
            ==> GrowsBare(rpc.script, old(rpc.calls), old(state.lastTip).value, tip, old(out.audit), out.audit)
    ensures r.Ok? && state.lastTip == Some(tip) && out.audit.mined > old(out.audit.mined)
            ==> !out.audit.Lit() && !state.replayingReorg && !state.catchingUp
    ensures forall n: u64 :: ForksAt(rpc.script, old(rpc.calls), old(state.lastTip), old(state.canonicalBlocks), tip, n)
              ==> Paced(n, tip, catchupThreshold, Replaying(n, tip, old(out.audit.progress)), r.Ok?, state.lastTip,
                        state.PaceOver(out))
    ensures ConfirmsTop(rpc.script, old(rpc.calls), old(state.lastTip), old(state.canonicalBlocks)) &&
            old(state.lastTip).value <= tip
            ==> Paced(old(state.lastTip).value, tip, catchupThreshold, old(state.PaceOver(out)), r.Ok?, state.lastTip,
                      state.PaceOver(out))
    ensures r.Ok? && state.lastTip.value < tip ==>
              rpc.calls > 0 && rpc.script.block(rpc.calls - 1, state.lastTip.value + 1) == Ok(None)
    ensures Serves(rpc.script, old(rpc.calls), world) && tip == |world| - 1 && policy.blockLimit != Some(0) &&
            HashesCommit(old(out.Chain()), world)
            ==> r.Ok? && state.lastTip == Some(tip) && OnWorld(state.lastTip, state.canonicalBlocks, out.Chain(), world)
  {
    hide AuditLog, AllFrom, Coherent, Shallow, Retained, Serves, HashesCommit, OnWorld, Classified, KeepsShared, SeatedOn,
         ForksAt, TopAgrees, FirstBlock, NextBlock, GrewFrom, Keeps, Commits, Depth, Horizon, Truncate, GrowsBare, Fills, Paced,
         ConfirmsTop, Replaying, Contiguous, AuditStep, IsWorld, ServesBlocks, NamesAll;
    ghost var start, from, first, height := out.audit, state.StanceOver(out), rpc.calls, state.lastTip.value;
    ghost var bare := BareAt(state.lastTip, state.canonicalBlocks) && height <= tip;
    BareHoldsNothing(state.lastTip, state.canonicalBlocks, state.hydrationAttemptsLeft, out.audit.consumer);
    var reconciled, change := Reconcile(rpc, state, out, tip, policy, reorgWindow, world);
    ghost var middle, mid := out.audit, state.StanceOver(out);
    assert Followed(rpc.script, first, tip, policy, reorgWindow, world, start, from, middle, mid);
    hide Followed;
    if reconciled.Err? {
      if bare {
        NothingFirst(rpc.script, first, height, tip, start);
      }
      return Err(reconciled.fault);
    }
    if !reconciled.value {
      HeldIsOnWorld(state.lastTip, state.canonicalBlocks, state.hydrationAttemptsLeft, out.audit.consumer, world);
      return Ok(());
    }
    StillServes(rpc.script, first, rpc.calls, world);
    r := AdvanceTo(rpc, state, out, tip, catchupThreshold, reorgWindow, world);
    FollowedOn(rpc.script, first, tip, policy, reorgWindow, world, start, from, middle, mid,
               state.lastTip.value - mid.lastTip.value, out.audit, state.StanceOver(out));
    if bare {
      BareGrows(rpc.script, first, height, from.anchors, mid.anchors, tip, start, out.audit);
    }
  }

  /** One synchronisation against a node that may answer anything at any call. Whatever it answers, the
      cursor stays coherent with the legal stream it has sent (`Fits`) and seated where it was, and from a cursor
      within the horizon no rollback is deeper than it. Once the node is stable, it succeeds, reaches the node's tip, and
      everything the consumer holds is the node's chain. */
  method SyncCanonicalBlocks(rpc: RpcClient, state: PollState, out: Outbox, tip: u64, catchupThreshold: u64,
                             policy: HydrationPolicy, reorgWindow: u64, ghost world: seq<FetchedBlock>)
    returns (r: Result<()>)
    requires state.Fits(out)
    modifies rpc, state, out
    ensures rpc.calls >= old(rpc.calls)
    ensures state.Fits(out)
    ensures old(state.hydrationAttemptsLeft) == 0 ==> state.hydrationAttemptsLeft == 0
    ensures old(state.hydrationAttemptsLeft) > 0 ==> state.hydrationAttemptsLeft < old(state.hydrationAttemptsLeft)
    ensures state.hydrationAttemptsLeft > 0 ==> r.Ok? && out.audit == old(out.audit).(progress := Some(Progress(false, Boot)))
    ensures old(state.WithinHorizon(out, reorgWindow)) ==>
              out.audit.deepest <= Max(old(out.audit.deepest), Max(reorgWindow, 2))
    ensures out.audit.rebuilds > old(out.audit.rebuilds) || old(state.hydrationAttemptsLeft) > state.hydrationAttemptsLeft + 1
            ==> Fills(out.Chain(), policy)
    ensures out.audit.deepest >= old(out.audit.deepest)
    ensures forall n: u64 :: ForksAt(rpc.script, old(rpc.calls), old(state.lastTip), old(state.canonicalBlocks), tip, n)
              ==> out.audit.deepest >= Depth(old(out.audit.highest), SatSucc(n))
    ensures Keeps(rpc.script, reorgWindow, old(state.StanceOver(out)), state.StanceOver(out))
    ensures BareAt(old(state.lastTip), old(state.canonicalBlocks)) && old(state.lastTip).value <= tip
            ==> GrowsBare(rpc.script, old(rpc.calls), old(state.lastTip).value, tip, old(out.audit), out.audit)
    ensures old(state.lastTip).Some? && old(state.canonicalBlocks) == map[] && tip < old(state.lastTip).value ==>
              out.audit.junction == old(out.audit.junction).(rebuilt := out.audit.junction.rebuilt)
    ensures Serves(rpc.script, old(rpc.calls), world) && tip == |world| - 1 &&
            TopAgrees(old(state.lastTip), old(state.canonicalBlocks), world)
            ==> out.audit.junction.rebuilt == old(out.audit.junction.rebuilt)
    ensures r.Ok? && state.lastTip == Some(tip) && out.audit.mined > old(out.audit.mined)
            ==> !out.audit.Lit() && !state.replayingReorg && !state.catchingUp
    ensures forall n: u64 :: ForksAt(rpc.script, old(rpc.calls), old(state.lastTip), old(state.canonicalBlocks), tip, n)
              ==> Paced(n, tip, catchupThreshold, Replaying(n, tip, old(out.audit.progress)), r.Ok?, state.lastTip,
                        state.PaceOver(out))
    ensures old(state.hydrationAttemptsLeft) == 0 &&
            ConfirmsTop(rpc.script, old(rpc.calls), old(state.lastTip), old(state.canonicalBlocks)) &&
            old(state.lastTip).value <= tip
            ==> Paced(old(state.lastTip).value, tip, catchupThreshold, old(state.PaceOver(out)), r.Ok?, state.lastTip,
                      state.PaceOver(out))
    ensures r.Ok? && state.hydrationAttemptsLeft == 0 ==> state.lastTip.Some?
    ensures r.Ok? && state.lastTip.Some? && state.lastTip.value < tip ==>
              rpc.calls > 0 && rpc.script.block(rpc.calls - 1, state.lastTip.value + 1) == Ok(None)
    ensures Commits(rpc.script, world) && HashesCommit(old(out.Chain()), world) ==> HashesCommit(out.Chain(), world)
    ensures Serves(rpc.script, old(rpc.calls), world) && tip == |world| - 1 && old(state.Retains(out, reorgWindow))
            ==> KeepsShared(old(out.Chain()), out.Chain(), old(out.audit.highest), reorgWindow, world)
    ensures Serves(rpc.script, old(rpc.calls), world) && tip == |world| - 1 && policy.blockLimit != Some(0) &&
            HashesCommit(old(out.Chain()), world)
            ==> r.Ok? && state.lastTip == Some(tip) && OnWorld(state.lastTip, state.canonicalBlocks, out.Chain(), world)
  {
    hide AuditLog, AllFrom, Coherent, Shallow, Retained, Serves, HashesCommit, KeepsShared, SeatedOn, ForksAt, TopAgrees,
         GrowsBare, Paced, Replaying, Contiguous, AuditStep, IsWorld, ServesBlocks, Fills, OnWorld;
    NoCursorYet(rpc.script, rpc.calls, state.canonicalBlocks, tip, world);
    SameKeepsShared(out.Chain(), out.audit.highest, reorgWindow, world);
    NothingHeldYet(state.lastTip, state.canonicalBlocks, state.hydrationAttemptsLeft, out.audit.consumer);
    if state.hydrationAttemptsLeft > 0 {
      var landed := RetryHydration(rpc, state, out, tip, policy, reorgWindow, world);
      if landed || state.hydrationAttemptsLeft > 0 {
        HeldIsOnWorld(state.lastTip, state.canonicalBlocks, state.hydrationAttemptsLeft, out.audit.consumer, world);
        return Ok(());
      }
    }
    if state.lastTip.None? {
      var anchored := AnchorBelowTip(rpc, state, out, tip, reorgWindow, world);
      if anchored.Err? {
        return anchored;
      }
    }
    StillServes(rpc.script, old(rpc.calls), rpc.calls, world);
    r := FollowTip(rpc, state, out, tip, catchupThreshold, policy, reorgWindow, world);
  }

  lemma {:induction false} NothingHeldYet(lastTip: Option<u64>, anchors: map<u64, Hash>, attempts: nat, c: Consumer)
    requires Coherent(lastTip, anchors, attempts, c)
    ensures attempts > 0 ==> c.chain == [] && lastTip.None?
  {
  }

  lemma {:induction false} CoherentIsLinked(lastTip: Option<u64>, anchors: map<u64, Hash>, attempts: nat, c: Consumer)
    requires Coherent(lastTip, anchors, attempts, c)
    ensures Linked(c.chain)
  {
  }

  lemma {:induction false} CursorIsContiguous(lastTip: Option<u64>, anchors: map<u64, Hash>, c: Consumer)
    requires Coherent(lastTip, anchors, 0, c)
    ensures lastTip.Some? ==> Contiguous(anchors, lastTip.value)
  {
  }

  lemma {:induction false} AnchorsAfter(script: Script, first: nat, prev: u64, before: map<u64, Hash>,
                                        after: map<u64, Hash>, tip: u64, change: CanonicalChange)
    requires Classified(script, first, prev, before, after, tip, change)
    ensures change != Unchanged ==> after == before
  {
  }
}

/** Boot and the poll loop: the states the follower starts from, and whole runs of it. */
module Adapter {
  import opened Basics
  import opened Chain
  import opened Node
  import opened Backfill
  import opened Cursor
  import opened Poll
  import opened Restored

  datatype Config = Config(
    cellTarget: u64,
    backfillBlocks: Option<u64>,
    reorgWindow: u64,
    resumeFrom: Option<u64>,
    resumeAnchors: seq<Anchor>,
    catchupThreshold: u64)
  {
    function Policy(): HydrationPolicy {
      HydrationPolicy(cellTarget, backfillBlocks)
    }

    predicate HydratesAtBoot() {
      resumeFrom.None? && backfillBlocks != Some(0) && cellTarget > 0
    }

    /** Persisted state is consistent with itself: the saved anchors belong to the chain the consumer
        restored, and without a saved cursor there is no restored chain. */
    ghost predicate Restorable(base: seq<Held>) {
      if resumeFrom.Some? then Coherent(resumeFrom, Seeded(map[], resumeAnchors), 0, Consumer(base, None))
      else base == []
    }

    /** The saved anchors reach no deeper below the restored top than the horizon. */
    ghost predicate SavedWithinHorizon(base: seq<Held>) {
      base != [] ==>
        forall n :: n in Seeded(map[], resumeAnchors) ==> n + Horizon(reorgWindow) >= Top(base).number
    }

    /** A resume that saved a height and nothing else, over a consumer the cursor cannot be compared with: `base`
        is then left empty, and what was restored is brought in when the stream is judged. */
    ghost predicate ResumesBare(base: seq<Held>) {
      resumeFrom.Some? && resumeFrom.value < U64_MAX && resumeAnchors == [] && base == []
    }

    /** A start over `restored` of which only the height of the top was saved. */
    ghost predicate SavedBare(restored: seq<Held>) {
      restored != [] && Top(restored).number < U64_MAX && resumeFrom == Some(Top(restored).number) && resumeAnchors == []
    }

    /** The saved anchors cover everything restored within the horizon of the restored top. */
    ghost predicate RestoresWindow(base: seq<Held>) {
      base != [] ==> Retained(Seeded(map[], resumeAnchors), base, Some(Top(base).number), reorgWindow)
    }
  }

  /** A policy that hydrates at boot is already normalised for rebuilds, so its window is never empty. */
  lemma {:induction false} BootPolicyIsNormal(config: Config)
    requires config.HydratesAtBoot()
    ensures config.Policy().ForRebuild() == config.Policy() && config.backfillBlocks != Some(0)
  {
  }

  /** A window that reaches, its parent anchor included, no deeper below its top than the horizon. */
  ghost predicate ShortWindow(chain: seq<Held>, reorgWindow: u64)
    requires chain != []
  {
    SatSub(chain[0].number, 1) + Horizon(reorgWindow) >= Top(chain).number
  }

  /** Boot seeds a hydrated window without pruning it. Such a cursor is within the horizon exactly when the
      window, its parent anchor included, is no longer than the horizon. */
  lemma {:induction false} BootWindowWithinHorizonIff(descending: seq<Held>, tip: u64, reorgWindow: u64)
    requires descending != [] && DescendsFrom(descending, tip)
    ensures Shallow(Some(tip), Seeded(map[], WindowAnchors(descending)), Some(tip), reorgWindow)
            <==> ShortWindow(Ascending(descending), reorgWindow)
  {
    hide Seeded, Ascending, Linked, WindowAnchors, DescendsFrom;
    WindowAnchorHeights(descending, tip);
  }

  /** The anchors of a window are the heights from below its lowest block to its tip. */
  lemma {:induction false} WindowAnchorHeights(descending: seq<Held>, tip: u64)
    requires descending != [] && DescendsFrom(descending, tip)
    ensures var anchors, chain := Seeded(map[], WindowAnchors(descending)), Ascending(descending);
            chain != [] && Top(chain).number == tip && SatSub(chain[0].number, 1) <= tip &&
            SatSub(chain[0].number, 1) in anchors &&
            forall n :: n in anchors ==> SatSub(chain[0].number, 1) <= n <= tip
  {
    hide Seeded, HeldAnchors, Linked, DescendsFrom, Ascending;
    var chain := Ascending(descending);
    AscendingIsLinked(descending, tip);
    TopIsTip(descending, tip);
    TopAboveRest(chain);
    var before := Seeded(map[], ParentAnchor(chain[0]));
    SeededParent(chain[0]);
    SeededTwice(map[], ParentAnchor(chain[0]), HeldAnchors(chain));
    SeededHeld(before, chain);
  }

  lemma {:induction false} TopIsTip(descending: seq<Held>, tip: u64)
    requires descending != [] && DescendsFrom(descending, tip)
    ensures Ascending(descending) != [] && descending[0].number == tip
  {
  }

  /** Resume, hydrate, or start live-only. A boot hydration that fails has sent no block and leaves
      its retries to the poller. */
  method Boot(config: Config, rpc: RpcClient, out: Outbox, ghost shown: seq<Held>, ghost world: seq<FetchedBlock>)
    returns (state: PollState)
    requires out.Valid() && out.sent == [] && config.Restorable(out.base)
    modifies rpc, out
    ensures fresh(state) && state.Fits(out) && rpc.calls >= old(rpc.calls)
    ensures state.hydrationAttemptsLeft > 0 ==> config.HydratesAtBoot() && state.hydrationAttemptsLeft == 3
    ensures config.HydratesAtBoot() && out.audit.lastMined.None?
            ==> state.hydrationAttemptsLeft == 3 && state.lastTip.None?
    ensures !config.HydratesAtBoot() ==> out.audit == old(out.audit) && state.lastTip == config.resumeFrom
    ensures config.resumeFrom.Some? ==> state.canonicalBlocks == Seeded(map[], config.resumeAnchors)
    ensures state.hydrationAttemptsLeft > 0 ==> out.audit == old(out.audit).(progress := out.audit.progress)
    ensures out.audit.lastMined.Some? ==> config.HydratesAtBoot() && state.lastTip == out.audit.lastMined
    ensures out.audit.lastMined.None? ==> out.Chain() == out.base
    ensures out.audit.lastMined.Some? ==> out.audit.progress == Some(Progress(false, ReplayPhase.Boot))
    ensures out.audit.deepest == 0
    ensures out.audit.highest == if out.audit.lastMined.Some? then out.audit.lastMined else old(out.audit.highest)
    ensures out.audit.lastMined.None?
            ==> (state.WithinHorizon(out, config.reorgWindow) <==> config.SavedWithinHorizon(out.base))
    ensures config.ResumesBare(out.base) ==> state.Seated(out, rpc.script, config.resumeFrom.value)
    ensures rpc.calls > old(rpc.calls) <==>
              config.resumeFrom.None? && config.backfillBlocks != Some(0) && config.cellTarget > 0
    ensures config.HydratesAtBoot() &&
            BootReads(HydrationPolicy(config.cellTarget, config.backfillBlocks), rpc.script, old(rpc.calls), shown) ==>
              out.Chain() == Ascending(shown) && out.audit.lastMined == Some(shown[0].number) &&
              state.canonicalBlocks == Seeded(map[], WindowAnchors(shown)) && rpc.calls == old(rpc.calls) + 2 + |shown|
    ensures out.audit.lastMined.Some? ==>
              out.Chain() != [] && out.audit.lastMined == Some(Top(out.Chain()).number) &&
              Fills(out.Chain(), HydrationPolicy(config.cellTarget, config.backfillBlocks)) &&
              (state.WithinHorizon(out, config.reorgWindow) <==> ShortWindow(out.Chain(), config.reorgWindow))
    ensures config.RestoresWindow(out.base) ==> state.Retains(out, config.reorgWindow)
    ensures Commits(rpc.script, world) && HashesCommit(out.base, world) ==> HashesCommit(out.Chain(), world)
  {
    hide Retained, Coherent, HashesCommit, Commits, Shallow, Linked, Ascending, Seeded, DescendsFrom, ShortWindow, OverSeat,
         WindowAnchors, ServesBlocks, Shortest, LiveIn, Confirms, Fills, AllFrom, AuditStep;
    state := new PollState();
    FreshCursor();
    ResumedWithinHorizonIff(config, out.base);
    if config.resumeFrom.Some? {
      state.lastTip := config.resumeFrom;
      state.SeedCanonical(config.resumeAnchors);
      if config.ResumesBare(out.base) {
        BareSits(rpc.script, config.resumeFrom.value);
      }
    } else if config.backfillBlocks != Some(0) && config.cellTarget > 0 {
      var tip := rpc.GetTipBlockNumber();
      if tip.Err? {
        state.ArmHydrationRetry();
        return;
      }
      var hydrated, window := HydrateAtTip(rpc, tip.value, config.Policy(), ReplayPhase.Boot, false, out, shown, world);
      if hydrated.Ok? {
        FirstOfShortest(window.descending, config.Policy(), tip.value);
        BootSeedsWindow(window.descending, tip.value, config.reorgWindow, world);
        WindowFills(window.descending, tip.value, config.Policy());
        state.lastTip := Some(hydrated.value.tip);
        state.SeedCanonical(hydrated.value.anchors);
      } else {
        state.ArmHydrationRetry();
      }
    }
  }

  /** From call `first` on, the node gives a tip, shows a shortest window below it block by block, and then confirms the
      tip's hash. */
  ghost predicate BootReads(policy: HydrationPolicy, script: Script, first: nat, shown: seq<Held>) {
    shown != [] && script.tip(first) == Ok(shown[0].number) &&
    Confirms(script, first + 1, shown, policy, shown[0].number)
  }

  lemma {:induction false} ResumedWithinHorizonIff(config: Config, base: seq<Held>)
    requires config.Restorable(base)
    ensures var highest := AuditLog(base, []).highest;
            if config.resumeFrom.Some?
            then Shallow(config.resumeFrom, Seeded(map[], config.resumeAnchors), highest, config.reorgWindow)
                 <==> config.SavedWithinHorizon(base)
            else highest.None? && config.SavedWithinHorizon(base)
  {
  }

  lemma {:induction false} BareSits(script: Script, seat: u64)
    requires seat < U64_MAX
    ensures OverSeat(script, Some(seat), Seeded(map[], []), [], Junction(None, None, true, false), seat)
  {
  }

  /** The cursor that boot takes from a hydrated window. */
  lemma {:induction false} BootSeedsWindow(descending: seq<Held>, tip: u64, reorgWindow: u64, world: seq<FetchedBlock>)
    requires descending != [] && DescendsFrom(descending, tip)
    ensures var anchors, chain := Seeded(map[], WindowAnchors(descending)), Ascending(descending);
            chain != [] && Top(chain).number == tip && Coherent(Some(tip), anchors, 0, Consumer(chain, None)) &&
            (Shallow(Some(tip), anchors, Some(tip), reorgWindow) <==> ShortWindow(chain, reorgWindow)) &&
            Retained(anchors, chain, Some(tip), reorgWindow)
    ensures HashesCommit(descending, world) ==> HashesCommit(Ascending(descending), world)
  {
    hide Coherent, Shallow, Retained, ShortWindow, Linked, Seeded, WindowAnchors, Ascending;
    assert Ascending(descending) != [] by { TopIsTip(descending, tip); }
    WindowIsCoherent(descending, tip);
    AscendingIsLinked(descending, tip);
    BootWindowWithinHorizonIff(descending, tip, reorgWindow);
    WindowRetains(descending, tip, tip, reorgWindow);
    AscendingStaysOnWorld(descending, world);
  }

  lemma {:induction false} WindowFills(descending: seq<Held>, tip: u64, policy: HydrationPolicy)
    requires DescendsFrom(descending, tip) && Shortest(descending, policy, tip)
    ensures Fills(Ascending(descending), policy)
  {
    AscendingIsLinked(descending, tip);
  }

  lemma {:induction false} RestoredIsLinked(config: Config, base: seq<Held>)
    requires config.Restorable(base)
    ensures Linked(base)
  {
  }

  lemma {:induction false} FreshAudit(base: seq<Held>)
    ensures !AuditLog(base, []).junction.rebuilt
  {
  }

  lemma {:induction false} FreshCursor()
    ensures forall n: nat :: Coherent(None, map[], n, Consumer([], None))
    ensures forall lastTip, anchors, reorgWindow :: Shallow(lastTip, anchors, None, reorgWindow)
    ensures forall anchors, highest, reorgWindow :: Retained(anchors, [], highest, reorgWindow)
  {
  }

  /** One poll: read the tip, then synchronise towards it. Chain info and mempool are not modelled. */
  method PollOnce(config: Config, rpc: RpcClient, state: PollState, out: Outbox, ghost world: seq<FetchedBlock>)
    returns (r: Result<()>)
    requires state.Fits(out)
    modifies rpc, state, out
    ensures rpc.calls >= old(rpc.calls)
    ensures state.Fits(out)
    ensures state.hydrationAttemptsLeft <= old(state.hydrationAttemptsLeft)
    ensures old(state.WithinHorizon(out, config.reorgWindow)) ==>
              out.audit.deepest <= Max(old(out.audit.deepest), Max(config.reorgWindow, 2))
    ensures out.audit.rebuilds > old(out.audit.rebuilds) || old(state.hydrationAttemptsLeft) > state.hydrationAttemptsLeft + 1
            ==> Fills(out.Chain(),
                      HydrationPolicy(config.cellTarget,
                                      if config.backfillBlocks.Some? then Some(Max(config.backfillBlocks.value, 1))
                                      else if config.cellTarget == 0 then Some(1) else None))
    ensures out.audit.deepest >= old(out.audit.deepest)
    ensures forall n: u64 :: PollForks(rpc.script, old(rpc.calls), old(state.lastTip), old(state.canonicalBlocks), n)
              ==> out.audit.deepest >= Depth(old(out.audit.highest), SatSucc(n))
    ensures forall n: u64 :: PollForks(rpc.script, old(rpc.calls), old(state.lastTip), old(state.canonicalBlocks), n)
              ==> var tip := rpc.script.tip(old(rpc.calls)).value;
                  Paced(n, tip, config.catchupThreshold, Replaying(n, tip, old(out.audit.progress)), r.Ok?, state.lastTip,
                        state.PaceOver(out))
    ensures Keeps(rpc.script, config.reorgWindow, old(state.StanceOver(out)), state.StanceOver(out))
    ensures rpc.script.tip(old(rpc.calls)).Err? ==> out.audit == old(out.audit)
    ensures var reply, before := rpc.script.tip(old(rpc.calls)), old(state.lastTip);
            old(state.hydrationAttemptsLeft) == 0 && reply.Ok? &&
            ConfirmsTop(rpc.script, old(rpc.calls) + 1, before, old(state.canonicalBlocks)) && before.value <= reply.value
            ==> Paced(before.value, reply.value, config.catchupThreshold, old(state.PaceOver(out)), r.Ok?, state.lastTip,
                      state.PaceOver(out))
    ensures var reply := rpc.script.tip(old(rpc.calls));
            reply.Ok? && BareAt(old(state.lastTip), old(state.canonicalBlocks)) && old(state.lastTip).value <= reply.value
            ==> GrowsBare(rpc.script, old(rpc.calls) + 1, old(state.lastTip).value, reply.value, old(out.audit), out.audit)
    ensures var reply := rpc.script.tip(old(rpc.calls));
            reply.Ok? && old(state.lastTip).Some? && old(state.canonicalBlocks) == map[] &&
            reply.value < old(state.lastTip).value ==>
              out.audit.junction == old(out.audit.junction).(rebuilt := out.audit.junction.rebuilt)
    ensures Serves(rpc.script, old(rpc.calls), world) && TopAgrees(old(state.lastTip), old(state.canonicalBlocks), world)
            ==> out.audit.junction.rebuilt == old(out.audit.junction.rebuilt)
    ensures Commits(rpc.script, world) && HashesCommit(old(out.Chain()), world) ==> HashesCommit(out.Chain(), world)
    ensures Serves(rpc.script, old(rpc.calls), world) && old(state.Retains(out, config.reorgWindow))
            ==> KeepsShared(old(out.Chain()), out.Chain(), old(out.audit.highest), config.reorgWindow, world)
    ensures Serves(rpc.script, old(rpc.calls), world) && HashesCommit(old(out.Chain()), world)
            ==> r.Ok? && state.lastTip == Some(|world| - 1) &&
                OnWorld(state.lastTip, state.canonicalBlocks, out.Chain(), world)
  {
    hide AuditLog, Coherent, Shallow, Retained, AllFrom, HashesCommit, Commits, KeepsShared, ForksAt, TopAgrees,
         GrowsBare, Keeps, Fills, Paced, ConfirmsTop, Replaying;
    SameKeeps(rpc.script, config.reorgWindow, state.StanceOver(out));
    SameKeepsShared(out.Chain(), out.audit.highest, config.reorgWindow, world);
    var tip := rpc.GetTipBlockNumber();
    if tip.Err? {
      return Err(tip.fault);
    }
    StillServes(rpc.script, old(rpc.calls), rpc.calls, world);
    RebuildWindowIsNeverEmpty(config.Policy());
    r := SyncCanonicalBlocks(rpc, state, out, tip.value, config.catchupThreshold, config.Policy().ForRebuild(),
                             config.reorgWindow, world);
  }

  /** The block that the first poll of a run resumed at the bare height `height` announces, if any, when boot ends at
      call `t`. */
  ghost function FirstPolled(script: Script, t: nat, height: u64): Option<FetchedBlock> {
    if script.tip(t).Err? then None else FirstBlock(script, t + 1, height, script.tip(t).value)
  }

  /** What a run that saved only the height of the restored top makes of the consumer that holds `restored`, which it never
      sees. The stream is legal there exactly when the hash its first block names as its parent, which the node gave for
      that height, is the restored top's. The first poll decides it, if it announces anything. */
  ghost predicate JoinsRestored(script: Script, started: nat, polls: nat, restored: seq<Held>, actual: Audit, shadow: Audit)
    requires restored != []
  {
    var top, first := Top(restored), FirstPolled(script, started, Top(restored).number);
    Stacked(restored, actual, shadow) &&
    (shadow.junction.parent.Some? ==> Said(script, top.number, shadow.junction.parent.value)) &&
    (polls > 0 && first.Some? ==> (actual.legal <==> first.value.parentHash == top.block.hash)) &&
    (polls == 0 || (polls == 1 && first.None?) ==> actual.legal)
  }

  /** The hash that the stream of a run resumed at the bare height `height` names below its first block. */
  ghost predicate NamesFirst(script: Script, started: nat, polls: nat, height: u64, parent: Option<Hash>) {
    var first := FirstPolled(script, started, height);
    (polls > 0 && first.Some? ==> parent == Some(first.value.parentHash)) &&
    (polls == 0 || (polls == 1 && first.None?) ==> parent == None)
  }

  /** A stream that a seated cursor has sent over nothing, brought to whatever was restored up to the seat. */
  lemma {:induction false} SeatedJoins(config: Config, script: Script, started: nat, polls: nat, stance: Stance,
                                       restored: seq<Held>, sent: seq<Mutation>, shadow: Audit)
    requires config.SavedBare(restored) && shadow == AuditLog([], sent) && shadow.legal
    requires stance.junction == shadow.junction && stance.Sits(script, Top(restored).number)
    requires NamesFirst(script, started, polls, Top(restored).number, shadow.junction.parent)
    ensures JoinsRestored(script, started, polls, restored, AuditLog(restored, sent), shadow)
  {
    hide OverSeat, FirstPolled, Said, AuditLog;
    StreamOverRestored(restored, sent);
  }

  /** Over a stable node that is ahead of the seat, the first block a seated cursor sent names the node's own block. */
  lemma {:induction false} SeatedOnServed(script: Script, stance: Stance, seat: u64, world: seq<FetchedBlock>)
    requires stance.Sits(script, seat) && !stance.junction.rebuilt
    requires IsWorld(world) && AllFrom(stance.chain, world)
    requires stance.lastTip.Some? && seat < stance.lastTip.value && seat + 1 < |world|
    ensures stance.junction.parent == Some(world[seat].hash)
  {
    hide Said;
    assert stance.chain[0].block == world[seat + 1];
  }

  /** The first poll from a bare height names what `FirstPolled` names, or nothing. */
  lemma {:induction false} FirstPollNames(script: Script, started: nat, height: u64, before: Audit, stance: Stance,
                                          after: Audit)
    requires before.junction.parent.None? && !before.junction.rebuilt
    requires stance.chain == after.consumer.chain && stance.junction == after.junction && stance.Sits(script, height)
    requires script.tip(started).Err? ==> after == before
    requires script.tip(started).Ok? && height <= script.tip(started).value
             ==> GrowsBare(script, started + 1, height, script.tip(started).value, before, after)
    requires script.tip(started).Ok? && script.tip(started).value < height
             ==> after.junction == before.junction.(rebuilt := after.junction.rebuilt)
    ensures NamesFirst(script, started, 1, height, after.junction.parent)
  {
    hide NextBlock, Said;
  }

  /** Later polls do not change it. */
  lemma {:induction false} LaterPollNames(script: Script, started: nat, reorgWindow: u64, polls: nat, height: u64,
                                          before: Stance, after: Stance)
    requires polls > 0 && NamesFirst(script, started, polls, height, before.junction.parent)
    requires before.Sits(script, height) && Keeps(script, reorgWindow, before, after)
    ensures NamesFirst(script, started, polls + 1, height, after.junction.parent)
  {
    hide FirstPolled, SeatedOn, Shallow, Retained;
  }

  /** A cursor that resumed over nothing but a height. */
  lemma {:induction false} BareStart(config: Config, base: seq<Held>)
    requires config.ResumesBare(base)
    ensures Seeded(map[], config.resumeAnchors) == map[] && BareAt(config.resumeFrom, map[]) && !config.HydratesAtBoot()
    ensures AuditLog(base, []).junction.parent.None? && config.SavedWithinHorizon(base)
    ensures forall script, started: nat :: NamesFirst(script, started, 0, config.resumeFrom.value, None)
  {
  }

  lemma {:induction false} BareAgrees(config: Config, world: seq<FetchedBlock>)
    ensures config.ResumesBare([]) && config.resumeFrom.value < |world| ==> TopAgrees(config.resumeFrom, map[], world)
    ensures HashesCommit([], world)
  {
  }

  lemma {:induction false} KeepsApart(script: Script, reorgWindow: u64, before: Stance, after: Stance)
    requires Keeps(script, reorgWindow, before, after)
    ensures before.Bounded(reorgWindow) ==> after.Bounded(reorgWindow)
    ensures before.Covered(reorgWindow) ==> after.Covered(reorgWindow)
    ensures forall seat: u64 :: before.Sits(script, seat) ==> after.Sits(script, seat)
  {
    hide SeatedOn, Shallow, Retained;
  }

  /** The first poll of a resumed run and of a hydrated one meets a fork right above the anchor at `n`. */
  ghost predicate ResumeForks(config: Config, script: Script, first: nat, n: u64) {
    config.resumeFrom.Some? && PollForks(script, first, config.resumeFrom, Seeded(map[], config.resumeAnchors), n)
  }

  ghost predicate BootForks(config: Config, script: Script, first: nat, shown: seq<Held>, n: u64) {
    config.HydratesAtBoot() && BootReads(HydrationPolicy(config.cellTarget, config.backfillBlocks), script, first, shown) &&
    PollForks(script, first + 2 + |shown|, Some(shown[0].number), Seeded(map[], WindowAnchors(shown)), n)
  }

  /** Any number of polls from boot, whatever the node answers. After every prefix of the stream the
      consumer holds consecutive, parent-linked blocks; no rollback takes back more heights than the horizon, if
      the saved anchors reach no deeper and boot hydrated no longer window, and one does if they do and the node forks there
      before the first poll; a stream resumed at a bare height joins whatever was restored up to it exactly if it names its
      top; and once the node is stable, every completed poll ends on its chain. `booted` is what the consumer held after
      boot, `started` the call counter at the start of the last poll. */
  method Run(config: Config, rpc: RpcClient, out: Outbox, polls: nat, ghost shown: seq<Held>, ghost world: seq<FetchedBlock>)
    returns (state: PollState, ghost started: nat, ghost booted: seq<Held>)
    requires out.Valid() && out.sent == [] && config.Restorable(out.base)
    modifies rpc, out
    ensures state.Fits(out)
    ensures forall k :: 0 <= k <= |out.sent| ==> Linked(AuditLog(out.base, out.sent[..k]).consumer.chain)
    ensures booted == [] || !config.HydratesAtBoot() || ShortWindow(booted, config.reorgWindow) ==>
              config.SavedWithinHorizon(out.base) ==> out.audit.deepest <= Max(config.reorgWindow, 2)
    ensures config.HydratesAtBoot() &&
            BootReads(HydrationPolicy(config.cellTarget, config.backfillBlocks), rpc.script, old(rpc.calls), shown)
            ==> booted == Ascending(shown)
    ensures config.HydratesAtBoot() && booted != [] ==> Fills(booted, HydrationPolicy(config.cellTarget, config.backfillBlocks))
    ensures forall n: u64 :: polls > 0 && ResumeForks(config, rpc.script, old(rpc.calls), n)
              ==> out.audit.deepest >= Depth(AuditLog(out.base, []).highest, SatSucc(n))
    ensures forall n: u64 :: polls > 0 && BootForks(config, rpc.script, old(rpc.calls), shown, n)
              ==> out.audit.deepest >= Depth(Some(shown[0].number), SatSucc(n))
    ensures config.ResumesBare(out.base) ==> state.Seated(out, rpc.script, config.resumeFrom.value)
    ensures forall restored: seq<Held> :: out.base == [] && config.SavedBare(restored)
              ==> JoinsRestored(rpc.script, old(rpc.calls), polls, restored, AuditLog(restored, out.sent), out.audit)
    ensures polls > 0 && Serves(rpc.script, old(rpc.calls), world) && Commits(rpc.script, world) ==>
              forall restored: seq<Held> ::
                out.base == [] && config.SavedBare(restored) && Top(restored).number + 1 < |world| ==>
                  (AuditLog(restored, out.sent).legal <==> world[Top(restored).number].hash == Top(restored).block.hash)
    ensures Serves(rpc.script, old(rpc.calls), world) && Commits(rpc.script, world) && HashesCommit(out.base, world) &&
            TopAgrees(config.resumeFrom, Seeded(map[], config.resumeAnchors), world)
            ==> !out.audit.junction.rebuilt
    ensures config.RestoresWindow(out.base) ==> state.Retains(out, config.reorgWindow)
    ensures polls > 0 && Serves(rpc.script, started, world) && Commits(rpc.script, world) && HashesCommit(out.base, world)
            ==> state.lastTip == Some(|world| - 1) && AllFrom(out.Chain(), world)
  {
    hide AuditLog, Coherent, Shallow, Retained, AllFrom, HashesCommit, Commits, Serves, TopAgrees, SeatedOn, Keeps, Linked,
         PollForks, NamesFirst, GrowsBare, BareAt, BootReads, Ascending, ShortWindow, Seeded, KeepsShared, Fills, Paced,
         ConfirmsTop, Replaying, IsWorld, AuditStep, WindowAnchors;
    ghost var first := rpc.calls;
    started := first;
    RestoredIsLinked(config, out.base);
    FreshAudit(out.base);
    NoCursorYet(rpc.script, first, Seeded(map[], config.resumeAnchors), 0, world);
    if config.ResumesBare(out.base) {
      BareStart(config, out.base);
    }
    state := Boot(config, rpc, out, shown, world);
    booted := out.Chain();
    ghost var calls, stance := rpc.calls, state.StanceOver(out);
    for poll := 0 to polls
      invariant fresh(state) && state.Fits(out)
      invariant rpc.calls >= first
      invariant poll == 0 ==> rpc.calls == calls && state.StanceOver(out) == stance
      invariant poll == 0 && !config.HydratesAtBoot() ==> out.audit == old(out.audit)
      invariant booted == [] || !config.HydratesAtBoot() || ShortWindow(booted, config.reorgWindow) ==>
                  config.SavedWithinHorizon(out.base) ==>
                  state.WithinHorizon(out, config.reorgWindow) && out.audit.deepest <= Horizon(config.reorgWindow)
      invariant forall n: u64 :: poll > 0 && PollForks(rpc.script, calls, stance.lastTip, stance.anchors, n)
                  ==> out.audit.deepest >= Depth(stance.highest, SatSucc(n))
      invariant config.ResumesBare(out.base) ==>
                  state.Seated(out, rpc.script, config.resumeFrom.value) &&
                  NamesFirst(rpc.script, first, poll, config.resumeFrom.value, out.audit.junction.parent)
      invariant Serves(rpc.script, first, world) && Commits(rpc.script, world) && HashesCommit(out.base, world) &&
                TopAgrees(config.resumeFrom, Seeded(map[], config.resumeAnchors), world)
                ==> !out.audit.junction.rebuilt && TopAgrees(state.lastTip, state.canonicalBlocks, world)
      invariant config.RestoresWindow(out.base) ==> state.Retains(out, config.reorgWindow)
      invariant Commits(rpc.script, world) && HashesCommit(out.base, world) ==> HashesCommit(out.Chain(), world)
      invariant started >= first
      invariant poll > 0 && Serves(rpc.script, started, world) && Commits(rpc.script, world) && HashesCommit(out.base, world)
                ==> state.lastTip == Some(|world| - 1) && AllFrom(out.Chain(), world)
    {
      started := rpc.calls;
      StillServes(rpc.script, first, rpc.calls, world);
      ghost var before, audit := state.StanceOver(out), out.audit;
      var result := PollOnce(config, rpc, state, out, world);
      KeepsApart(rpc.script, config.reorgWindow, before, state.StanceOver(out));
      if config.ResumesBare(out.base) {
        if poll == 0 {
          FirstPollNames(rpc.script, first, config.resumeFrom.value, audit, state.StanceOver(out), out.audit);
        } else {
          LaterPollNames(rpc.script, first, config.reorgWindow, poll, config.resumeFrom.value, before, state.StanceOver(out));
        }
      }
    }
    forall k | 0 <= k <= |out.sent|
      ensures Linked(AuditLog(out.base, out.sent[..k]).consumer.chain)
    {
      LegalLogStaysLinked(out.base, out.sent, k);
    }
    BareAgrees(config, world);
    StillServes(rpc.script, first, started, world);
    forall restored: seq<Held> | out.base == [] && config.SavedBare(restored)
      ensures JoinsRestored(rpc.script, first, polls, restored, AuditLog(restored, out.sent), out.audit)
      ensures polls > 0 && Serves(rpc.script, first, world) && Commits(rpc.script, world) && Top(restored).number + 1 < |world|
              ==> out.audit.junction.parent == Some(world[Top(restored).number].hash)
    {
      SeatedJoins(config, rpc.script, first, polls, state.StanceOver(out), restored, out.sent, out.audit);
      if polls > 0 && Serves(rpc.script, first, world) && Commits(rpc.script, world) && Top(restored).number + 1 < |world| {
        IsServedWorld(rpc.script, first, world);
        SeatedOnServed(rpc.script, state.StanceOver(out), Top(restored).number, world);
      }
    }
  }
}

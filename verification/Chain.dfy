/** Blocks, the mutation stream the adapter emits, and the consumer that folds it. */
module Chain {
  import opened Basics

  /** An opaque digest: only equality matters. */
  datatype Hash = Digest(id: nat)

  datatype OutPoint = OutPoint(txHash: Hash, index: u32)

  datatype Tx = Tx(hash: Hash, inputs: seq<OutPoint>, outputs: nat)

  /** A translated block together with the header linkage it was fetched with. */
  datatype FetchedBlock = FetchedBlock(hash: Hash, parentHash: Hash, txs: seq<Tx>)

  datatype ReplayPhase = Boot | Catchup | Reorg | Rebuild

  /** `BlockMined` also carries the header's parent hash, so that linkage can be stated about the stream. */
  datatype Mutation =
    | BlockMined(number: u64, hash: Hash, parentHash: Hash)
    | TxLanded(block: u64, tx: Tx)
    | ChainReorganized(fromBlock: u64)
    | ChainRebuild(fromBlock: u64)
    | BackfillProgress(done: nat, total: nat, active: bool, phase: ReplayPhase)
    | CellHydrationCompleted(target: u64, available: u64, fromBlock: u64, atTip: u64)

  /** One block as a consumer of the stream holds it. */
  datatype Held = Held(number: u64, block: FetchedBlock)

  /** The block a consumer that holds nothing has to be given next: the start announced by a `ChainRebuild`, or the
      one right above a rollback that left nothing, which names the same parent as the lowest block rolled back. */
  datatype Awaited = Start(number: u64) | Onward(number: u64, parent: Option<Hash>)

  datatype Consumer = Consumer(chain: seq<Held>, awaiting: Option<Awaited>)

  function Truncate(chain: seq<Held>, fromBlock: u64): seq<Held> {
    if chain == [] || chain[|chain| - 1].number < fromBlock then chain
    else Truncate(chain[..|chain| - 1], fromBlock)
  }

  /** What a consumer that drops everything knows of the block below height `from`. At the largest height the boundary
      of a rollback saturates and does not say which block stays. */
  function ParentAt(c: Consumer, from: u64): Option<Hash> {
    if from == U64_MAX then None
    else if c.chain != [] then (if c.chain[0].number == from then Some(c.chain[0].block.parentHash) else None)
    else if c.awaiting.Some? && c.awaiting.value.Onward? && c.awaiting.value.number == from then c.awaiting.value.parent
    else None
  }

  function Consume(c: Consumer, m: Mutation): Consumer {
    match m
    case BlockMined(n, h, p) => Consumer(c.chain + [Held(n, FetchedBlock(h, p, []))], None)
    case TxLanded(n, tx) =>
      if c.chain == [] then c else
      var top := c.chain[|c.chain| - 1];
      c.(chain := c.chain[..|c.chain| - 1] + [Held(top.number, top.block.(txs := top.block.txs + [tx]))])
    case ChainReorganized(f) =>
      var kept := Truncate(c.chain, f);
      Consumer(kept, if kept == [] then Some(Onward(f, ParentAt(c, f))) else None)
    case ChainRebuild(f) => Consumer([], Some(Start(f)))
    case _ => c
  }

  /** A mutation the consumer can apply without skipping a height, repeating one, or mixing forks. */
  predicate Accepts(c: Consumer, m: Mutation) {
    match m
    case BlockMined(n, h, p) =>
      (c.awaiting.Some? ==>
         n == c.awaiting.value.number &&
         (c.awaiting.value.Onward? && c.awaiting.value.parent.Some? ==> p == c.awaiting.value.parent.value)) &&
      (c.chain != [] ==>
         var top := c.chain[|c.chain| - 1];
         n == top.number + 1 && p == top.block.hash)
    case TxLanded(n, _) => c.chain != [] && c.chain[|c.chain| - 1].number == n
    case ChainReorganized(f) =>
      (c.awaiting.Some? ==> c.awaiting.value.Onward? && f <= c.awaiting.value.number) &&
      (c.chain != [] ==> f <= c.chain[|c.chain| - 1].number + 1)
    case _ => true
  }

  function Top(chain: seq<Held>): Held
    requires chain != []
  {
    chain[|chain| - 1]
  }

  /** Consecutive heights, each block naming the previous one's hash as its parent. */
  ghost predicate Linked(chain: seq<Held>) {
    forall i :: 0 < i < |chain| ==>
      chain[i].number == chain[i - 1].number + 1 && chain[i].block.parentHash == chain[i - 1].block.hash
  }

  /** Everything the claims about the stream speak of, folded over a log of mutations.
      `progress` is the last progress marker, and the audit is lit while that is active; `lastMined` the last announced height;
      `highest` the highest height announced or restored since the last rebuild; `deepest` the deepest rollback
      below it; `mined` the number of announced blocks and `rebuilds` that of the rebuilds; `certificate` the last
      `CellHydrationCompleted`; `junction` where the stream meets whatever its consumer held before. */
  datatype Audit = Audit(
    consumer: Consumer, legal: bool, progress: Option<Progress>, lastMined: Option<u64>, deepest: nat, mined: nat,
    rebuilds: nat, certificate: Option<Mutation>, highest: Option<u64>, junction: Junction)
  {
    predicate Lit() {
      progress.Some? && progress.value.active
    }
  }

  /** What a progress marker says, apart from its counts. */
  datatype Progress = Progress(active: bool, phase: ReplayPhase)

  /** A stream judged over an empty consumer, as it would meet a longer one. `seat` is the height it stands on:
      right below its first block, or what its first rollback kept. `parent` is the hash its first block names
      there. It is `sound` as long as it comes back to that height and that hash only, and never cuts below. All
      of this ends with the first rebuild. */
  datatype Junction = Junction(seat: Option<int>, parent: Option<Hash>, sound: bool, rebuilt: bool)

  function JunctionStep(j: Junction, chain: seq<Held>, m: Mutation): Junction {
    if j.rebuilt then j else
    match m
    case ChainRebuild(_) => j.(rebuilt := true)
    case BlockMined(n, _, p) =>
      if chain != [] then j
      else Junction(Some(n - 1), Some(p),
                    j.sound && (j.seat.Some? ==> j.seat.value == n - 1) && (j.parent.Some? ==> j.parent.value == p), false)
    case ChainReorganized(f) =>
      if chain != [] then j.(sound := j.sound && j.seat.Some? && f > j.seat.value)
      else Junction(Some(f - 1), j.parent, j.sound && (j.seat.Some? ==> j.seat.value == f - 1), false)
    case _ => j
  }

  function Raised(highest: Option<u64>, n: u64): u64 {
    if highest.Some? then Max(highest.value, n) else n
  }

  /** How many heights, up to the highest, a rollback takes back. */
  function Depth(highest: Option<u64>, fromBlock: u64): nat {
    if highest.Some? then Max(0, highest.value + 1 - fromBlock) else 0
  }

  function AuditStep(a: Audit, m: Mutation): Audit {
    Audit(
      Consume(a.consumer, m),
      a.legal && Accepts(a.consumer, m),
      if m.BackfillProgress? then Some(Progress(m.active, m.phase)) else a.progress,
      if m.BlockMined? then Some(m.number) else a.lastMined,
      if m.ChainReorganized? then Max(a.deepest, Depth(a.highest, m.fromBlock)) else a.deepest,
      if m.BlockMined? then a.mined + 1 else a.mined,
      if m.ChainRebuild? then a.rebuilds + 1 else a.rebuilds,
      if m.CellHydrationCompleted? then Some(m) else a.certificate,
      if m.BlockMined? then Some(Raised(a.highest, m.number)) else if m.ChainRebuild? then None else a.highest,
      JunctionStep(a.junction, a.consumer.chain, m))
  }

  function AuditLog(base: seq<Held>, log: seq<Mutation>): Audit {
    if log == [] then
      Audit(Consumer(base, None), true, None, None, 0, 0, 0, None, if base == [] then None else Some(Top(base).number),
            Junction(None, None, true, false))
    else AuditStep(AuditLog(base, log[..|log| - 1]), log[|log| - 1])
  }

  lemma {:induction false} TruncateIsExact(chain: seq<Held>, fromBlock: u64)
    requires Linked(chain)
    ensures Linked(Truncate(chain, fromBlock))
    ensures forall h :: h in Truncate(chain, fromBlock) <==> h in chain && h.number < fromBlock
  {
    hide Linked;
    if chain != [] {
      var rest := chain[..|chain| - 1];
      assert chain == rest + [Top(chain)];
      LinkedPrefix(chain);
      if Top(chain).number >= fromBlock {
        TruncateIsExact(rest, fromBlock);
      } else {
        TopIsHighest(chain);
      }
    }
  }

  lemma {:induction false} LinkedPrefix(chain: seq<Held>)
    requires Linked(chain) && chain != []
    ensures Linked(chain[..|chain| - 1])
  {
  }

  lemma {:induction false} LinkedOneMore(chain: seq<Held>, next: Held)
    requires Linked(chain)
    ensures (chain != [] ==> next.number == Top(chain).number + 1 && next.block.parentHash == Top(chain).block.hash)
            ==> Linked(chain + [next])
  {
  }

  lemma {:induction false} TopIsHighest(chain: seq<Held>)
    requires Linked(chain) && chain != []
    ensures forall h :: h in chain ==> h.number <= Top(chain).number
  {
    HeightsFromTop(chain);
    forall h | h in chain ensures h.number <= Top(chain).number {
      var i :| 0 <= i < |chain| && chain[i] == h;
    }
  }

  lemma {:induction false} HeightsFromTop(chain: seq<Held>)
    requires Linked(chain)
    ensures forall i :: 0 <= i < |chain| ==> chain[i].number == Top(chain).number - (|chain| - 1 - i)
  {
    if |chain| > 1 {
      var rest := chain[..|chain| - 1];
      HeightsFromTop(rest);
      assert forall i :: 0 <= i < |rest| ==> chain[i] == rest[i];
    }
  }

  /** Applying an accepted mutation keeps the consumer's chain linked. */
  lemma {:induction false} AcceptedKeepsLinked(c: Consumer, m: Mutation)
    requires Linked(c.chain) && Accepts(c, m)
    ensures Linked(Consume(c, m).chain)
  {
    if m.ChainReorganized? {
      TruncateIsExact(c.chain, m.fromBlock);
    }
  }

  /** A legal log leaves a linked chain after every one of its prefixes. */
  lemma {:induction false} LegalLogStaysLinked(base: seq<Held>, log: seq<Mutation>, k: nat)
    requires Linked(base) && AuditLog(base, log).legal && k <= |log|
    ensures AuditLog(base, log[..k]).legal && Linked(AuditLog(base, log[..k]).consumer.chain)
    decreases |log|, k
  {
    if k == |log| {
      assert log[..k] == log;
      if log != [] {
        var before := log[..|log| - 1];
        LegalLogStaysLinked(base, before, |before|);
        assert before[..|before|] == before;
        AcceptedKeepsLinked(AuditLog(base, before).consumer, log[|log| - 1]);
      }
    } else {
      var before := log[..|log| - 1];
      assert log[..k] == before[..k];
      LegalLogStaysLinked(base, before, k);
    }
  }

  ghost predicate AllMarkers(markers: seq<Mutation>) {
    forall i :: 0 <= i < |markers| ==> markers[i].BackfillProgress? || markers[i].CellHydrationCompleted?
  }

  lemma {:induction false} MarkersChangeNothing(base: seq<Held>, log: seq<Mutation>, markers: seq<Mutation>)
    requires AllMarkers(markers)
    ensures AuditLog(base, log + markers).consumer == AuditLog(base, log).consumer
    decreases |markers|
  {
    var all := log + markers;
    if markers == [] {
      assert all == log;
    } else {
      var rest := markers[..|markers| - 1];
      assert all[..|all| - 1] == log + rest;
      MarkersChangeNothing(base, log, rest);
    }
  }

  /** A rollback that leaves nothing is followed by the block right at its boundary, on the parent of the lowest block
      it took back. */
  lemma {:induction false} ContinuesWhereCut(base: seq<Held>, log: seq<Mutation>, from: u64, markers: seq<Mutation>,
                                             number: u64, hash: Hash, parent: Hash)
    requires AllMarkers(markers) && Truncate(AuditLog(base, log).consumer.chain, from) == []
    requires AuditLog(base, log + [ChainReorganized(from)] + markers + [BlockMined(number, hash, parent)]).legal
    ensures number == from
    ensures var chain := AuditLog(base, log).consumer.chain;
            chain != [] && chain[0].number == from && from < U64_MAX ==> parent == chain[0].block.parentHash
  {
    var cut := log + [ChainReorganized(from)];
    var all := cut + markers + [BlockMined(number, hash, parent)];
    assert cut[..|cut| - 1] == log;
    assert all[..|all| - 1] == cut + markers;
    MarkersChangeNothing(base, cut, markers);
  }

  /** A consumer that has received a block's header and its first `i` transactions. */
  function Grown(chain: seq<Held>, number: u64, block: FetchedBlock, i: nat): Consumer
    requires i <= |block.txs|
  {
    Consumer(chain + [Held(number, block.(txs := block.txs[..i]))], None)
  }

  lemma {:induction false} MinedOnTop(c: Consumer, number: u64, block: FetchedBlock)
    ensures Consume(c, BlockMined(number, block.hash, block.parentHash)) == Grown(c.chain, number, block, 0)
  {
  }

  lemma {:induction false} LandedOnTop(chain: seq<Held>, number: u64, block: FetchedBlock, i: nat)
    requires i < |block.txs|
    ensures Accepts(Grown(chain, number, block, i), TxLanded(number, block.txs[i]))
    ensures Consume(Grown(chain, number, block, i), TxLanded(number, block.txs[i])) == Grown(chain, number, block, i + 1)
  {
    assert block.txs[..i + 1] == block.txs[..i] + [block.txs[i]];
  }

  /** What one block, sent whole, does to the audit. */
  ghost predicate Sent(before: Audit, after: Audit, number: u64, block: FetchedBlock) {
    var mined := BlockMined(number, block.hash, block.parentHash);
    after.consumer == Consumer(before.consumer.chain + [Held(number, block)], None) &&
    after.legal == (before.legal && Accepts(before.consumer, mined)) &&
    after.progress == before.progress && after.lastMined == Some(number) &&
    after.deepest == before.deepest && after.mined == before.mined + 1 && after.rebuilds == before.rebuilds &&
    after.certificate == before.certificate && after.highest == Some(Raised(before.highest, number)) &&
    after.junction == JunctionStep(before.junction, before.consumer.chain, mined)
  }

  /** The adapter's output channel: the stream sent so far and, for the claims, its audit. */
  class Outbox {
    const base: seq<Held>
    var sent: seq<Mutation>
    ghost var audit: Audit

    ghost predicate Valid()
      reads this
    {
      audit == AuditLog(base, sent)
    }

    ghost function Chain(): seq<Held>
      reads this
    {
      audit.consumer.chain
    }

    constructor (restored: seq<Held>)
      ensures Valid() && base == restored && sent == []
      ensures audit == AuditLog(base, [])
    {
      base := restored;
      sent := [];
      audit := AuditLog(restored, []);
    }

    method Send(m: Mutation)
      requires Valid()
      modifies this
      ensures Valid() && sent == old(sent) + [m]
      ensures audit == AuditStep(old(audit), m)
      ensures m.BackfillProgress? ==> audit == old(audit).(progress := Some(Progress(m.active, m.phase)))
    {
      sent := sent + [m];
      audit := AuditStep(audit, m);
      assert sent[..|sent| - 1] == old(sent);
    }

    /** A replayed block: its header, then its transactions, in stream order. */
    method SendBlock(number: u64, block: FetchedBlock)
      requires Valid()
      modifies this
      ensures Valid()
      ensures Sent(old(audit), audit, number, block)
    {
      hide AuditLog, Consume, Accepts;
      ghost var before := audit;
      MinedOnTop(before.consumer, number, block);
      Send(BlockMined(number, block.hash, block.parentHash));
      ghost var mined := audit;
      for i := 0 to |block.txs|
        invariant Valid()
        invariant audit == mined.(consumer := Grown(before.consumer.chain, number, block, i))
      {
        LandedOnTop(before.consumer.chain, number, block, i);
        Send(TxLanded(number, block.txs[i]));
      }
      assert block.txs[..|block.txs|] == block.txs;
    }
  }
}

/** Which outputs of a block suffix are still live: the backward scan and the forward replay it must agree with. */
module LiveOutputs {
  import opened Basics
  import opened Chain

  const CELLBASE: OutPoint := OutPoint(Digest(0), U32_MAX)

  predicate IsCellbaseInput(op: OutPoint) {
    op == CELLBASE
  }

  /** Output positions are narrowed to 32 bits, saturating. */
  function OutPointOf(tx: Tx, index: nat): OutPoint {
    OutPoint(tx.hash, if index <= U32_MAX then index else U32_MAX)
  }

  function OutputsUpTo(tx: Tx, n: nat): seq<OutPoint>
    ensures |OutputsUpTo(tx, n)| == n
  {
    if n == 0 then [] else OutputsUpTo(tx, n - 1) + [OutPointOf(tx, n - 1)]
  }

  /** Every output a block creates, in transaction order. */
  function OutputList(txs: seq<Tx>): seq<OutPoint> {
    if txs == [] then [] else OutputList(txs[..|txs| - 1]) + OutputsUpTo(txs[|txs| - 1], txs[|txs| - 1].outputs)
  }

  function Elements(s: seq<OutPoint>): set<OutPoint> {
    set op | op in s
  }

  /** What a block's inputs name, the cellbase phantom included. */
  function Named(txs: seq<Tx>): set<OutPoint> {
    if txs == [] then {} else Named(txs[..|txs| - 1]) + Elements(txs[|txs| - 1].inputs)
  }

  function Created(txs: seq<Tx>): set<OutPoint> {
    Elements(OutputList(txs))
  }

  function Spending(txs: seq<Tx>): set<OutPoint> {
    Named(txs) - {CELLBASE}
  }

  ghost predicate IsAt(tx: Tx, k: nat, op: OutPoint) {
    op.txHash == tx.hash && op.index == Min(k, 0xFFFF_FFFF)
  }

  /** Output `k` of some transaction. */
  ghost predicate IsOutput(txs: seq<Tx>, op: OutPoint) {
    exists i, k: nat :: 0 <= i < |txs| && k < txs[i].outputs && IsAt(txs[i], k, op)
  }

  /** Named by some transaction's inputs, and not the phantom that a cellbase names. */
  ghost predicate IsSpent(txs: seq<Tx>, op: OutPoint) {
    op != OutPoint(Digest(0), 0xFFFF_FFFF) && exists i :: 0 <= i < |txs| && op in txs[i].inputs
  }

  /** What a block creates are the outputs of its transactions by position, and what it spends is what they name. */
  lemma {:induction false} CreatedAndSpent(txs: seq<Tx>, op: OutPoint)
    ensures op in Created(txs) <==> IsOutput(txs, op)
    ensures op in Spending(txs) <==> IsSpent(txs, op)
  {
    if txs != [] {
      var before, tx := txs[..|txs| - 1], txs[|txs| - 1];
      CreatedAndSpent(before, op);
      OutputPositions(tx, tx.outputs, op);
      assert op in Created(txs) <==> op in Created(before) || op in OutputsUpTo(tx, tx.outputs);
      assert op in Named(txs) <==> op in Named(before) || op in tx.inputs;
      if IsOutput(before, op) {
        var i, k: nat :| 0 <= i < |before| && k < before[i].outputs && IsAt(before[i], k, op);
        assert before[i] == txs[i];
      }
      if op != CELLBASE && IsSpent(before, op) {
        var i :| 0 <= i < |before| && op in before[i].inputs;
        assert before[i] == txs[i];
      }
    }
  }

  lemma {:induction false} OutputPositions(tx: Tx, n: nat, op: OutPoint)
    ensures op in OutputsUpTo(tx, n) <==> exists k: nat :: k < n && IsAt(tx, k, op)
  {
    if n > 0 {
      OutputPositions(tx, n - 1, op);
      assert IsAt(tx, n - 1, op) <==> op == OutPointOf(tx, n - 1);
    }
  }

  // ----- the backward scan -----

  /** `available` is exact here; the program keeps it in a saturating machine word. */
  datatype Tally = Tally(spent: set<OutPoint>, available: nat)

  /** Each output is either matched with a spend already seen above it, or counted as live. */
  function Settle(t: Tally, outs: seq<OutPoint>): Tally {
    if outs == [] then t else
    var before := Settle(t, outs[..|outs| - 1]);
    var op := outs[|outs| - 1];
    if op in before.spent then before.(spent := before.spent - {op})
    else before.(available := before.available + 1)
  }

  function Observe(t: Tally, block: FetchedBlock): Tally {
    Settle(t.(spent := t.spent + Spending(block.txs)), OutputList(block.txs))
  }

  /** The scan over blocks listed from the tip downwards. */
  function Scan(descending: seq<FetchedBlock>): Tally {
    if descending == [] then Tally({}, 0)
    else Observe(Scan(descending[..|descending| - 1]), descending[|descending| - 1])
  }

  function Capped(n: nat): u64 {
    Min(n, U64_MAX)
  }

  /** One block of the backward walk: all inputs are recorded before any output is settled. */
  method ObserveLiveOutputs(block: FetchedBlock, spentIn: set<OutPoint>, availableIn: u64, ghost exact: nat)
    returns (spent: set<OutPoint>, available: u64)
    requires availableIn == Capped(exact)
    ensures spent == Observe(Tally(spentIn, exact), block).spent
    ensures available == Capped(Observe(Tally(spentIn, exact), block).available)
  {
    hide Spending, Elements, Settle, OutputList, OutputsUpTo;
    spent, available := spentIn, availableIn;
    EmptyBlock(block.txs);
    for i := 0 to |block.txs|
      invariant spent == spentIn + Spending(block.txs[..i])
    {
      var inputs := block.txs[i].inputs;
      NoElements(inputs);
      for j := 0 to |inputs|
        invariant spent == spentIn + Spending(block.txs[..i]) + (Elements(inputs[..j]) - {CELLBASE})
      {
        ElementsOneMore(inputs, j);
        if !IsCellbaseInput(inputs[j]) {
          spent := spent + {inputs[j]};
        }
      }
      assert inputs[..|inputs|] == inputs;
      OneMoreTx(block.txs, i);
    }
    assert block.txs[..|block.txs|] == block.txs;
    ghost var start := Tally(spentIn + Spending(block.txs), exact);
    ghost var tally := start;
    for i := 0 to |block.txs|
      invariant tally == Settle(start, OutputList(block.txs[..i]))
      invariant spent == tally.spent && available == Capped(tally.available)
    {
      var tx := block.txs[i];
      ghost var settled := OutputList(block.txs[..i]);
      NoOutputs(tx, settled);
      for index := 0 to tx.outputs
        invariant tally == Settle(start, settled + OutputsUpTo(tx, index))
        invariant spent == tally.spent && available == Capped(tally.available)
      {
        var outPoint := OutPointOf(tx, index);
        OneMoreOutput(start, settled, tx, index);
        tally := Settle(start, settled + OutputsUpTo(tx, index + 1));
        if outPoint in spent {
          spent := spent - {outPoint};
        } else {
          available := SatSucc(available);
        }
      }
      OneMoreTx(block.txs, i);
    }
  }

  lemma {:induction false} EmptyBlock(txs: seq<Tx>)
    ensures Spending(txs[..0]) == {} && OutputList(txs[..0]) == []
    ensures forall t: Tally :: Settle(t, []) == t
  {
  }

  lemma {:induction false} NoElements(s: seq<OutPoint>)
    ensures Elements(s[..0]) == {}
  {
  }

  lemma {:induction false} ElementsOneMore(s: seq<OutPoint>, j: nat)
    requires j < |s|
    ensures Elements(s[..j + 1]) == Elements(s[..j]) + {s[j]}
  {
    assert s[..j + 1] == s[..j] + [s[j]];
  }

  lemma {:induction false} OneMoreTx(txs: seq<Tx>, i: nat)
    requires i < |txs|
    ensures Spending(txs[..i + 1]) == Spending(txs[..i]) + (Elements(txs[i].inputs) - {CELLBASE})
    ensures OutputList(txs[..i + 1]) == OutputList(txs[..i]) + OutputsUpTo(txs[i], txs[i].outputs)
  {
    assert txs[..i + 1][..i] == txs[..i];
  }

  lemma {:induction false} NoOutputs(tx: Tx, settled: seq<OutPoint>)
    ensures settled + OutputsUpTo(tx, 0) == settled
  {
  }

  lemma {:induction false} OneMoreOutput(start: Tally, settled: seq<OutPoint>, tx: Tx, index: nat)
    ensures var before, op := Settle(start, settled + OutputsUpTo(tx, index)), OutPointOf(tx, index);
            Settle(start, settled + OutputsUpTo(tx, index + 1)) ==
            if op in before.spent then before.(spent := before.spent - {op})
            else before.(available := before.available + 1)
  {
    var next := settled + OutputsUpTo(tx, index + 1);
    assert next[..|next| - 1] == settled + OutputsUpTo(tx, index);
  }

  // ----- the forward replay -----

  function ApplyTxs(live: set<OutPoint>, txs: seq<Tx>): set<OutPoint> {
    if txs == [] then live else
    var tx := txs[|txs| - 1];
    ApplyTxs(live, txs[..|txs| - 1]) - Elements(tx.inputs) + Elements(OutputsUpTo(tx, tx.outputs))
  }

  /** Replay oldest first: the oldest block is the last of a descending list. */
  function Replay(live: set<OutPoint>, descending: seq<FetchedBlock>): set<OutPoint>
    decreases |descending|
  {
    if descending == [] then live
    else Replay(ApplyTxs(live, descending[|descending| - 1].txs), descending[..|descending| - 1])
  }

  function NamedAbove(descending: seq<FetchedBlock>): set<OutPoint> {
    if descending == [] then {}
    else NamedAbove(descending[..|descending| - 1]) + Named(descending[|descending| - 1].txs)
  }

  function CreatedAbove(descending: seq<FetchedBlock>): set<OutPoint> {
    if descending == [] then {}
    else CreatedAbove(descending[..|descending| - 1]) + Created(descending[|descending| - 1].txs)
  }

  ghost predicate Distinct(s: seq<OutPoint>) {
    forall i, j :: 0 <= i < j < |s| ==> s[i] != s[j]
  }

  /** A transaction only spends outputs of transactions before it. */
  ghost predicate SpendsBackwards(txs: seq<Tx>) {
    txs == [] ||
    (var tx := txs[|txs| - 1];
     var before := txs[..|txs| - 1];
     SpendsBackwards(before) &&
     Named(txs) !! Elements(OutputsUpTo(tx, tx.outputs)))
  }

  /** What consensus guarantees of a suffix: outpoints are created once and never are the cellbase
      phantom, and nothing spends an output of a later block. */
  ghost predicate Sound(descending: seq<FetchedBlock>) {
    descending == [] ||
    (var above := descending[..|descending| - 1];
     var oldest := descending[|descending| - 1].txs;
     Sound(above) && SpendsBackwards(oldest) && Distinct(OutputList(oldest)) &&
     CELLBASE !in Created(oldest) && Created(oldest) !! CreatedAbove(above) &&
     Named(oldest) !! CreatedAbove(above))
  }

  lemma {:induction false} SettleDistinct(t: Tally, outs: seq<OutPoint>)
    requires Distinct(outs)
    ensures Settle(t, outs).spent == t.spent - Elements(outs)
    ensures Settle(t, outs).available == t.available + |Elements(outs) - t.spent|
  {
    hide Elements, Distinct;
    if outs == [] {
      NoElements(outs);
      assert outs[..0] == outs;
    } else {
      var before := outs[..|outs| - 1];
      var op := outs[|outs| - 1];
      LastIsDistinct(outs);
      SettleDistinct(t, before);
      UnspentGrows(Elements(before), op, t.spent);
    }
  }

  lemma {:induction false} LastIsDistinct(outs: seq<OutPoint>)
    requires Distinct(outs) && outs != []
    ensures var before, op := outs[..|outs| - 1], outs[|outs| - 1];
            Distinct(before) && op !in Elements(before) && Elements(outs) == Elements(before) + {op}
  {
    assert outs == outs[..|outs| - 1] + [outs[|outs| - 1]];
  }

  lemma {:induction false} UnspentGrows(live: set<OutPoint>, op: OutPoint, spent: set<OutPoint>)
    requires op !in live
    ensures |live + {op} - spent| == |live - spent| + if op in spent then 0 else 1
  {
    if op in spent {
      assert live + {op} - spent == live - spent;
    } else {
      assert live + {op} - spent == (live - spent) + {op};
    }
  }

  lemma {:induction false} ApplyTxsAsSets(live: set<OutPoint>, txs: seq<Tx>)
    requires SpendsBackwards(txs)
    ensures ApplyTxs(live, txs) == live + Created(txs) - Named(txs)
  {
    if txs != [] {
      var before := txs[..|txs| - 1];
      var tx := txs[|txs| - 1];
      ApplyTxsAsSets(live, before);
      assert Created(txs) == Created(before) + Elements(OutputsUpTo(tx, tx.outputs));
    }
  }

  lemma {:induction false} ReplayAsSets(live: set<OutPoint>, descending: seq<FetchedBlock>)
    requires Sound(descending)
    ensures Replay(live, descending) == live + CreatedAbove(descending) - NamedAbove(descending)
    decreases |descending|
  {
    if descending != [] {
      var above := descending[..|descending| - 1];
      var oldest := descending[|descending| - 1].txs;
      ApplyTxsAsSets(live, oldest);
      ReplayAsSets(ApplyTxs(live, oldest), above);
    }
  }

  lemma {:induction false} NoCellbase(descending: seq<FetchedBlock>)
    requires Sound(descending)
    ensures CELLBASE !in CreatedAbove(descending)
  {
    if descending != [] {
      NoCellbase(descending[..|descending| - 1]);
    }
  }

  /** The live outputs of a longer suffix, split at its oldest block. */
  lemma {:induction false} LiveSplit(created: set<OutPoint>, named: set<OutPoint>, oldCreated: set<OutPoint>,
                                     oldNamed: set<OutPoint>, spent: set<OutPoint>)
    requires spent == named - {CELLBASE} - created
    requires oldCreated !! created && oldNamed !! created && CELLBASE !in oldCreated
    ensures |created + oldCreated - (named + oldNamed)|
         == |created - named| + |oldCreated - (spent + (oldNamed - {CELLBASE}))|
    ensures spent + (oldNamed - {CELLBASE}) - oldCreated == named + oldNamed - {CELLBASE} - (created + oldCreated)
  {
    var above := created - named;
    var born := oldCreated - (spent + (oldNamed - {CELLBASE}));
    assert created + oldCreated - (named + oldNamed) == above + born;
    assert above !! born;
  }

  lemma {:induction false} ObserveAsSets(t: Tally, block: FetchedBlock)
    requires Distinct(OutputList(block.txs))
    ensures var seen := t.spent + Spending(block.txs);
            Observe(t, block) == Tally(seen - Created(block.txs), t.available + |Created(block.txs) - seen|)
  {
    SettleDistinct(t.(spent := t.spent + Spending(block.txs)), OutputList(block.txs));
  }

  lemma {:induction false} ScanAsSets(descending: seq<FetchedBlock>)
    requires Sound(descending)
    ensures Scan(descending).spent == NamedAbove(descending) - {CELLBASE} - CreatedAbove(descending)
    ensures Scan(descending).available == |CreatedAbove(descending) - NamedAbove(descending)|
  {
    if descending != [] {
      var above := descending[..|descending| - 1];
      var oldest := descending[|descending| - 1];
      ScanAsSets(above);
      ObserveAsSets(Scan(above), oldest);
      LiveSplit(CreatedAbove(above), NamedAbove(above), Created(oldest.txs), Named(oldest.txs), Scan(above).spent);
    }
  }

  /** The walk's two accumulators, for every suffix of a sound chain: the outstanding spends are the
      suffix's own inputs whose outputs lie below it, and the count is the number of outputs that a
      replay of the suffix from nothing leaves live. */
  lemma {:induction false} ScanAgreesWithReplay(descending: seq<FetchedBlock>)
    requires Sound(descending)
    ensures Scan(descending).spent == NamedAbove(descending) - {CELLBASE} - CreatedAbove(descending)
    ensures Scan(descending).available == |Replay({}, descending)|
  {
    ScanAsSets(descending);
    ReplayAsSets({}, descending);
    NoCellbase(descending);
  }

  /** The exact count never falls as the walk goes down. */
  lemma {:induction false} SettleGrows(t: Tally, outs: seq<OutPoint>)
    ensures t.available <= Settle(t, outs).available
  {
    if outs != [] {
      SettleGrows(t, outs[..|outs| - 1]);
    }
  }

  lemma {:induction false} ScanGrows(descending: seq<FetchedBlock>, k: nat)
    requires k <= |descending|
    ensures Scan(descending[..k]).available <= Scan(descending).available
  {
    if k == |descending| {
      assert descending[..k] == descending;
    } else {
      var above := descending[..|descending| - 1];
      assert above[..k] == descending[..k];
      ScanGrows(above, k);
      var t := Scan(above);
      SettleGrows(t.(spent := t.spent + Spending(descending[|descending| - 1].txs)),
                  OutputList(descending[|descending| - 1].txs));
    }
  }
}

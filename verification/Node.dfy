/** The node as the follower sees it: every reply is a function of the call count and the height asked for. */
module Node {
  import opened Basics
  import opened Chain

  /** What the node answers at each call. Any three functions are allowed, so two calls of one poll may
      disagree, hashes may belong to no chain, and the node may change forks between any two calls. */
  datatype Script = Script(
    tip: nat -> Result<u64>,
    hash: (nat, u64) -> Result<Option<Hash>>,
    block: (nat, u64) -> Result<Option<FetchedBlock>>)

  class RpcClient {
    const script: Script
    var calls: nat

    constructor (script: Script)
      ensures this.script == script && calls == 0
    {
      this.script := script;
      calls := 0;
    }

    method GetTipBlockNumber() returns (r: Result<u64>)
      modifies this
      ensures r == script.tip(old(calls)) && calls == old(calls) + 1
    {
      r := script.tip(calls);
      calls := calls + 1;
    }

    method GetBlockHash(number: u64) returns (r: Result<Option<Hash>>)
      modifies this
      ensures r == script.hash(old(calls), number) && calls == old(calls) + 1
    {
      r := script.hash(calls, number);
      calls := calls + 1;
    }

    /** Fetch and translate one block; `Ok(None)` is a block the node does not show yet. */
    method FetchAndTranslate(number: u64) returns (r: Result<Option<FetchedBlock>>)
      modifies this
      ensures r == script.block(old(calls), number) && calls == old(calls) + 1
    {
      r := script.block(calls, number);
      calls := calls + 1;
    }
  }

  // ----- a stable, honest node -----

  /** Blocks from genesis up, each naming the hash of the one below. */
  ghost predicate IsWorld(world: seq<FetchedBlock>) {
    0 < |world| <= U64_MAX + 1 &&
    forall i :: 0 < i < |world| ==> world[i].parentHash == world[i - 1].hash
  }

  /** From call `since` on, all the blocks the node shows are those of one fixed chain. */
  ghost predicate ServesBlocks(script: Script, since: nat, world: seq<FetchedBlock>) {
    IsWorld(world) &&
    forall t: nat, n: u64 :: since <= t ==> script.block(t, n) == Ok(if n < |world| then Some(world[n]) else None)
  }

  /** From call `since` on, the node answers from one fixed chain, all of whose blocks are visible.
      What it answered before is left open. */
  ghost predicate Serves(script: Script, since: nat, world: seq<FetchedBlock>) {
    ServesBlocks(script, since, world) &&
    (forall t: nat :: since <= t ==> script.tip(t) == Ok(|world| - 1)) &&
    (forall t: nat, n: u64 :: since <= t ==> script.hash(t, n) == Ok(if n < |world| then Some(world[n].hash) else None))
  }

  lemma {:induction false} StillServes(script: Script, since: nat, later: nat, world: seq<FetchedBlock>)
    requires since <= later
    ensures Serves(script, since, world) ==> Serves(script, later, world)
    ensures ServesBlocks(script, since, world) ==> ServesBlocks(script, later, world)
  {
  }

  lemma {:induction false} IsServedWorld(script: Script, since: nat, world: seq<FetchedBlock>)
    ensures Serves(script, since, world) ==> ServesBlocks(script, since, world)
    ensures ServesBlocks(script, since, world) ==> IsWorld(world)
  {
  }

  /** Every block the consumer holds is the node's block at that height. */
  ghost predicate AllFrom(chain: seq<Held>, world: seq<FetchedBlock>) {
    forall i :: 0 <= i < |chain| ==> chain[i].number < |world| && chain[i].block == world[chain[i].number]
  }

  /** A block hash commits to the block: equal hashes at one height mean equal blocks. */
  ghost predicate HashesCommit(chain: seq<Held>, world: seq<FetchedBlock>) {
    forall i :: 0 <= i < |chain| && chain[i].number < |world| && chain[i].block.hash == world[chain[i].number].hash
      ==> chain[i].block == world[chain[i].number]
  }

  /** A block hash commits to the block, across everything the node ever serves. */
  ghost predicate Commits(script: Script, world: seq<FetchedBlock>) {
    forall t: nat, n: u64, block: FetchedBlock ::
      script.block(t, n) == Ok(Some(block)) && n < |world| && block.hash == world[n].hash ==> block == world[n]
  }

  lemma {:induction false} AppendStaysOnWorld(chain: seq<Held>, world: seq<FetchedBlock>, number: u64, block: FetchedBlock)
    ensures AllFrom(chain, world) && number < |world| && block == world[number]
            ==> AllFrom(chain + [Held(number, block)], world)
    ensures HashesCommit(chain, world) && (number < |world| && block.hash == world[number].hash ==> block == world[number])
            ==> HashesCommit(chain + [Held(number, block)], world)
  {
  }

  /** A matching hash at the top makes every block below it canonical, one parent link at a time. */
  lemma {:induction false} CanonicalBelowTop(chain: seq<Held>, world: seq<FetchedBlock>, i: nat)
    requires IsWorld(world) && Linked(chain) && HashesCommit(chain, world)
    requires i < |chain| && Top(chain).number < |world| && Top(chain).block.hash == world[Top(chain).number].hash
    ensures chain[i].number < |world| && chain[i].block == world[chain[i].number]
    decreases |chain| - i
  {
    if i + 1 < |chain| {
      CanonicalBelowTop(chain, world, i + 1);
      var above := chain[i + 1].number;
      assert above == chain[i].number + 1 && chain[i + 1].block.parentHash == chain[i].block.hash;
      assert world[above].parentHash == world[above - 1].hash;
    }
  }

  /** One matching hash at the top makes the whole held chain canonical. */
  lemma {:induction false} MatchedTopIsCanonical(chain: seq<Held>, world: seq<FetchedBlock>)
    requires IsWorld(world) && Linked(chain) && HashesCommit(chain, world)
    requires chain != [] ==> Top(chain).number < |world| && Top(chain).block.hash == world[Top(chain).number].hash
    ensures AllFrom(chain, world)
  {
    forall i | 0 <= i < |chain|
      ensures chain[i].number < |world| && chain[i].block == world[chain[i].number]
    {
      CanonicalBelowTop(chain, world, i);
    }
  }
}

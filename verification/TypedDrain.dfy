/** The typed class as a whole: on an index that does not change, turn after turn leaves nothing behind. */
module TypedDrain {
  import opened Basics
  import opened Chain
  import opened Index
  import opened Tail
  import opened StaticTail
  import opened TypedTail
  import opened TopUp

  /** A walk that has passed something unclaimed must reach its end and rewind first. */
  ghost function Laps(world: World, maxBirth: u64, stand: Stand): nat {
    if AllBehind(world, stand.assets, stand.emitted, maxBirth) then 0 else 1
  }

  ghost predicate Closer(world: World, maxBirth: u64, was: Stand, now: Stand) {
    var owed, owed' := Owed(world, was.assets, was.emitted, maxBirth), Owed(world, now.assets, now.emitted, maxBirth);
    Unsettled(now.assets) < Unsettled(was.assets) ||
    (Unsettled(now.assets) == Unsettled(was.assets) &&
     (owed' < owed ||
      (owed' == owed &&
       (Laps(world, maxBirth, now) < Laps(world, maxBirth, was) ||
        (Laps(world, maxBirth, now) == Laps(world, maxBirth, was) && AllLeft(world, now.assets) < AllLeft(world, was.assets))))))
  }

  /** What one turn changes about the debt. */
  ghost predicate Settles(world: World, maxBirth: u64, was: Stand, now: Stand) {
    was.emitted <= now.emitted && (forall op :: op in now.emitted ==> op in was.emitted || Named(world, maxBirth, op)) &&
    Unsettled(now.assets) <= Unsettled(was.assets) &&
    (Unsettled(now.assets) == Unsettled(was.assets) ==>
       Owed(world, now.assets, now.emitted, maxBirth)
         == Owed(world, was.assets, was.emitted, maxBirth) - (now.emitted - was.emitted) &&
       now.emitted - was.emitted <= Owed(world, was.assets, was.emitted, maxBirth))
  }

  lemma {:induction false} SettledSets(was: seq<AssetTail>, now: seq<AssetTail>)
    requires |was| == |now| && forall i :: 0 <= i < |was| ==> was[i].asset == now[i].asset
    requires forall i :: 0 <= i < |was| && SettledOf(was[i]).Some? ==> SettledOf(now[i]) == SettledOf(was[i])
    ensures Unsettled(now) <= Unsettled(was)
    ensures Unsettled(now) == Unsettled(was) <==> SameSettled(was, now)
  {
    if Unsettled(now) == Unsettled(was) {
      forall i | 0 <= i < |was| ensures SettledOf(now[i]) == SettledOf(was[i]) {
        assert i in Unsettled(was) <==> i in Unsettled(now);
      }
    }
  }

  lemma {:induction false} AdvancingIsCloser(world: World, maxBirth: u64, was: Stand, now: Stand)
    requires Advances(world, maxBirth, was, now)
    ensures Closer(world, maxBirth, was, now) && Settles(world, maxBirth, was, now)
  {
    hide AllReach, AllLeft, AllBehind, Named;
    SettledSets(was.assets, now.assets);
    if SameSettled(was.assets, now.assets) {
      var owed := Owed(world, was.assets, was.emitted, maxBirth);
      assert Owed(world, now.assets, now.emitted, maxBirth) == owed - (now.emitted - was.emitted);
      if now.emitted != was.emitted {
        var op :| op in now.emitted && op !in was.emitted;
        assert op in owed;
      }
    }
  }

  lemma {:induction false} RewoundReach(world: World, maxBirth: u64, assets: seq<AssetTail>)
    requires AllExhausted(assets)
    ensures AllReach(world, Rewound(assets), maxBirth) == AllReach(world, assets, maxBirth)
  {
    hide Reach;
    if assets != [] {
      var n := |assets| - 1;
      RewoundReach(world, maxBirth, assets[..n]);
      assert Rewound(assets)[..n] == Rewound(assets[..n]);
      OneRewound(world, maxBirth, assets[n]);
    }
  }

  lemma {:induction false} OneRewound(world: World, maxBirth: u64, t: AssetTail)
    requires t.exhausted
    ensures Reach(world, t.Rewind(), maxBirth) == Reach(world, t, maxBirth)
    ensures SettledOf(t.Rewind()) == SettledOf(t)
  {
    hide ItemReach, RowReach, Listed;
    assert Queued(t.Rewind()) == {};
  }

  lemma {:induction false} FromTheHead(world: World, maxBirth: u64, t: AssetTail, emitted: set<OutPoint>)
    ensures Behind(world, t.Rewind(), emitted, maxBirth)
  {
    hide CellOf;
    assert Listed([]) == {};
  }

  /** With everything passed claimed and nothing left to pass, nothing is owed. */
  lemma {:induction false} EndOwesNothing(world: World, maxBirth: u64, assets: seq<AssetTail>, emitted: set<OutPoint>)
    requires AllExhausted(assets) && AllBehind(world, assets, emitted, maxBirth)
    ensures AllReach(world, assets, maxBirth) <= emitted
  {
    hide Reach, Behind;
    if assets != [] {
      var n := |assets| - 1;
      forall i | 0 <= i < n ensures Behind(world, assets[..n][i], emitted, maxBirth) && assets[..n][i].exhausted {
        assert assets[..n][i] == assets[i];
      }
      EndOwesNothing(world, maxBirth, assets[..n], emitted);
      OneEnded(world, maxBirth, assets[n], emitted);
    }
  }

  lemma {:induction false} OneEnded(world: World, maxBirth: u64, t: AssetTail, emitted: set<OutPoint>)
    requires t.exhausted && Behind(world, t, emitted, maxBirth)
    ensures Reach(world, t, maxBirth) <= emitted
  {
    hide ItemReach, RowReach, Listed;
    if IsCollection(t.asset) {
      var items := world.items(t.asset.id);
      assert UpTo(items, |items|) == items;
      assert Listed(items) + Queued(t) == Listed(items) == Listed(items) - Queued(t);
    }
  }

  /** Everything this asset stands for is claimed: a token's rows and an identity family's, and of every item of a
      collection the cell on the settled version or, as long as none is settled, on the first of its eight or its one that
      has a cell. */
  ghost predicate Drained(world: World, t: AssetTail, emitted: set<OutPoint>, maxBirth: u64) {
    match t.asset.standard
    case Token => RowsClaimed(world.rows(Contract(t.asset.id)), emitted, maxBirth)
    case Identity(standard) =>
      standard in world.families ==> RowsClaimed(world.rows(Family(world.families[standard])), emitted, maxBirth)
    case Spore => ItemsClaimed(world, t, 0, 8, emitted, maxBirth)
    case MNft => ItemsClaimed(world, t, 8, 9, emitted, maxBirth)
  }

  ghost predicate ItemsClaimed(world: World, t: AssetTail, first: nat, last: nat, emitted: set<OutPoint>, maxBirth: u64) {
    forall k, v: nat :: 0 <= k < |world.items(t.asset.id)| && world.items(t.asset.id)[k].Some? && t.cursor.CollectionCursor? ==>
      var item := world.items(t.asset.id)[k].value;
      Found(world, t.cursor.settled, first, last, item, v) && world.cell(item, v).value.birthBlock <= maxBirth
      ==> world.cell(item, v).value.outPoint in emitted
  }

  ghost predicate Found(world: World, settled: Option<Version>, first: nat, last: nat, item: Item, v: nat) {
    item.isHex && world.cell(item, v).Some? &&
    if settled.Some? then v == settled.value
    else first <= v < last && forall u: nat :: first <= u < v ==> world.cell(item, u).None?
  }

  lemma {:induction false} ReachedItemsAreClaimed(world: World, t: AssetTail, items: set<Item>, versions: seq<Version>,
                                                  emitted: set<OutPoint>, maxBirth: u64)
    requires versions != [] && forall i :: 0 <= i < |versions| ==> versions[i] == versions[0] + i
    requires Listed(world.items(t.asset.id)) <= items
    requires t.cursor.CollectionCursor? ==> ItemReach(world, items, t.cursor.settled, versions, maxBirth) <= emitted
    ensures ItemsClaimed(world, t, versions[0], versions[0] + |versions|, emitted, maxBirth)
  {
    var all, first, last := world.items(t.asset.id), versions[0], versions[0] + |versions|;
    forall k, v: nat | 0 <= k < |all| && all[k].Some? && t.cursor.CollectionCursor? &&
                       Found(world, t.cursor.settled, first, last, all[k].value, v) &&
                       Offers(world.cell(all[k].value, v), maxBirth)
      ensures world.cell(all[k].value, v).value.outPoint in emitted
    {
      var item := all[k].value;
      assert item in items;
      if t.cursor.settled.None? {
        forall j | 0 <= j < v - versions[0] ensures world.cell(item, versions[j]).None? {
          assert versions[j] == versions[0] + j;
        }
        assert versions[v - versions[0]] == v;
        FirstCellAt(world, item, versions, v - versions[0]);
      }
      assert CellOf(world, item, t.cursor.settled, versions) == world.cell(item, v);
    }
  }

  lemma {:induction false} ReachedIsDrained(world: World, maxBirth: u64, t: AssetTail, emitted: set<OutPoint>)
    requires Reach(world, t, maxBirth) <= emitted
    requires forall source: Source :: AllValid(world.rows(source))
    ensures Drained(world, t, emitted, maxBirth)
  {
    hide ItemReach, ItemsClaimed;
    if IsCollection(t.asset) {
      var versions := if t.asset.standard.Spore? then SPORE_VERSIONS else MNFT_VERSIONS;
      ReachedItemsAreClaimed(world, t, Listed(world.items(t.asset.id)) + Queued(t), versions, emitted, maxBirth);
    }
  }

  lemma {:induction false} AllDrained(world: World, maxBirth: u64, assets: seq<AssetTail>, emitted: set<OutPoint>)
    requires AllReach(world, assets, maxBirth) <= emitted
    requires forall source: Source :: AllValid(world.rows(source))
    ensures forall i :: 0 <= i < |assets| ==> Drained(world, assets[i], emitted, maxBirth)
  {
    hide Reach, Drained;
    if assets != [] {
      AllDrained(world, maxBirth, assets[..|assets| - 1], emitted);
      ReachedIsDrained(world, maxBirth, assets[|assets| - 1], emitted);
      forall i | 0 <= i < |assets| ensures Drained(world, assets[i], emitted, maxBirth) {
        assert i < |assets| - 1 ==> assets[i] == assets[..|assets| - 1][i];
      }
    }
  }

  /** Rewinding while something is owed brings the whole debt ahead of the walk. */
  lemma {:induction false} RewindingIsCloser(world: World, maxBirth: u64, was: Stand, now: Stand)
    requires AllExhausted(was.assets) && now == Stand(Rewound(was.assets), was.emitted)
    requires Owed(world, was.assets, was.emitted, maxBirth) != {}
    ensures Closer(world, maxBirth, was, now) && Settles(world, maxBirth, was, now)
  {
    hide AllReach, AllLeft, Behind, Named;
    RewoundReach(world, maxBirth, was.assets);
    forall i | 0 <= i < |was.assets|
      ensures SettledOf(now.assets[i]) == SettledOf(was.assets[i])
      ensures Behind(world, now.assets[i], now.emitted, maxBirth)
    {
      OneRewound(world, maxBirth, was.assets[i]);
      FromTheHead(world, maxBirth, was.assets[i], now.emitted);
    }
    SettledSets(was.assets, now.assets);
    if AllBehind(world, was.assets, was.emitted, maxBirth) {
      EndOwesNothing(world, maxBirth, was.assets, was.emitted);
    }
  }

  /** One typed turn while something is owed. */
  method DrainTurn(client: IndexClient, tail: CandidateTail, want: nat, maxBirth: u64, world: World)
    returns (found: seq<Candidate>)
    requires want > 0 && Unchanging(client.script, world) && AllAddress(tail.assets)
    requires tail.assets != [] && !tail.rosterStale && Owed(world, tail.assets, tail.emitted, maxBirth) != {}
    modifies client, tail`emitted, tail`assets, tail`rosterStale
    ensures AllAddress(tail.assets) && tail.assets != [] && !tail.rosterStale
    ensures Offered(old(tail.emitted), tail.emitted, found, maxBirth)
    ensures Closer(world, maxBirth, old(StandOf(tail)), StandOf(tail))
    ensures Settles(world, maxBirth, old(StandOf(tail)), StandOf(tail))
  {
    hide Offered, Unchanging, Closer, Settles, Advances, Owed;
    ghost var was := StandOf(tail);
    var r;
    ghost var turn;
    r, found, turn := WalkTypedTail(client, tail, want, maxBirth, world.families, world);
    NothingOfferedBack(was.emitted, tail.emitted, found, maxBirth);
    if AllExhausted(was.assets) {
      RewindingIsCloser(world, maxBirth, was, StandOf(tail));
    } else {
      AdvancingIsCloser(world, maxBirth, was, StandOf(tail));
      SameRanking(world, maxBirth, was, StandOf(tail));
    }
  }

  lemma {:induction false} NothingOfferedBack(before: set<OutPoint>, emitted: set<OutPoint>, found: seq<Candidate>, maxBirth: u64)
    requires Offered(before, emitted, found, maxBirth)
    ensures found == [] ==> emitted == before
  {
  }

  lemma {:induction false} SameRanking(world: World, maxBirth: u64, was: Stand, now: Stand)
    requires Advances(world, maxBirth, was, now)
    ensures |was.assets| == |now.assets|
  {
  }

  /** On an index that does not change, with a roster that stays, finitely many typed turns of any positive ask claim
      everything the ranking can reach, each outpoint once and only what the index names. Unless a collection's
      version became known on the way, that is exactly what was owed at the start; so it is for tokens, identity
      families and collections whose version was known. */
  method DrainTyped(client: IndexClient, tail: CandidateTail, want: nat, maxBirth: u64, world: World)
    returns (delivered: seq<Candidate>)
    requires want > 0 && Unchanging(client.script, world) && AllAddress(tail.assets)
    requires tail.assets != [] && !tail.rosterStale
    modifies client, tail`emitted, tail`assets, tail`rosterStale
    ensures forall i :: 0 <= i < |tail.assets| ==> Drained(world, tail.assets[i], tail.emitted, maxBirth)
    ensures NoRepeat(delivered) && OutPoints(delivered) !! old(tail.emitted)
    ensures tail.emitted == old(tail.emitted) + OutPoints(delivered)
    ensures forall op :: op in OutPoints(delivered) ==> Named(world, maxBirth, op)
    ensures Unsettled(tail.assets) <= old(Unsettled(tail.assets))
    ensures Unsettled(tail.assets) == old(Unsettled(tail.assets))
            ==> OutPoints(delivered) == old(Owed(world, tail.assets, tail.emitted, maxBirth))
    ensures (forall i :: 0 <= i < |old(tail.assets)| && IsCollection(old(tail.assets)[i].asset)
               ==> SettledOf(old(tail.assets)[i]).Some?)
            ==> OutPoints(delivered) == old(Owed(world, tail.assets, tail.emitted, maxBirth))
  {
    hide NoRepeat, OutPoints, Unchanging, AllReach, AllLeft, AllBehind, Named;
    ghost var start := StandOf(tail);
    delivered := [];
    NothingDelivered();
    while Owed(world, tail.assets, tail.emitted, maxBirth) != {}
      invariant AllAddress(tail.assets) && tail.assets != [] && !tail.rosterStale
      invariant NoRepeat(delivered) && OutPoints(delivered) !! start.emitted
      invariant tail.emitted == start.emitted + OutPoints(delivered)
      invariant Settles(world, maxBirth, start, StandOf(tail))
      decreases Unsettled(tail.assets), Owed(world, tail.assets, tail.emitted, maxBirth),
        Laps(world, maxBirth, StandOf(tail)), AllLeft(world, tail.assets)
    {
      ghost var was := StandOf(tail);
      var found := DrainTurn(client, tail, want, maxBirth, world);
      OutPointsConcat(delivered, found);
      SettlesOn(world, maxBirth, start, was, StandOf(tail));
      delivered := delivered + found;
    }
    assert forall source: Source :: AllValid(world.rows(source)) by { StaticIsValid(client.script, world); }
    AllDrained(world, maxBirth, tail.assets, tail.emitted);
  }

  lemma {:induction false} StaticIsValid(script: IndexScript, world: World)
    requires Unchanging(script, world)
    ensures forall source: Source :: AllValid(world.rows(source))
  {
  }

  lemma {:induction false} NothingDelivered()
    ensures OutPoints([]) == {} && NoRepeat([])
  {
  }

  lemma {:induction false} SettlesOn(world: World, maxBirth: u64, was: Stand, middle: Stand, now: Stand)
    requires Settles(world, maxBirth, was, middle) && Settles(world, maxBirth, middle, now)
    ensures Settles(world, maxBirth, was, now)
  {
    hide Owed, Named, Unsettled;
    if Unsettled(now.assets) == Unsettled(was.assets) {
      assert Unsettled(middle.assets) == Unsettled(was.assets);
      assert now.emitted - was.emitted == (middle.emitted - was.emitted) + (now.emitted - middle.emitted);
    }
  }
}

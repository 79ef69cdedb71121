/** A typed index that does not change, and what it still owes a tail that walks it. */
module StaticTail {
  import opened Basics
  import opened Chain
  import opened Index
  import opened Tail

  /** The rows behind every source, the items of every collection, the live cell of every item on every deployed
      version, and the identity families the census can name. */
  datatype World = World(
    rows: Source -> seq<Row>,
    items: nat -> seq<Option<Item>>,
    cell: (Item, Version) -> Option<Candidate>,
    families: map<IdentityStandard, nat>)

  /** Every answer is cut from one world, whose rows are valid. */
  ghost predicate Unchanging(script: IndexScript, world: World) {
    (forall t: nat, source: Source, c: Option<Cursor> ::
       script.page(t, source, c) == Ok(PageAt(world.rows(source), Position(c)))) &&
    (forall t: nat, id: nat, c: Option<Cursor> :: script.items(t, id, c) == Ok(PageAt(world.items(id), Position(c)))) &&
    (forall t: nat, item: Item, v: Version :: script.lookup(t, item, v) == Ok(world.cell(item, v))) &&
    forall source: Source :: AllValid(world.rows(source))
  }

  predicate AllValid(rows: seq<Row>) {
    forall i :: 0 <= i < |rows| ==> rows[i].fields.Some?
  }

  // ----- what can be reached -----

  function VersionsOf(standard: AssetStandard): seq<Version> {
    if standard.Spore? then SPORE_VERSIONS else MNFT_VERSIONS
  }

  function PendingOf(cursor: AssetCursor): seq<Item> {
    if cursor.CollectionCursor? then cursor.pending else []
  }

  function SettledOf(t: AssetTail): Option<Version> {
    if IsCollection(t.asset) && t.cursor.CollectionCursor? then t.cursor.settled else None
  }

  /** The script an asset is paged by, if it is paged at all. */
  function SourceOf(asset: RankedAsset, families: map<IdentityStandard, nat>): Option<Source> {
    match asset.standard
    case Token => Some(Contract(asset.id))
    case Identity(standard) => if standard in families then Some(Family(families[standard])) else None
    case _ => None
  }

  predicate IsCollection(asset: RankedAsset) {
    asset.standard.Spore? || asset.standard.MNft?
  }

  /** The cell of the first version that has one. */
  function FirstCell(world: World, item: Item, versions: seq<Version>): Option<Candidate> {
    if versions == [] then None
    else if world.cell(item, versions[0]).Some? then world.cell(item, versions[0])
    else FirstCell(world, item, versions[1..])
  }

  /** The cell a walk finds for an item: on the settled version, or on the first that has one. */
  function CellOf(world: World, item: Item, settled: Option<Version>, versions: seq<Version>): Option<Candidate> {
    if !item.isHex then None
    else if settled.Some? then world.cell(item, settled.value)
    else FirstCell(world, item, versions)
  }

  predicate Offers(c: Option<Candidate>, maxBirth: u64) {
    c.Some? && c.value.birthBlock <= maxBirth
  }

  function RowReach(rows: seq<Row>, maxBirth: u64): set<OutPoint> {
    set i | 0 <= i < |rows| && rows[i].matches && Offers(rows[i].fields, maxBirth) :: rows[i].fields.value.outPoint
  }

  function Listed(rows: seq<Option<Item>>): set<Item> {
    set i | 0 <= i < |rows| && rows[i].Some? :: rows[i].value
  }

  function ItemReach(world: World, items: set<Item>, settled: Option<Version>, versions: seq<Version>, maxBirth: u64)
    : set<OutPoint>
  {
    set x | x in items && Offers(CellOf(world, x, settled, versions), maxBirth)
      :: CellOf(world, x, settled, versions).value.outPoint
  }

  function Queued(t: AssetTail): set<Item> {
    if t.exhausted then {} else set x | x in PendingOf(t.cursor)
  }

  /** Every outpoint a walk over this asset can still come to, now or after a rewind. */
  function Reach(world: World, t: AssetTail, maxBirth: u64): set<OutPoint> {
    if IsCollection(t.asset) then
      ItemReach(world, Listed(world.items(t.asset.id)) + Queued(t), SettledOf(t),
                if t.asset.standard.Spore? then SPORE_VERSIONS else MNFT_VERSIONS, maxBirth)
    else var source := SourceOf(t.asset, world.families);
         if source.Some? then RowReach(world.rows(source.value), maxBirth) else {}
  }

  // ----- what lies behind the walk, and what is left of it -----

  function UpTo<T>(s: seq<T>, n: nat): seq<T> {
    if n >= |s| then s else s[..n]
  }

  /** Whatever the walk has passed since the head is claimed. */
  ghost predicate Behind(world: World, t: AssetTail, emitted: set<OutPoint>, maxBirth: u64) {
    if IsCollection(t.asset) then
      var items := world.items(t.asset.id);
      var whole := t.exhausted || (t.cursor.CollectionCursor? && t.cursor.listedOut);
      ItemReach(world, Listed(UpTo(items, if whole then |items| else Position(t.cursor.cursor))) - Queued(t),
                SettledOf(t), VersionsOf(t.asset.standard), maxBirth) <= emitted
    else
      var source := SourceOf(t.asset, world.families);
      source.Some? ==>
        var rows := world.rows(source.value);
        RowReach(UpTo(rows, if t.exhausted then |rows| else Position(t.cursor.cursor)), maxBirth) <= emitted
  }

  function Rest(n: nat, p: nat): nat {
    if p < n then n - p + 1 else 1
  }

  /** Bounds the pages and items a walk over this asset still has to read before it is exhausted. */
  ghost function Left(world: World, t: AssetTail): nat {
    if t.exhausted then 0
    else if IsCollection(t.asset) then
      var unlisted := if t.cursor.CollectionCursor? && t.cursor.listedOut then 0
                      else Rest(|world.items(t.asset.id)|, Position(t.cursor.cursor));
      1 + 2 * unlisted + |PendingOf(t.cursor)|
    else
      var source := SourceOf(t.asset, world.families);
      if source.Some? then Rest(|world.rows(source.value)|, Position(t.cursor.cursor)) else 1
  }

  ghost function AllLeft(world: World, assets: seq<AssetTail>): nat {
    if assets == [] then 0 else AllLeft(world, assets[..|assets| - 1]) + Left(world, assets[|assets| - 1])
  }

  ghost predicate AllBehind(world: World, assets: seq<AssetTail>, emitted: set<OutPoint>, maxBirth: u64) {
    forall i :: 0 <= i < |assets| ==> Behind(world, assets[i], emitted, maxBirth)
  }

  /** Reachable and not claimed. */
  function Owed(world: World, assets: seq<AssetTail>, emitted: set<OutPoint>, maxBirth: u64): set<OutPoint> {
    AllReach(world, assets, maxBirth) - emitted
  }

  function AllReach(world: World, assets: seq<AssetTail>, maxBirth: u64): set<OutPoint> {
    if assets == [] then {} else AllReach(world, assets[..|assets| - 1], maxBirth) + Reach(world, assets[|assets| - 1], maxBirth)
  }

  /** Collections whose version is not known yet. */
  ghost function Unsettled(assets: seq<AssetTail>): set<nat> {
    set i: nat | i < |assets| && IsCollection(assets[i].asset) && SettledOf(assets[i]).None?
  }

  // ----- progress -----

  /** The index names this outpoint, on a matching row or as the cell of an item. */
  ghost predicate Named(world: World, maxBirth: u64, op: OutPoint) {
    (exists source: Source :: op in RowReach(world.rows(source), maxBirth)) ||
    exists item: Item, v: Version :: Offers(world.cell(item, v), maxBirth) && world.cell(item, v).value.outPoint == op
  }

  /** One asset's walk moved on. A settled version stays settled; as long as none gets settled, nothing new can be
      reached and nothing gets out of reach unclaimed, what is claimed was reachable, and without a claim everything
      passed was claimed before and less is left. */
  ghost predicate AssetMoves(world: World, maxBirth: u64, was: AssetTail, now: AssetTail, before: set<OutPoint>,
                             after: set<OutPoint>) {
    was.asset == now.asset && before <= after && (forall op :: op in after ==> op in before || Named(world, maxBirth, op)) &&
    (SettledOf(was).Some? ==> SettledOf(now) == SettledOf(was)) &&
    (SettledOf(now) == SettledOf(was) ==>
       Reach(world, now, maxBirth) <= Reach(world, was, maxBirth) <= Reach(world, now, maxBirth) + after &&
       after <= before + Reach(world, was, maxBirth) &&
       (after == before ==> (Behind(world, was, before, maxBirth) ==> Behind(world, now, after, maxBirth)) &&
                            Left(world, now) <= Left(world, was)))
  }

  /** ... and came closer to its end, to a claim, or to its version. */
  ghost predicate AssetAdvances(world: World, maxBirth: u64, was: AssetTail, now: AssetTail, before: set<OutPoint>,
                                after: set<OutPoint>) {
    AssetMoves(world, maxBirth, was, now, before, after) &&
    (SettledOf(now) == SettledOf(was) && after == before ==> Left(world, now) < Left(world, was))
  }

  datatype Stand = Stand(assets: seq<AssetTail>, emitted: set<OutPoint>)

  ghost predicate SameSettled(was: seq<AssetTail>, now: seq<AssetTail>) {
    |was| == |now| && forall i :: 0 <= i < |was| ==> SettledOf(now[i]) == SettledOf(was[i])
  }

  /** The same for all of them. */
  ghost predicate Moves(world: World, maxBirth: u64, was: Stand, now: Stand) {
    |was.assets| == |now.assets| && was.emitted <= now.emitted &&
    (forall op :: op in now.emitted ==> op in was.emitted || Named(world, maxBirth, op)) &&
    (forall i :: 0 <= i < |was.assets| ==>
       was.assets[i].asset == now.assets[i].asset &&
       (SettledOf(was.assets[i]).Some? ==> SettledOf(now.assets[i]) == SettledOf(was.assets[i]))) &&
    (SameSettled(was.assets, now.assets) ==>
       AllReach(world, now.assets, maxBirth) <= AllReach(world, was.assets, maxBirth)
         <= AllReach(world, now.assets, maxBirth) + now.emitted &&
       now.emitted <= was.emitted + AllReach(world, was.assets, maxBirth) &&
       (now.emitted == was.emitted ==>
          (AllBehind(world, was.assets, was.emitted, maxBirth) ==> AllBehind(world, now.assets, now.emitted, maxBirth)) &&
          AllLeft(world, now.assets) <= AllLeft(world, was.assets)))
  }

  ghost predicate Advances(world: World, maxBirth: u64, was: Stand, now: Stand) {
    Moves(world, maxBirth, was, now) &&
    (SameSettled(was.assets, now.assets) && now.emitted == was.emitted
     ==> AllLeft(world, now.assets) < AllLeft(world, was.assets))
  }

  lemma {:induction false} MovesOn(world: World, maxBirth: u64, was: Stand, middle: Stand, now: Stand)
    requires Moves(world, maxBirth, was, middle) && Moves(world, maxBirth, middle, now)
    ensures Moves(world, maxBirth, was, now)
    ensures Advances(world, maxBirth, was, middle) || Advances(world, maxBirth, middle, now)
            ==> Advances(world, maxBirth, was, now)
  {
    if SameSettled(was.assets, now.assets) {
      forall i | 0 <= i < |was.assets|
        ensures SettledOf(middle.assets[i]) == SettledOf(was.assets[i]) == SettledOf(now.assets[i])
      {
      }
    }
  }

  lemma {:induction false} LeftUpdate(world: World, assets: seq<AssetTail>, i: nat, t: AssetTail)
    requires i < |assets|
    ensures AllLeft(world, assets[i := t]) == AllLeft(world, assets) - Left(world, assets[i]) + Left(world, t)
  {
    hide Left;
    var last := |assets| - 1;
    if i == last {
      assert assets[i := t][..last] == assets[..last];
    } else {
      assert assets[i := t][..last] == assets[..last][i := t];
      LeftUpdate(world, assets[..last], i, t);
    }
  }

  lemma {:induction false} ReachUpdate(world: World, maxBirth: u64, assets: seq<AssetTail>, i: nat, t: AssetTail)
    requires i < |assets|
    ensures Reach(world, assets[i], maxBirth) <= AllReach(world, assets, maxBirth)
    ensures Reach(world, t, maxBirth) <= Reach(world, assets[i], maxBirth)
            ==> AllReach(world, assets[i := t], maxBirth) <= AllReach(world, assets, maxBirth)
    ensures AllReach(world, assets, maxBirth) <= AllReach(world, assets[i := t], maxBirth) + Reach(world, assets[i], maxBirth)
    ensures Reach(world, t, maxBirth) <= AllReach(world, assets[i := t], maxBirth)
  {
    hide Reach;
    var last := |assets| - 1;
    if i == last {
      assert assets[i := t][..last] == assets[..last];
    } else {
      assert assets[i := t][..last] == assets[..last][i := t];
      ReachUpdate(world, maxBirth, assets[..last], i, t);
    }
  }

  /** A move of one asset is a move of the ranking. */
  lemma {:induction false} OneMoves(world: World, maxBirth: u64, was: Stand, now: Stand, index: nat)
    requires index < |was.assets| && |now.assets| == |was.assets| && now.assets == was.assets[index := now.assets[index]]
    requires AssetMoves(world, maxBirth, was.assets[index], now.assets[index], was.emitted, now.emitted)
    ensures Moves(world, maxBirth, was, now)
    ensures AssetAdvances(world, maxBirth, was.assets[index], now.assets[index], was.emitted, now.emitted)
            ==> Advances(world, maxBirth, was, now)
  {
    hide Reach, Behind, Left;
    LeftUpdate(world, was.assets, index, now.assets[index]);
    ReachUpdate(world, maxBirth, was.assets, index, now.assets[index]);
  }

  // ----- one step of a walk -----

  ghost function StandOf(tail: CandidateTail): Stand
    reads tail
  {
    Stand(tail.assets, tail.emitted)
  }

  lemma {:induction false} PassedRows(rows: seq<Row>, p: nat, maxBirth: u64)
    ensures var page := PageAt(rows, p);
            RowReach(UpTo(rows, if page.hasMore then p + PAGE_LIMIT else |rows|), maxBirth)
              <= RowReach(UpTo(rows, p), maxBirth) + RowReach(page.rows, maxBirth)
    ensures RowReach(PageAt(rows, p).rows, maxBirth) <= RowReach(rows, maxBirth)
  {
    var page := PageAt(rows, p);
    var whole := UpTo(rows, if page.hasMore then p + PAGE_LIMIT else |rows|);
    forall i | 0 <= i < |whole| && whole[i].matches && Offers(whole[i].fields, maxBirth)
      ensures whole[i].fields.value.outPoint in RowReach(UpTo(rows, p), maxBirth) + RowReach(page.rows, maxBirth)
    {
      if i < p {
        assert UpTo(rows, p)[i] == whole[i];
      } else {
        assert page.rows[i - p] == whole[i];
      }
    }
    forall i | 0 <= i < |page.rows| && page.rows[i].matches && Offers(page.rows[i].fields, maxBirth)
      ensures page.rows[i].fields.value.outPoint in RowReach(rows, maxBirth)
    {
      assert rows[p + i] == page.rows[i];
    }
  }

  /** A page read: everything on it that was not claimed is, or something was. */
  lemma {:induction false} PageAdvances(world: World, maxBirth: u64, source: Source, was: AssetTail, now: AssetTail,
                                        before: set<OutPoint>, after: set<OutPoint>)
    requires !IsCollection(was.asset) && SourceOf(was.asset, world.families) == Some(source) && !was.exhausted
    requires now.asset == was.asset
    requires var page := PageAt(world.rows(source), Position(was.cursor.cursor));
             before <= after <= before + RowReach(page.rows, maxBirth) &&
             (after == before ==> RowReach(page.rows, maxBirth) <= after) &&
             now.exhausted == !page.hasMore && (page.hasMore ==> now.cursor.cursor == page.nextCursor)
    ensures AssetAdvances(world, maxBirth, was, now, before, after)
  {
    hide RowReach;
    PassedRows(world.rows(source), Position(was.cursor.cursor), maxBirth);
    forall op | op in after && op !in before ensures Named(world, maxBirth, op) {
      assert op in RowReach(world.rows(source), maxBirth);
    }
  }

  /** An asset that has nothing to page or to queue is done with. */
  lemma {:induction false} ExhaustingAdvances(world: World, maxBirth: u64, was: AssetTail, emitted: set<OutPoint>)
    requires !was.exhausted
    requires if IsCollection(was.asset) then was.cursor.CollectionCursor? && was.cursor.pending == [] && was.cursor.listedOut
             else SourceOf(was.asset, world.families).None?
    ensures AssetAdvances(world, maxBirth, was, was.(exhausted := true), emitted, emitted)
  {
    hide ItemReach, RowReach, Listed;
    if IsCollection(was.asset) {
      assert Queued(was) == {};
    }
  }

  function LiveItems(rows: seq<Option<Item>>): (items: seq<Item>)
    ensures |items| <= |rows|
    ensures (set x | x in items) == Listed(rows)
  {
    if rows == [] then [] else
    var n := |rows| - 1;
    ListedOneMore(rows);
    LiveItems(rows[..n]) + (if rows[n].Some? then [rows[n].value] else [])
  }

  lemma {:induction false} ListedOneMore(rows: seq<Option<Item>>)
    requires rows != []
    ensures var n := |rows| - 1;
            Listed(rows) == Listed(rows[..n]) + if rows[n].Some? then {rows[n].value} else {}
  {
    var n := |rows| - 1;
    forall x ensures x in Listed(rows) <==> x in Listed(rows[..n]) + (if rows[n].Some? then {rows[n].value} else {}) {
      if x in Listed(rows) {
        var i :| 0 <= i < |rows| && rows[i] == Some(x);
        if i < n {
          assert rows[..n][i] == Some(x);
        }
      }
      if x in Listed(rows[..n]) {
        var i :| 0 <= i < n && rows[..n][i] == Some(x);
        assert rows[i] == Some(x);
      }
    }
  }

  lemma {:induction false} PassedItems(items: seq<Option<Item>>, p: nat)
    ensures var page := PageAt(items, p);
            Listed(UpTo(items, if page.hasMore then p + PAGE_LIMIT else |items|))
              <= Listed(UpTo(items, p)) + Listed(page.rows)
    ensures Listed(PageAt(items, p).rows) <= Listed(items)
  {
    var page := PageAt(items, p);
    var whole := UpTo(items, if page.hasMore then p + PAGE_LIMIT else |items|);
    forall i | 0 <= i < |whole| && whole[i].Some? ensures whole[i].value in Listed(UpTo(items, p)) + Listed(page.rows) {
      if i < p {
        assert UpTo(items, p)[i] == whole[i];
      } else {
        assert page.rows[i - p] == whole[i];
      }
    }
    forall i | 0 <= i < |page.rows| && page.rows[i].Some? ensures page.rows[i].value in Listed(items) {
      assert items[p + i] == page.rows[i];
    }
  }

  lemma {:induction false} FewerItems(world: World, a: set<Item>, b: set<Item>, settled: Option<Version>,
                                      versions: seq<Version>, maxBirth: u64)
    requires a <= b
    ensures ItemReach(world, a, settled, versions, maxBirth) <= ItemReach(world, b, settled, versions, maxBirth)
  {
  }

  /** A page of the list becomes the queue. */
  lemma {:induction false} ListingAdvances(world: World, maxBirth: u64, was: AssetTail, now: AssetTail, emitted: set<OutPoint>)
    requires IsCollection(was.asset) && was.cursor.CollectionCursor? && now.cursor.CollectionCursor? && was.asset == now.asset
    requires !was.exhausted && !now.exhausted && was.cursor.pending == [] && !was.cursor.listedOut
    requires var page := PageAt(world.items(was.asset.id), Position(was.cursor.cursor));
             now.cursor.settled == was.cursor.settled && now.cursor.pending == LiveItems(page.rows) &&
             now.cursor.listedOut == !page.hasMore && (page.hasMore ==> now.cursor.cursor == page.nextCursor)
    ensures AssetAdvances(world, maxBirth, was, now, emitted, emitted)
  {
    hide ItemReach, Listed, LiveItems;
    var items, p := world.items(was.asset.id), Position(was.cursor.cursor);
    var settled, versions := was.cursor.settled, VersionsOf(was.asset.standard);
    PassedItems(items, p);
    FewerItems(world, Listed(items) + Queued(now), Listed(items) + Queued(was), settled, versions, maxBirth);
    FewerItems(world, Listed(items) + Queued(was), Listed(items) + Queued(now), settled, versions, maxBirth);
    FewerItems(world, Listed(UpTo(items, if now.cursor.listedOut then |items| else p + PAGE_LIMIT)) - Queued(now),
               Listed(UpTo(items, p)) - Queued(was), settled, versions, maxBirth);
  }

  /** An item leaves the queue; if it has a cell in time, that is claimed, and its version is settled. */
  lemma {:induction false} TryingAdvances(world: World, maxBirth: u64, was: AssetTail, now: AssetTail, before: set<OutPoint>,
                                          after: set<OutPoint>)
    requires IsCollection(was.asset) && was.cursor.CollectionCursor? && was.cursor.pending != [] && !was.exhausted
    requires now.asset == was.asset && !now.exhausted && now.cursor.CollectionCursor?
    requires now.cursor == was.cursor.(pending := was.cursor.pending[1..], settled := now.cursor.settled)
    requires var item := was.cursor.pending[0];
             var cell := CellOf(world, item, was.cursor.settled, VersionsOf(was.asset.standard));
             (was.cursor.settled.Some? || cell.None? ==> now.cursor.settled == was.cursor.settled) &&
             (cell.Some? ==> now.cursor.settled.Some? && world.cell(item, now.cursor.settled.value) == cell) &&
             after == before + if Offers(cell, maxBirth) then {cell.value.outPoint} else {}
    ensures AssetAdvances(world, maxBirth, was, now, before, after)
  {
    hide CellOf, Listed;
    var item := was.cursor.pending[0];
    assert was.cursor.pending == [item] + was.cursor.pending[1..];
    forall op | op in after && op !in before ensures Named(world, maxBirth, op) {
      assert Offers(world.cell(item, now.cursor.settled.value), maxBirth);
    }
  }
}

/** The typed half of a top-up: ranked assets walked in deficit order under one budget. */
module TypedTail {
  import opened Basics
  import opened Chain
  import opened Index
  import opened Apportion
  import opened Allocate
  import opened Tail
  import opened StaticTail

  /** What stays true of a turn in progress. `base` is what the assets had delivered when it began. */
  ghost predicate Turning(tail: CandidateTail, before: set<OutPoint>, base: nat, found: seq<Candidate>, maxBirth: u64)
    reads tail
  {
    Offered(before, tail.emitted, found, maxBirth) && AllAddress(tail.assets) &&
    Delivered(tail.assets) == base + |found|
  }

  /** Walking asset `index` leaves every other asset, and the ranking itself, alone. */
  ghost predicate OnlyAt(was: seq<AssetTail>, now: seq<AssetTail>, index: nat) {
    |was| == |now| && (forall j :: 0 <= j < |was| && j != index ==> now[j] == was[j]) &&
    (index < |was| ==> now[index].asset == was[index].asset && now[index].delivered >= was[index].delivered)
  }

  method Place(tail: CandidateTail, index: nat, entry: AssetTail)
    requires index < |tail.assets| && AllAddress(tail.assets)
    requires entry.asset == tail.assets[index].asset && entry.delivered == tail.assets[index].delivered
    requires entry.cursor.Addresses(entry.asset.standard)
    modifies tail`assets
    ensures tail.assets == old(tail.assets)[index := entry] && AllAddress(tail.assets)
    ensures Delivered(tail.assets) == old(Delivered(tail.assets))
  {
    DeliveredUpdate(tail.assets, index, entry);
    tail.assets := tail.assets[index := entry];
  }

  /** An outpoint enters the claims exactly when its candidate is handed out and counted. */
  method TakeCandidate(tail: CandidateTail, index: nat, candidate: Candidate, foundIn: seq<Candidate>, maxBirth: u64,
                       ghost before: set<OutPoint>, ghost base: nat)
    returns (found: seq<Candidate>)
    requires index < |tail.assets| && candidate.birthBlock <= maxBirth
    requires Turning(tail, before, base, foundIn, maxBirth)
    modifies tail`emitted, tail`assets
    ensures Turning(tail, before, base, found, maxBirth) && OnlyAt(old(tail.assets), tail.assets, index)
    ensures tail.assets[index] == old(tail.assets)[index].(delivered := tail.assets[index].delivered)
    ensures found == if candidate.outPoint in old(tail.emitted) then foundIn else foundIn + [candidate]
    ensures tail.emitted == old(tail.emitted) + {candidate.outPoint}
  {
    found := foundIn;
    if candidate.outPoint !in tail.emitted {
      OfferOneMore(before, tail.emitted, found, maxBirth, candidate);
      tail.emitted := tail.emitted + {candidate.outPoint};
      found := found + [candidate];
      var entry := tail.assets[index];
      DeliveredUpdate(tail.assets, index, entry.(delivered := entry.delivered + 1));
      tail.assets := tail.assets[index := entry.(delivered := entry.delivered + 1)];
    }
  }

  /** Nothing on the page that was offered up to the anchor is left unclaimed. */
  ghost predicate RowsClaimed(rows: seq<Row>, emitted: set<OutPoint>, maxBirth: u64) {
    forall i :: 0 <= i < |rows| && rows[i].matches ==>
      rows[i].fields.Some? && (rows[i].fields.value.birthBlock <= maxBirth ==> rows[i].fields.value.outPoint in emitted)
  }

  method TakeRows(tail: CandidateTail, index: nat, rows: seq<Row>, until: nat, maxBirth: u64, foundIn: seq<Candidate>,
                  ghost before: set<OutPoint>, ghost base: nat)
    returns (r: Result<()>, found: seq<Candidate>)
    requires index < |tail.assets| && |foundIn| <= until
    requires Turning(tail, before, base, foundIn, maxBirth)
    modifies tail`emitted, tail`assets
    ensures Turning(tail, before, base, found, maxBirth) && OnlyAt(old(tail.assets), tail.assets, index)
    ensures foundIn <= found && |found| <= until && old(tail.emitted) <= tail.emitted
    ensures tail.assets[index] == old(tail.assets)[index].(delivered := tail.assets[index].delivered)
    ensures r.Ok? && |found| < until ==> RowsClaimed(rows, tail.emitted, maxBirth)
    ensures AllValid(rows) ==> r.Ok?
    ensures tail.emitted <= old(tail.emitted) + RowReach(rows, maxBirth)
    ensures found == foundIn || tail.emitted != old(tail.emitted)
  {
    hide Offered, AllAddress, Delivered;
    found := foundIn;
    for i := 0 to |rows|
      invariant Turning(tail, before, base, found, maxBirth) && OnlyAt(old(tail.assets), tail.assets, index)
      invariant foundIn <= found && |found| <= until && old(tail.emitted) <= tail.emitted
      invariant tail.assets[index] == old(tail.assets)[index].(delivered := tail.assets[index].delivered)
      invariant RowsClaimed(rows[..i], tail.emitted, maxBirth)
      invariant tail.emitted <= old(tail.emitted) + RowReach(rows, maxBirth)
      invariant found == foundIn || tail.emitted != old(tail.emitted)
    {
      assert rows[..i + 1] == rows[..i] + [rows[i]];
      if !rows[i].matches {
        continue;
      }
      if rows[i].fields.None? {
        return Err(Malformed), found;
      }
      if rows[i].fields.value.birthBlock > maxBirth {
        continue;
      }
      if |found| >= until {
        return Ok(()), found;
      }
      found := TakeCandidate(tail, index, rows[i].fields.value, found, maxBirth, before, base);
    }
    assert rows[..|rows|] == rows;
    r := Ok(());
  }

  function PageCursor(cursor: AssetCursor): Option<Cursor> {
    cursor.cursor
  }

  /** The page cursor moves on; nothing else about the walk does. */
  function Turned(cursor: AssetCursor, next: Cursor): AssetCursor {
    match cursor
    case ContractCursor(_) => ContractCursor(Some(next))
    case CollectionCursor(_, settled, pending, listedOut) => CollectionCursor(Some(next), settled, pending, listedOut)
    case FamilyCursor(_) => FamilyCursor(Some(next))
  }

  /** Where a paged asset stands once these pages have been read to their end. */
  function CursorAfter(cursor: AssetCursor, turned: seq<Page<Row>>): AssetCursor {
    if turned == [] then cursor else
    var init, last := CursorAfter(cursor, turned[..|turned| - 1]), turned[|turned| - 1];
    if last.hasMore && last.nextCursor.Some? then Turned(init, last.nextCursor.value) else init
  }

  /** Each page answers a request made where the pages before it left off, and only the last may say it is the end. */
  ghost predicate ReadInTurn(script: IndexScript, source: Source, cursor: AssetCursor, turned: seq<Page<Row>>) {
    (forall i :: 0 <= i < |turned| ==> AnsweredFrom(script, source, PageCursor(CursorAfter(cursor, turned[..i])), turned[i])) &&
    forall i :: 0 <= i < |turned| - 1 ==> turned[i].hasMore
  }

  ghost predicate AnsweredFrom(script: IndexScript, source: Source, cursor: Option<Cursor>, page: Page<Row>) {
    exists t: nat :: script.page(t, source, cursor) == Ok(page)
  }

  lemma {:induction false} TurnOneMore(script: IndexScript, source: Source, cursor: AssetCursor, turned: seq<Page<Row>>,
                                       page: Page<Row>)
    requires ReadInTurn(script, source, cursor, turned) && (turned != [] ==> turned[|turned| - 1].hasMore)
    requires AnsweredFrom(script, source, PageCursor(CursorAfter(cursor, turned)), page)
    ensures ReadInTurn(script, source, cursor, turned + [page])
    ensures CursorAfter(cursor, turned + [page]) ==
            if page.hasMore && page.nextCursor.Some? then Turned(CursorAfter(cursor, turned), page.nextCursor.value)
            else CursorAfter(cursor, turned)
  {
    hide AnsweredFrom;
    var more := turned + [page];
    assert more[..|turned|] == turned;
    forall i | 0 <= i < |turned| ensures more[..i] == turned[..i] && more[i] == turned[i] {
    }
  }

  /** One page of cells, read to its end: `Ok(true)` says there is more, and the cursor has moved on. */
  method TurnPage(client: IndexClient, tail: CandidateTail, index: nat, source: Source, until: nat, maxBirth: u64,
                  budget: TurnBudget, foundIn: seq<Candidate>, ghost before: set<OutPoint>, ghost base: nat,
                  ghost world: World)
    returns (r: Result<bool>, found: seq<Candidate>, ghost page: Page<Row>)
    requires index < |tail.assets| && |foundIn| <= until && budget.Valid() && !budget.IsSpent()
    requires tail.assets[index].asset.standard.Token? || tail.assets[index].asset.standard.Identity?
    requires Turning(tail, before, base, foundIn, maxBirth)
    modifies client, tail`emitted, tail`assets, budget
    ensures Turning(tail, before, base, found, maxBirth) && OnlyAt(old(tail.assets), tail.assets, index)
    ensures foundIn <= found && |found| <= until && old(tail.emitted) <= tail.emitted
    ensures budget.Valid() && budget.spent >= old(budget.spent)
    ensures r.Ok? ==> budget.spent == old(budget.spent) + PAGE_LIMIT
    ensures r.Ok? ==> AnsweredFrom(client.script, source, PageCursor(old(tail.assets)[index].cursor), page)
    ensures r.Ok? && |found| < until ==> RowsClaimed(page.rows, tail.emitted, maxBirth)
    ensures var was, now := old(tail.assets)[index], tail.assets[index];
            if r == Ok(true) then
              page.hasMore && page.nextCursor.Some? && now.cursor == Turned(was.cursor, page.nextCursor.value) &&
              now.exhausted == was.exhausted
            else now.cursor == was.cursor && now.exhausted == (was.exhausted || r.Ok?) && (r.Ok? ==> !page.hasMore)
    ensures PagedFrom(client.script, world, old(tail.assets)[index], source) && |foundIn| < until
            ==> r.Ok? && Advances(world, maxBirth, old(StandOf(tail)), StandOf(tail))
  {
    hide Offered, Delivered, AnsweredFrom, RowsClaimed, RowReach, Unchanging, Advances, PagedFrom;
    found := foundIn;
    ghost var steady, start := PagedFrom(client.script, world, tail.assets[index], source), StandOf(tail);
    if steady {
      PageIsStatic(client.script, world, tail.assets[index], source, client.calls);
    }
    ghost var clock := client.calls;
    var cursor := PageCursor(tail.assets[index].cursor);
    var reply := client.FetchPage(source, cursor);
    page := Page([], false, None);
    if reply.Err? {
      return Err(reply.fault), found, page;
    }
    page := reply.value;
    WasAnswered(client.script, source, cursor, page, clock);
    budget.SpendPage();
    var taken;
    taken, found := TakeRows(tail, index, reply.value.rows, until, maxBirth, found, before, base);
    if taken.Err? {
      return Err(taken.fault), found, page;
    }
    var entry := tail.assets[index];
    if reply.value.hasMore {
      var next := NextCursor(reply.value.nextCursor);
      if next.Err? {
        return Err(next.fault), found, page;
      }
      Place(tail, index, entry.(cursor := Turned(entry.cursor, next.value)));
    } else {
      Place(tail, index, entry.(exhausted := true));
    }
    r := Ok(reply.value.hasMore);
    if steady && |foundIn| < until {
      PagedAdvances(client.script, world, maxBirth, source, start, StandOf(tail), index, |found| < until);
    }
  }

  /** A static index pages a walk that is not over from this source. */
  ghost predicate PagedFrom(script: IndexScript, world: World, t: AssetTail, source: Source) {
    Unchanging(script, world) && SourceOf(t.asset, world.families) == Some(source) && !t.exhausted
  }

  lemma {:induction false} PageIsStatic(script: IndexScript, world: World, t: AssetTail, source: Source, call: nat)
    requires PagedFrom(script, world, t, source)
    ensures script.page(call, source, PageCursor(t.cursor)) == Ok(PageAt(world.rows(source), Position(t.cursor.cursor)))
    ensures var page := PageAt(world.rows(source), Position(t.cursor.cursor));
            |page.rows| <= PAGE_LIMIT && AllValid(page.rows) && !t.exhausted
  {
    var rows, p := world.rows(source), Position(t.cursor.cursor);
    var page := PageAt(rows, p);
    forall i | 0 <= i < |page.rows| ensures page.rows[i].fields.Some? {
      assert page.rows[i] == rows[p + i];
    }
  }

  lemma {:induction false} ClaimedReach(rows: seq<Row>, emitted: set<OutPoint>, maxBirth: u64)
    requires RowsClaimed(rows, emitted, maxBirth)
    ensures RowReach(rows, maxBirth) <= emitted
  {
  }

  lemma {:induction false} PagedAdvances(script: IndexScript, world: World, maxBirth: u64, source: Source, was: Stand,
                                         now: Stand, index: nat, short: bool)
    requires index < |was.assets| && PagedFrom(script, world, was.assets[index], source)
    requires AllAddress(was.assets) && AllAddress(now.assets) && OnlyAt(was.assets, now.assets, index)
    requires was.assets[index].asset.standard.Token? || was.assets[index].asset.standard.Identity?
    requires var page := PageAt(world.rows(source), Position(was.assets[index].cursor.cursor));
             was.emitted <= now.emitted <= was.emitted + RowReach(page.rows, maxBirth) &&
             (if short then RowsClaimed(page.rows, now.emitted, maxBirth) else now.emitted != was.emitted) &&
             now.assets[index].exhausted == !page.hasMore &&
             (page.hasMore ==> now.assets[index].cursor.cursor == page.nextCursor)
    ensures Advances(world, maxBirth, was, now)
  {
    hide RowReach, RowsClaimed, Advances, Moves, AssetAdvances, AssetMoves;
    var page := PageAt(world.rows(source), Position(was.assets[index].cursor.cursor));
    if short {
      ClaimedReach(page.rows, now.emitted, maxBirth);
    }
    PageAdvances(world, maxBirth, source, was.assets[index], now.assets[index], was.emitted, now.emitted);
    AdvancesIsMove(world, maxBirth, was.assets[index], now.assets[index], was.emitted, now.emitted);
    assert now.assets == was.assets[index := now.assets[index]];
    OneMoves(world, maxBirth, was, now, index);
  }

  lemma {:induction false} AdvancesIsMove(world: World, maxBirth: u64, was: AssetTail, now: AssetTail, before: set<OutPoint>,
                                          after: set<OutPoint>)
    requires AssetAdvances(world, maxBirth, was, now, before, after)
    ensures AssetMoves(world, maxBirth, was, now, before, after)
  {
  }

  /** A token contract or an identity family: pages of cells under one script. `turned` are the pages read to their
      end: the cursor stands behind them, and unless the ask was met everything on them is claimed. */
  method StepPages(client: IndexClient, tail: CandidateTail, index: nat, source: Source, until: nat, maxBirth: u64,
                   budget: TurnBudget, foundIn: seq<Candidate>, ghost before: set<OutPoint>, ghost base: nat,
                   ghost world: World)
    returns (r: Result<()>, found: seq<Candidate>, ghost turned: seq<Page<Row>>)
    requires index < |tail.assets| && |foundIn| <= until && budget.Valid()
    requires tail.assets[index].asset.standard.Token? || tail.assets[index].asset.standard.Identity?
    requires Turning(tail, before, base, foundIn, maxBirth)
    modifies client, tail`emitted, tail`assets, budget
    ensures Turning(tail, before, base, found, maxBirth) && OnlyAt(old(tail.assets), tail.assets, index)
    ensures r.Ok? ==> |found| == until || budget.IsSpent() || tail.assets[index].exhausted
    ensures foundIn <= found && |found| <= until && budget.Valid() && budget.spent >= old(budget.spent)
    ensures ReadInTurn(client.script, source, old(tail.assets)[index].cursor, turned)
    ensures tail.assets[index].cursor == CursorAfter(old(tail.assets)[index].cursor, turned)
    ensures tail.assets[index].exhausted ==
            (old(tail.assets)[index].exhausted || (turned != [] && !turned[|turned| - 1].hasMore))
    ensures r.Ok? && |found| < until ==> forall i :: 0 <= i < |turned| ==> RowsClaimed(turned[i].rows, tail.emitted, maxBirth)
    ensures PagedFrom(client.script, world, old(tail.assets)[index], source)
            ==> r.Ok? && Walks(world, maxBirth, old(StandOf(tail)), StandOf(tail), budget.spent > old(budget.spent))
  {
    hide Offered, Delivered, AllAddress, ReadInTurn, CursorAfter, AnsweredFrom, RowsClaimed, PagedFrom, Walks, Advances;
    found, turned := foundIn, [];
    ghost var steady, stand := PagedFrom(client.script, world, tail.assets[index], source), StandOf(tail);
    NotWalkedYet(world, maxBirth, stand);
    ghost var start := tail.assets[index].cursor;
    NothingTurned(client.script, source, start);
    while |found| < until && !budget.IsSpent()
      invariant Turning(tail, before, base, found, maxBirth) && OnlyAt(old(tail.assets), tail.assets, index)
      invariant foundIn <= found && |found| <= until && budget.Valid()
      invariant ReadInTurn(client.script, source, start, turned)
      invariant turned != [] ==> turned[|turned| - 1].hasMore
      invariant tail.assets[index].cursor == CursorAfter(start, turned)
      invariant tail.assets[index].exhausted == old(tail.assets)[index].exhausted
      invariant |found| < until ==> forall i :: 0 <= i < |turned| ==> RowsClaimed(turned[i].rows, tail.emitted, maxBirth)
      invariant steady ==> PagedFrom(client.script, world, tail.assets[index], source) &&
                           Walks(world, maxBirth, stand, StandOf(tail), budget.spent > old(budget.spent))
      invariant budget.spent >= old(budget.spent)
      decreases budget.limit + PAGE_LIMIT - budget.spent
    {
      ghost var earlier, middle, was, spent := tail.emitted, StandOf(tail), tail.assets[index], budget.spent;
      ghost var page;
      var more;
      more, found, page := TurnPage(client, tail, index, source, until, maxBirth, budget, found, before, base, world);
      if steady {
        AdvancingWalks(world, maxBirth, stand, middle, StandOf(tail), spent > old(budget.spent));
        if more.value {
          StillPaged(client.script, world, was, tail.assets[index], source);
        }
      }
      if more.Err? {
        return Err(more.fault), found, turned;
      }
      TurnOneMore(client.script, source, start, turned, page);
      StillClaimed(turned, earlier, tail.emitted, maxBirth);
      turned := turned + [page];
      if !more.value {
        return Ok(()), found, turned;
      }
    }
    r := Ok(());
  }

  /** The walk moved on, and if it spent anything it advanced. */
  ghost predicate Walks(world: World, maxBirth: u64, was: Stand, now: Stand, spent: bool) {
    Moves(world, maxBirth, was, now) && (spent ==> Advances(world, maxBirth, was, now))
  }

  lemma {:induction false} NotWalkedYet(world: World, maxBirth: u64, stand: Stand)
    ensures Walks(world, maxBirth, stand, stand, false)
  {
  }

  lemma {:induction false} AdvancingWalks(world: World, maxBirth: u64, was: Stand, middle: Stand, now: Stand, earlier: bool)
    requires Walks(world, maxBirth, was, middle, earlier) && Advances(world, maxBirth, middle, now)
    ensures forall spent: bool :: Walks(world, maxBirth, was, now, spent)
  {
    assert Moves(world, maxBirth, middle, now);
    hide Moves, Advances;
    MovesOn(world, maxBirth, was, middle, now);
  }

  lemma {:induction false} WalkingWalks(world: World, maxBirth: u64, was: Stand, middle: Stand, now: Stand, earlier: bool,
                                        later: bool)
    requires Walks(world, maxBirth, was, middle, earlier) && Walks(world, maxBirth, middle, now, later)
    ensures Walks(world, maxBirth, was, now, earlier || later)
  {
    hide Moves, Advances;
    MovesOn(world, maxBirth, was, middle, now);
  }

  lemma {:induction false} WalkedAtLeast(world: World, maxBirth: u64, was: Stand, now: Stand, spent: bool)
    requires Walks(world, maxBirth, was, now, spent)
    ensures forall less: bool :: (less ==> spent) ==> Walks(world, maxBirth, was, now, less)
  {
  }

  lemma {:induction false} StillPaged(script: IndexScript, world: World, was: AssetTail, now: AssetTail, source: Source)
    requires PagedFrom(script, world, was, source) && now.asset == was.asset && now.exhausted == was.exhausted
    ensures PagedFrom(script, world, now, source)
  {
  }

  lemma {:induction false} NothingTurned(script: IndexScript, source: Source, cursor: AssetCursor)
    ensures ReadInTurn(script, source, cursor, []) && CursorAfter(cursor, []) == cursor
  {
  }

  lemma {:induction false} WasAnswered(script: IndexScript, source: Source, cursor: Option<Cursor>, page: Page<Row>, t: nat)
    requires script.page(t, source, cursor) == Ok(page)
    ensures AnsweredFrom(script, source, cursor, page)
  {
  }

  lemma {:induction false} StillClaimed(turned: seq<Page<Row>>, earlier: set<OutPoint>, emitted: set<OutPoint>, maxBirth: u64)
    requires earlier <= emitted
    ensures forall i :: 0 <= i < |turned| && RowsClaimed(turned[i].rows, earlier, maxBirth)
              ==> RowsClaimed(turned[i].rows, emitted, maxBirth)
  {
  }

  /** Try the settled version, or every pinned one; each attempt costs a lookup. */
  method ResolveOneItem(client: IndexClient, item: Item, versions: seq<Version>, settled: Option<Version>,
                        budget: TurnBudget, ghost world: World)
    returns (r: Result<Option<(Version, Candidate)>>)
    requires budget.Valid() && !budget.IsSpent() && |versions| < PAGE_LIMIT
    modifies client, budget
    ensures budget.Valid() && budget.spent >= old(budget.spent) && budget.pages == old(budget.pages)
    ensures !item.isHex ==> r == Ok(None) && budget.spent == old(budget.spent)
    ensures r.Ok? && r.value.Some? ==>
              client.calls > old(client.calls) &&
              client.script.lookup(client.calls - 1, item, r.value.value.0) == Ok(Some(r.value.value.1)) &&
              (if settled.Some? then r.value.value.0 == settled.value else r.value.value.0 in versions)
    ensures r.Ok? && r.value.Some? && settled.None? ==>
              var misses := client.calls - old(client.calls) - 1;
              0 <= misses < |versions| && r.value.value.0 == versions[misses] &&
              forall i :: 0 <= i < misses ==> client.script.lookup(old(client.calls) + i, item, versions[i]) == Ok(None)
    ensures r == Ok(None) && item.isHex ==>
              if settled.Some? then client.script.lookup(old(client.calls), item, settled.value) == Ok(None)
              else forall i :: 0 <= i < |versions| ==> client.script.lookup(old(client.calls) + i, item, versions[i]) == Ok(None)
    ensures Unchanging(client.script, world) ==> r.Ok? && FoundAs(world, item, settled, versions, r.value)
  {
    hide Unchanging;
    if !item.isHex {
      return Ok(None);
    }
    var attempts := if settled.Some? then [settled.value] else versions;
    ghost var steady := Unchanging(client.script, world);
    for i := 0 to |attempts|
      invariant budget.Valid() && budget.spent == old(budget.spent) + i && budget.pages == old(budget.pages)
      invariant client.calls == old(client.calls) + i
      invariant forall j :: 0 <= j < i ==> client.script.lookup(old(client.calls) + j, item, attempts[j]) == Ok(None)
      invariant steady ==> forall j :: 0 <= j < i ==> world.cell(item, attempts[j]).None?
    {
      budget.SpendLookup();
      if steady {
        LookupIsStatic(client.script, world, item, attempts[i], client.calls);
        FirstCellAt(world, item, attempts, i);
      }
      var found := client.ResolveItemCell(item, attempts[i]);
      if found.Err? {
        return Err(found.fault);
      }
      if found.value.Some? {
        assert attempts[i] in attempts;
        return Ok(Some((attempts[i], found.value.value)));
      }
    }
    assert settled.Some? ==> attempts[0] == settled.value;
    if steady {
      FirstCellAt(world, item, attempts, |attempts|);
    }
    r := Ok(None);
  }

  /** What a static index makes of one resolution: the cell, on the settled version or the first that has one. */
  ghost predicate FoundAs(world: World, item: Item, settled: Option<Version>, versions: seq<Version>,
                          found: Option<(Version, Candidate)>) {
    var cell := CellOf(world, item, settled, versions);
    if found.None? then cell.None?
    else cell == Some(found.value.1) == world.cell(item, found.value.0) && (settled.Some? ==> found.value.0 == settled.value)
  }

  lemma {:induction false} LookupIsStatic(script: IndexScript, world: World, item: Item, version: Version, call: nat)
    requires Unchanging(script, world)
    ensures script.lookup(call, item, version) == Ok(world.cell(item, version))
  {
  }

  lemma {:induction false} FirstCellAt(world: World, item: Item, versions: seq<Version>, i: nat)
    requires i <= |versions| && forall j :: 0 <= j < i ==> world.cell(item, versions[j]).None?
    ensures i < |versions| && world.cell(item, versions[i]).Some?
            ==> FirstCell(world, item, versions) == world.cell(item, versions[i])
    ensures i == |versions| ==> FirstCell(world, item, versions) == None
    decreases |versions|
  {
    if i > 0 {
      FirstCellAt(world, item, versions[1..], i - 1);
    }
  }

  /** What a turn did to one collection: the items it listed, the items it took off the queue, and what the index said
      of each of those. */
  datatype CollectionTurn = CollectionTurn(listed: seq<Item>, tried: seq<Item>, outcomes: seq<Option<Candidate>>)

  /** An item that does not decode has no cell; of any other the index was asked. */
  ghost predicate Resolved(script: IndexScript, item: Item, outcome: Option<Candidate>) {
    (!item.isHex && outcome.None?) || exists t: nat, v: Version :: script.lookup(t, item, v) == Ok(outcome)
  }

  lemma {:induction false} MissIsResolved(script: IndexScript, item: Item, settled: Option<Version>, versions: seq<Version>,
                                          t: nat)
    requires versions != []
    requires item.isHex ==>
               if settled.Some? then script.lookup(t, item, settled.value) == Ok(None)
               else forall i :: 0 <= i < |versions| ==> script.lookup(t + i, item, versions[i]) == Ok(None)
    ensures Resolved(script, item, None)
  {
    if item.isHex && settled.None? {
      assert script.lookup(t + 0, item, versions[0]) == Ok(None);
    }
  }

  /** No listed item is lost: it was tried or is still pending. What was found in time is claimed. At most the last
      tried item has no outcome, because its lookup failed. */
  ghost predicate Accounted(script: IndexScript, before: seq<Item>, after: seq<Item>, turn: CollectionTurn,
                            emitted: set<OutPoint>, maxBirth: u64) {
    before + turn.listed == turn.tried + after && |turn.outcomes| <= |turn.tried| <= |turn.outcomes| + 1 &&
    forall i :: 0 <= i < |turn.outcomes| ==>
      Resolved(script, turn.tried[i], turn.outcomes[i]) &&
      (turn.outcomes[i].Some? && turn.outcomes[i].value.birthBlock <= maxBirth ==> turn.outcomes[i].value.outPoint in emitted)
  }

  lemma {:induction false} NothingTried(script: IndexScript, before: seq<Item>, emitted: set<OutPoint>, maxBirth: u64)
    ensures Accounted(script, before, before, CollectionTurn([], [], []), emitted, maxBirth)
  {
  }

  lemma {:induction false} ListedMore(script: IndexScript, before: seq<Item>, turn: CollectionTurn, emitted: set<OutPoint>,
                                      maxBirth: u64, items: seq<Item>)
    requires Accounted(script, before, [], turn, emitted, maxBirth)
    ensures Accounted(script, before, items, turn.(listed := turn.listed + items), emitted, maxBirth)
  {
    assert before + (turn.listed + items) == before + turn.listed + items;
  }

  lemma {:induction false} TriedMore(script: IndexScript, before: seq<Item>, pending: seq<Item>, turn: CollectionTurn,
                                     earlier: set<OutPoint>, emitted: set<OutPoint>, maxBirth: u64)
    requires pending != [] && earlier <= emitted && |turn.outcomes| == |turn.tried|
    requires Accounted(script, before, pending, turn, earlier, maxBirth)
    ensures Accounted(script, before, pending[1..], turn.(tried := turn.tried + [pending[0]]), emitted, maxBirth)
  {
    hide Resolved;
    assert turn.tried + pending == turn.tried + [pending[0]] + pending[1..];
  }

  lemma {:induction false} OutcomeMore(script: IndexScript, before: seq<Item>, pending: seq<Item>, turn: CollectionTurn,
                                       emitted: set<OutPoint>, maxBirth: u64, outcome: Option<Candidate>)
    requires Accounted(script, before, pending, turn, emitted, maxBirth) && |turn.tried| == |turn.outcomes| + 1
    requires Resolved(script, turn.tried[|turn.outcomes|], outcome)
    requires outcome.Some? && outcome.value.birthBlock <= maxBirth ==> outcome.value.outPoint in emitted
    ensures Accounted(script, before, pending, turn.(outcomes := turn.outcomes + [outcome]), emitted, maxBirth)
  {
    hide Resolved;
  }

  /** The next page of the items a collection lists. */
  method ListItems(client: IndexClient, tail: CandidateTail, index: nat, budget: TurnBudget, ghost maxBirth: u64,
                   ghost world: World)
    returns (r: Result<()>, ghost items: seq<Item>)
    requires index < |tail.assets| && AllAddress(tail.assets) && budget.Valid() && !budget.IsSpent()
    requires tail.assets[index].cursor.CollectionCursor? && tail.assets[index].cursor.pending == []
    modifies client, tail`assets, budget
    ensures AllAddress(tail.assets) && Delivered(tail.assets) == old(Delivered(tail.assets))
    ensures OnlyAt(old(tail.assets), tail.assets, index) && tail.assets[index].exhausted == old(tail.assets)[index].exhausted
    ensures PendingOf(tail.assets[index].cursor) == items && budget.Valid()
    ensures r.Ok? ==> budget.spent == old(budget.spent) + PAGE_LIMIT
    ensures r.Ok? ==>
              var was, now := old(tail.assets)[index].cursor, tail.assets[index].cursor;
              var reply := client.script.items(old(client.calls), old(tail.assets)[index].asset.id, was.cursor);
              reply.Ok? && items == LiveItems(reply.value.rows) && now.settled == was.settled &&
              if reply.value.hasMore
              then now.cursor == reply.value.nextCursor && now.cursor.Some? && now.listedOut == was.listedOut
              else now.cursor == was.cursor && now.listedOut
    ensures budget.spent >= old(budget.spent) && tail.emitted == old(tail.emitted)
    ensures Unchanging(client.script, world) && QueueIsEmpty(old(tail.assets)[index])
            ==> r.Ok? && Advances(world, maxBirth, old(StandOf(tail)), StandOf(tail))
  {
    hide AllAddress, Delivered, Unchanging, Advances, LiveItems;
    items := [];
    ghost var steady, start := Unchanging(client.script, world) && QueueIsEmpty(tail.assets[index]), StandOf(tail);
    if steady {
      ItemsAreStatic(client.script, world, tail.assets[index].asset.id, tail.assets[index].cursor.cursor, client.calls);
    }
    var entry := tail.assets[index];
    var page := client.FetchItems(entry.asset.id, entry.cursor.cursor);
    if page.Err? {
      return Err(page.fault), items;
    }
    items := LiveItems(page.value.rows);
    var listed := entry.cursor.(pending := LiveItems(page.value.rows));
    if page.value.hasMore {
      var next := NextCursor(page.value.nextCursor);
      if next.Err? {
        Addressed(tail.assets, index, listed);
        Place(tail, index, entry.(cursor := listed));
        return Err(next.fault), items;
      }
      listed := Turned(listed, next.value);
    } else {
      listed := listed.(listedOut := true);
    }
    Addressed(tail.assets, index, listed);
    Place(tail, index, entry.(cursor := listed));
    budget.SpendPage();
    r := Ok(());
    if steady {
      ListedAdvances(world, maxBirth, start, StandOf(tail), index);
    }
  }

  /** A collection with nothing pending and something left to list. */
  ghost predicate QueueIsEmpty(t: AssetTail) {
    IsCollection(t.asset) && t.cursor.CollectionCursor? && t.cursor.pending == [] && !t.cursor.listedOut && !t.exhausted
  }

  lemma {:induction false} ItemsAreStatic(script: IndexScript, world: World, id: nat, cursor: Option<Cursor>, call: nat)
    requires Unchanging(script, world)
    ensures script.items(call, id, cursor) == Ok(PageAt(world.items(id), Position(cursor)))
    ensures |PageAt(world.items(id), Position(cursor)).rows| <= PAGE_LIMIT
  {
  }

  lemma {:induction false} ListedAdvances(world: World, maxBirth: u64, was: Stand, now: Stand, index: nat)
    requires index < |was.assets| && QueueIsEmpty(was.assets[index]) && OnlyAt(was.assets, now.assets, index)
    requires now.emitted == was.emitted && now.assets[index].exhausted == was.assets[index].exhausted
    requires var page := PageAt(world.items(was.assets[index].asset.id), Position(was.assets[index].cursor.cursor));
             var t, t' := was.assets[index].cursor, now.assets[index].cursor;
             t'.CollectionCursor? && t'.settled == t.settled && t'.pending == LiveItems(page.rows) &&
             t'.listedOut == !page.hasMore && (page.hasMore ==> t'.cursor == page.nextCursor)
    ensures Advances(world, maxBirth, was, now)
  {
    hide Advances, Moves, AssetAdvances, AssetMoves, LiveItems;
    ListingAdvances(world, maxBirth, was.assets[index], now.assets[index], was.emitted);
    AdvancesIsMove(world, maxBirth, was.assets[index], now.assets[index], was.emitted, now.emitted);
    assert now.assets == was.assets[index := now.assets[index]];
    OneMoves(world, maxBirth, was, now, index);
  }

  /** A cursor of the same kind still addresses the asset. */
  lemma {:induction false} Addressed(assets: seq<AssetTail>, index: nat, cursor: AssetCursor)
    requires index < |assets| && AllAddress(assets)
    requires cursor.CollectionCursor? && assets[index].cursor.CollectionCursor?
    ensures cursor.Addresses(assets[index].asset.standard)
  {
  }

  /** What taking one item off the queue and asking about it does to its collection on a static index. */
  ghost predicate Tried(world: World, was: AssetTail, now: AssetTail, outcome: Option<Candidate>) {
    IsCollection(was.asset) && was.cursor.CollectionCursor? && was.cursor.pending != [] && !was.exhausted && !now.exhausted &&
    now.cursor.CollectionCursor? &&
    now.cursor == was.cursor.(pending := was.cursor.pending[1..], settled := now.cursor.settled) &&
    var item := was.cursor.pending[0];
    outcome == CellOf(world, item, was.cursor.settled, VersionsOf(was.asset.standard)) &&
    (was.cursor.settled.Some? || outcome.None? ==> now.cursor.settled == was.cursor.settled) &&
    (outcome.Some? ==> now.cursor.settled.Some? && world.cell(item, now.cursor.settled.value) == outcome)
  }

  /** Take the next item off the queue and spend lookups on it. */
  method ResolveNext(client: IndexClient, tail: CandidateTail, index: nat, budget: TurnBudget, ghost world: World)
    returns (r: Result<Option<Candidate>>)
    requires index < |tail.assets| && AllAddress(tail.assets) && budget.Valid() && !budget.IsSpent()
    requires tail.assets[index].cursor.CollectionCursor? && tail.assets[index].cursor.pending != []
    modifies client, tail`assets, budget
    ensures AllAddress(tail.assets) && Delivered(tail.assets) == Delivered(old(tail.assets))
    ensures OnlyAt(old(tail.assets), tail.assets, index) && tail.assets[index].exhausted == old(tail.assets)[index].exhausted
    ensures budget.Valid() && budget.spent >= old(budget.spent)
    ensures PendingOf(tail.assets[index].cursor) == PendingOf(old(tail.assets)[index].cursor)[1..]
    ensures r.Ok? ==> Resolved(client.script, PendingOf(old(tail.assets)[index].cursor)[0], r.value)
    ensures Unchanging(client.script, world) && IsCollection(old(tail.assets)[index].asset) && !old(tail.assets)[index].exhausted
            ==> r.Ok? && Tried(world, old(tail.assets)[index], tail.assets[index], r.value)
  {
    hide Delivered, AllAddress, Unchanging, CellOf;
    var entry := tail.assets[index];
    var versions := VersionsOf(entry.asset.standard);
    var item := entry.cursor.pending[0];
    var rest := entry.cursor.(pending := entry.cursor.pending[1..]);
    Addressed(tail.assets, index, rest);
    Place(tail, index, entry.(cursor := rest));
    ghost var clock := client.calls;
    var resolved := ResolveOneItem(client, item, versions, rest.settled, budget, world);
    if resolved.Err? {
      return Err(resolved.fault);
    }
    if resolved.value.None? {
      MissIsResolved(client.script, item, rest.settled, versions, clock);
      return Ok(None);
    }
    var (version, candidate) := resolved.value.value;
    var known := rest.(settled := Some(version));
    Addressed(tail.assets, index, known);
    Place(tail, index, tail.assets[index].(cursor := known));
    r := Ok(Some(candidate));
  }

  /** One item: what it resolves to is claimed, unless it was born past the anchor. */
  method TryItem(client: IndexClient, tail: CandidateTail, index: nat, until: nat, maxBirth: u64, budget: TurnBudget,
                 foundIn: seq<Candidate>, ghost before: set<OutPoint>, ghost base: nat, ghost world: World)
    returns (r: Result<()>, found: seq<Candidate>, ghost outcome: Option<Candidate>)
    requires index < |tail.assets| && |foundIn| < until && budget.Valid() && !budget.IsSpent()
    requires tail.assets[index].cursor.CollectionCursor? && tail.assets[index].cursor.pending != []
    requires Turning(tail, before, base, foundIn, maxBirth)
    modifies client, tail`emitted, tail`assets, budget
    ensures Turning(tail, before, base, found, maxBirth) && OnlyAt(old(tail.assets), tail.assets, index)
    ensures foundIn <= found && |found| <= until && budget.Valid() && budget.spent >= old(budget.spent)
    ensures tail.assets[index].exhausted == old(tail.assets)[index].exhausted && old(tail.emitted) <= tail.emitted
    ensures PendingOf(tail.assets[index].cursor) == PendingOf(old(tail.assets)[index].cursor)[1..]
    ensures r.Ok? ==> Resolved(client.script, PendingOf(old(tail.assets)[index].cursor)[0], outcome)
    ensures r.Ok? && outcome.Some? && outcome.value.birthBlock <= maxBirth ==> outcome.value.outPoint in tail.emitted
    ensures Unchanging(client.script, world) && IsCollection(old(tail.assets)[index].asset) && !old(tail.assets)[index].exhausted
            ==> r.Ok? && Advances(world, maxBirth, old(StandOf(tail)), StandOf(tail))
  {
    hide Offered, Delivered, AllAddress, Unchanging, Advances, Tried, Resolved;
    ghost var steady := Unchanging(client.script, world) && IsCollection(tail.assets[index].asset) &&
                        !tail.assets[index].exhausted;
    ghost var start := StandOf(tail);
    found, outcome := foundIn, None;
    var resolved := ResolveNext(client, tail, index, budget, world);
    if resolved.Err? {
      return Err(resolved.fault), found, outcome;
    }
    outcome := resolved.value;
    ghost var middle := tail.assets[index];
    if resolved.value.Some? && resolved.value.value.birthBlock <= maxBirth {
      found := TakeCandidate(tail, index, resolved.value.value, found, maxBirth, before, base);
    }
    r := Ok(());
    if steady {
      TriedAdvances(world, maxBirth, start, StandOf(tail), index, middle, outcome);
    }
  }

  lemma {:induction false} TriedAdvances(world: World, maxBirth: u64, was: Stand, now: Stand, index: nat, middle: AssetTail,
                                         outcome: Option<Candidate>)
    requires index < |was.assets| && OnlyAt(was.assets, now.assets, index)
    requires Tried(world, was.assets[index], middle, outcome)
    requires now.assets[index] == middle.(delivered := now.assets[index].delivered)
    requires now.emitted == was.emitted + if Offers(outcome, maxBirth) then {outcome.value.outPoint} else {}
    ensures Advances(world, maxBirth, was, now)
  {
    hide Advances, Moves, AssetAdvances, AssetMoves, CellOf;
    TryingAdvances(world, maxBirth, was.assets[index], now.assets[index], was.emitted, now.emitted);
    AdvancesIsMove(world, maxBirth, was.assets[index], now.assets[index], was.emitted, now.emitted);
    assert now.assets == was.assets[index := now.assets[index]];
    OneMoves(world, maxBirth, was, now, index);
  }

  /** One step of a collection: try the next item, list more of them, or give up. `Ok(true)` says there is more. */
  method StepItem(client: IndexClient, tail: CandidateTail, index: nat, until: nat, maxBirth: u64, budget: TurnBudget,
                  foundIn: seq<Candidate>, ghost before: set<OutPoint>, ghost base: nat, ghost queue: seq<Item>,
                  ghost turnIn: CollectionTurn, ghost world: World)
    returns (r: Result<bool>, found: seq<Candidate>, ghost turn: CollectionTurn)
    requires index < |tail.assets| && |foundIn| < until && budget.Valid() && !budget.IsSpent()
    requires IsCollection(tail.assets[index].asset) && |turnIn.outcomes| == |turnIn.tried|
    requires Turning(tail, before, base, foundIn, maxBirth)
    requires Accounted(client.script, queue, PendingOf(tail.assets[index].cursor), turnIn, tail.emitted, maxBirth)
    modifies client, tail`emitted, tail`assets, budget
    ensures Turning(tail, before, base, found, maxBirth) && OnlyAt(old(tail.assets), tail.assets, index)
    ensures foundIn <= found && |found| <= until && budget.Valid() && budget.spent >= old(budget.spent)
    ensures Accounted(client.script, queue, PendingOf(tail.assets[index].cursor), turn, tail.emitted, maxBirth)
    ensures r.Ok? ==> |turn.outcomes| == |turn.tried|
    ensures tail.assets[index].exhausted == (old(tail.assets)[index].exhausted || r == Ok(false))
    ensures r == Ok(false) ==> PendingOf(tail.assets[index].cursor) == [] && tail.assets[index].cursor.listedOut
    ensures r == Ok(true) ==> budget.spent > old(budget.spent) ||
                              |PendingOf(tail.assets[index].cursor)| < |PendingOf(old(tail.assets)[index].cursor)|
    ensures Unchanging(client.script, world) && !old(tail.assets)[index].exhausted
            ==> r.Ok? && Advances(world, maxBirth, old(StandOf(tail)), StandOf(tail))
  {
    hide Offered, Delivered, Accounted, Resolved, Unchanging, Advances, LiveItems;
    ghost var stand := StandOf(tail);
    found, turn := foundIn, turnIn;
    var entry := tail.assets[index];
    if entry.cursor.pending == [] {
      if entry.cursor.listedOut {
        Place(tail, index, entry.(exhausted := true));
        if !entry.exhausted {
          GivingUpAdvances(world, maxBirth, stand, StandOf(tail), index);
        }
        return Ok(false), found, turn;
      }
      var listed;
      ghost var items;
      listed, items := ListItems(client, tail, index, budget, maxBirth, world);
      ListedMore(client.script, queue, turn, tail.emitted, maxBirth, items);
      turn := turn.(listed := turn.listed + items);
      r := if listed.Ok? then Ok(true) else Err(listed.fault);
      return;
    }
    ghost var pending, earlier := PendingOf(entry.cursor), tail.emitted;
    ghost var outcome;
    var tried;
    tried, found, outcome := TryItem(client, tail, index, until, maxBirth, budget, found, before, base, world);
    TriedMore(client.script, queue, pending, turn, earlier, tail.emitted, maxBirth);
    turn := turn.(tried := turn.tried + [pending[0]]);
    if tried.Err? {
      return Err(tried.fault), found, turn;
    }
    OutcomeMore(client.script, queue, pending[1..], turn, tail.emitted, maxBirth, outcome);
    turn := turn.(outcomes := turn.outcomes + [outcome]);
    r := Ok(true);
  }

  /** A collection: list items a page at a time, then spend lookups on them one by one. What a page listed
      and the turn did not reach stays pending. */
  method StepCollection(client: IndexClient, tail: CandidateTail, index: nat, until: nat, maxBirth: u64,
                        budget: TurnBudget, foundIn: seq<Candidate>, ghost before: set<OutPoint>, ghost base: nat,
                        ghost world: World)
    returns (r: Result<()>, found: seq<Candidate>, ghost turn: CollectionTurn)
    requires index < |tail.assets| && |foundIn| <= until && budget.Valid()
    requires tail.assets[index].asset.standard.Spore? || tail.assets[index].asset.standard.MNft?
    requires Turning(tail, before, base, foundIn, maxBirth)
    modifies client, tail`emitted, tail`assets, budget
    ensures Turning(tail, before, base, found, maxBirth) && OnlyAt(old(tail.assets), tail.assets, index)
    ensures r.Ok? ==> |found| == until || budget.IsSpent() || tail.assets[index].exhausted
    ensures foundIn <= found && |found| <= until && budget.Valid() && budget.spent >= old(budget.spent)
    ensures Accounted(client.script, PendingOf(old(tail.assets)[index].cursor), PendingOf(tail.assets[index].cursor), turn,
                      tail.emitted, maxBirth)
    ensures r.Ok? ==> |turn.outcomes| == |turn.tried|
    ensures tail.assets[index].exhausted && !old(tail.assets)[index].exhausted
            ==> PendingOf(tail.assets[index].cursor) == [] && tail.assets[index].cursor.listedOut
    ensures Unchanging(client.script, world) && !old(tail.assets)[index].exhausted
            ==> r.Ok? && Walks(world, maxBirth, old(StandOf(tail)), StandOf(tail), budget.spent > old(budget.spent))
  {
    hide Offered, Delivered, Accounted, Resolved, Unchanging, Advances, Walks, AllAddress;
    ghost var steady, stand := Unchanging(client.script, world) && !tail.assets[index].exhausted, StandOf(tail);
    NotWalkedYet(world, maxBirth, stand);
    found, turn := foundIn, CollectionTurn([], [], []);
    ghost var queue := PendingOf(tail.assets[index].cursor);
    NothingTried(client.script, queue, tail.emitted, maxBirth);
    while |found| < until && !budget.IsSpent()
      invariant Turning(tail, before, base, found, maxBirth) && OnlyAt(old(tail.assets), tail.assets, index)
      invariant foundIn <= found && |found| <= until && budget.Valid()
      invariant tail.assets[index].exhausted == old(tail.assets)[index].exhausted
      invariant Accounted(client.script, queue, PendingOf(tail.assets[index].cursor), turn, tail.emitted, maxBirth)
      invariant |turn.outcomes| == |turn.tried|
      invariant budget.spent >= old(budget.spent)
      invariant steady ==> Walks(world, maxBirth, stand, StandOf(tail), budget.spent > old(budget.spent))
      decreases budget.limit + PAGE_LIMIT - budget.spent, |PendingOf(tail.assets[index].cursor)|
    {
      ghost var middle, walked := StandOf(tail), budget.spent > old(budget.spent);
      var more;
      more, found, turn :=
        StepItem(client, tail, index, until, maxBirth, budget, found, before, base, queue, turn, world);
      if steady {
        AdvancingWalks(world, maxBirth, stand, middle, StandOf(tail), walked);
      }
      if more.Err? {
        return Err(more.fault), found, turn;
      }
      if !more.value {
        return Ok(()), found, turn;
      }
    }
    r := Ok(());
  }

  lemma {:induction false} GivingUpAdvances(world: World, maxBirth: u64, was: Stand, now: Stand, index: nat)
    requires index < |was.assets| && !was.assets[index].exhausted && now.emitted == was.emitted
    requires now.assets == was.assets[index := was.assets[index].(exhausted := true)]
    requires var t := was.assets[index];
             if IsCollection(t.asset) then t.cursor.CollectionCursor? && t.cursor.pending == [] && t.cursor.listedOut
             else SourceOf(t.asset, world.families).None?
    ensures Advances(world, maxBirth, was, now)
  {
    hide Advances, Moves, AssetAdvances, AssetMoves;
    ExhaustingAdvances(world, maxBirth, was.assets[index], was.emitted);
    AdvancesIsMove(world, maxBirth, was.assets[index], now.assets[index], was.emitted, now.emitted);
    OneMoves(world, maxBirth, was, now, index);
  }

  /** The identity families the census can name, by their script. */
  type Families = map<IdentityStandard, nat>

  method StepAsset(client: IndexClient, tail: CandidateTail, index: nat, families: Families, until: nat, maxBirth: u64,
                   budget: TurnBudget, foundIn: seq<Candidate>, ghost before: set<OutPoint>, ghost base: nat,
                   ghost world: World)
    returns (r: Result<()>, found: seq<Candidate>)
    requires index < |tail.assets| && |foundIn| <= until && budget.Valid()
    requires Turning(tail, before, base, foundIn, maxBirth)
    modifies client, tail`emitted, tail`assets, budget
    ensures Turning(tail, before, base, found, maxBirth) && OnlyAt(old(tail.assets), tail.assets, index)
    ensures r.Ok? ==> |found| == until || budget.IsSpent() || tail.assets[index].exhausted
    ensures foundIn <= found && |found| <= until && budget.Valid() && budget.spent >= old(budget.spent)
    ensures Unchanging(client.script, world) && world.families == families && !old(tail.assets)[index].exhausted
            ==> r.Ok? && Walks(world, maxBirth, old(StandOf(tail)), StandOf(tail), budget.spent > old(budget.spent))
  {
    hide Offered, Delivered, Unchanging, Walks, Advances, Accounted, ReadInTurn, CursorAfter;
    ghost var stand := StandOf(tail);
    NotWalkedYet(world, maxBirth, stand);
    var asset := tail.assets[index].asset;
    ghost var turned: seq<Page<Row>>;
    match asset.standard {
      case Token =>
        r, found, turned :=
          StepPages(client, tail, index, Contract(asset.id), until, maxBirth, budget, foundIn, before, base, world);
      case Identity(standard) =>
        if standard in families {
          r, found, turned :=
            StepPages(client, tail, index, Family(families[standard]), until, maxBirth, budget, foundIn, before, base, world);
        } else {
          Place(tail, index, tail.assets[index].(exhausted := true));
          if world.families == families && !stand.assets[index].exhausted {
            GivingUpAdvances(world, maxBirth, stand, StandOf(tail), index);
            AdvancingWalks(world, maxBirth, stand, stand, StandOf(tail), false);
          }
          r, found := Ok(()), foundIn;
        }
      case _ =>
        ghost var steps;
        r, found, steps := StepCollection(client, tail, index, until, maxBirth, budget, foundIn, before, base, world);
    }
  }

  // ----- the roster -----

  function CarriedCursors(assets: seq<AssetTail>): map<nat, AssetCursor> {
    if assets == [] then map[]
    else CarriedCursors(assets[..|assets| - 1])[assets[|assets| - 1].asset.id := assets[|assets| - 1].cursor]
  }

  predicate FirstOfItsId(roster: seq<RankedAsset>, i: nat)
    requires i < |roster|
  {
    forall j :: 0 <= j < i ==> roster[j].id != roster[i].id
  }

  /** The first row of an id takes over that id's cursor, if the cursor still addresses the row's standard. */
  function Taken(roster: seq<RankedAsset>, carried: map<nat, AssetCursor>, i: nat): (entry: AssetTail)
    requires i < |roster|
    ensures entry.cursor.Addresses(entry.asset.standard) && entry.delivered == 0
  {
    var asset := roster[i];
    AssetTail(asset,
              if FirstOfItsId(roster, i) && asset.id in carried && carried[asset.id].Addresses(asset.standard)
              then carried[asset.id] else CursorFor(asset.standard),
              false, 0)
  }

  /** Asset `k` is the last one that had this id. */
  ghost predicate LastOfItsId(assets: seq<AssetTail>, k: nat, id: nat)
    requires k < |assets|
  {
    assets[k].asset.id == id && forall j :: k < j < |assets| ==> assets[j].asset.id != id
  }

  lemma {:induction false} CarriesTheLast(assets: seq<AssetTail>, k: nat, id: nat)
    requires k < |assets| && LastOfItsId(assets, k, id)
    ensures id in CarriedCursors(assets) && CarriedCursors(assets)[id] == assets[k].cursor
  {
    if k < |assets| - 1 {
      CarriesTheLast(assets[..|assets| - 1], k, id);
      assert assets[|assets| - 1].asset.id != id;
    }
  }

  lemma {:induction false} CarriesOnlyHeld(assets: seq<AssetTail>, id: nat) returns (k: nat)
    requires id in CarriedCursors(assets)
    ensures k < |assets| && LastOfItsId(assets, k, id)
  {
    if assets[|assets| - 1].asset.id == id {
      k := |assets| - 1;
    } else {
      k := CarriesOnlyHeld(assets[..|assets| - 1], id);
    }
  }

  /** The walk of a refreshed row goes on from the cursor its id had, if it is the first row of that id and the cursor is of
      the row's kind; any other row starts at its head. */
  ghost predicate KeptUp(was: seq<AssetTail>, roster: seq<RankedAsset>, i: nat, now: AssetTail)
    requires i < |roster|
  {
    now.asset == roster[i] && !now.exhausted && now.delivered == 0 &&
    (forall k :: 0 <= k < |was| && LastOfItsId(was, k, roster[i].id) &&
                 (forall j :: 0 <= j < i ==> roster[j].id != roster[i].id) && OfKind(was[k].cursor, roster[i].standard)
       ==> now.cursor == was[k].cursor) &&
    ((forall k :: 0 <= k < |was| ==>
        !(LastOfItsId(was, k, roster[i].id) && (forall j :: 0 <= j < i ==> roster[j].id != roster[i].id) &&
          OfKind(was[k].cursor, roster[i].standard)))
     ==> AtHead(now.cursor, roster[i].standard))
  }

  /** Tokens are paged by contract, spores and mNFTs item by item, identities by family. */
  ghost predicate OfKind(cursor: AssetCursor, standard: AssetStandard) {
    (standard.Token? ==> cursor.ContractCursor?) &&
    (standard.Spore? || standard.MNft? ==> cursor.CollectionCursor?) &&
    (standard.Identity? ==> cursor.FamilyCursor?)
  }

  ghost predicate AtHead(cursor: AssetCursor, standard: AssetStandard) {
    OfKind(cursor, standard) && cursor.cursor == None &&
    (cursor.CollectionCursor? ==> cursor.settled == None && cursor.pending == [] && !cursor.listedOut)
  }

  lemma {:induction false} TakenKeepsUp(was: seq<AssetTail>, roster: seq<RankedAsset>, i: nat)
    requires i < |roster|
    ensures KeptUp(was, roster, i, Taken(roster, CarriedCursors(was), i))
  {
    hide CarriedCursors, LastOfItsId;
    var id := roster[i].id;
    forall k | 0 <= k < |was| && LastOfItsId(was, k, id)
      ensures id in CarriedCursors(was) && CarriedCursors(was)[id] == was[k].cursor
    {
      CarriesTheLast(was, k, id);
    }
    if id in CarriedCursors(was) {
      var k := CarriesOnlyHeld(was, id);
    }
  }

  method TakeRoster(roster: seq<RankedAsset>, carried: map<nat, AssetCursor>) returns (assets: seq<AssetTail>)
    ensures |assets| == |roster| && forall i :: 0 <= i < |roster| ==> assets[i] == Taken(roster, carried, i)
  {
    var remaining := carried;
    assets := [];
    for i := 0 to |roster|
      invariant |assets| == i && forall k :: 0 <= k < i ==> assets[k] == Taken(roster, carried, k)
      invariant forall id :: id in remaining <==> id in carried && forall j :: 0 <= j < i ==> roster[j].id != id
      invariant forall id :: id in remaining ==> remaining[id] == carried[id]
    {
      var asset := roster[i];
      assert asset.id in remaining <==> asset.id in carried && FirstOfItsId(roster, i);
      var cursor := if asset.id in remaining && remaining[asset.id].Addresses(asset.standard)
                    then remaining[asset.id] else CursorFor(asset.standard);
      remaining := map id | id in remaining && id != asset.id :: remaining[id];
      assets := assets + [AssetTail(asset, cursor, false, 0)];
    }
  }

  lemma {:induction false} NothingDeliveredYet(assets: seq<AssetTail>)
    requires forall i :: 0 <= i < |assets| ==> assets[i].delivered == 0
    ensures Delivered(assets) == 0
  {
    if assets != [] {
      NothingDeliveredYet(assets[..|assets| - 1]);
    }
  }

  /** Re-take the ranking: counts start over, and each surviving id keeps its cursor if that still addresses it. */
  method RefreshRoster(client: IndexClient, tail: CandidateTail) returns (r: Result<()>)
    modifies client, tail`assets, tail`rosterStale
    ensures r.Ok? <==> client.script.roster(old(client.calls)).Ok?
    ensures r.Err? ==> tail.assets == old(tail.assets) && tail.rosterStale == old(tail.rosterStale)
    ensures r.Ok? ==>
              var roster := client.script.roster(old(client.calls));
              roster.Ok? && |tail.assets| == |roster.value| && !tail.rosterStale &&
              AllAddress(tail.assets) && Delivered(tail.assets) == 0 &&
              forall i :: 0 <= i < |roster.value| ==> KeptUp(old(tail.assets), roster.value, i, tail.assets[i])
  {
    ghost var was := tail.assets;
    var reply := client.RankedAssets();
    if reply.Err? {
      return Err(reply.fault);
    }
    tail.assets := TakeRoster(reply.value, CarriedCursors(tail.assets));
    NothingDeliveredYet(tail.assets);
    forall i | 0 <= i < |reply.value| ensures KeptUp(was, reply.value, i, tail.assets[i]) {
      TakenKeepsUp(was, reply.value, i);
    }
    hide KeptUp;
    tail.rosterStale := false;
    r := Ok(());
  }

  function Weights(assets: seq<AssetTail>): (weights: seq<u64>)
    ensures |weights| == |assets| && forall i :: 0 <= i < |assets| ==> weights[i] == assets[i].asset.ownedCapacity
  {
    if assets == [] then [] else Weights(assets[..|assets| - 1]) + [assets[|assets| - 1].asset.ownedCapacity]
  }

  /** Every asset back to its head, counts and settled versions kept. */
  function Rewound(assets: seq<AssetTail>): (rewound: seq<AssetTail>)
    ensures |rewound| == |assets| && forall i :: 0 <= i < |assets| ==> rewound[i] == assets[i].Rewind()
    ensures Delivered(rewound) == Delivered(assets)
  {
    if assets == [] then [] else
    var front := Rewound(assets[..|assets| - 1]);
    var all := front + [assets[|assets| - 1].Rewind()];
    assert all[..|front|] == front;
    all
  }

  /** Counts only grow, and an exhausted asset is not touched. */
  ghost predicate Served(was: seq<AssetTail>, now: seq<AssetTail>) {
    |was| == |now| && forall i :: 0 <= i < |was| ==>
      now[i].asset == was[i].asset && now[i].delivered >= was[i].delivered && (was[i].exhausted ==> now[i] == was[i])
  }

  /** What a pass is there to bring an asset to. */
  ghost predicate IsServed(t: AssetTail, share: Option<nat>) {
    t.exhausted || (share.Some? && t.delivered >= share.value)
  }

  /** A higher rank first: whatever a pass touched, everything ranked above it is served. */
  ghost predicate InRankOrder(was: seq<AssetTail>, now: seq<AssetTail>, shares: Option<seq<nat>>)
    requires |was| == |now| && (shares.Some? ==> |shares.value| == |now|)
  {
    forall i, j :: 0 <= i < j < |now| && now[j] != was[j]
      ==> IsServed(now[i], if shares.Some? then Some(shares.value[i]) else None)
  }

  lemma {:induction false} StoppedInOrder(was: seq<AssetTail>, now: seq<AssetTail>, shares: Option<seq<nat>>, stop: nat)
    requires |was| == |now| && (shares.Some? ==> |shares.value| == |now|)
    requires forall i :: 0 <= i < stop && i < |now| ==>
               now[i].exhausted || (shares.Some? && now[i].delivered >= shares.value[i])
    requires forall j :: stop < j < |now| ==> now[j] == was[j]
    ensures InRankOrder(was, now, shares)
  {
  }

  /** One asset's turn in a pass: up to its deficit, or up to the rest of the ask. */
  method ServeAsset(client: IndexClient, tail: CandidateTail, index: nat, families: Families, share: Option<nat>, want: nat,
                    maxBirth: u64, budget: TurnBudget, foundIn: seq<Candidate>, ghost before: set<OutPoint>, ghost base: nat,
                    ghost world: World)
    returns (r: Result<()>, found: seq<Candidate>)
    requires index < |tail.assets| && |foundIn| <= want && budget.Valid()
    requires Turning(tail, before, base, foundIn, maxBirth)
    modifies client, tail`emitted, tail`assets, budget
    ensures Turning(tail, before, base, found, maxBirth) && OnlyAt(old(tail.assets), tail.assets, index)
    ensures foundIn <= found && |found| <= want && budget.Valid() && budget.spent >= old(budget.spent)
    ensures old(tail.assets)[index].exhausted ==> tail.assets[index] == old(tail.assets)[index]
    ensures r.Ok? ==> |found| == want || budget.IsSpent() || tail.assets[index].exhausted ||
                      (share.Some? && tail.assets[index].delivered >= share.value)
    ensures share.Some? ==> tail.assets[index].delivered <= Max(share.value, old(tail.assets)[index].delivered)
    ensures Unchanging(client.script, world) && world.families == families
            ==> r.Ok? && Walks(world, maxBirth, old(StandOf(tail)), StandOf(tail), budget.spent > old(budget.spent))
  {
    hide Offered, AllAddress, Unchanging, Walks;
    NotWalkedYet(world, maxBirth, StandOf(tail));
    r, found := Ok(()), foundIn;
    if tail.assets[index].exhausted {
      return;
    }
    var take := Min(if share.Some? then Max(share.value - tail.assets[index].delivered, 0) else want, want - |found|);
    if take == 0 {
      return;
    }
    ghost var was := tail.assets;
    r, found := StepAsset(client, tail, index, families, |found| + take, maxBirth, budget, found, before, base, world);
    DeliveredOnlyAt(was, tail.assets, index);
  }

  /** One pass over the ranking, serving each asset up to its deficit, or up to the rest of the ask. */
  method ServePass(client: IndexClient, tail: CandidateTail, families: Families, shares: Option<seq<nat>>, want: nat,
                   maxBirth: u64, budget: TurnBudget, foundIn: seq<Candidate>, ghost before: set<OutPoint>, ghost base: nat,
                   ghost world: World)
    returns (r: Result<()>, found: seq<Candidate>)
    requires |foundIn| <= want && budget.Valid() && (shares.Some? ==> |shares.value| == |tail.assets|)
    requires Turning(tail, before, base, foundIn, maxBirth)
    modifies client, tail`emitted, tail`assets, budget
    ensures Turning(tail, before, base, found, maxBirth) && Served(old(tail.assets), tail.assets)
    ensures foundIn <= found && |found| <= want && budget.Valid()
    ensures r.Ok? ==>
              |found| == want || budget.IsSpent() ||
              forall i :: 0 <= i < |tail.assets| ==>
                tail.assets[i].exhausted || (shares.Some? && tail.assets[i].delivered >= shares.value[i])
    ensures InRankOrder(old(tail.assets), tail.assets, shares)
    ensures shares.Some? ==> forall i :: 0 <= i < |tail.assets| ==>
              tail.assets[i].delivered <= Max(shares.value[i], old(tail.assets)[i].delivered)
    ensures Unchanging(client.script, world) && world.families == families
            ==> r.Ok? && Walks(world, maxBirth, old(StandOf(tail)), StandOf(tail), budget.spent > old(budget.spent))
  {
    hide Turning, Offered, AllAddress, Unchanging, Walks, Delivered, InRankOrder;
    ghost var steady, stand := Unchanging(client.script, world) && world.families == families, StandOf(tail);
    NotWalkedYet(world, maxBirth, stand);
    found := foundIn;
    ghost var stop := 0;
    for index := 0 to |tail.assets|
      invariant Turning(tail, before, base, found, maxBirth) && Served(old(tail.assets), tail.assets)
      invariant foundIn <= found && |found| <= want && budget.Valid()
      invariant stop <= index && (|found| == want || budget.IsSpent() || stop == index)
      invariant forall j :: index <= j < |tail.assets| || stop < j < |tail.assets| ==> tail.assets[j] == old(tail.assets)[j]
      invariant forall i :: 0 <= i < stop ==>
                  tail.assets[i].exhausted || (shares.Some? && tail.assets[i].delivered >= shares.value[i])
      invariant shares.Some? ==> forall i :: 0 <= i < |tail.assets| ==>
                  tail.assets[i].delivered <= Max(shares.value[i], old(tail.assets)[i].delivered)
      invariant steady ==> Walks(world, maxBirth, stand, StandOf(tail), budget.spent > old(budget.spent))
    {
      if |found| >= want || budget.IsSpent() {
        break;
      }
      ghost var middle, spent := StandOf(tail), budget.spent;
      var share := if shares.Some? then Some(shares.value[index]) else None;
      r, found := ServeAsset(client, tail, index, families, share, want, maxBirth, budget, found, before, base, world);
      if steady {
        WalkingWalks(world, maxBirth, stand, middle, StandOf(tail), spent > old(budget.spent), budget.spent > spent);
        assert budget.spent > old(budget.spent) ==> spent > old(budget.spent) || budget.spent > spent;
        WalkedAtLeast(world, maxBirth, stand, StandOf(tail), spent > old(budget.spent) || budget.spent > spent);
      }
      if r.Err? {
        StoppedInOrder(old(tail.assets), tail.assets, shares, stop);
        return;
      }
      if |found| < want && !budget.IsSpent() {
        stop := index + 1;
      }
    }
    StoppedInOrder(old(tail.assets), tail.assets, shares, stop);
    r := Ok(());
  }

  lemma {:induction false} DeliveredOnlyAt(was: seq<AssetTail>, now: seq<AssetTail>, index: nat)
    requires OnlyAt(was, now, index) && index < |was|
    ensures Delivered(now) == Delivered(was) - was[index].delivered + now[index].delivered
  {
    DeliveredUpdate(was, index, now[index]);
    assert now == was[index := now[index]];
  }
}

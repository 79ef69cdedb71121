/** The DAO half of a top-up: a cursor that walks deposits turn by turn, wraps, and leaves nothing behind. */
module DaoTail {
  import opened Basics
  import opened Chain
  import opened Index
  import opened Tail

  // ----- a static index -----

  /** From call `since` on, the deposit pages are cut from one list of valid rows. */
  ghost predicate Static(script: IndexScript, since: nat, rows: seq<Row>) {
    (forall t: nat, c: Option<Cursor> :: since <= t ==> script.page(t, Deposits, c) == Ok(PageAt(rows, Position(c)))) &&
    forall i :: 0 <= i < |rows| ==> rows[i].fields.Some?
  }

  /** Row `i` is a deposit old enough that nobody has been handed yet. */
  predicate Owed(rows: seq<Row>, emitted: set<OutPoint>, maxBirth: u64, i: nat)
    requires i < |rows|
  {
    rows[i].matches && rows[i].fields.Some? && rows[i].fields.value.birthBlock <= maxBirth &&
    rows[i].fields.value.outPoint !in emitted
  }

  predicate NothingOwed(rows: seq<Row>, emitted: set<OutPoint>, maxBirth: u64, from: nat, to: nat) {
    forall i :: from <= i < to && i < |rows| ==> !Owed(rows, emitted, maxBirth, i)
  }

  ghost function OwedSet(rows: seq<Row>, emitted: set<OutPoint>, maxBirth: u64): set<OutPoint> {
    set i | 0 <= i < |rows| && Owed(rows, emitted, maxBirth, i) :: rows[i].fields.value.outPoint
  }

  ghost predicate FromRows(rows: seq<Row>, maxBirth: u64, c: Candidate) {
    c.birthBlock <= maxBirth && exists i :: 0 <= i < |rows| && rows[i].matches && rows[i].fields == Some(c)
  }

  /** How far the walk is from the next owed row: a cursor with one ahead of it counts rows down to the end,
      one with all of them behind it must first reach the end and rewind. */
  ghost function Distance(rows: seq<Row>, emitted: set<OutPoint>, maxBirth: u64, cursor: Option<Cursor>, exhausted: bool): nat {
    var p := Position(cursor);
    if exhausted then |rows| + 1
    else if NothingOwed(rows, emitted, maxBirth, p, |rows|) then |rows| + 2 + Max(|rows| - p, 0)
    else Max(|rows| - p, 0)
  }

  // ----- a turn -----

  /** One page: skip what is not deposited or too young, stop at the ask, claim what is new. */
  method TakeDeposits(tail: CandidateTail, rows: seq<Row>, want: nat, maxBirth: u64, foundIn: seq<Candidate>,
                      ghost before: set<OutPoint>)
    returns (r: Result<()>, found: seq<Candidate>)
    requires Offered(before, tail.emitted, foundIn, maxBirth) && |foundIn| <= want
    modifies tail`emitted
    ensures Offered(before, tail.emitted, found, maxBirth) && foundIn <= found && |found| <= want
    ensures r.Ok? && |found| < want ==>
              forall i :: 0 <= i < |rows| && rows[i].matches ==>
                rows[i].fields.Some? && !Owed(rows, tail.emitted, maxBirth, i)
    ensures (forall i :: 0 <= i < |rows| ==> rows[i].fields.Some?) ==> r.Ok?
    ensures forall k :: |foundIn| <= k < |found| ==> FromRows(rows, maxBirth, found[k])
  {
    found := foundIn;
    for i := 0 to |rows|
      invariant Offered(before, tail.emitted, found, maxBirth) && foundIn <= found && |found| <= want
      invariant forall k :: |foundIn| <= k < |found| ==> FromRows(rows, maxBirth, found[k])
      invariant forall j :: 0 <= j < i && rows[j].matches ==>
                  rows[j].fields.Some? && !Owed(rows, tail.emitted, maxBirth, j)
    {
      if !rows[i].matches {
        continue;
      }
      if rows[i].fields.None? {
        return Err(Malformed), found;
      }
      var candidate := rows[i].fields.value;
      if candidate.birthBlock > maxBirth {
        continue;
      }
      if |found| >= want {
        return Ok(()), found;
      }
      if candidate.outPoint !in tail.emitted {
        OfferOneMore(before, tail.emitted, found, maxBirth, candidate);
        tail.emitted := tail.emitted + {candidate.outPoint};
        found := found + [candidate];
      }
    }
    r := Ok(());
  }

  /** One turn of the DAO tail. On a static index a turn that finds nothing has skipped nothing: it moved
      on over rows that are all claimed, or rewound. */
  method WalkDaoTail(client: IndexClient, tail: CandidateTail, want: nat, maxBirth: u64, ghost rows: seq<Row>)
    returns (r: Result<()>, found: seq<Candidate>)
    modifies client, tail`daoCursor, tail`daoExhausted, tail`emitted
    ensures client.calls >= old(client.calls)
    ensures Offered(old(tail.emitted), tail.emitted, found, maxBirth) && |found| <= want
    ensures if old(tail.daoExhausted) && want > 0
            then r == Ok(()) && client.calls == old(client.calls) && !tail.daoExhausted && tail.daoCursor == None && found == []
            else client.calls <= old(client.calls) + 8
    ensures r.Ok? && |found| < want && !old(tail.daoExhausted) ==> tail.daoExhausted || client.calls == old(client.calls) + 8
    ensures Static(client.script, old(client.calls), rows) ==> r.Ok?
    ensures Static(client.script, old(client.calls), rows) && |found| < want && !old(tail.daoExhausted)
            ==> tail.daoExhausted || Position(tail.daoCursor) == Position(old(tail.daoCursor)) + 800
    ensures Static(client.script, old(client.calls), rows) && want >= 1 && found == [] ==>
              if old(tail.daoExhausted) then !tail.daoExhausted && tail.daoCursor == None
              else NothingOwed(rows, tail.emitted, maxBirth, Position(old(tail.daoCursor)),
                               if tail.daoExhausted then |rows| else Position(tail.daoCursor)) &&
                   (tail.daoExhausted || Position(old(tail.daoCursor)) < Position(tail.daoCursor) < |rows|)
    ensures Static(client.script, old(client.calls), rows) ==>
              forall k :: 0 <= k < |found| ==> FromRows(rows, maxBirth, found[k])
  {
    ghost var before := tail.emitted;
    ghost var start := Position(tail.daoCursor);
    ghost var steady := Static(client.script, client.calls, rows);
    found := [];
    var turn := 0;
    while turn < MAX_PAGES_PER_TOP_UP
      invariant 0 <= turn <= MAX_PAGES_PER_TOP_UP && client.calls == old(client.calls) + turn
      invariant Offered(before, tail.emitted, found, maxBirth) && |found| <= want
      invariant turn == 0 ==> found == [] && tail.daoExhausted == old(tail.daoExhausted) && tail.daoCursor == old(tail.daoCursor)
      invariant turn > 0 ==> !tail.daoExhausted && !old(tail.daoExhausted)
      invariant steady ==> Position(tail.daoCursor) == start + 100 * turn
      invariant steady && want >= 1 && found == [] && turn > 0 ==>
                  NothingOwed(rows, tail.emitted, maxBirth, start, Position(tail.daoCursor)) &&
                  start < Position(tail.daoCursor) < |rows|
      invariant steady ==> forall k :: 0 <= k < |found| ==> FromRows(rows, maxBirth, found[k])
    {
      if |found| >= want {
        break;
      }
      if tail.daoExhausted {
        tail.daoExhausted := false;
        tail.daoCursor := None;
        break;
      }
      ghost var p := Position(tail.daoCursor);
      var page := client.FetchPage(Deposits, tail.daoCursor);
      if page.Err? {
        return Err(page.fault), found;
      }
      if steady {
        PageIsValid(client.script, old(client.calls), rows, p);
        assert page.value == PageAt(rows, p);
      }
      ghost var earlier := found;
      var taken;
      taken, found := TakeDeposits(tail, page.value.rows, want, maxBirth, found, before);
      if steady {
        FromPage(rows, maxBirth, p, earlier, found);
      }
      if taken.Err? {
        return taken, found;
      }
      if steady && found == [] && want >= 1 {
        PassedPage(rows, tail.emitted, maxBirth, start, p);
      }
      if page.value.hasMore {
        var next := NextCursor(page.value.nextCursor);
        if next.Err? {
          return Err(next.fault), found;
        }
        tail.daoCursor := Some(next.value);
      } else {
        tail.daoExhausted := true;
        break;
      }
      turn := turn + 1;
    }
    r := Ok(());
  }

  lemma {:induction false} PassedPage(rows: seq<Row>, emitted: set<OutPoint>, maxBirth: u64, start: nat, p: nat)
    requires start <= p && NothingOwed(rows, emitted, maxBirth, start, p)
    requires var page := PageAt(rows, p).rows;
             forall i :: 0 <= i < |page| ==> !Owed(page, emitted, maxBirth, i)
    ensures NothingOwed(rows, emitted, maxBirth, start, p + PAGE_LIMIT)
  {
    var page := PageAt(rows, p).rows;
    forall i | start <= i < p + PAGE_LIMIT && i < |rows| ensures !Owed(rows, emitted, maxBirth, i) {
      if i >= p {
        assert page[i - p] == rows[i];
        assert !Owed(page, emitted, maxBirth, i - p);
      }
    }
  }

  /** Every row of a static page validates. */
  lemma {:induction false} PageIsValid(script: IndexScript, since: nat, rows: seq<Row>, p: nat)
    requires Static(script, since, rows)
    ensures forall i :: 0 <= i < |PageAt(rows, p).rows| ==> PageAt(rows, p).rows[i].fields.Some?
  {
    var page := PageAt(rows, p).rows;
    forall i | 0 <= i < |page| ensures page[i].fields.Some? {
      assert page[i] == rows[p + i];
    }
  }

  lemma {:induction false} FromPage(rows: seq<Row>, maxBirth: u64, p: nat, earlier: seq<Candidate>, found: seq<Candidate>)
    requires earlier <= found && forall k :: 0 <= k < |earlier| ==> FromRows(rows, maxBirth, earlier[k])
    requires forall k :: |earlier| <= k < |found| ==> FromRows(PageAt(rows, p).rows, maxBirth, found[k])
    ensures forall k :: 0 <= k < |found| ==> FromRows(rows, maxBirth, found[k])
  {
    forall k | 0 <= k < |found| ensures FromRows(rows, maxBirth, found[k]) {
      if k >= |earlier| {
        var page := PageAt(rows, p).rows;
        var i :| 0 <= i < |page| && page[i].matches && page[i].fields == Some(found[k]);
        assert rows[p + i] == page[i];
      }
    }
  }

  // ----- liveness -----

  lemma {:induction false} OwedSetMembers(rows: seq<Row>, emitted: set<OutPoint>, maxBirth: u64)
    ensures OwedSet(rows, emitted, maxBirth) == {} <==> NothingOwed(rows, emitted, maxBirth, 0, |rows|)
  {
    if i :| 0 <= i < |rows| && Owed(rows, emitted, maxBirth, i) {
      assert rows[i].fields.value.outPoint in OwedSet(rows, emitted, maxBirth);
    }
  }

  /** A turn that finds nothing while something is owed brings the cursor closer to it. */
  lemma {:induction false} EmptyTurnShortens(rows: seq<Row>, emitted: set<OutPoint>, maxBirth: u64, cursor: Option<Cursor>,
                                             exhausted: bool, cursor': Option<Cursor>, exhausted': bool)
    requires OwedSet(rows, emitted, maxBirth) != {}
    requires if exhausted then !exhausted' && cursor' == None
             else NothingOwed(rows, emitted, maxBirth, Position(cursor), if exhausted' then |rows| else Position(cursor')) &&
                  (exhausted' || Position(cursor) < Position(cursor') < |rows|)
    ensures Distance(rows, emitted, maxBirth, cursor', exhausted') < Distance(rows, emitted, maxBirth, cursor, exhausted)
  {
    OwedSetMembers(rows, emitted, maxBirth);
    var i :| 0 <= i < |rows| && Owed(rows, emitted, maxBirth, i);
    if !exhausted && !exhausted' {
      var p, p' := Position(cursor), Position(cursor');
      assert NothingOwed(rows, emitted, maxBirth, p, |rows|) <==> NothingOwed(rows, emitted, maxBirth, p', |rows|) by {
        forall j | p <= j < |rows| && NothingOwed(rows, emitted, maxBirth, p', |rows|) ensures !Owed(rows, emitted, maxBirth, j) {
          if j < p' {
            assert !Owed(rows, emitted, maxBirth, j);
          }
        }
      }
    }
  }

  /** A turn that finds something owes strictly less, and only what it handed out. */
  lemma {:induction false} FindingPaysOff(rows: seq<Row>, emitted: set<OutPoint>, maxBirth: u64, found: seq<Candidate>)
    requires OutPoints(found) !! emitted && forall k :: 0 <= k < |found| ==> FromRows(rows, maxBirth, found[k])
    ensures OwedSet(rows, emitted + OutPoints(found), maxBirth) == OwedSet(rows, emitted, maxBirth) - OutPoints(found)
    ensures OutPoints(found) <= OwedSet(rows, emitted, maxBirth)
    ensures found != [] ==> OwedSet(rows, emitted + OutPoints(found), maxBirth) < OwedSet(rows, emitted, maxBirth)
  {
    var after := emitted + OutPoints(found);
    forall op | op in OutPoints(found) ensures op in OwedSet(rows, emitted, maxBirth) {
      var c :| c in found && c.outPoint == op;
      var k :| 0 <= k < |found| && found[k] == c;
      assert FromRows(rows, maxBirth, found[k]);
      var i :| 0 <= i < |rows| && rows[i].matches && rows[i].fields == Some(c);
      assert Owed(rows, emitted, maxBirth, i);
    }
    forall op ensures op in OwedSet(rows, after, maxBirth) <==> op in OwedSet(rows, emitted, maxBirth) && op !in OutPoints(found) {
      if op in OwedSet(rows, after, maxBirth) {
        var i :| 0 <= i < |rows| && Owed(rows, after, maxBirth, i) && rows[i].fields.value.outPoint == op;
        assert Owed(rows, emitted, maxBirth, i);
      }
      if op in OwedSet(rows, emitted, maxBirth) && op !in OutPoints(found) {
        var i :| 0 <= i < |rows| && Owed(rows, emitted, maxBirth, i) && rows[i].fields.value.outPoint == op;
        assert Owed(rows, after, maxBirth, i);
      }
    }
    if found != [] {
      assert found[0] in found;
      assert found[0].outPoint in OutPoints(found);
    }
  }

  /** Turn after turn on a static index: finitely many of them hand out every deposit that was not handed
      out before, each exactly once, and nothing else. */
  method DrainDeposits(client: IndexClient, tail: CandidateTail, want: nat, maxBirth: u64, rows: seq<Row>)
    returns (delivered: seq<Candidate>)
    requires want >= 1 && Static(client.script, client.calls, rows)
    modifies client, tail`daoCursor, tail`daoExhausted, tail`emitted
    ensures NoRepeat(delivered) && OutPoints(delivered) == OwedSet(rows, old(tail.emitted), maxBirth)
    ensures tail.emitted == old(tail.emitted) + OutPoints(delivered)
    ensures forall i :: 0 <= i < |rows| && rows[i].matches && rows[i].fields.value.birthBlock <= maxBirth
              ==> rows[i].fields.value.outPoint in tail.emitted
  {
    hide Offered, OwedSet, NothingOwed, Distance, NoRepeat, FromRows, OutPoints, Static;
    ghost var start := tail.emitted;
    delivered := [];
    assert OutPoints([]) == {} && NoRepeat([]) by { NothingDelivered(); }
    OwedSetMembers(rows, tail.emitted, maxBirth);
    while !NothingOwed(rows, tail.emitted, maxBirth, 0, |rows|)
      invariant client.calls >= old(client.calls) && Static(client.script, client.calls, rows)
      invariant NothingOwed(rows, tail.emitted, maxBirth, 0, |rows|) <==> OwedSet(rows, tail.emitted, maxBirth) == {}
      invariant tail.emitted == start + OutPoints(delivered) && OutPoints(delivered) !! start && NoRepeat(delivered)
      invariant OwedSet(rows, tail.emitted, maxBirth) == OwedSet(rows, start, maxBirth) - OutPoints(delivered)
      invariant OutPoints(delivered) <= OwedSet(rows, start, maxBirth)
      decreases OwedSet(rows, tail.emitted, maxBirth), Distance(rows, tail.emitted, maxBirth, tail.daoCursor, tail.daoExhausted)
    {
      var r, found := DrainTurn(client, tail, want, maxBirth, rows);
      OutPointsConcat(delivered, found);
      delivered := delivered + found;
      OwedSetMembers(rows, tail.emitted, maxBirth);
    }
    NothingOwedIsClaimed(rows, tail.emitted, maxBirth);
    StaticIsValid(client.script, client.calls, rows);
  }

  lemma {:induction false} NothingOwedIsClaimed(rows: seq<Row>, emitted: set<OutPoint>, maxBirth: u64)
    requires NothingOwed(rows, emitted, maxBirth, 0, |rows|)
    ensures forall i :: 0 <= i < |rows| && rows[i].matches && rows[i].fields.Some? && rows[i].fields.value.birthBlock <= maxBirth
              ==> rows[i].fields.value.outPoint in emitted
  {
    forall i | 0 <= i < |rows| && rows[i].matches && rows[i].fields.Some? && rows[i].fields.value.birthBlock <= maxBirth
      ensures rows[i].fields.value.outPoint in emitted
    {
      assert !Owed(rows, emitted, maxBirth, i);
    }
  }

  lemma {:induction false} StaticIsValid(script: IndexScript, since: nat, rows: seq<Row>)
    requires Static(script, since, rows)
    ensures forall i :: 0 <= i < |rows| ==> rows[i].fields.Some?
  {
  }

  lemma {:induction false} NothingDelivered()
    ensures OutPoints([]) == {} && NoRepeat([])
  {
  }

  /** One turn while something is owed: a strictly smaller debt, or the same debt from closer by. */
  method DrainTurn(client: IndexClient, tail: CandidateTail, want: nat, maxBirth: u64, ghost rows: seq<Row>)
    returns (r: Result<()>, found: seq<Candidate>)
    requires want >= 1 && Static(client.script, client.calls, rows) && OwedSet(rows, tail.emitted, maxBirth) != {}
    modifies client, tail`daoCursor, tail`daoExhausted, tail`emitted
    ensures client.calls >= old(client.calls) && Static(client.script, client.calls, rows)
    ensures NoRepeat(found) && OutPoints(found) !! old(tail.emitted) && tail.emitted == old(tail.emitted) + OutPoints(found)
    ensures OwedSet(rows, tail.emitted, maxBirth) == OwedSet(rows, old(tail.emitted), maxBirth) - OutPoints(found)
    ensures OutPoints(found) <= OwedSet(rows, old(tail.emitted), maxBirth)
    ensures OwedSet(rows, tail.emitted, maxBirth) < OwedSet(rows, old(tail.emitted), maxBirth) ||
            (OwedSet(rows, tail.emitted, maxBirth) == OwedSet(rows, old(tail.emitted), maxBirth) &&
             Distance(rows, tail.emitted, maxBirth, tail.daoCursor, tail.daoExhausted) <
             Distance(rows, old(tail.emitted), maxBirth, old(tail.daoCursor), old(tail.daoExhausted)))
  {
    hide OwedSet, NothingOwed, Distance, FromRows, OutPoints;
    ghost var emitted, cursor, exhausted := tail.emitted, tail.daoCursor, tail.daoExhausted;
    r, found := WalkDaoTail(client, tail, want, maxBirth, rows);
    FindingPaysOff(rows, emitted, maxBirth, found);
    if found == [] {
      NothingDelivered();
      assert tail.emitted == emitted;
      EmptyTurnShortens(rows, emitted, maxBirth, cursor, exhausted, tail.daoCursor, tail.daoExhausted);
    }
  }
}

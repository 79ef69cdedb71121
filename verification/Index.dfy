/** The ckbadger index as the composition sees it, and the candidates it names. */
module Index {
  import opened Basics
  import opened Chain

  const PAGE_LIMIT := 100

  /** An opaque paging token. */
  type Cursor = nat

  datatype Candidate = Candidate(outPoint: OutPoint, capacity: u64, birthBlock: u64)

  /** One row of a page. `matches` is the row's own filter (deposited status, script hash, matched script kind);
      `fields` is `None` when a field of the row does not validate. */
  datatype Row = Row(matches: bool, fields: Option<Candidate>)

  datatype Page<T> = Page(rows: seq<T>, hasMore: bool, nextCursor: Option<Cursor>)

  function Position(cursor: Option<Cursor>): nat {
    if cursor.Some? then cursor.value else 0
  }

  /** The page of an unchanging list that starts at a position; positions stand for cursors. */
  function PageAt<T>(rows: seq<T>, p: nat): Page<T> {
    Page(if p >= |rows| then [] else rows[p..Min(p + 100, |rows|)], p + 100 < |rows|, Some(p + 100))
  }

  datatype IdentityStandard = DotBit | BitCell | DidCkb | DotCell

  datatype AssetStandard = Token | Spore | MNft | Identity(family: IdentityStandard)

  datatype RankedAsset = RankedAsset(id: nat, standard: AssetStandard, ownedCapacity: u64)

  /** What a paged request addresses. */
  datatype Source = Deposits | Contract(id: nat) | Family(script: nat)

  /** A collection item's script arguments; `isHex` is whether they decode at all. */
  datatype Item = Item(isHex: bool, args: nat)

  /** A deployed script version, by its position in the pinned tables. */
  type Version = nat

  const SPORE_VERSIONS: seq<Version> := [0, 1, 2, 3, 4, 5, 6, 7]
  const MNFT_VERSIONS: seq<Version> := [8]

  /** What the index answers at each call. Any functions are allowed. */
  datatype IndexScript = IndexScript(
    page: (nat, Source, Option<Cursor>) -> Result<Page<Row>>,
    items: (nat, nat, Option<Cursor>) -> Result<Page<Option<Item>>>,
    lookup: (nat, Item, Version) -> Result<Option<Candidate>>,
    roster: nat -> Result<seq<RankedAsset>>)

  class IndexClient {
    const script: IndexScript
    var calls: nat

    constructor (script: IndexScript)
      ensures this.script == script && calls == 0
    {
      this.script := script;
      calls := 0;
    }

    /** A page that exceeds the requested limit is an error, not a page. */
    method FetchPage(source: Source, cursor: Option<Cursor>) returns (r: Result<Page<Row>>)
      modifies this
      ensures calls == old(calls) + 1
      ensures var reply := script.page(old(calls), source, cursor);
              r == if reply.Ok? && |reply.value.rows| > 100 then Err(Malformed) else reply
    {
      r := script.page(calls, source, cursor);
      calls := calls + 1;
      if r.Ok? && |r.value.rows| > PAGE_LIMIT {
        r := Err(Malformed);
      }
    }

    method FetchItems(collection: nat, cursor: Option<Cursor>) returns (r: Result<Page<Option<Item>>>)
      modifies this
      ensures calls == old(calls) + 1
      ensures var reply := script.items(old(calls), collection, cursor);
              r == if reply.Ok? && |reply.value.rows| > 100 then Err(Malformed) else reply
    {
      r := script.items(calls, collection, cursor);
      calls := calls + 1;
      if r.Ok? && |r.value.rows| > PAGE_LIMIT {
        r := Err(Malformed);
      }
    }

    method ResolveItemCell(item: Item, version: Version) returns (r: Result<Option<Candidate>>)
      modifies this
      ensures calls == old(calls) + 1 && r == script.lookup(old(calls), item, version)
    {
      r := script.lookup(calls, item, version);
      calls := calls + 1;
    }

    method RankedAssets() returns (r: Result<seq<RankedAsset>>)
      modifies this
      ensures calls == old(calls) + 1 && r == script.roster(old(calls))
    {
      r := script.roster(calls);
      calls := calls + 1;
    }
  }

  /** A page that says there is more must say where. */
  function NextCursor(cursor: Option<Cursor>): Result<Cursor> {
    if cursor.Some? then Ok(cursor.value) else Err(Malformed)
  }

  function OutPoints(candidates: seq<Candidate>): set<OutPoint> {
    set c | c in candidates :: c.outPoint
  }

  ghost predicate NoRepeat(candidates: seq<Candidate>) {
    forall i, j :: 0 <= i < j < |candidates| ==> candidates[i].outPoint != candidates[j].outPoint
  }

  lemma {:induction false} OutPointsAppend(candidates: seq<Candidate>, c: Candidate)
    ensures OutPoints(candidates + [c]) == OutPoints(candidates) + {c.outPoint}
    ensures NoRepeat(candidates) && c.outPoint !in OutPoints(candidates) ==> NoRepeat(candidates + [c])
  {
    assert forall x :: x in candidates + [c] <==> x in candidates || x == c;
    forall i | 0 <= i < |candidates| ensures candidates[i].outPoint in OutPoints(candidates) {
      assert candidates[i] in candidates;
    }
  }

  lemma {:induction false} OutPointsConcat(a: seq<Candidate>, b: seq<Candidate>)
    ensures OutPoints(a + b) == OutPoints(a) + OutPoints(b)
    ensures NoRepeat(a) && NoRepeat(b) && OutPoints(a) !! OutPoints(b) ==> NoRepeat(a + b)
  {
    assert forall x :: x in a + b <==> x in a || x in b;
    if NoRepeat(a) && NoRepeat(b) && OutPoints(a) !! OutPoints(b) {
      forall i, j | 0 <= i < j < |a + b| ensures (a + b)[i].outPoint != (a + b)[j].outPoint {
        if i < |a| <= j {
          assert a[i] in a && b[j - |a|] in b;
          assert a[i].outPoint in OutPoints(a) && b[j - |a|].outPoint in OutPoints(b);
        }
      }
    }
  }
}

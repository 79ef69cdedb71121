/** The persistent tail of candidate discovery: budgeted turns that walk deeper, claim what they deliver, and wrap. */
module Tail {
  import opened Basics
  import opened Chain
  import opened Index
  import opened Apportion
  import opened Allocate

  const MAX_PAGES_PER_TOP_UP := 8

  datatype AssetCursor =
    | ContractCursor(cursor: Option<Cursor>)
    | CollectionCursor(cursor: Option<Cursor>, settled: Option<Version>, pending: seq<Item>, listedOut: bool)
    | FamilyCursor(cursor: Option<Cursor>)
  {
    predicate Addresses(standard: AssetStandard) {
      match standard
      case Token => ContractCursor?
      case Spore => CollectionCursor?
      case MNft => CollectionCursor?
      case Identity(_) => FamilyCursor?
    }
  }

  function CursorFor(standard: AssetStandard): (cursor: AssetCursor)
    ensures cursor.Addresses(standard)
  {
    match standard
    case Token => ContractCursor(None)
    case Spore => CollectionCursor(None, None, [], false)
    case MNft => CollectionCursor(None, None, [], false)
    case Identity(_) => FamilyCursor(None)
  }

  datatype AssetTail = AssetTail(asset: RankedAsset, cursor: AssetCursor, exhausted: bool, delivered: nat) {
    /** Back to the head, keeping what was delivered and, for a collection, its settled version. */
    function Rewind(): (t: AssetTail)
      ensures t.asset == asset && t.delivered == delivered && !t.exhausted
      ensures cursor.Addresses(asset.standard) ==> t.cursor.Addresses(asset.standard)
      ensures t.cursor.cursor == None
      ensures t.cursor.CollectionCursor? ==>
                t.cursor.pending == [] && !t.cursor.listedOut &&
                t.cursor.settled == if cursor.CollectionCursor? then cursor.settled else None
    {
      this.(exhausted := false,
            cursor := if cursor.CollectionCursor? then CollectionCursor(None, cursor.settled, [], false)
                      else CursorFor(asset.standard))
    }
  }

  function Delivered(assets: seq<AssetTail>): nat {
    if assets == [] then 0 else Delivered(assets[..|assets| - 1]) + assets[|assets| - 1].delivered
  }

  lemma {:induction false} DeliveredUpdate(assets: seq<AssetTail>, i: nat, t: AssetTail)
    requires i < |assets|
    ensures Delivered(assets[i := t]) == Delivered(assets) - assets[i].delivered + t.delivered
  {
    var last := |assets| - 1;
    if i == last {
      assert assets[i := t][..last] == assets[..last];
    } else {
      assert assets[i := t][..last] == assets[..last][i := t];
      DeliveredUpdate(assets[..last], i, t);
    }
  }

  ghost predicate AllAddress(assets: seq<AssetTail>) {
    forall i :: 0 <= i < |assets| ==> assets[i].cursor.Addresses(assets[i].asset.standard)
  }

  /** What one turn may ask for, in cells: a page counts for a hundred, a lookup for one. */
  class TurnBudget {
    var spent: nat
    const limit: nat
    ghost var pages: nat
    ghost var lookups: nat

    ghost predicate Valid()
      reads this
    {
      spent == 100 * pages + lookups && limit == 800 && spent < 900
    }

    constructor (pages: nat)
      requires pages == 8
      ensures Valid() && spent == 0
    {
      spent, limit := 0, pages * PAGE_LIMIT;
      this.pages, lookups := 0, 0;
    }

    predicate IsSpent()
      reads this
    {
      spent >= limit
    }

    method SpendPage()
      requires Valid() && !IsSpent()
      modifies this
      ensures Valid() && spent == old(spent) + 100 && pages == old(pages) + 1 && lookups == old(lookups)
    {
      spent := spent + PAGE_LIMIT;
      pages := pages + 1;
    }

    /** One lookup; several may follow one check of the budget, never as many as a page costs. */
    method SpendLookup()
      requires Valid() && spent + 1 < limit + PAGE_LIMIT
      modifies this
      ensures Valid() && spent == old(spent) + 1 && pages == old(pages) && lookups == old(lookups) + 1
    {
      spent := spent + 1;
      lookups := lookups + 1;
    }
  }

  class CandidateTail {
    var daoCursor: Option<Cursor>
    var daoExhausted: bool
    var assets: seq<AssetTail>
    var rosterStale: bool
    var emitted: set<OutPoint>

    constructor ()
      ensures daoCursor == None && !daoExhausted && assets == [] && !rosterStale && emitted == {}
    {
      daoCursor, daoExhausted, assets, rosterStale, emitted := None, false, [], false, {};
    }

    /** Remember what a full discovery handed out, and re-take the ranking on the next typed turn. */
    method NoteEmitted(outPoints: seq<OutPoint>)
      modifies this`emitted, this`rosterStale
      ensures emitted == old(emitted) + (set op | op in outPoints) && rosterStale
    {
      for i := 0 to |outPoints|
        invariant emitted == old(emitted) + (set op | op in outPoints[..i])
      {
        assert outPoints[..i + 1] == outPoints[..i] + [outPoints[i]];
        emitted := emitted + {outPoints[i]};
      }
      assert outPoints[..|outPoints|] == outPoints;
      rosterStale := true;
    }
  }

  /** Claim equals delivery: the claims grew by exactly what was found, which is new, free of repeats, and
      never born past the anchor. */
  ghost predicate Offered(before: set<OutPoint>, emitted: set<OutPoint>, found: seq<Candidate>, maxBirth: u64) {
    emitted == before + OutPoints(found) && OutPoints(found) !! before && NoRepeat(found) &&
    forall i :: 0 <= i < |found| ==> found[i].birthBlock <= maxBirth
  }

  lemma {:induction false} NothingOffered(claims: set<OutPoint>, maxBirth: u64)
    ensures Offered(claims, claims, [], maxBirth)
  {
  }

  lemma {:induction false} OfferOneMore(before: set<OutPoint>, emitted: set<OutPoint>, found: seq<Candidate>,
                                        maxBirth: u64, c: Candidate)
    requires Offered(before, emitted, found, maxBirth) && c.birthBlock <= maxBirth && c.outPoint !in emitted
    ensures Offered(before, emitted + {c.outPoint}, found + [c], maxBirth)
  {
    OutPointsAppend(found, c);
  }
}

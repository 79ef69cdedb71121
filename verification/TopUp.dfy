/** Whole top-ups: both classes of one turn, and runs of turns and discoveries. */
module TopUp {
  import opened Basics
  import opened Chain
  import opened Index
  import opened Apportion
  import opened Allocate
  import opened Tail
  import opened StaticTail
  import opened DaoTail
  import opened TypedTail

  /** What a typed turn did: the pages and lookups it completed, whether it walked at all, the delivered counts it
      started from and the shares it served, and whether it took a new roster first. */
  datatype Ledger = Ledger(pages: nat, lookups: nat, walked: bool, start: seq<nat>, shares: seq<nat>, refreshed: bool)

  function Counts(assets: seq<AssetTail>): (counts: seq<nat>)
    ensures |counts| == |assets| && forall i :: 0 <= i < |assets| ==> counts[i] == assets[i].delivered
  {
    seq(|assets|, i requires 0 <= i < |assets| => assets[i].delivered)
  }

  /** The shares split what the class would hold by the ranking's weights, higher ranks first. */
  ghost predicate SharesOf(assets: seq<AssetTail>, held: nat, shares: seq<nat>) {
    |shares| == |assets| &&
    (FullPool(Weights(assets), |assets|) > 0 ==> Sum(shares) == Min(held, U64_MAX)) &&
    AllRounded(Weights(assets), Min(held, U64_MAX), shares) &&
    forall i, j :: 0 <= i < |shares| && 0 <= j < |shares| && Outranks(Weights(assets), i, j) ==> shares[i] >= shares[j]
  }

  /** The shares the class would split into once this turn lands. */
  method TailShares(assets: seq<AssetTail>, want: nat) returns (shares: seq<nat>)
    ensures |shares| == |assets| && SharesOf(assets, Delivered(assets) + want, shares)
  {
    hide Delivered, Sum, FullPool, Floor, Outranks, AllRounded;
    shares := Proportional(Weights(assets), Min(Delivered(assets) + want, U64_MAX));
  }

  /** Deficits first: an asset only goes past its share once every asset is at its share or exhausted. */
  ghost predicate DeficitsFirst(assets: seq<AssetTail>, start: seq<nat>, shares: seq<nat>)
    requires |assets| == |start| == |shares|
  {
    (forall i :: 0 <= i < |assets| ==> assets[i].delivered <= Max(shares[i], start[i])) ||
    forall i :: 0 <= i < |assets| ==> assets[i].exhausted || assets[i].delivered >= shares[i]
  }

  /** The two passes over the ranking: deficits first, then the rest of the ask. */
  method ServeTwice(client: IndexClient, tail: CandidateTail, families: Families, shares: seq<nat>, want: nat, maxBirth: u64,
                    budget: TurnBudget, ghost before: set<OutPoint>, ghost base: nat, ghost world: World)
    returns (r: Result<()>, found: seq<Candidate>)
    requires budget.Valid() && budget.spent == 0 && |shares| == |tail.assets|
    requires Turning(tail, before, base, [], maxBirth)
    modifies client, tail`emitted, tail`assets, budget
    ensures Turning(tail, before, base, found, maxBirth) && Served(old(tail.assets), tail.assets)
    ensures |found| <= want && budget.Valid()
    ensures DeficitsFirst(tail.assets, Counts(old(tail.assets)), shares)
    ensures r.Ok? ==> |found| == want || budget.IsSpent() || AllExhausted(tail.assets)
    ensures Unchanging(client.script, world) && world.families == families
            ==> r.Ok? && Walks(world, maxBirth, old(StandOf(tail)), StandOf(tail), budget.spent > 0)
  {
    hide Delivered, Offered, AllAddress, Unchanging, Walks, DeficitsFirst, Turning;
    ghost var start, stand := tail.assets, StandOf(tail);
    r, found := ServePass(client, tail, families, Some(shares), want, maxBirth, budget, [], before, base, world);
    ghost var middle, halfway, walked := tail.assets, StandOf(tail), budget.spent > 0;
    FirstPass(start, middle, shares);
    if r.Err? || |found| >= want || budget.IsSpent() {
      return;
    }
    r, found := ServePass(client, tail, families, None, want, maxBirth, budget, found, before, base, world);
    SecondPass(start, middle, tail.assets, shares);
    if Unchanging(client.script, world) && world.families == families {
      BothPasses(world, maxBirth, stand, halfway, StandOf(tail), walked, budget.spent > 0);
    }
  }

  /** A turn that walks: the deficits up to the shares, then the rest of the ask, under one budget. */
  method ServeRanking(client: IndexClient, tail: CandidateTail, want: nat, maxBirth: u64, families: Families,
                      ghost world: World)
    returns (r: Result<()>, found: seq<Candidate>, ghost turn: Ledger)
    requires AllAddress(tail.assets)
    modifies client, tail`emitted, tail`assets
    ensures AllAddress(tail.assets) && |found| <= want
    ensures Offered(old(tail.emitted), tail.emitted, found, maxBirth)
    ensures Delivered(tail.assets) == Delivered(old(tail.assets)) + |found|
    ensures turn.walked && !turn.refreshed && turn.start == Counts(old(tail.assets)) && |tail.assets| == |turn.start|
    ensures turn.pages <= 8 && 100 * turn.pages + turn.lookups < 900
    ensures r.Ok? && |found| < want && 100 * turn.pages + turn.lookups < 800
            ==> AllExhausted(tail.assets)
    ensures SharesOf(tail.assets, Sum(turn.start) + want, turn.shares)
    ensures |turn.shares| == |turn.start| && DeficitsFirst(tail.assets, turn.start, turn.shares)
    ensures Unchanging(client.script, world) && world.families == families && want > 0 && !AllExhausted(old(tail.assets))
            ==> r.Ok? && Advances(world, maxBirth, old(StandOf(tail)), StandOf(tail))
  {
    hide Delivered, Offered, FullPool, Outranks, Sum, Weights, SharesOf, DeficitsFirst, AllAddress, Unchanging, Walks, Advances,
         AllExhausted;
    NothingOffered(tail.emitted, maxBirth);
    ghost var stand, start := StandOf(tail), tail.assets;
    var shares := TailShares(tail.assets, want);
    CountsAddUp(start);
    var budget := new TurnBudget(MAX_PAGES_PER_TOP_UP);
    r, found := ServeTwice(client, tail, families, shares, want, maxBirth, budget, tail.emitted, Delivered(start), world);
    ServedShares(start, tail.assets, Delivered(start) + want, shares);
    turn := Ledger(budget.pages, budget.lookups, true, Counts(start), shares, false);
    if Unchanging(client.script, world) && world.families == families && want > 0 && !AllExhausted(start) {
      TurnAdvances(world, maxBirth, stand, StandOf(tail), budget.spent > 0, found);
    }
  }

  predicate AllExhausted(assets: seq<AssetTail>) {
    forall i :: 0 <= i < |assets| ==> assets[i].exhausted
  }

  lemma {:induction false} NothingLeft(world: World, assets: seq<AssetTail>)
    ensures AllLeft(world, assets) == 0 <==> AllExhausted(assets)
  {
    if assets != [] {
      NothingLeft(world, assets[..|assets| - 1]);
      if AllExhausted(assets[..|assets| - 1]) && assets[|assets| - 1].exhausted {
        forall i | 0 <= i < |assets| ensures assets[i].exhausted {
          if i < |assets| - 1 {
            assert assets[..|assets| - 1][i].exhausted;
          }
        }
      }
    }
  }

  /** A turn that spent, found or finished anything has advanced. */
  lemma {:induction false} TurnAdvances(world: World, maxBirth: u64, was: Stand, now: Stand, spent: bool, found: seq<Candidate>)
    requires Walks(world, maxBirth, was, now, spent) && Offered(was.emitted, now.emitted, found, maxBirth)
    requires spent || found != [] || AllExhausted(now.assets)
    requires !AllExhausted(was.assets)
    ensures Advances(world, maxBirth, was, now)
  {
    hide AllLeft, AllReach, AllBehind;
    NothingLeft(world, was.assets);
    NothingLeft(world, now.assets);
    if found != [] {
      assert found[0].outPoint in OutPoints(found);
    }
  }

  lemma {:induction false} BothPasses(world: World, maxBirth: u64, was: Stand, middle: Stand, now: Stand, earlier: bool,
                                      spent: bool)
    requires Walks(world, maxBirth, was, middle, earlier)
    requires exists later: bool :: Walks(world, maxBirth, middle, now, later) && (spent ==> earlier || later)
    ensures Walks(world, maxBirth, was, now, spent)
  {
    hide Walks;
    var later: bool :| Walks(world, maxBirth, middle, now, later) && (spent ==> earlier || later);
    WalkingWalks(world, maxBirth, was, middle, now, earlier, later);
    WalkedAtLeast(world, maxBirth, was, now, earlier || later);
  }

  /** The typed shortfall. A turn that did not walk has rewound (or has no roster); one that walked served deficits
      before anything else, and stops short of the ask only when the budget is spent or every asset is exhausted. */
  method WalkTypedTail(client: IndexClient, tail: CandidateTail, want: nat, maxBirth: u64, families: Families,
                       ghost world: World)
    returns (r: Result<()>, found: seq<Candidate>, ghost turn: Ledger)
    requires AllAddress(tail.assets)
    modifies client, tail`emitted, tail`assets, tail`rosterStale
    ensures AllAddress(tail.assets) && |found| <= want
    ensures Offered(old(tail.emitted), tail.emitted, found, maxBirth)
    ensures turn.pages <= 8 && 100 * turn.pages + turn.lookups < 900
    ensures r.Ok? && !turn.walked ==> found == [] && forall i :: 0 <= i < |tail.assets| ==> !tail.assets[i].exhausted
    ensures r.Ok? && turn.walked && |found| < want &&
            100 * turn.pages + turn.lookups < 800
            ==> forall i :: 0 <= i < |tail.assets| ==> tail.assets[i].exhausted
    ensures turn.walked ==>
              |tail.assets| == |turn.start| == |turn.shares| &&
              SharesOf(tail.assets, Sum(turn.start) + want, turn.shares) &&
              DeficitsFirst(tail.assets, turn.start, turn.shares)
    ensures turn.refreshed <==>
              (old(tail.assets) == [] || old(tail.rosterStale)) && client.script.roster(old(client.calls)).Ok?
    ensures tail.rosterStale == (old(tail.rosterStale) && !turn.refreshed)
    ensures Delivered(tail.assets) == (if turn.refreshed then 0 else Delivered(old(tail.assets))) + |found|
    ensures (old(tail.assets) == [] || old(tail.rosterStale)) && !turn.refreshed
            ==> tail.assets == old(tail.assets) && found == []
    ensures turn.walked && !turn.refreshed ==> turn.start == Counts(old(tail.assets))
    ensures old(tail.assets) != [] && !old(tail.rosterStale) ==> (turn.walked <==> !AllExhausted(old(tail.assets)))
    ensures Unchanging(client.script, world) && world.families == families && want > 0 &&
            old(tail.assets) != [] && !old(tail.rosterStale) ==>
              r.Ok? &&
              if AllExhausted(old(tail.assets)) then found == [] && tail.assets == Rewound(old(tail.assets))
              else Advances(world, maxBirth, old(StandOf(tail)), StandOf(tail))
  {
    hide Delivered, Offered, FullPool, Outranks, Sum, Weights, SharesOf, DeficitsFirst, Unchanging, Advances;
    NothingOffered(tail.emitted, maxBirth);
    found, turn := [], Ledger(0, 0, false, [], [], false);
    if tail.assets == [] || tail.rosterStale {
      r := RefreshRoster(client, tail);
      if r.Err? {
        return;
      }
      turn := turn.(refreshed := true);
    }
    ghost var refreshed := turn.refreshed;
    if tail.assets == [] {
      return Ok(()), found, turn;
    }
    if forall i :: 0 <= i < |tail.assets| ==> tail.assets[i].exhausted {
      tail.assets := Rewound(tail.assets);
      return Ok(()), found, turn;
    }
    r, found, turn := ServeRanking(client, tail, want, maxBirth, families, world);
    turn := turn.(refreshed := refreshed);
  }

  lemma {:induction false} CountsAddUp(assets: seq<AssetTail>)
    ensures Sum(Counts(assets)) == Delivered(assets)
  {
    if assets != [] {
      CountsAddUp(assets[..|assets| - 1]);
      assert Counts(assets)[..|assets| - 1] == Counts(assets[..|assets| - 1]);
    }
  }

  /** Serving keeps the ranking, so it keeps what the shares are shares of. */
  lemma {:induction false} ServedShares(was: seq<AssetTail>, now: seq<AssetTail>, held: nat, shares: seq<nat>)
    requires Served(was, now) && SharesOf(was, held, shares)
    ensures SharesOf(now, held, shares)
  {
    assert Weights(now) == Weights(was);
  }

  lemma {:induction false} FirstPass(was: seq<AssetTail>, now: seq<AssetTail>, shares: seq<nat>)
    requires |was| == |now| == |shares|
    requires forall i :: 0 <= i < |now| ==> now[i].delivered <= Max(shares[i], was[i].delivered)
    ensures DeficitsFirst(now, Counts(was), shares)
  {
  }

  lemma {:induction false} SecondPass(was: seq<AssetTail>, middle: seq<AssetTail>, now: seq<AssetTail>, shares: seq<nat>)
    requires Served(was, middle) && Served(middle, now) && |now| == |shares|
    requires forall i :: 0 <= i < |middle| ==> middle[i].exhausted || middle[i].delivered >= shares[i]
    ensures Served(was, now) && DeficitsFirst(now, Counts(was), shares)
  {
    forall i | 0 <= i < |now|
      ensures now[i].asset == was[i].asset && now[i].delivered >= was[i].delivered && (was[i].exhausted ==> now[i] == was[i])
    {
      assert middle[i].asset == was[i].asset;
    }
    forall i | 0 <= i < |now| ensures now[i].exhausted || now[i].delivered >= shares[i] {
      assert middle[i].exhausted || middle[i].delivered >= shares[i];
    }
  }

  datatype ToppedUp = ToppedUp(dao: seq<Candidate>, typed: seq<Candidate>)

  /** A turn that found anything delivers it, even if a walk stopped on an error; a turn that found nothing
      and failed is an error, and has claimed nothing. The delivered counts grow by exactly the typed candidates
      handed out, and start over exactly when the turn took a new roster. Each class is asked for what was wanted of it:
      on an index that does not change its walk stops short only where a walk of its own would. */
  method TopUp(client: IndexClient, tail: CandidateTail, anchor: u64, wantDao: nat, wantTyped: nat, families: Families,
               ghost rows: seq<Row>, ghost world: World)
    returns (r: Result<ToppedUp>, ghost turn: Ledger)
    requires AllAddress(tail.assets)
    modifies client, tail
    ensures AllAddress(tail.assets)
    ensures r.Err? ==> tail.emitted == old(tail.emitted)
    ensures r.Ok? ==> Offered(old(tail.emitted), tail.emitted, r.value.dao + r.value.typed, anchor) &&
                      |r.value.dao| <= wantDao && |r.value.typed| <= wantTyped
    ensures Delivered(tail.assets) ==
            (if turn.refreshed then 0 else Delivered(old(tail.assets))) + (if r.Ok? then |r.value.typed| else 0)
    ensures turn.refreshed ==> wantTyped > 0 && (old(tail.assets) == [] || old(tail.rosterStale))
    ensures tail.rosterStale == (old(tail.rosterStale) && !turn.refreshed)
    ensures old(tail.rosterStale) && !turn.refreshed ==>
              tail.assets == old(tail.assets) && (r.Ok? ==> r.value.typed == [])
    ensures wantDao == 0 ==> tail.daoCursor == old(tail.daoCursor) && tail.daoExhausted == old(tail.daoExhausted)
    ensures wantDao > 0 && old(tail.daoExhausted) ==>
              !tail.daoExhausted && tail.daoCursor == None && (r.Ok? ==> r.value.dao == [])
    ensures wantDao > 0 && !old(tail.daoExhausted) && Static(client.script, old(client.calls), rows) && r.Ok? ==>
              |r.value.dao| == wantDao || tail.daoExhausted ||
              Position(tail.daoCursor) == Position(old(tail.daoCursor)) + 800
    ensures wantTyped == 0 ==> tail.assets == old(tail.assets) && !turn.walked && !turn.refreshed
    ensures wantTyped > 0 && old(tail.assets) != [] && !old(tail.rosterStale)
            ==> (turn.walked <==> !AllExhausted(old(tail.assets)))
    ensures turn.pages <= 8 && 100 * turn.pages + turn.lookups < 900
    ensures turn.walked ==>
              |tail.assets| == |turn.start| == |turn.shares| &&
              SharesOf(tail.assets, Sum(turn.start) + wantTyped, turn.shares) &&
              DeficitsFirst(tail.assets, turn.start, turn.shares) &&
              (!turn.refreshed ==> turn.start == Counts(old(tail.assets)))
    ensures Unchanging(client.script, world) && world.families == families && wantTyped > 0 && r.Ok? &&
            old(tail.assets) != [] && !old(tail.rosterStale) ==>
              if AllExhausted(old(tail.assets)) then r.value.typed == [] && tail.assets == Rewound(old(tail.assets))
              else Advances(world, anchor, Stand(old(tail.assets), old(tail.emitted) + OutPoints(r.value.dao)), StandOf(tail)) &&
                   (|r.value.typed| < wantTyped && 100 * turn.pages + turn.lookups < 800 ==> AllExhausted(tail.assets))
  {
    hide Delivered, Advances, SharesOf, DeficitsFirst, Unchanging, Sum;
    turn := Ledger(0, 0, false, [], [], false);
    var dao: seq<Candidate>, typed: seq<Candidate> := [], [];
    var daoStopped: Result<()>, typedStopped: Result<()> := Ok(()), Ok(());
    NothingOffered(tail.emitted, anchor);
    if wantDao > 0 {
      daoStopped, dao := WalkDaoTail(client, tail, wantDao, anchor, rows);
    }
    ghost var middle := tail.emitted;
    NothingOffered(middle, anchor);
    if wantTyped > 0 {
      typedStopped, typed, turn := WalkTypedTail(client, tail, wantTyped, anchor, families, world);
    }
    OfferBoth(old(tail.emitted), middle, tail.emitted, dao, typed, anchor);
    if dao == [] && typed == [] {
      if daoStopped.Err? {
        return Err(daoStopped.fault), turn;
      }
      if typedStopped.Err? {
        return Err(typedStopped.fault), turn;
      }
    }
    r := Ok(ToppedUp(dao, typed));
  }

  lemma {:induction false} OfferBoth(before: set<OutPoint>, middle: set<OutPoint>, after: set<OutPoint>, dao: seq<Candidate>,
                                     typed: seq<Candidate>, anchor: u64)
    requires Offered(before, middle, dao, anchor) && Offered(middle, after, typed, anchor)
    ensures Offered(before, after, dao + typed, anchor)
  {
    OutPointsConcat(dao, typed);
  }

  // ----- runs -----

  datatype Turn =
    | Ask(anchor: u64, wantDao: nat, wantTyped: nat, families: Families)
    | Discovery(outPoints: seq<OutPoint>)

  function Noted(turn: Turn): set<OutPoint> {
    if turn.Discovery? then set op | op in turn.outPoints else {}
  }

  /** The typed part of one turn's offer, and whether the turn took a new roster. */
  datatype TypedOffer = TypedOffer(candidates: seq<Candidate>, refreshed: bool)

  /** The typed candidates handed out since the last new roster. */
  function SinceRefresh(typed: seq<TypedOffer>): seq<Candidate> {
    if typed == [] then [] else
    var n := |typed| - 1;
    (if typed[n].refreshed then [] else SinceRefresh(typed[..n])) + typed[n].candidates
  }

  ghost predicate TookRoster(typed: seq<TypedOffer>, from: nat, to: nat)
    requires to <= |typed|
  {
    exists k :: from <= k < to && typed[k].refreshed
  }

  /** What the class has delivered: all that was handed out since the last new roster, on top of what it started
      from if there was none. And nothing is handed out after a discovery before a new roster is taken. */
  ghost predicate Counted(typed: seq<TypedOffer>, turns: seq<Turn>, start: nat, delivered: nat, stale: bool)
    requires |typed| == |turns|
  {
    delivered == (if TookRoster(typed, 0, |typed|) then 0 else start) + |SinceRefresh(typed)| &&
    (!stale ==> forall d :: 0 <= d < |turns| && turns[d].Discovery? ==> TookRoster(typed, d + 1, |typed|)) &&
    forall d, i :: 0 <= d < i < |turns| && turns[d].Discovery? && typed[i].candidates != [] ==> TookRoster(typed, d + 1, i + 1)
  }

  lemma {:induction false} CountedOneMore(typed: seq<TypedOffer>, turns: seq<Turn>, start: nat, delivered: nat, stale: bool,
                                          offer: TypedOffer, turn: Turn, delivered': nat, stale': bool)
    requires |typed| == |turns| && Counted(typed, turns, start, delivered, stale)
    requires delivered' == (if offer.refreshed then 0 else delivered) + |offer.candidates|
    requires if turn.Discovery? then stale' && offer == TypedOffer([], false) else stale' == (stale && !offer.refreshed)
    requires stale && !offer.refreshed ==> offer.candidates == []
    ensures Counted(typed + [offer], turns + [turn], start, delivered', stale')
  {
    var more, n := typed + [offer], |typed|;
    assert more[..n] == typed;
    TookLater(typed, offer);
    forall d | 0 <= d < n && turns[d].Discovery? ensures stale' || TookRoster(more, d + 1, n + 1) {
    }
    forall d, i | 0 <= d < i < n + 1 && (turns + [turn])[d].Discovery? && more[i].candidates != []
      ensures TookRoster(more, d + 1, i + 1)
    {
      if i < n {
        assert more[i] == typed[i];
      } else {
        assert turns[d].Discovery?;
      }
    }
  }

  lemma {:induction false} TookLater(typed: seq<TypedOffer>, offer: TypedOffer)
    ensures forall from: nat, to: nat :: to <= |typed| ==> (TookRoster(typed + [offer], from, to) <==> TookRoster(typed, from, to))
    ensures forall from: nat :: from <= |typed| ==>
              (TookRoster(typed + [offer], from, |typed| + 1) <==> offer.refreshed || TookRoster(typed, from, |typed|))
  {
    var more := typed + [offer];
    forall from: nat, to: nat | to <= |typed| ensures TookRoster(more, from, to) <==> TookRoster(typed, from, to) {
      if TookRoster(typed, from, to) {
        var k :| from <= k < to && typed[k].refreshed;
        assert more[k].refreshed;
      }
    }
    forall from: nat | from <= |typed|
      ensures TookRoster(more, from, |typed| + 1) <==> offer.refreshed || TookRoster(typed, from, |typed|)
    {
      if offer.refreshed {
        assert more[|typed|].refreshed;
      } else if TookRoster(typed, from, |typed|) {
        var k :| from <= k < |typed| && typed[k].refreshed;
        assert more[k].refreshed;
      }
    }
  }

  lemma {:induction false} NothingCounted(start: nat, stale: bool)
    ensures Counted([], [], start, start, stale)
  {
  }

  ghost predicate EndsWith(offer: seq<Candidate>, typed: seq<Candidate>) {
    |typed| <= |offer| && offer[|offer| - |typed|..] == typed
  }

  /** An index about which nothing is known. */
  ghost const NOWHERE: World := World(source => [], id => [], (item, v) => None, map[])

  /** One turn: a top-up's offer, or a discovery that only claims. */
  method ServeTurn(client: IndexClient, tail: CandidateTail, turn: Turn)
    returns (offer: seq<Candidate>, ghost typed: TypedOffer)
    requires AllAddress(tail.assets)
    modifies client, tail
    ensures AllAddress(tail.assets)
    ensures OutPoints(offer) !! old(tail.emitted) && NoRepeat(offer)
    ensures tail.emitted == old(tail.emitted) + OutPoints(offer) + Noted(turn)
    ensures EndsWith(offer, typed.candidates)
    ensures Delivered(tail.assets) == (if typed.refreshed then 0 else Delivered(old(tail.assets))) + |typed.candidates|
    ensures if turn.Discovery? then tail.rosterStale && typed == TypedOffer([], false)
            else tail.rosterStale == (old(tail.rosterStale) && !typed.refreshed)
    ensures old(tail.rosterStale) && !typed.refreshed ==> typed.candidates == []
  {
    hide NoRepeat, OutPoints, Delivered;
    NothingDelivered();
    offer, typed := [], TypedOffer([], false);
    match turn {
      case Ask(anchor, wantDao, wantTyped, families) =>
        ghost var ledger;
        var r;
        r, ledger := TopUp(client, tail, anchor, wantDao, wantTyped, families, [], NOWHERE);
        offer := if r.Ok? then r.value.dao + r.value.typed else [];
        typed := TypedOffer(if r.Ok? then r.value.typed else [], ledger.refreshed);
      case Discovery(outPoints) =>
        tail.NoteEmitted(outPoints);
    }
  }

  /** Any interleaving of top-ups and full discoveries. `claims[i]` is what was claimed before turn `i`: each
      turn offers only what was not, so nothing is ever offered twice, nor after a discovery handed it out. The
      typed class's delivered counts add up to the typed candidates handed out since the last new roster, and after
      a discovery there is a new roster before there are typed candidates. */
  method Serve(client: IndexClient, tail: CandidateTail, turns: seq<Turn>)
    returns (offers: seq<seq<Candidate>>, ghost claims: seq<set<OutPoint>>, ghost typed: seq<TypedOffer>)
    requires AllAddress(tail.assets)
    modifies client, tail
    ensures AllAddress(tail.assets)
    ensures |offers| == |turns| && |claims| == |turns| + 1 && claims[0] == old(tail.emitted) && claims[|turns|] == tail.emitted
    ensures forall i :: 0 <= i < |turns| ==>
              OutPoints(offers[i]) !! claims[i] && NoRepeat(offers[i]) &&
              claims[i + 1] == claims[i] + OutPoints(offers[i]) + Noted(turns[i])
    ensures NoRepeat(Flatten(offers)) && OutPoints(Flatten(offers)) !! old(tail.emitted)
    ensures |typed| == |turns| && forall i :: 0 <= i < |turns| ==> EndsWith(offers[i], typed[i].candidates)
    ensures Counted(typed, turns, Delivered(old(tail.assets)), Delivered(tail.assets), tail.rosterStale)
  {
    hide NoRepeat, OutPoints, Delivered, Counted, EndsWith, Noted;
    offers, claims, typed := [], [tail.emitted], [];
    NothingCounted(Delivered(tail.assets), tail.rosterStale);
    for i := 0 to |turns|
      invariant AllAddress(tail.assets)
      invariant |offers| == i && |claims| == i + 1 && claims[0] == old(tail.emitted) && claims[i] == tail.emitted
      invariant forall j :: 0 <= j < i ==>
                  OutPoints(offers[j]) !! claims[j] && NoRepeat(offers[j]) &&
                  claims[j + 1] == claims[j] + OutPoints(offers[j]) + Noted(turns[j])
      invariant |typed| == i && forall j :: 0 <= j < i ==> EndsWith(offers[j], typed[j].candidates)
      invariant Counted(typed, turns[..i], Delivered(old(tail.assets)), Delivered(tail.assets), tail.rosterStale)
    {
      ghost var delivered, stale := Delivered(tail.assets), tail.rosterStale;
      ghost var typedOffer;
      var offer;
      offer, typedOffer := ServeTurn(client, tail, turns[i]);
      offers, claims := offers + [offer], claims + [tail.emitted];
      CountedOneMore(typed, turns[..i], Delivered(old(tail.assets)), delivered, stale, typedOffer, turns[i],
                     Delivered(tail.assets), tail.rosterStale);
      assert turns[..i + 1] == turns[..i] + [turns[i]];
      typed := typed + [typedOffer];
    }
    assert turns[..|turns|] == turns;
    NeverTwice(offers, claims);
  }

  function Flatten(offers: seq<seq<Candidate>>): seq<Candidate> {
    if offers == [] then [] else Flatten(offers[..|offers| - 1]) + offers[|offers| - 1]
  }

  /** Offers that each avoid the claims before them, and enter the claims after, never repeat. */
  lemma {:induction false} NeverTwice(offers: seq<seq<Candidate>>, claims: seq<set<OutPoint>>)
    requires |claims| == |offers| + 1
    requires forall i :: 0 <= i < |offers| ==>
               OutPoints(offers[i]) !! claims[i] && NoRepeat(offers[i]) && claims[i] + OutPoints(offers[i]) <= claims[i + 1]
    ensures NoRepeat(Flatten(offers)) && OutPoints(Flatten(offers)) !! claims[0]
    ensures claims[0] + OutPoints(Flatten(offers)) <= claims[|offers|]
  {
    hide NoRepeat, OutPoints;
    NothingDelivered();
    if offers != [] {
      var last := |offers| - 1;
      NeverTwice(offers[..last], claims[..|offers|]);
      OutPointsConcat(Flatten(offers[..last]), offers[last]);
    }
  }
}

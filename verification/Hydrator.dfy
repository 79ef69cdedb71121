/** Staging indexed candidates: each one is re-read from the node before it becomes a Cell. */
module Hydrator {
  import opened Basics
  import opened Chain
  import opened Identity
  import opened Index
  import opened LiveCells

  const LIVE_CELL_BATCH_SIZE := 64

  datatype CompositionClass = ForDao | ForTyped | ForPlain {
    predicate Accepts(kind: AssetKind) {
      match this
      case ForDao => kind.Dao?
      case ForTyped => kind.Other?
      case ForPlain => kind.Native?
    }
  }

  /** What a staged Cell says besides its id. */
  datatype Sighting = Sighting(outPoint: OutPoint, birthBlock: u64, capacity: u64, kind: AssetKind)

  datatype Cell = Cell(id: nat, seen: Sighting)

  /** What became of a candidate: its outpoint was already admitted, or the node gave a verdict. */
  datatype Answer = Unasked | Asked(verdict: Option<Body>)

  predicate Fits(c: Candidate, a: Answer, cls: CompositionClass) {
    a.Asked? && a.verdict.Some? && a.verdict.value.Output? && a.verdict.value.capacity == c.capacity &&
    cls.Accepts(a.verdict.value.kind)
  }

  /** The candidates the node confirmed, in their order. */
  function Fitting(candidates: seq<Candidate>, answers: seq<Answer>, cls: CompositionClass): (fit: seq<Sighting>)
    requires |candidates| == |answers|
    ensures |fit| <= |candidates|
  {
    if candidates == [] then [] else
    var n := |candidates| - 1;
    var c, a := candidates[n], answers[n];
    var init := Fitting(candidates[..n], answers[..n], cls);
    if Fits(c, a, cls) then init + [Sighting(c.outPoint, c.birthBlock, c.capacity, a.verdict.value.kind)] else init
  }

  function Take<T>(s: seq<T>, n: nat): seq<T> {
    if |s| <= n then s else s[..n]
  }

  function Sightings(cells: seq<Cell>): (seen: seq<Sighting>)
    ensures |seen| == |cells|
    ensures forall k :: 0 <= k < |cells| ==> seen[k] == cells[k].seen
  {
    seq(|cells|, k requires 0 <= k < |cells| => cells[k].seen)
  }

  function Ids(cells: seq<Cell>): set<nat> {
    if cells == [] then {} else Ids(cells[..|cells| - 1]) + {cells[|cells| - 1].id}
  }

  function CellOutPoints(cells: seq<Cell>): set<OutPoint> {
    if cells == [] then {} else CellOutPoints(cells[..|cells| - 1]) + {cells[|cells| - 1].seen.outPoint}
  }

  /** Each id is tagged, was not taken before, and is the home slot of its outpoint unless that was. */
  ghost predicate FreshIds(payload: OutPoint -> nat, before: set<nat>, cells: seq<Cell>) {
    cells == [] ||
    var n := |cells| - 1;
    var taken, home := before + Ids(cells[..n]), Tagged(payload(cells[n].seen.outPoint));
    FreshIds(payload, before, cells[..n]) && InBand(cells[n].id) && cells[n].id !in taken &&
    (home !in taken ==> cells[n].id == home)
  }

  /** No outpoint was admitted before, none repeats. */
  ghost predicate FreshOutPoints(before: set<OutPoint>, cells: seq<Cell>) {
    cells == [] ||
    var n := |cells| - 1;
    FreshOutPoints(before, cells[..n]) && cells[n].seen.outPoint !in before + CellOutPoints(cells[..n])
  }

  /** The admitted sets are what they were before the bucket plus exactly what it staged. */
  ghost predicate Staged(payload: OutPoint -> nat, outsBefore: set<OutPoint>, idsBefore: set<nat>, cells: seq<Cell>,
                         outs: set<OutPoint>, ids: set<nat>) {
    FreshIds(payload, idsBefore, cells) && ids == idsBefore + Ids(cells) && |ids| == |idsBefore| + |cells| &&
    outs == outsBefore + CellOutPoints(cells)
  }

  lemma {:induction false} StageOneMore(payload: OutPoint -> nat, outsBefore: set<OutPoint>, idsBefore: set<nat>,
                                        cells: seq<Cell>, outs: set<OutPoint>, ids: set<nat>, cell: Cell)
    requires Staged(payload, outsBefore, idsBefore, cells, outs, ids)
    requires InBand(cell.id) && cell.id !in ids
    requires Tagged(payload(cell.seen.outPoint)) !in ids ==> cell.id == Tagged(payload(cell.seen.outPoint))
    ensures Staged(payload, outsBefore, idsBefore, cells + [cell], outs + {cell.seen.outPoint}, ids + {cell.id})
  {
    hide Tagged, InBand, FreshIds, Ids, CellOutPoints;
    IdOneMore(payload, idsBefore, cells, cell);
    AdmittedOneMore(cells, cell);
  }

  lemma {:induction false} AdmittedOneMore(cells: seq<Cell>, cell: Cell)
    ensures Ids(cells + [cell]) == Ids(cells) + {cell.id}
    ensures CellOutPoints(cells + [cell]) == CellOutPoints(cells) + {cell.seen.outPoint}
  {
    assert (cells + [cell])[..|cells|] == cells;
  }

  lemma {:induction false} IdOneMore(payload: OutPoint -> nat, before: set<nat>, cells: seq<Cell>, cell: Cell)
    requires FreshIds(payload, before, cells) && InBand(cell.id) && cell.id !in before + Ids(cells)
    requires Tagged(payload(cell.seen.outPoint)) !in before + Ids(cells)
             ==> cell.id == Tagged(payload(cell.seen.outPoint))
    ensures FreshIds(payload, before, cells + [cell])
  {
    hide Tagged, InBand;
    assert (cells + [cell])[..|cells|] == cells;
  }

  lemma {:induction false} FreshOneMore(before: set<OutPoint>, cells: seq<Cell>, cell: Cell)
    requires FreshOutPoints(before, cells) && cell.seen.outPoint !in before + CellOutPoints(cells)
    ensures FreshOutPoints(before, cells + [cell])
  {
    assert (cells + [cell])[..|cells|] == cells;
  }

  lemma {:induction false} FittingOneMore(candidates: seq<Candidate>, answers: seq<Answer>, cls: CompositionClass,
                                          c: Candidate, a: Answer)
    requires |candidates| == |answers|
    ensures Fitting(candidates + [c], answers + [a], cls) ==
            var init := Fitting(candidates, answers, cls);
            if Fits(c, a, cls) then init + [Sighting(c.outPoint, c.birthBlock, c.capacity, a.verdict.value.kind)]
            else init
  {
    assert (candidates + [c])[..|candidates|] == candidates && (answers + [a])[..|answers|] == answers;
  }

  lemma {:induction false} FittingConcat(a: seq<Candidate>, b: seq<Candidate>, x: seq<Answer>, y: seq<Answer>,
                                         cls: CompositionClass)
    requires |a| == |x| && |b| == |y|
    ensures Fitting(a + b, x + y, cls) == Fitting(a, x, cls) + Fitting(b, y, cls)
    decreases |b|
  {
    if b == [] {
      assert a + b == a && x + y == x;
    } else {
      var n := |b| - 1;
      assert (a + b)[..|a + b| - 1] == a + b[..n] && (x + y)[..|a + b| - 1] == x + y[..n];
      FittingConcat(a, b[..n], x, y[..n], cls);
    }
  }

  /** Confirmed candidates are candidates that were asked about. */
  lemma {:induction false} FittingOrigins(candidates: seq<Candidate>, answers: seq<Answer>, cls: CompositionClass,
                                          seen: Sighting)
    requires |candidates| == |answers| && seen in Fitting(candidates, answers, cls)
    ensures exists i :: 0 <= i < |candidates| && Fits(candidates[i], answers[i], cls) &&
              seen == Sighting(candidates[i].outPoint, candidates[i].birthBlock, candidates[i].capacity,
                               answers[i].verdict.value.kind)
  {
    var n := |candidates| - 1;
    if seen in Fitting(candidates[..n], answers[..n], cls) {
      FittingOrigins(candidates[..n], answers[..n], cls, seen);
      var i :| 0 <= i < n && Fits(candidates[..n][i], answers[..n][i], cls) &&
        seen == Sighting(candidates[..n][i].outPoint, candidates[..n][i].birthBlock, candidates[..n][i].capacity,
                         answers[..n][i].verdict.value.kind);
      assert candidates[i] == candidates[..n][i] && answers[i] == answers[..n][i];
    } else {
      assert Fits(candidates[n], answers[n], cls);
    }
  }

  // ----- one batch -----

  function Pending(batch: seq<Candidate>, admitted: set<OutPoint>): (pending: seq<Candidate>)
    ensures |pending| <= |batch|
    ensures forall c :: c in pending ==> c in batch && c.outPoint !in admitted
  {
    if batch == [] then [] else
    var n := |batch| - 1;
    if batch[n].outPoint in admitted then Pending(batch[..n], admitted) else Pending(batch[..n], admitted) + [batch[n]]
  }

  /** Only outpoints that were admitted before occur twice. */
  ghost predicate RepeatsOnly(before: set<OutPoint>, batch: seq<Candidate>) {
    forall i, j :: 0 <= i < j < |batch| && batch[i].outPoint !in before ==> batch[i].outPoint != batch[j].outPoint
  }

  lemma {:induction false} PendingDistinct(before: set<OutPoint>, batch: seq<Candidate>, admitted: set<OutPoint>)
    requires RepeatsOnly(before, batch) && before <= admitted
    ensures NoRepeat(Pending(batch, admitted))
  {
    if batch != [] {
      var n := |batch| - 1;
      var init := Pending(batch[..n], admitted);
      PendingDistinct(before, batch[..n], admitted);
      forall k | 0 <= k < |init| && batch[n].outPoint !in admitted ensures init[k].outPoint != batch[n].outPoint {
        assert init[k] in batch[..n];
        var i :| 0 <= i < n && batch[..n][i] == init[k];
        assert batch[i] == init[k];
      }
    }
  }

  /** Spreads the verdicts on the pending candidates over their batch. */
  function Spread(batch: seq<Candidate>, admitted: set<OutPoint>, live: seq<Option<Body>>): (answers: seq<Answer>)
    requires |live| == |Pending(batch, admitted)|
    ensures |answers| == |batch|
    ensures forall i :: 0 <= i < |batch| ==> (answers[i].Unasked? <==> batch[i].outPoint in admitted)
  {
    if batch == [] then [] else
    var n := |batch| - 1;
    if batch[n].outPoint in admitted then Spread(batch[..n], admitted, live) + [Unasked]
    else Spread(batch[..n], admitted, live[..|live| - 1]) + [Asked(live[|live| - 1])]
  }

  function AllAsked(live: seq<Option<Body>>): (answers: seq<Answer>)
    ensures |answers| == |live| && forall k :: 0 <= k < |live| ==> answers[k] == Asked(live[k])
  {
    seq(|live|, k requires 0 <= k < |live| => Asked(live[k]))
  }

  lemma {:induction false} NoneAsked(live: seq<Option<Body>>)
    ensures live == [] ==> AllAsked(live) == []
  {
  }

  lemma {:induction false} AllAskedButLast(live: seq<Option<Body>>)
    requires live != []
    ensures AllAsked(live) == AllAsked(live[..|live| - 1]) + [Asked(live[|live| - 1])]
  {
  }

  /** The last candidate of a batch is left out, or has the last verdict. */
  lemma {:induction false} LastSpread(batch: seq<Candidate>, admitted: set<OutPoint>, live: seq<Option<Body>>)
    requires batch != [] && |live| == |Pending(batch, admitted)|
    ensures var n, c := |batch| - 1, batch[|batch| - 1];
            batch == batch[..n] + [c] &&
            if c.outPoint in admitted
            then |live| == |Pending(batch[..n], admitted)| && Pending(batch, admitted) == Pending(batch[..n], admitted) &&
                 Spread(batch, admitted, live) == Spread(batch[..n], admitted, live) + [Unasked]
            else var m := |live| - 1;
                 m == |Pending(batch[..n], admitted)| && Pending(batch, admitted) == Pending(batch[..n], admitted) + [c] &&
                 Spread(batch, admitted, live) == Spread(batch[..n], admitted, live[..m]) + [Asked(live[m])]
  {
  }

  lemma {:induction false} NothingSpread(batch: seq<Candidate>, admitted: set<OutPoint>, live: seq<Option<Body>>)
    requires |live| == |Pending(batch, admitted)|
    ensures batch == [] ==> Pending(batch, admitted) == [] && Spread(batch, admitted, live) == []
  {
  }

  /** Leaving admitted candidates out of the request loses nothing. */
  lemma {:induction false} SpreadFits(batch: seq<Candidate>, admitted: set<OutPoint>, live: seq<Option<Body>>,
                                      cls: CompositionClass)
    requires |live| == |Pending(batch, admitted)|
    ensures Fitting(batch, Spread(batch, admitted, live), cls) == Fitting(Pending(batch, admitted), AllAsked(live), cls)
  {
    hide Fitting, AllAsked, Pending, Spread;
    if batch == [] {
      NoneAsked(live);
      NothingSpread(batch, admitted, live);
    } else {
      LastSpread(batch, admitted, live);
      var n := |batch| - 1;
      var c := batch[n];
      if c.outPoint in admitted {
        SpreadFits(batch[..n], admitted, live, cls);
        FittingOneMore(batch[..n], Spread(batch[..n], admitted, live), cls, c, Unasked);
      } else {
        var m := |live| - 1;
        SpreadFits(batch[..n], admitted, live[..m], cls);
        FittingOneMore(batch[..n], Spread(batch[..n], admitted, live[..m]), cls, c, Asked(live[m]));
        FittingOneMore(Pending(batch[..n], admitted), AllAsked(live[..m]), cls, c, Asked(live[m]));
        AllAskedButLast(live);
      }
    }
  }

  /** Every verdict of the batch is what the world says of that candidate. */
  lemma {:induction false} SpreadIsTruthful(batch: seq<Candidate>, admitted: set<OutPoint>, live: seq<Option<Body>>,
                                            world: OutPoint -> Option<Body>)
    requires |live| == |Pending(batch, admitted)|
    requires forall k :: 0 <= k < |live| ==> live[k] == world(Pending(batch, admitted)[k].outPoint)
    ensures Truthful(batch, Spread(batch, admitted, live), world)
  {
    hide Truthful, Pending, Spread;
    if batch == [] {
      NothingSpread(batch, admitted, live);
      NothingTruthful(batch, world);
    } else {
      LastSpread(batch, admitted, live);
      var n := |batch| - 1;
      var pending := Pending(batch, admitted);
      if batch[n].outPoint in admitted {
        SpreadIsTruthful(batch[..n], admitted, live, world);
        TruthfulOneMore(batch[..n], Spread(batch[..n], admitted, live), batch[n], Unasked, world);
      } else {
        var m := |live| - 1;
        forall k | 0 <= k < m ensures live[..m][k] == world(Pending(batch[..n], admitted)[k].outPoint) {
          assert pending[k] == Pending(batch[..n], admitted)[k];
        }
        SpreadIsTruthful(batch[..n], admitted, live[..m], world);
        assert live[m] == world(pending[m].outPoint);
        TruthfulOneMore(batch[..n], Spread(batch[..n], admitted, live[..m]), batch[n], Asked(live[m]), world);
      }
    }
  }

  lemma {:induction false} NothingTruthful(candidates: seq<Candidate>, world: OutPoint -> Option<Body>)
    ensures Truthful(candidates, [], world)
  {
  }

  lemma {:induction false} TruthfulOneMore(candidates: seq<Candidate>, answers: seq<Answer>, c: Candidate, a: Answer,
                                           world: OutPoint -> Option<Body>)
    requires |candidates| == |answers| && Truthful(candidates, answers, world)
    requires a.Asked? ==> a.verdict == world(c.outPoint)
    ensures Truthful(candidates + [c], answers + [a], world)
  {
  }

  ghost predicate Truthful(candidates: seq<Candidate>, answers: seq<Answer>, world: OutPoint -> Option<Body>)
    requires |answers| <= |candidates|
  {
    forall i :: 0 <= i < |answers| && answers[i].Asked? ==> answers[i].verdict == world(candidates[i].outPoint)
  }

  /** A node that answers every batch in full, in any order, from one fixed set of live cells. */
  ghost predicate Honest(script: BatchScript, world: OutPoint -> Option<Body>) {
    (forall o :: world(o) != Some(Broken)) &&
    forall clock: nat, first: nat, outPoints: seq<OutPoint> :: HonestReply(script, clock, first, outPoints, world)
  }

  ghost predicate HonestReply(script: BatchScript, clock: nat, first: nat, outPoints: seq<OutPoint>,
                              world: OutPoint -> Option<Body>) {
    var reply := script(clock, first, outPoints);
    reply.Ok? && Answers(reply.value, first, Said(outPoints, world))
  }

  function Said(outPoints: seq<OutPoint>, world: OutPoint -> Option<Body>): (verdicts: seq<Option<Body>>)
    ensures |verdicts| == |outPoints| && forall k :: 0 <= k < |verdicts| ==> verdicts[k] == world(outPoints[k])
  {
    seq(|outPoints|, k requires 0 <= k < |outPoints| => world(outPoints[k]))
  }

  // ----- verdicts by request number -----

  /** How many candidates were asked about. */
  function Asks(answers: seq<Answer>): (n: nat)
    ensures n <= |answers|
  {
    if answers == [] then 0
    else Asks(answers[..|answers| - 1]) + (if answers[|answers| - 1].Asked? then 1 else 0)
  }

  /** Requests are numbered in the order of the candidates, leaving out the ones that are not asked about. */
  ghost predicate Numbers(answers: seq<Answer>, first: nat, verdict: nat -> Option<Body>) {
    forall i :: 0 <= i < |answers| && answers[i].Asked? ==> answers[i].verdict == verdict(first + Asks(answers[..i]))
  }

  /** A node that answers every batch in full, in any order, by request number, whatever outpoint is asked about. */
  ghost predicate Numbered(script: BatchScript, verdict: nat -> Option<Body>) {
    (forall n :: verdict(n) != Some(Broken)) &&
    forall clock: nat, first: nat, outPoints: seq<OutPoint> :: NumberedReply(script, clock, first, outPoints, verdict)
  }

  ghost predicate NumberedReply(script: BatchScript, clock: nat, first: nat, outPoints: seq<OutPoint>,
                                verdict: nat -> Option<Body>) {
    var reply := script(clock, first, outPoints);
    reply.Ok? && Answers(reply.value, first, From(first, |outPoints|, verdict))
  }

  function From(first: nat, count: nat, verdict: nat -> Option<Body>): (verdicts: seq<Option<Body>>)
    ensures |verdicts| == count && forall k :: 0 <= k < count ==> verdicts[k] == verdict(first + k)
  {
    seq(count, k requires 0 <= k < count => var n: nat := first + k; verdict(n))
  }

  lemma {:induction false} NumbersOneMore(answers: seq<Answer>, a: Answer, first: nat, verdict: nat -> Option<Body>)
    requires Numbers(answers, first, verdict) && (a.Asked? ==> a.verdict == verdict(first + Asks(answers)))
    ensures Numbers(answers + [a], first, verdict)
    ensures Asks(answers + [a]) == Asks(answers) + if a.Asked? then 1 else 0
  {
    hide Asks;
    AsksOneMore(answers, a);
    var more := answers + [a];
    forall i | 0 <= i < |more| && more[i].Asked? ensures more[i].verdict == verdict(first + Asks(more[..i])) {
      assert more[..i] == answers[..i];
      if i < |answers| {
        assert more[i] == answers[i];
      } else {
        assert answers[..i] == answers;
      }
    }
  }

  lemma {:induction false} SpreadNumbers(batch: seq<Candidate>, admitted: set<OutPoint>, live: seq<Option<Body>>,
                                         first: nat, verdict: nat -> Option<Body>)
    requires |live| == |Pending(batch, admitted)| && live == From(first, |live|, verdict)
    ensures Asks(Spread(batch, admitted, live)) == |live| && Numbers(Spread(batch, admitted, live), first, verdict)
  {
    hide Asks, Numbers, From, Pending, Spread;
    if batch == [] {
      NothingSpread(batch, admitted, live);
      AsksNothing(first, verdict);
    } else {
      LastSpread(batch, admitted, live);
      var n := |batch| - 1;
      if batch[n].outPoint in admitted {
        SpreadNumbers(batch[..n], admitted, live, first, verdict);
        NumbersOneMore(Spread(batch[..n], admitted, live), Unasked, first, verdict);
      } else {
        var m := |live| - 1;
        FromAllButLast(first, m, verdict);
        SpreadNumbers(batch[..n], admitted, live[..m], first, verdict);
        NumbersOneMore(Spread(batch[..n], admitted, live[..m]), Asked(live[m]), first, verdict);
      }
    }
  }

  lemma {:induction false} FromAllButLast(first: nat, m: nat, verdict: nat -> Option<Body>)
    ensures From(first, m + 1, verdict)[..m] == From(first, m, verdict)
    ensures From(first, m + 1, verdict)[m] == verdict(first + m)
  {
  }

  lemma {:induction false} AsksOneMore(answers: seq<Answer>, a: Answer)
    ensures Asks(answers + [a]) == Asks(answers) + if a.Asked? then 1 else 0
  {
    assert (answers + [a])[..|answers|] == answers;
  }

  lemma {:induction false} AsksNothing(first: nat, verdict: nat -> Option<Body>)
    ensures Asks([]) == 0 && Numbers([], first, verdict)
  {
  }

  lemma {:induction false} AsksConcat(a: seq<Answer>, b: seq<Answer>)
    ensures Asks(a + b) == Asks(a) + Asks(b)
    decreases |b|
  {
    if b == [] {
      assert a + b == a;
    } else {
      var n := |b| - 1;
      AsksConcat(a, b[..n]);
      assert (a + b)[..|a + b| - 1] == a + b[..n];
    }
  }

  lemma {:induction false} NextNumbers(answers: seq<Answer>, asked: seq<Answer>, first: nat, verdict: nat -> Option<Body>)
    ensures Asks(answers + asked) == Asks(answers) + Asks(asked)
    ensures Numbers(answers, first, verdict) && Numbers(asked, first + Asks(answers), verdict)
            ==> Numbers(answers + asked, first, verdict)
  {
    hide Asks;
    var all := answers + asked;
    AsksConcat(answers, asked);
    if Numbers(answers, first, verdict) && Numbers(asked, first + Asks(answers), verdict) {
      forall i | 0 <= i < |all| && all[i].Asked? ensures all[i].verdict == verdict(first + Asks(all[..i])) {
        if i < |answers| {
          assert all[..i] == answers[..i];
        } else {
          assert all[..i] == answers + asked[..i - |answers|];
          AsksConcat(answers, asked[..i - |answers|]);
        }
      }
    }
  }

  /** Such a node's batch is never refused. */
  lemma {:induction false} AnsweredByNumber(script: BatchScript, clock: nat, first: nat, outPoints: seq<OutPoint>,
                                            verdict: nat -> Option<Body>, reply: Result<seq<Option<Body>>>)
    requires Numbered(script, verdict) && Replied(script, clock, first, outPoints, reply)
    ensures reply == Ok(From(first, |outPoints|, verdict)) && Some(Broken) !in reply.value
  {
    hide Answers;
    if outPoints != [] {
      assert NumberedReply(script, clock, first, outPoints, verdict);
      AnswersAreUnique(script(clock, first, outPoints).value, first, reply.value, From(first, |outPoints|, verdict));
    }
  }

  lemma {:induction false} EmptyBucket(payload: OutPoint -> nat, outs: set<OutPoint>, ids: set<nat>,
                                       candidates: seq<Candidate>, cls: CompositionClass, target: nat, size: nat)
    requires size > 0
    ensures Staged(payload, outs, ids, [], outs, ids) && FreshOutPoints(outs, [])
    ensures Sightings([]) == Take(Fitting(candidates[..0], [], cls), target)
    ensures PassedOver(outs, candidates, [], cls, size)
  {
  }

  lemma {:induction false} StartOfList(candidates: seq<Candidate>, answers: seq<Answer>, cls: CompositionClass)
    requires |candidates| == |answers|
    ensures Fitting(candidates[..0], answers[..0], cls) == [] && OutPoints(candidates[..0]) == {}
  {
  }

  lemma {:induction false} NextOfList(candidates: seq<Candidate>, answers: seq<Answer>, cls: CompositionClass, k: nat)
    requires |candidates| == |answers| && k < |candidates|
    ensures var c, a := candidates[k], answers[k];
            var before := Fitting(candidates[..k], answers[..k], cls);
            Fitting(candidates[..k + 1], answers[..k + 1], cls) ==
            if Fits(c, a, cls) then before + [Sighting(c.outPoint, c.birthBlock, c.capacity, a.verdict.value.kind)]
            else before
    ensures OutPoints(candidates[..k + 1]) == OutPoints(candidates[..k]) + {candidates[k].outPoint}
    ensures NoRepeat(candidates) ==> candidates[k].outPoint !in OutPoints(candidates[..k])
    ensures candidates[k].outPoint in OutPoints(candidates)
  {
    assert candidates[..k + 1] == candidates[..k] + [candidates[k]] && answers[..k + 1] == answers[..k] + [answers[k]];
    FittingOneMore(candidates[..k], answers[..k], cls, candidates[k], answers[k]);
    OutPointsAppend(candidates[..k], candidates[k]);
    assert candidates[k] in candidates;
  }

  lemma {:induction false} RestOfList(candidates: seq<Candidate>, answers: seq<Answer>, cls: CompositionClass, k: nat)
    requires |candidates| == |answers| && k <= |candidates|
    ensures Fitting(candidates, answers, cls) ==
            Fitting(candidates[..k], answers[..k], cls) + Fitting(candidates[k..], answers[k..], cls)
  {
    assert candidates == candidates[..k] + candidates[k..] && answers == answers[..k] + answers[k..];
    FittingConcat(candidates[..k], candidates[k..], answers[..k], answers[k..], cls);
  }

  lemma {:induction false} SightingsOneMore(cells: seq<Cell>, cell: Cell, early: seq<Sighting>, fit: seq<Sighting>)
    requires Sightings(cells) == early + fit
    ensures Sightings(cells + [cell]) == early + (fit + [cell.seen])
  {
  }

  /** Once the target is met, nothing later in the list matters. */
  lemma {:induction false} TakeSettled<T>(early: seq<T>, late: seq<T>, n: nat)
    requires |Take(early, n)| >= n
    ensures Take(early + late, n) == Take(early, n)
  {
  }

  // ----- a whole bucket -----

  /** No outpoint occurs twice within one chunk of the list, except for those admitted before. */
  ghost predicate ChunkwiseDistinct(before: set<OutPoint>, candidates: seq<Candidate>, size: nat)
    requires size > 0
  {
    forall i, j :: 0 <= i < j < |candidates| && i / size == j / size && candidates[i].outPoint !in before
      ==> candidates[i].outPoint != candidates[j].outPoint
  }

  /** A bucket with room for two Cells repeats an outpoint only if some chunk does. */
  ghost predicate StagesNoRepeat(before: set<OutPoint>, candidates: seq<Candidate>, target: nat, size: nat)
    requires size > 0
  {
    target < 2 || ChunkwiseDistinct(before, candidates, size)
  }

  lemma {:induction false} AdmittedHelps(before: set<OutPoint>, candidates: seq<Candidate>, target: nat, size: nat)
    requires size > 0
    ensures StagesNoRepeat({}, candidates, target, size) ==> StagesNoRepeat(before, candidates, target, size)
  {
  }

  ghost predicate IsChunkStart(size: nat, chunk: nat, from: nat) {
    from == chunk * size
  }

  lemma {:induction false} NextChunkStart(size: nat, chunk: nat, from: nat)
    ensures IsChunkStart(size, 0, 0)
    ensures IsChunkStart(size, chunk, from) ==> IsChunkStart(size, chunk + 1, from + size)
  {
  }

  lemma {:induction false} ChunkIsDistinct(before: set<OutPoint>, candidates: seq<Candidate>, size: nat, chunk: nat,
                                           from: nat, to: nat)
    requires size > 0 && IsChunkStart(size, chunk, from) && from <= to <= |candidates| && to <= from + size
    requires ChunkwiseDistinct(before, candidates, size)
    ensures RepeatsOnly(before, candidates[from..to])
  {
    forall i, j | 0 <= i < j < to - from && candidates[from..to][i].outPoint !in before
      ensures candidates[from..to][i].outPoint != candidates[from..to][j].outPoint
    {
      InChunk(size, chunk, i);
      InChunk(size, chunk, j);
      assert candidates[from + i].outPoint != candidates[from + j].outPoint;
    }
  }

  lemma {:induction false} ChunkStagesNoRepeat(before: set<OutPoint>, candidates: seq<Candidate>, target: nat, size: nat,
                                               chunk: nat, from: nat, to: nat)
    requires size > 0 && IsChunkStart(size, chunk, from) && from <= to <= |candidates| && to <= from + size
    ensures StagesNoRepeat(before, candidates, target, size) ==> target < 2 || RepeatsOnly(before, candidates[from..to])
  {
    hide IsChunkStart, RepeatsOnly;
    if ChunkwiseDistinct(before, candidates, size) {
      ChunkIsDistinct(before, candidates, size, chunk, from, to);
    }
  }

  lemma {:induction false} InChunk(size: nat, chunk: nat, offset: nat)
    requires offset < size
    ensures (chunk * size + offset) / size == chunk
  {
    var n := chunk * size + offset;
    QuotientOrder(n / size, n % size, chunk, offset, size);
    QuotientOrder(chunk, offset, n / size, n % size, size);
  }

  /** A candidate goes unasked exactly if its outpoint was admitted before the bucket or staged from an earlier chunk. */
  ghost predicate PassedOver(before: set<OutPoint>, candidates: seq<Candidate>, answers: seq<Answer>,
                             cls: CompositionClass, size: nat)
    requires |answers| <= |candidates| && size > 0
  {
    forall i :: 0 <= i < |answers| ==>
      (answers[i].Unasked? <==> candidates[i].outPoint in before || StagedEarlier(candidates, answers, cls, size, i))
  }

  ghost predicate StagedEarlier(candidates: seq<Candidate>, answers: seq<Answer>, cls: CompositionClass, size: nat, i: nat)
    requires i < |answers| <= |candidates| && size > 0
  {
    exists h :: 0 <= h < i && h / size < i / size && Fits(candidates[h], answers[h], cls) &&
      candidates[h].outPoint == candidates[i].outPoint
  }

  /** What a bucket is, for any node: the first `target` of the candidates that its answers confirm, where `answers` is what
      became of each candidate until the bucket was full. */
  ghost predicate Bucketed(before: set<OutPoint>, candidates: seq<Candidate>, answers: seq<Answer>, cls: CompositionClass,
                           target: nat, size: nat, cells: seq<Cell>)
    requires size > 0
  {
    |answers| <= |candidates| && (|answers| < |candidates| ==> |cells| == target) &&
    Sightings(cells) == Take(Fitting(candidates[..|answers|], answers, cls), target) &&
    PassedOver(before, candidates, answers, cls, size)
  }

  /** Every Cell is one of the candidates, with the capacity the candidate claims and a kind of its class. */
  ghost predicate Confirmed(candidates: seq<Candidate>, cls: CompositionClass, cells: seq<Cell>) {
    forall k :: 0 <= k < |cells| ==> ConfirmedCell(candidates, cls, cells[k].seen)
  }

  ghost predicate ConfirmedCell(candidates: seq<Candidate>, cls: CompositionClass, seen: Sighting) {
    cls.Accepts(seen.kind) && Candidate(seen.outPoint, seen.capacity, seen.birthBlock) in candidates
  }

  /** A live cell of the class, in the world's eyes. */
  predicate IsOfClass(o: OutPoint, world: OutPoint -> Option<Body>, cls: CompositionClass) {
    world(o).Some? && world(o).value.Output? && cls.Accepts(world(o).value.kind)
  }

  function Truth(candidates: seq<Candidate>, world: OutPoint -> Option<Body>): (answers: seq<Answer>)
    ensures |answers| == |candidates|
    ensures forall i :: 0 <= i < |candidates| ==> answers[i] == Asked(world(candidates[i].outPoint))
  {
    seq(|candidates|, i requires 0 <= i < |candidates| => Asked(world(candidates[i].outPoint)))
  }

  /** The candidates the world itself confirms: no batches, no admitted sets, no order of replies. */
  function Eligible(candidates: seq<Candidate>, world: OutPoint -> Option<Body>, cls: CompositionClass): seq<Sighting> {
    Fitting(candidates, Truth(candidates, world), cls)
  }

  /** The candidates whose cell is live with the capacity they claim and of kind `only` or, without one, neither a deposit
      nor plain. */
  ghost function LiveOf(candidates: seq<Candidate>, world: OutPoint -> Option<Body>, only: Option<AssetKind>): seq<Sighting> {
    if candidates == [] then [] else
    var n := |candidates| - 1;
    var c, init := candidates[n], LiveOf(candidates[..n], world, only);
    match world(c.outPoint)
    case Some(Output(capacity, kind)) =>
      if capacity == c.capacity && (if only.Some? then kind == only.value else kind != Dao && kind != Native)
      then init + [Sighting(c.outPoint, c.birthBlock, capacity, kind)] else init
    case _ => init
  }

  ghost predicate FirstOf<T>(some: seq<T>, all: seq<T>, n: nat) {
    some <= all && |some| == Min(n, |all|)
  }

  /** The kinds of a class, one by one. */
  ghost predicate IsKindOf(cls: CompositionClass, kind: AssetKind) {
    (cls.ForDao? ==> kind == Dao) && (cls.ForPlain? ==> kind == Native) &&
    (cls.ForTyped? ==> kind != Dao && kind != Native)
  }

  /** Every kind belongs to exactly one class. */
  lemma {:induction false} OneClassEach(kind: AssetKind)
    ensures kind == Dao ==> forall cls: CompositionClass :: cls.Accepts(kind) <==> cls == ForDao
    ensures kind == Native ==> forall cls: CompositionClass :: cls.Accepts(kind) <==> cls == ForPlain
    ensures kind != Dao && kind != Native ==> forall cls: CompositionClass :: cls.Accepts(kind) <==> cls == ForTyped
  {
  }

  lemma {:induction false} EligibleIsLive(candidates: seq<Candidate>, world: OutPoint -> Option<Body>)
    ensures Eligible(candidates, world, ForDao) == LiveOf(candidates, world, Some(Dao))
    ensures Eligible(candidates, world, ForPlain) == LiveOf(candidates, world, Some(Native))
    ensures Eligible(candidates, world, ForTyped) == LiveOf(candidates, world, None)
  {
    if candidates != [] {
      var n := |candidates| - 1;
      EligibleIsLive(candidates[..n], world);
      assert Truth(candidates, world)[..n] == Truth(candidates[..n], world);
    }
  }

  lemma {:induction false} TakeIsFirst<T>(some: seq<T>, all: seq<T>, n: nat)
    requires some == Take(all, n)
    ensures FirstOf(some, all, n)
  {
  }

  /** An honest bucket, in the world's own terms. */
  ghost predicate HonestCells(candidates: seq<Candidate>, world: OutPoint -> Option<Body>, only: Option<AssetKind>,
                              target: nat, cells: seq<Cell>) {
    FirstOf(Sightings(cells), LiveOf(candidates, world, only), target)
  }

  ghost predicate AllOfKind(cells: seq<Cell>, cls: CompositionClass) {
    forall k :: 0 <= k < |cells| ==> IsKindOf(cls, cells[k].seen.kind)
  }

  lemma {:induction false} ConfirmedAreOfKind(candidates: seq<Candidate>, cls: CompositionClass, cells: seq<Cell>)
    requires Confirmed(candidates, cls, cells)
    ensures AllOfKind(cells, cls)
  {
    forall k | 0 <= k < |cells| ensures IsKindOf(cls, cells[k].seen.kind) {
      assert ConfirmedCell(candidates, cls, cells[k].seen);
    }
  }

  lemma {:induction false} HonestlyOfKind(candidates: seq<Candidate>, world: OutPoint -> Option<Body>, cls: CompositionClass,
                                          target: nat, cells: seq<Cell>)
    requires Sightings(cells) == Take(Eligible(candidates, world, cls), target)
    ensures HonestCells(candidates, world, if cls.ForDao? then Some(Dao) else if cls.ForPlain? then Some(Native) else None,
                        target, cells)
  {
    hide LiveOf, Eligible, Take, FirstOf;
    EligibleIsLive(candidates, world);
    TakeIsFirst(Sightings(cells), Eligible(candidates, world, cls), target);
  }

  lemma {:induction false} SameFits(candidates: seq<Candidate>, a: seq<Answer>, b: seq<Answer>, cls: CompositionClass)
    requires |candidates| == |a| == |b|
    requires forall i :: 0 <= i < |candidates| ==>
               a[i] == b[i] || (!Fits(candidates[i], a[i], cls) && !Fits(candidates[i], b[i], cls))
    ensures Fitting(candidates, a, cls) == Fitting(candidates, b, cls)
  {
    if candidates != [] {
      var n := |candidates| - 1;
      SameFits(candidates[..n], a[..n], b[..n], cls);
      assert a[n] == b[n] || (!Fits(candidates[n], a[n], cls) && !Fits(candidates[n], b[n], cls));
    }
  }

  /** Over duplicate-free candidates an honest node leaves no trace of batching or of what was passed over. */
  lemma {:induction false} HonestBucket(candidates: seq<Candidate>, answers: seq<Answer>, cls: CompositionClass,
                                        target: nat, before: set<OutPoint>, size: nat, world: OutPoint -> Option<Body>)
    requires |answers| <= |candidates| && NoRepeat(candidates) && size > 0
    requires PassedOver(before, candidates, answers, cls, size) && Truthful(candidates, answers, world)
    requires forall o :: o in before ==> !IsOfClass(o, world, cls)
    requires |answers| < |candidates|
             ==> |Take(Fitting(candidates[..|answers|], answers, cls), target)| == target
    ensures Take(Fitting(candidates[..|answers|], answers, cls), target) == Take(Eligible(candidates, world, cls), target)
  {
    hide Take, OutPoints;
    var m, truth := |answers|, Truth(candidates, world);
    forall i | 0 <= i < m
      ensures answers[i] == truth[i] ||
              (!Fits(candidates[..m][i], answers[i], cls) && !Fits(candidates[..m][i], truth[i], cls))
    {
      if answers[i].Unasked? {
        assert !StagedEarlier(candidates, answers, cls, size, i);
        assert candidates[i].outPoint in before;
      }
    }
    SameFits(candidates[..m], answers, truth[..m], cls);
    RestOfList(candidates, truth, cls, m);
    if m < |candidates| {
      TakeSettled(Fitting(candidates[..m], answers, cls), Fitting(candidates[m..], truth[m..], cls), target);
    } else {
      assert candidates[..m] == candidates && truth[..m] == truth;
    }
  }

  lemma {:induction false} StagedIsConfirmed(candidates: seq<Candidate>, answers: seq<Answer>, cls: CompositionClass,
                                             target: nat, cells: seq<Cell>)
    requires |answers| <= |candidates|
    requires Sightings(cells) == Take(Fitting(candidates[..|answers|], answers, cls), target)
    ensures Confirmed(candidates, cls, cells)
  {
    forall k | 0 <= k < |cells| ensures ConfirmedCell(candidates, cls, cells[k].seen) {
      assert Sightings(cells)[k] == cells[k].seen;
      FittingOrigins(candidates[..|answers|], answers, cls, cells[k].seen);
    }
  }

  lemma {:induction false} StagedIsOfClass(candidates: seq<Candidate>, answers: seq<Answer>, cls: CompositionClass,
                                           target: nat, cells: seq<Cell>, world: OutPoint -> Option<Body>)
    requires |answers| <= |candidates| && Truthful(candidates, answers, world)
    requires Sightings(cells) == Take(Fitting(candidates[..|answers|], answers, cls), target)
    ensures forall o :: o in CellOutPoints(cells) ==> IsOfClass(o, world, cls)
  {
    forall k | 0 <= k < |cells| ensures IsOfClass(cells[k].seen.outPoint, world, cls) {
      assert Sightings(cells)[k] == cells[k].seen;
      FittingOrigins(candidates[..|answers|], answers, cls, cells[k].seen);
    }
    OutPointsOfCells(cells);
  }

  /** One more batch: the answers so far, then the batch's. */
  lemma {:induction false} NextBatch(candidates: seq<Candidate>, answers: seq<Answer>, asked: seq<Answer>,
                                     cls: CompositionClass, target: nat, before: set<OutPoint>, cells: seq<Cell>,
                                     size: nat, chunk: nat)
    requires |answers| + |asked| <= |candidates| && |cells| < target
    requires 0 < size && |asked| <= size && IsChunkStart(size, chunk, |answers|)
    requires Sightings(cells) == Take(Fitting(candidates[..|answers|], answers, cls), target)
    requires PassedOver(before, candidates, answers, cls, size)
    requires forall i :: 0 <= i < |asked| ==>
               (asked[i].Unasked? <==> candidates[|answers| + i].outPoint in before + CellOutPoints(cells))
    ensures var from, to := |answers|, |answers| + |asked|;
            Take(Sightings(cells) + Fitting(candidates[from..to], asked, cls), target) ==
            Take(Fitting(candidates[..to], answers + asked, cls), target)
    ensures PassedOver(before, candidates, answers + asked, cls, size)
  {
    hide Fitting, Fits, IsChunkStart, CellOutPoints, Take, StagedEarlier;
    var from, to := |answers|, |answers| + |asked|;
    assert candidates[..to] == candidates[..from] + candidates[from..to];
    FittingConcat(candidates[..from], candidates[from..to], answers, asked, cls);
    NextTaken(cells, candidates, answers, asked, cls, target);
    var all := answers + asked;
    forall i | 0 <= i < to
      ensures all[i].Unasked? <==> candidates[i].outPoint in before || StagedEarlier(candidates, all, cls, size, i)
    {
      if i < from {
        assert all[i] == answers[i];
        LaterAnswers(candidates, answers, asked, cls, size, i);
      } else {
        assert all[i] == asked[i - from];
        StagedAreEarlier(candidates, answers, asked, cls, target, cells, size, chunk, i);
      }
    }
  }

  lemma {:induction false} NextTaken(cells: seq<Cell>, candidates: seq<Candidate>, answers: seq<Answer>, asked: seq<Answer>,
                                     cls: CompositionClass, target: nat)
    requires |answers| + |asked| <= |candidates| && |cells| < target
    requires Sightings(cells) == Take(Fitting(candidates[..|answers|], answers, cls), target)
    ensures Sightings(cells) == Fitting(candidates[..|answers|], answers, cls)
  {
    hide Fitting;
  }

  lemma {:induction false} LaterAnswers(candidates: seq<Candidate>, answers: seq<Answer>, asked: seq<Answer>,
                                        cls: CompositionClass, size: nat, i: nat)
    requires i < |answers| && |answers| + |asked| <= |candidates| && size > 0
    ensures StagedEarlier(candidates, answers, cls, size, i) <==> StagedEarlier(candidates, answers + asked, cls, size, i)
  {
    hide Fits;
    forall h | 0 <= h < i ensures (answers + asked)[h] == answers[h] {
    }
  }

  /** What an unfilled bucket holds is what earlier chunks staged. */
  lemma {:induction false} StagedAreEarlier(
      candidates: seq<Candidate>, answers: seq<Answer>, asked: seq<Answer>, cls: CompositionClass, target: nat,
      cells: seq<Cell>, size: nat, chunk: nat, i: nat)
    requires |answers| <= i < |answers| + |asked| <= |candidates| && |cells| < target
    requires 0 < size && |asked| <= size && IsChunkStart(size, chunk, |answers|)
    requires Sightings(cells) == Take(Fitting(candidates[..|answers|], answers, cls), target)
    ensures candidates[i].outPoint in CellOutPoints(cells) <==> StagedEarlier(candidates, answers + asked, cls, size, i)
  {
    hide Fitting, Fits, CellOutPoints, Take;
    var all := answers + asked;
    InChunk(size, chunk, i - |answers|);
    if candidates[i].outPoint in CellOutPoints(cells) {
      StagedIsEarlier(candidates, answers, asked, cls, target, cells, size, chunk, i);
    }
    if StagedEarlier(candidates, all, cls, size, i) {
      var h :| 0 <= h < i && h / size < i / size && Fits(candidates[h], all[h], cls) &&
        candidates[h].outPoint == candidates[i].outPoint;
      if h >= |answers| {
        InChunk(size, chunk, h - |answers|);
      }
      NextTaken(cells, candidates, answers, [], cls, target);
      var k := FittingHas(candidates[..|answers|], answers, cls, h);
      assert Sightings(cells)[k] == cells[k].seen;
      CellsHave(cells, k);
    }
  }

  lemma {:induction false} StagedIsEarlier(
      candidates: seq<Candidate>, answers: seq<Answer>, asked: seq<Answer>, cls: CompositionClass, target: nat,
      cells: seq<Cell>, size: nat, chunk: nat, i: nat)
    requires |answers| <= i < |answers| + |asked| <= |candidates| && candidates[i].outPoint in CellOutPoints(cells)
    requires 0 < size && IsChunkStart(size, chunk, |answers|) && i / size == chunk
    requires Sightings(cells) == Take(Fitting(candidates[..|answers|], answers, cls), target)
    ensures StagedEarlier(candidates, answers + asked, cls, size, i)
  {
    hide Fitting, Fits, CellOutPoints;
    OutPointsOfCells(cells);
    var k :| 0 <= k < |cells| && cells[k].seen.outPoint == candidates[i].outPoint;
    assert Sightings(cells)[k] == cells[k].seen;
    var early := candidates[..|answers|];
    FittingOrigins(early, answers, cls, cells[k].seen);
    var h :| 0 <= h < |early| && Fits(early[h], answers[h], cls) && early[h].outPoint == candidates[i].outPoint;
    assert early[h] == candidates[h] && (answers + asked)[h] == answers[h];
    BeforeChunk(size, chunk, h);
  }

  lemma {:induction false} FittingHas(candidates: seq<Candidate>, answers: seq<Answer>, cls: CompositionClass, h: nat)
    returns (k: nat)
    requires |candidates| == |answers| && h < |candidates| && Fits(candidates[h], answers[h], cls)
    ensures k < |Fitting(candidates, answers, cls)| && Fitting(candidates, answers, cls)[k].outPoint == candidates[h].outPoint
  {
    var n := |candidates| - 1;
    if h < n {
      k := FittingHas(candidates[..n], answers[..n], cls, h);
    } else {
      k := |Fitting(candidates[..n], answers[..n], cls)|;
    }
  }

  lemma {:induction false} CellsHave(cells: seq<Cell>, k: nat)
    requires k < |cells|
    ensures cells[k].seen.outPoint in CellOutPoints(cells)
  {
    if k < |cells| - 1 {
      CellsHave(cells[..|cells| - 1], k);
    }
  }

  lemma {:induction false} BeforeChunk(size: nat, chunk: nat, h: nat)
    requires 0 < size && h < chunk * size
    ensures h / size < chunk
  {
    if h / size >= chunk {
      MulMonotone(chunk, h / size, size);
    }
  }

  lemma {:induction false} NextTruths(candidates: seq<Candidate>, answers: seq<Answer>, asked: seq<Answer>,
                                      world: OutPoint -> Option<Body>)
    requires |answers| + |asked| <= |candidates| && Truthful(candidates, answers, world)
    requires Truthful(candidates[|answers|..|answers| + |asked|], asked, world)
    ensures Truthful(candidates, answers + asked, world)
  {
    var batch := candidates[|answers|..|answers| + |asked|];
    forall i | |answers| <= i < |answers| + |asked| ensures candidates[i] == batch[i - |answers|] {
    }
  }

  lemma {:induction false} OutPointsOfCells(cells: seq<Cell>)
    ensures forall o :: o in CellOutPoints(cells) ==> exists k :: 0 <= k < |cells| && cells[k].seen.outPoint == o
  {
    if cells != [] {
      var n := |cells| - 1;
      OutPointsOfCells(cells[..n]);
      forall o | o in CellOutPoints(cells[..n]) ensures exists k :: 0 <= k < |cells| && cells[k].seen.outPoint == o {
        var k :| 0 <= k < n && cells[..n][k].seen.outPoint == o;
        assert cells[k].seen.outPoint == o;
      }
    }
  }

  // ----- buckets side by side -----

  datatype Targets = Targets(dao: nat, typed: nat, plain: nat)

  datatype Candidates = Candidates(target: Targets, dao: seq<Candidate>, typed: seq<Candidate>, plain: seq<Candidate>)

  datatype Composition = Composition(dao: seq<Cell>, typed: seq<Cell>, plain: seq<Cell>)

  ghost predicate DistinctCells(cells: seq<Cell>) {
    forall i, j :: 0 <= i < j < |cells| ==> cells[i].id != cells[j].id
  }

  ghost predicate DistinctCellOutPoints(cells: seq<Cell>) {
    forall i, j :: 0 <= i < j < |cells| ==> cells[i].seen.outPoint != cells[j].seen.outPoint
  }

  lemma {:induction false} FreshIdsConcat(payload: OutPoint -> nat, before: set<nat>, a: seq<Cell>, b: seq<Cell>)
    requires FreshIds(payload, before, a) && FreshIds(payload, before + Ids(a), b)
    ensures FreshIds(payload, before, a + b) && Ids(a + b) == Ids(a) + Ids(b)
    decreases |b|
  {
    hide Tagged, InBand, FreshIds;
    if b == [] {
      assert a + b == a;
    } else {
      var n := |b| - 1;
      LastIsFresh(payload, before + Ids(a), b);
      FreshIdsConcat(payload, before, a, b[..n]);
      assert a + b == a + b[..n] + [b[n]];
      assert before + Ids(a) + Ids(b[..n]) == before + Ids(a + b[..n]);
      IdOneMore(payload, before, a + b[..n], b[n]);
      AdmittedOneMore(a + b[..n], b[n]);
    }
  }

  lemma {:induction false} LastIsFresh(payload: OutPoint -> nat, before: set<nat>, cells: seq<Cell>)
    requires cells != [] && FreshIds(payload, before, cells)
    ensures var n := |cells| - 1;
            var taken, home := before + Ids(cells[..n]), Tagged(payload(cells[n].seen.outPoint));
            FreshIds(payload, before, cells[..n]) && InBand(cells[n].id) && cells[n].id !in taken &&
            (home !in taken ==> cells[n].id == home)
  {
    hide Tagged, InBand;
  }

  lemma {:induction false} FreshOutPointsConcat(before: set<OutPoint>, a: seq<Cell>, b: seq<Cell>)
    requires FreshOutPoints(before, a) && FreshOutPoints(before + CellOutPoints(a), b)
    ensures FreshOutPoints(before, a + b) && CellOutPoints(a + b) == CellOutPoints(a) + CellOutPoints(b)
    decreases |b|
  {
    if b == [] {
      assert a + b == a;
    } else {
      var n := |b| - 1;
      FreshOutPointsConcat(before, a, b[..n]);
      assert (a + b)[..|a + b| - 1] == a + b[..n];
    }
  }

  lemma {:induction false} FreshIsDistinct(payload: OutPoint -> nat, before: set<nat>, cells: seq<Cell>)
    requires FreshIds(payload, before, cells)
    ensures DistinctCells(cells)
    ensures forall k :: 0 <= k < |cells| ==> InBand(cells[k].id) && cells[k].id in Ids(cells)
  {
    hide Tagged, InBand;
    if cells != [] {
      var n := |cells| - 1;
      FreshIsDistinct(payload, before, cells[..n]);
      forall k | 0 <= k < n ensures cells[k] == cells[..n][k] {
      }
    }
  }

  lemma {:induction false} StagedOutPoints(payload: OutPoint -> nat, outsBefore: set<OutPoint>, idsBefore: set<nat>,
                                           cells: seq<Cell>, outs: set<OutPoint>, ids: set<nat>)
    requires Staged(payload, outsBefore, idsBefore, cells, outs, ids)
    ensures outs == outsBefore + CellOutPoints(cells) && |ids| == |idsBefore| + |cells|
  {
  }

  lemma {:induction false} FreshOutPointsAreDistinct(before: set<OutPoint>, cells: seq<Cell>)
    requires FreshOutPoints(before, cells)
    ensures DistinctCellOutPoints(cells)
    ensures forall k :: 0 <= k < |cells| ==> cells[k].seen.outPoint in CellOutPoints(cells)
  {
    if cells != [] {
      var n := |cells| - 1;
      FreshOutPointsAreDistinct(before, cells[..n]);
      forall k | 0 <= k < n ensures cells[k] == cells[..n][k] {
      }
    }
  }

  /** The classes share no kind: what the world calls one is not the other. */
  lemma {:induction false} ClassesAreDisjoint(outs: set<OutPoint>, world: OutPoint -> Option<Body>, a: CompositionClass,
                                              b: CompositionClass)
    requires a != b && forall o :: o in outs ==> IsOfClass(o, world, a)
    ensures forall o :: o in outs ==> !IsOfClass(o, world, b)
  {
  }

  /** A full bucket already holds the outcome of the whole list. */
  lemma {:induction false} SettledEarly(staged: seq<Cell>, early: seq<Sighting>, pending: seq<Candidate>,
                                        answers: seq<Answer>, cls: CompositionClass, k: nat, target: nat)
    requires |pending| == |answers| && k <= |pending| && |staged| == target
    requires Sightings(staged) == early + Fitting(pending[..k], answers[..k], cls)
    ensures Sightings(staged) == Take(early + Fitting(pending, answers, cls), target)
  {
    hide Fitting;
    RestOfList(pending, answers, cls, k);
    TakeSettled(Sightings(staged), Fitting(pending[k..], answers[k..], cls), target);
    assert Sightings(staged) + Fitting(pending[k..], answers[k..], cls) == early + Fitting(pending, answers, cls);
  }

  /** An honest node's batch is never refused, and its verdicts are the world's. */
  lemma {:induction false} HonestlyAnswered(script: BatchScript, clock: nat, first: nat, outPoints: seq<OutPoint>,
                                            world: OutPoint -> Option<Body>, reply: Result<seq<Option<Body>>>)
    requires Honest(script, world) && Replied(script, clock, first, outPoints, reply)
    ensures reply == Ok(Said(outPoints, world)) && Some(Broken) !in reply.value
  {
    hide Answers;
    if outPoints != [] {
      assert HonestReply(script, clock, first, outPoints, world);
      AnswersAreUnique(script(clock, first, outPoints).value, first, reply.value, Said(outPoints, world));
    }
  }

  /** A candidate asked about is still not admitted when its turn comes, unless one staged before it names the same
      outpoint. */
  lemma {:induction false} NotAdmittedYet(pending: seq<Candidate>, k: nat, target: nat, before: nat, staged: nat,
                                          outs: set<OutPoint>, now: set<OutPoint>)
    requires k < |pending| && before <= staged < target && (target < 2 || NoRepeat(pending))
    requires OutPoints(pending) !! outs && now <= outs + OutPoints(pending[..k]) && (staged == before ==> now == outs)
    ensures pending[k].outPoint !in now
  {
    hide OutPoints;
    NextOfList(pending, seq(|pending|, i => Unasked), ForDao, k);
  }

  lemma {:induction false} RepliedInFull(script: BatchScript, clock: nat, first: nat, outPoints: seq<OutPoint>,
                                         live: seq<Option<Body>>)
    requires Replied(script, clock, first, outPoints, Ok(live))
    ensures |live| == |outPoints|
  {
  }

  class CkbHydrator {
    const rpc: BatchClient
    const batchSize: nat

    /** How a transaction hash is written out. */
    const text: Hash -> seq<byte>
    const payload: OutPoint -> nat := PayloadOf(text)

    constructor (rpc: BatchClient, text: Hash -> seq<byte>)
      ensures this.rpc == rpc && batchSize == 64 && this.text == text
    {
      this.rpc := rpc;
      batchSize := LIVE_CELL_BATCH_SIZE;
      this.text := text;
    }

    /** Admits the confirmed candidates of one answered batch until the bucket is full. */
    method StageLive(pending: seq<Candidate>, live: seq<Option<Body>>, cls: CompositionClass, target: nat,
                     admission: Admission, cells: seq<Cell>, ghost outsBefore: set<OutPoint>, ghost idsBefore: set<nat>)
      returns (r: Result<seq<Cell>>)
      requires |live| == |pending| && |cells| <= target && |idsBefore| + target <= COMPOSITION_ID_SPAN
      requires Staged(payload, outsBefore, idsBefore, cells, admission.outPoints, admission.ids)
      modifies admission
      ensures r.Ok? ==> Staged(payload, outsBefore, idsBefore, r.value, admission.outPoints, admission.ids)
      ensures r.Ok? ==> |r.value| <= target &&
                        Sightings(r.value) == Take(Sightings(cells) + Fitting(pending, AllAsked(live), cls), target)
      ensures r.Ok? && (target < 2 || NoRepeat(pending)) && OutPoints(pending) !! old(admission.outPoints)
              && FreshOutPoints(outsBefore, cells)
              ==> FreshOutPoints(outsBefore, r.value)
      ensures Some(Broken) !in live ==> r.Ok?
    {
      hide FreshIds, FreshOutPoints, Tagged, InBand, Ids, CellOutPoints, Fitting, FirstFree, Probe, OutPoints, NoRepeat,
           Staged, Sightings;
      var staged := cells;
      ghost var answers := AllAsked(live);
      ghost var apart := (target < 2 || NoRepeat(pending)) && OutPoints(pending) !! admission.outPoints &&
        FreshOutPoints(outsBefore, cells);
      StartOfList(pending, answers, cls);
      for k := 0 to |pending|
        invariant |staged| <= target
        invariant Staged(payload, outsBefore, idsBefore, staged, admission.outPoints, admission.ids)
        invariant Sightings(staged) == Sightings(cells) + Fitting(pending[..k], answers[..k], cls)
        invariant admission.outPoints <= old(admission.outPoints) + OutPoints(pending[..k])
        invariant |cells| <= |staged| && (|staged| == |cells| ==> admission.outPoints == old(admission.outPoints))
        invariant apart ==> FreshOutPoints(outsBefore, staged)
      {
        NextOfList(pending, answers, cls, k);
        if |staged| >= target {
          SettledEarly(staged, Sightings(cells), pending, answers, cls, k, target);
          return Ok(staged);
        }
        var candidate, result := pending[k], live[k];
        if result.None? || result.value.NoCell? {
          continue;
        }
        if result.value.Broken? {
          return Err(Malformed);
        }
        var output := result.value;
        if output.capacity != candidate.capacity || !cls.Accepts(output.kind) {
          continue;
        }
        StagedOutPoints(payload, outsBefore, idsBefore, staged, admission.outPoints, admission.ids);
        BandHasRoom(admission.ids);
        ghost var outs, ids := admission.outPoints, admission.ids;
        var id := admission.AllocateId(candidate.outPoint, text);
        var cell := Cell(id, Sighting(candidate.outPoint, candidate.birthBlock, output.capacity, output.kind));
        StageOneMore(payload, outsBefore, idsBefore, staged, outs, ids, cell);
        SightingsOneMore(staged, cell, Sightings(cells), Fitting(pending[..k], answers[..k], cls));
        if apart {
          NotAdmittedYet(pending, k, target, |cells|, |staged|, old(admission.outPoints), outs);
          FreshOneMore(outsBefore, staged, cell);
        }
        admission.outPoints := admission.outPoints + {candidate.outPoint};
        staged := staged + [cell];
      }
      assert pending[..|pending|] == pending && answers[..|pending|] == answers;
      r := Ok(staged);
    }

    /** Asks the node about the batch's candidates that are not admitted yet, and stages what it confirms. */
    method HydrateBatch(batch: seq<Candidate>, cls: CompositionClass, target: nat, admission: Admission,
                        cells: seq<Cell>, ghost outsBefore: set<OutPoint>, ghost idsBefore: set<nat>,
                        ghost world: OutPoint -> Option<Body>, ghost verdict: nat -> Option<Body>)
      returns (r: Result<seq<Cell>>, ghost answers: seq<Answer>)
      requires |cells| <= target && |idsBefore| + target <= COMPOSITION_ID_SPAN
      requires Staged(payload, outsBefore, idsBefore, cells, admission.outPoints, admission.ids)
      modifies rpc, admission
      ensures |answers| == |batch|
      ensures r.Ok? ==> Staged(payload, outsBefore, idsBefore, r.value, admission.outPoints, admission.ids)
      ensures r.Ok? ==> |r.value| <= target &&
                        Sightings(r.value) == Take(Sightings(cells) + Fitting(batch, answers, cls), target)
      ensures forall i :: 0 <= i < |batch| ==> (answers[i].Unasked? <==> batch[i].outPoint in old(admission.outPoints))
      ensures r.Ok? && (target < 2 || RepeatsOnly(outsBefore, batch)) && FreshOutPoints(outsBefore, cells)
              ==> FreshOutPoints(outsBefore, r.value)
      ensures Honest(rpc.script, world) ==> r.Ok? && Truthful(batch, answers, world)
      ensures Numbered(rpc.script, verdict) ==>
                r.Ok? && Numbers(answers, old(rpc.nextId), verdict) && rpc.nextId == old(rpc.nextId) + Asks(answers)
    {
      hide FreshIds, FreshOutPoints, Fitting, Staged, Answers, NoRepeat, Truthful, Take, Honest, Numbered, Numbers, Replied,
           Asks, RepeatsOnly, CellOutPoints;
      StagedOutPoints(payload, outsBefore, idsBefore, cells, admission.outPoints, admission.ids);
      ghost var admitted := admission.outPoints;
      var pending: seq<Candidate> := [];
      for i := 0 to |batch|
        invariant admission.outPoints == admitted && pending == Pending(batch[..i], admitted)
      {
        assert batch[..i + 1] == batch[..i] + [batch[i]] && batch[..i + 1][..i] == batch[..i];
        if batch[i].outPoint !in admission.outPoints {
          pending := pending + [batch[i]];
        }
      }
      assert batch[..|batch|] == batch;
      var outPoints := seq(|pending|, k requires 0 <= k < |pending| => pending[k].outPoint);
      ghost var clock, first := rpc.calls, rpc.nextId;
      var reply := rpc.GetLiveCells(outPoints);
      if Honest(rpc.script, world) {
        HonestlyAnswered(rpc.script, clock, first, outPoints, world, reply);
      }
      if Numbered(rpc.script, verdict) {
        AnsweredByNumber(rpc.script, clock, first, outPoints, verdict, reply);
      }
      if reply.Err? {
        answers := seq(|batch|, i requires 0 <= i < |batch| => if batch[i].outPoint in admitted then Unasked else Asked(None));
        return Err(reply.fault), answers;
      }
      var live := reply.value;
      assert |live| == |outPoints| by { RepliedInFull(rpc.script, clock, first, outPoints, live); }
      answers := Spread(batch, admitted, live);
      SpreadFits(batch, admitted, live, cls);
      if Numbered(rpc.script, verdict) {
        SpreadNumbers(batch, admitted, live, first, verdict);
      }
      if Honest(rpc.script, world) {
        SpreadIsTruthful(batch, admitted, live, world);
      }
      if RepeatsOnly(outsBefore, batch) {
        PendingDistinct(outsBefore, batch, admitted);
      }
      r := StageLive(pending, live, cls, target, admission, cells, outsBefore, idsBefore);
    }

    /** Stages up to `target` Cells of one class: the first `target` candidates that were confirmed, where `answers`
        is what became of each candidate until the bucket was full. For every node: ids and admitted sets grow by
        exactly what is staged, every Cell is a confirmed candidate, and outpoints repeat only if a single chunk
        repeats one. For an honest node the bucket is the first `target` candidates it confirms. */
    method HydrateBucket(candidates: seq<Candidate>, target: nat, cls: CompositionClass, admission: Admission,
                         ghost world: OutPoint -> Option<Body>, ghost verdict: nat -> Option<Body>)
      returns (r: Result<seq<Cell>>, ghost answers: seq<Answer>)
      requires batchSize > 0 && |admission.ids| + target <= COMPOSITION_ID_SPAN
      modifies rpc, admission
      ensures r.Ok? ==> |r.value| <= target && Confirmed(candidates, cls, r.value) && AllOfKind(r.value, cls)
      ensures r.Ok? ==> Staged(payload, old(admission.outPoints), old(admission.ids), r.value, admission.outPoints,
                               admission.ids)
      ensures r.Ok? ==> Bucketed(old(admission.outPoints), candidates, answers, cls, target, batchSize, r.value)
      ensures r.Ok? && StagesNoRepeat(old(admission.outPoints), candidates, target, batchSize)
              ==> FreshOutPoints(old(admission.outPoints), r.value)
      ensures Numbered(rpc.script, verdict) ==> r.Ok? && Numbers(answers, old(rpc.nextId), verdict)
      ensures Honest(rpc.script, world) ==> r.Ok? && forall o :: o in CellOutPoints(r.value) ==> IsOfClass(o, world, cls)
      ensures Honest(rpc.script, world) && NoRepeat(candidates)
              && (forall o :: o in old(admission.outPoints) ==> !IsOfClass(o, world, cls))
              ==> HonestCells(candidates, world,
                              if cls.ForDao? then Some(Dao) else if cls.ForPlain? then Some(Native) else None, target, r.value)
    {
      hide FreshIds, FreshOutPoints, Fitting, NoRepeat, Honest, Confirmed, IsOfClass,
           CellOutPoints, Ids, OutPoints, PassedOver, IsChunkStart, Staged, Take, Numbered, Numbers, Asks, RepeatsOnly,
           StagesNoRepeat, Truthful, Sightings, Eligible, AllOfKind, HonestCells;
      var cells: seq<Cell> := [];
      answers := [];
      ghost var outs, ids := admission.outPoints, admission.ids;
      var from := 0;
      ghost var chunk: nat := 0;
      EmptyBucket(payload, outs, ids, candidates, cls, target, batchSize);
      AsksNothing(rpc.nextId, verdict);
      NextChunkStart(batchSize, 0, 0);
      NothingTruthful(candidates, world);
      while from < |candidates| && |cells| < target
        invariant from <= |candidates| && |answers| == from && |cells| <= target
        invariant from < |candidates| ==> IsChunkStart(batchSize, chunk, from)
        invariant Staged(payload, outs, ids, cells, admission.outPoints, admission.ids)
        invariant Sightings(cells) == Take(Fitting(candidates[..from], answers, cls), target)
        invariant PassedOver(outs, candidates, answers, cls, batchSize)
        invariant StagesNoRepeat(outs, candidates, target, batchSize) ==> FreshOutPoints(outs, cells)
        invariant Numbered(rpc.script, verdict)
                  ==> Numbers(answers, old(rpc.nextId), verdict) && rpc.nextId == old(rpc.nextId) + Asks(answers)
        invariant Honest(rpc.script, world) ==> Truthful(candidates, answers, world)
      {
        var to := Min(from + batchSize, |candidates|);
        ChunkStagesNoRepeat(outs, candidates, target, batchSize, chunk, from, to);
        NextChunkStart(batchSize, chunk, from);
        StagedOutPoints(payload, outs, ids, cells, admission.outPoints, admission.ids);
        ghost var asked;
        var staged;
        staged, asked := HydrateBatch(candidates[from..to], cls, target, admission, cells, outs, ids, world, verdict);
        if staged.Err? {
          return Err(staged.fault), answers;
        }
        NextBatch(candidates, answers, asked, cls, target, outs, cells, batchSize, chunk);
        NextNumbers(answers, asked, old(rpc.nextId), verdict);
        if Honest(rpc.script, world) {
          NextTruths(candidates, answers, asked, world);
        }
        cells, from, answers, chunk := staged.value, to, answers + asked, chunk + 1;
      }
      r := Ok(cells);
      StagedIsConfirmed(candidates, answers, cls, target, cells);
      ConfirmedAreOfKind(candidates, cls, cells);
      if Honest(rpc.script, world) {
        StagedIsOfClass(candidates, answers, cls, target, cells, world);
        if NoRepeat(candidates) && forall o :: o in outs ==> !IsOfClass(o, world, cls) {
          HonestBucket(candidates, answers, cls, target, outs, batchSize, world);
          HonestlyOfKind(candidates, world, cls, target, cells);
        }
      }
    }

    /** All three buckets over one admission. */
    method HydrateGalaxyComposition(candidates: Candidates, ghost world: OutPoint -> Option<Body>)
      returns (r: Result<Composition>)
      requires batchSize > 0
      requires candidates.target.dao + candidates.target.typed + candidates.target.plain <= COMPOSITION_ID_SPAN
      modifies rpc
      ensures r.Ok? ==> |r.value.dao| <= candidates.target.dao && |r.value.typed| <= candidates.target.typed &&
                        |r.value.plain| <= candidates.target.plain
      ensures r.Ok? ==> Confirmed(candidates.dao, ForDao, r.value.dao) &&
                        Confirmed(candidates.typed, ForTyped, r.value.typed) &&
                        Confirmed(candidates.plain, ForPlain, r.value.plain)
      ensures r.Ok? ==> AllOfKind(r.value.dao, ForDao) && AllOfKind(r.value.typed, ForTyped) &&
                        AllOfKind(r.value.plain, ForPlain)
      ensures r.Ok? ==> var all := r.value.dao + r.value.typed + r.value.plain;
                        FreshIds(payload, {}, all) && DistinctCells(all) &&
                        forall k :: 0 <= k < |all| ==> InBand(all[k].id)
      ensures r.Ok? && StagesNoRepeat({}, candidates.dao, candidates.target.dao, batchSize)
              && StagesNoRepeat({}, candidates.typed, candidates.target.typed, batchSize)
              && StagesNoRepeat({}, candidates.plain, candidates.target.plain, batchSize)
              ==> DistinctCellOutPoints(r.value.dao + r.value.typed + r.value.plain)
      ensures Honest(rpc.script, world) ==> r.Ok?
      ensures Honest(rpc.script, world) && NoRepeat(candidates.dao) && NoRepeat(candidates.typed)
              && NoRepeat(candidates.plain)
              ==> HonestCells(candidates.dao, world, Some(Dao), candidates.target.dao, r.value.dao) &&
                  HonestCells(candidates.typed, world, None, candidates.target.typed, r.value.typed) &&
                  HonestCells(candidates.plain, world, Some(Native), candidates.target.plain, r.value.plain)
    {
      hide FreshIds, FreshOutPoints, Fitting, NoRepeat, Honest, StagesNoRepeat, Confirmed, IsOfClass, Eligible, Numbered,
           CellOutPoints, Ids, DistinctCells, DistinctCellOutPoints, InBand, AllOfKind, HonestCells;
      var admission := new Admission();
      var dao, daoAnswers := HydrateBucket(candidates.dao, candidates.target.dao, ForDao, admission, world, n => None);
      if dao.Err? {
        return Err(dao.fault);
      }
      ghost var daoOuts := admission.outPoints;
      assert daoOuts == CellOutPoints(dao.value) && admission.ids == Ids(dao.value);
      var typed, typedAnswers := HydrateBucket(candidates.typed, candidates.target.typed, ForTyped, admission, world, n => None);
      if typed.Err? {
        return Err(typed.fault);
      }
      var two := dao.value + typed.value;
      if Honest(rpc.script, world) {
        ClassesAreDisjoint(daoOuts, world, ForDao, ForTyped);
        ClassesAreDisjoint(daoOuts, world, ForDao, ForPlain);
        ClassesAreDisjoint(CellOutPoints(typed.value), world, ForTyped, ForPlain);
      }
      FreshIdsConcat(payload, {}, dao.value, typed.value);
      assert admission.outPoints == daoOuts + CellOutPoints(typed.value) && admission.ids == Ids(two);
      var plain, plainAnswers := HydrateBucket(candidates.plain, candidates.target.plain, ForPlain, admission, world, n => None);
      if plain.Err? {
        return Err(plain.fault);
      }
      FreshIdsConcat(payload, {}, two, plain.value);
      FreshIsDistinct(payload, {}, two + plain.value);
      if StagesNoRepeat({}, candidates.dao, candidates.target.dao, batchSize) &&
         StagesNoRepeat({}, candidates.typed, candidates.target.typed, batchSize) &&
         StagesNoRepeat({}, candidates.plain, candidates.target.plain, batchSize) {
        AdmittedHelps(daoOuts, candidates.typed, candidates.target.typed, batchSize);
        AdmittedHelps(daoOuts + CellOutPoints(typed.value), candidates.plain, candidates.target.plain, batchSize);
        FreshOutPointsConcat({}, dao.value, typed.value);
        FreshOutPointsConcat({}, two, plain.value);
        FreshOutPointsAreDistinct({}, two + plain.value);
      }
      r := Ok(Composition(dao.value, typed.value, plain.value));
    }

    /** Two buckets, since plain cells are never topped up. */
    method HydrateGalaxyTopUp(candidates: Candidates, ghost world: OutPoint -> Option<Body>)
      returns (r: Result<(seq<Cell>, seq<Cell>)>)
      requires batchSize > 0 && candidates.target.dao + candidates.target.typed <= COMPOSITION_ID_SPAN
      modifies rpc
      ensures r.Ok? ==> |r.value.0| <= candidates.target.dao && |r.value.1| <= candidates.target.typed
      ensures r.Ok? ==> Confirmed(candidates.dao, ForDao, r.value.0) && Confirmed(candidates.typed, ForTyped, r.value.1)
      ensures r.Ok? ==> AllOfKind(r.value.0, ForDao) && AllOfKind(r.value.1, ForTyped)
      ensures r.Ok? ==> FreshIds(payload, {}, r.value.0 + r.value.1) && DistinctCells(r.value.0 + r.value.1)
      ensures r.Ok? && StagesNoRepeat({}, candidates.dao, candidates.target.dao, batchSize)
              && StagesNoRepeat({}, candidates.typed, candidates.target.typed, batchSize)
              ==> DistinctCellOutPoints(r.value.0 + r.value.1)
      ensures Honest(rpc.script, world) ==> r.Ok?
      ensures Honest(rpc.script, world) && NoRepeat(candidates.dao) && NoRepeat(candidates.typed)
              ==> HonestCells(candidates.dao, world, Some(Dao), candidates.target.dao, r.value.0) &&
                  HonestCells(candidates.typed, world, None, candidates.target.typed, r.value.1)
    {
      hide FreshIds, FreshOutPoints, Fitting, NoRepeat, Honest, StagesNoRepeat, Confirmed, IsOfClass, Eligible, Numbered,
           CellOutPoints, Ids, DistinctCells, DistinctCellOutPoints, InBand, AllOfKind, HonestCells;
      var admission := new Admission();
      var dao, daoAnswers := HydrateBucket(candidates.dao, candidates.target.dao, ForDao, admission, world, n => None);
      if dao.Err? {
        return Err(dao.fault);
      }
      assert admission.outPoints == CellOutPoints(dao.value) && admission.ids == Ids(dao.value);
      if Honest(rpc.script, world) {
        ClassesAreDisjoint(admission.outPoints, world, ForDao, ForTyped);
      }
      var typed, typedAnswers := HydrateBucket(candidates.typed, candidates.target.typed, ForTyped, admission, world, n => None);
      if typed.Err? {
        return Err(typed.fault);
      }
      FreshIdsConcat(payload, {}, dao.value, typed.value);
      FreshIsDistinct(payload, {}, dao.value + typed.value);
      if StagesNoRepeat({}, candidates.dao, candidates.target.dao, batchSize) &&
         StagesNoRepeat({}, candidates.typed, candidates.target.typed, batchSize) {
        AdmittedHelps(CellOutPoints(dao.value), candidates.typed, candidates.target.typed, batchSize);
        FreshOutPointsConcat({}, dao.value, typed.value);
        FreshOutPointsAreDistinct({}, dao.value + typed.value);
      }
      r := Ok((dao.value, typed.value));
    }
  }

  /** How many candidates are asked about before candidate `i` if all are whose outpoints were not admitted before. */
  function Rank(before: set<OutPoint>, candidates: seq<Candidate>, i: nat): nat
    requires i <= |candidates|
  {
    |Pending(candidates[..i], before)|
  }

  lemma {:induction false} RankOneMore(before: set<OutPoint>, candidates: seq<Candidate>, i: nat)
    requires i < |candidates|
    ensures Rank(before, candidates, i + 1) ==
            Rank(before, candidates, i) + if candidates[i].outPoint in before then 0 else 1
  {
    assert candidates[..i + 1][..i] == candidates[..i];
  }

  lemma {:induction false} RankGrows(before: set<OutPoint>, candidates: seq<Candidate>, i: nat, j: nat)
    requires i < j <= |candidates|
    ensures Rank(before, candidates, i) + (if candidates[i].outPoint in before then 0 else 1) <= Rank(before, candidates, j)
    decreases j - i
  {
    hide Rank;
    RankOneMore(before, candidates, i);
    if i + 1 < j {
      RankGrows(before, candidates, i + 1, j);
    }
  }

  /** A node that takes exactly the requests for the candidates `i` and `j` to be live, each with the capacity its candidate
      claims, if nothing is staged before them and the first request is `first`. */
  function Confirming(first: nat, before: set<OutPoint>, candidates: seq<Candidate>, kind: AssetKind, i: nat, j: nat)
    : (verdict: nat -> Option<Body>)
    requires i < |candidates| && j < |candidates|
  {
    var here: nat, there: nat := first + Rank(before, candidates, i), first + Rank(before, candidates, j);
    (n: nat) => if n == here then Some(Output(candidates[i].capacity, kind))
                else if n == there then Some(Output(candidates[j].capacity, kind))
                else None
  }

  function NumberedScript(verdict: nat -> Option<Body>): BatchScript {
    (clock: nat, first: nat, outPoints: seq<OutPoint>) => Ok(NumberedResponses(first, |outPoints|, verdict))
  }

  function NumberedResponses(first: nat, count: nat, verdict: nat -> Option<Body>): (responses: seq<Response>)
    ensures |responses| == count
    ensures forall k :: 0 <= k < count ==> responses[k].id == Some(first + k) && responses[k].Answerable() &&
                                           responses[k].Verdict() == verdict(first + k)
  {
    seq(count, k requires 0 <= k < count =>
      var n: nat := first + k;
      Response(Some(n), false, Some(if verdict(n).None? then Report(false, NoCell) else Report(true, verdict(n).value))))
  }

  lemma {:induction false} ScriptIsNumbered(verdict: nat -> Option<Body>)
    requires forall n :: verdict(n) != Some(Broken)
    ensures Numbered(NumberedScript(verdict), verdict)
  {
    forall clock: nat, first: nat, outPoints: seq<OutPoint>
      ensures NumberedReply(NumberedScript(verdict), clock, first, outPoints, verdict)
    {
      var responses := NumberedResponses(first, |outPoints|, verdict);
      forall k | 0 <= k < |outPoints| ensures AnsweredAt(responses, first + k, From(first, |outPoints|, verdict)[k]) {
        assert responses[k] in responses;
      }
    }
  }

  function KindOf(cls: CompositionClass): (kind: AssetKind)
    ensures cls.Accepts(kind)
  {
    match cls
    case ForDao => Dao
    case ForTyped => Other(0)
    case ForPlain => Native
  }

  /** Exactly the candidates `i` and `j` are confirmed. */
  ghost predicate FitsOnly(candidates: seq<Candidate>, answers: seq<Answer>, cls: CompositionClass, i: nat, j: nat)
    requires |answers| <= |candidates|
  {
    forall g :: 0 <= g < |answers| ==> (Fits(candidates[g], answers[g], cls) <==> g == i || g == j)
  }

  lemma {:induction false} FittingTwo(candidates: seq<Candidate>, answers: seq<Answer>, cls: CompositionClass, i: nat, j: nat)
    requires |answers| == |candidates| && i < j && FitsOnly(candidates, answers, cls, i, j)
    ensures var fit := Fitting(candidates, answers, cls);
            |fit| == (if |candidates| <= i then 0 else if |candidates| <= j then 1 else 2) &&
            (|fit| > 0 ==> fit[0].outPoint == candidates[i].outPoint) &&
            (|fit| > 1 ==> fit[1].outPoint == candidates[j].outPoint)
  {
    if candidates != [] {
      var n := |candidates| - 1;
      FittingTwo(candidates[..n], answers[..n], cls, i, j);
      assert Fits(candidates[n], answers[n], cls) <==> n == i || n == j;
    }
  }

  lemma {:induction false} FitsByNumber(before: set<OutPoint>, candidates: seq<Candidate>, answers: seq<Answer>,
                                        cls: CompositionClass, first: nat, i: nat, j: nat, g: nat)
    requires g < |answers| <= |candidates| && i < j < |candidates|
    requires candidates[i].outPoint !in before && candidates[j].outPoint !in before
    requires Numbers(answers, first, Confirming(first, before, candidates, KindOf(cls), i, j))
    requires if g <= j
             then (answers[g].Asked? <==> candidates[g].outPoint !in before) && Asks(answers[..g]) == Rank(before, candidates, g)
             else Asks(answers[..g]) > Rank(before, candidates, j)
    ensures Fits(candidates[g], answers[g], cls) <==> g == i || g == j
  {
    hide Asks, Rank;
    RankGrows(before, candidates, i, j);
    if g < i {
      RankGrows(before, candidates, g, i);
    } else if i < g {
      RankGrows(before, candidates, i, g);
    }
    if g < j {
      RankGrows(before, candidates, g, j);
    }
  }

  lemma {:induction false} OnlyAdmittedPassOver(before: set<OutPoint>, candidates: seq<Candidate>, answers: seq<Answer>,
                                                cls: CompositionClass, size: nat, i: nat, j: nat, g: nat)
    requires g < |answers| <= |candidates| && 0 < size && i < j < |candidates| && i / size == j / size && g <= j
    requires PassedOver(before, candidates, answers, cls, size)
    requires forall h :: 0 <= h < g ==> (Fits(candidates[h], answers[h], cls) <==> h == i || h == j)
    ensures answers[g].Asked? <==> candidates[g].outPoint !in before
  {
    hide Fits;
    if StagedEarlier(candidates, answers, cls, size, g) {
      var h :| 0 <= h < g && h / size < g / size && Fits(candidates[h], answers[h], cls);
      NotLater(size, g, j);
      assert false;
    }
  }

  /** While nothing has been confirmed, only admitted candidates are passed over. */
  lemma {:induction false} AskedInTurn(before: set<OutPoint>, candidates: seq<Candidate>, answers: seq<Answer>,
                                       cls: CompositionClass, size: nat, first: nat, i: nat, j: nat, g: nat)
    requires |answers| <= |candidates| && 0 < size && i < j < |candidates| && i / size == j / size
    requires candidates[i].outPoint !in before && candidates[j].outPoint !in before
    requires PassedOver(before, candidates, answers, cls, size)
    requires Numbers(answers, first, Confirming(first, before, candidates, KindOf(cls), i, j))
    requires g <= |answers|
    ensures g <= j + 1 ==> Asks(answers[..g]) == Rank(before, candidates, g)
    ensures g > j + 1 ==> Asks(answers[..g]) > Rank(before, candidates, j)
    ensures forall h :: 0 <= h < g ==> (Fits(candidates[h], answers[h], cls) <==> h == i || h == j)
  {
    hide Fits, Asks, Numbers, Confirming, PassedOver, Rank;
    if g == 0 {
      NothingAsked(before, candidates, answers);
    } else {
      AskedInTurn(before, candidates, answers, cls, size, first, i, j, g - 1);
      assert answers[..g] == answers[..g - 1] + [answers[g - 1]];
      AsksOneMore(answers[..g - 1], answers[g - 1]);
      if g - 1 <= j {
        OnlyAdmittedPassOver(before, candidates, answers, cls, size, i, j, g - 1);
        RankOneMore(before, candidates, g - 1);
      } else {
        RankOneMore(before, candidates, j);
      }
      FitsByNumber(before, candidates, answers, cls, first, i, j, g - 1);
    }
  }

  lemma {:induction false} NothingAsked(before: set<OutPoint>, candidates: seq<Candidate>, answers: seq<Answer>)
    ensures Asks(answers[..0]) == 0 == Rank(before, candidates, 0)
  {
  }

  lemma {:induction false} NotLater(size: nat, a: nat, b: nat)
    requires 0 < size && a <= b
    ensures a / size <= b / size
  {
    QuotientOrder(a / size, a % size, b / size, b % size, size);
  }

  /** Whenever a bucket has room for two Cells and some chunk names an outpoint twice that was not admitted before, there is a
      node over which the outpoint is staged twice: whatever bucket `HydrateBucket` returns over it from that admission, with
      its first request numbered `first`. So the staged outpoints are fresh for every node exactly when `StagesNoRepeat`. */
  lemma {:induction false} RepeatIsStagedTwice(before: set<OutPoint>, candidates: seq<Candidate>, target: nat,
                                               cls: CompositionClass, size: nat, first: nat)
    returns (verdict: nat -> Option<Body>)
    requires size > 0 && !StagesNoRepeat(before, candidates, target, size)
    ensures Numbered(NumberedScript(verdict), verdict)
    ensures forall answers, cells ::
              Bucketed(before, candidates, answers, cls, target, size, cells) && Numbers(answers, first, verdict)
              ==> !DistinctCellOutPoints(cells)
  {
    hide Numbered, Numbers, NumberedScript, Bucketed, DistinctCellOutPoints, Rank;
    var i, j :| 0 <= i < j < |candidates| && i / size == j / size && candidates[i].outPoint !in before &&
      candidates[i].outPoint == candidates[j].outPoint;
    verdict := Confirming(first, before, candidates, KindOf(cls), i, j);
    ScriptIsNumbered(verdict);
    forall answers, cells | Bucketed(before, candidates, answers, cls, target, size, cells) && Numbers(answers, first, verdict)
      ensures !DistinctCellOutPoints(cells)
    {
      BothAreStaged(before, candidates, answers, cls, target, size, cells, first, i, j);
    }
  }

  lemma {:induction false} BothAreStaged(before: set<OutPoint>, candidates: seq<Candidate>, answers: seq<Answer>,
                                         cls: CompositionClass, target: nat, size: nat, cells: seq<Cell>, first: nat, i: nat,
                                         j: nat)
    requires 0 < size && 2 <= target && i < j < |candidates| && i / size == j / size
    requires candidates[i].outPoint == candidates[j].outPoint && candidates[i].outPoint !in before
    requires Bucketed(before, candidates, answers, cls, target, size, cells)
    requires Numbers(answers, first, Confirming(first, before, candidates, KindOf(cls), i, j))
    ensures !DistinctCellOutPoints(cells)
  {
    hide Numbers, PassedOver, Fitting, Confirming;
    AskedInTurn(before, candidates, answers, cls, size, first, i, j, |answers|);
    FittingTwo(candidates[..|answers|], answers, cls, i, j);
    assert Sightings(cells)[0] == cells[0].seen && Sightings(cells)[1] == cells[1].seen;
  }
}

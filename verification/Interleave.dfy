/** Round-robin over ranked groups, skipping what was seen. */
module Interleave {
  import opened Basics
  import opened Chain
  import opened Index

  function AllOutPoints(groups: seq<seq<Candidate>>): set<OutPoint> {
    if groups == [] then {} else AllOutPoints(groups[..|groups| - 1]) + OutPoints(groups[|groups| - 1])
  }

  lemma {:induction false} InAllOutPoints(groups: seq<seq<Candidate>>, g: nat, c: Candidate)
    requires g < |groups| && c in groups[g]
    ensures c.outPoint in AllOutPoints(groups)
  {
    if g < |groups| - 1 {
      InAllOutPoints(groups[..|groups| - 1], g, c);
    }
  }

  lemma {:induction false} AllSeen(groups: seq<seq<Candidate>>, seen: set<OutPoint>)
    requires forall g :: 0 <= g < |groups| ==> OutPoints(groups[g]) <= seen
    ensures AllOutPoints(groups) <= seen
  {
    if groups != [] {
      AllSeen(groups[..|groups| - 1], seen);
    }
  }

  /** How many picks came from group `g`. */
  function Count(owners: seq<nat>, g: nat): nat {
    if owners == [] then 0
    else Count(owners[..|owners| - 1], g) + if owners[|owners| - 1] == g then 1 else 0
  }

  /** Pick `k` is candidate `at[k]` of group `owners[k]`, and a group's picks keep the group's order. */
  ghost predicate Traced(groups: seq<seq<Candidate>>, selected: seq<Candidate>, owners: seq<nat>, at: seq<nat>) {
    |owners| == |at| == |selected| &&
    (forall k :: 0 <= k < |selected| ==>
       owners[k] < |groups| && at[k] < |groups[owners[k]]| && groups[owners[k]][at[k]] == selected[k]) &&
    forall k, l :: 0 <= k < l < |selected| && owners[k] == owners[l] ==> at[k] < at[l]
  }

  /** New picks only, and the seen set grew by exactly them. */
  ghost predicate Picked(seenIn: set<OutPoint>, seen: set<OutPoint>, selected: seq<Candidate>) {
    seen == seenIn + OutPoints(selected) && OutPoints(selected) !! seenIn && NoRepeat(selected)
  }

  /** The queues are what is left of the groups; whatever left a queue has been seen. */
  ghost predicate Queued(groups: seq<seq<Candidate>>, queues: seq<seq<Candidate>>, seen: set<OutPoint>, owners: seq<nat>,
                         at: seq<nat>)
    requires |owners| == |at|
  {
    |queues| == |groups| &&
    (forall g :: 0 <= g < |groups| ==>
       |queues[g]| <= |groups[g]| && queues[g] == groups[g][|groups[g]| - |queues[g]|..] &&
       forall p :: 0 <= p < |groups[g]| - |queues[g]| ==> groups[g][p].outPoint in seen) &&
    forall k :: 0 <= k < |owners| && owners[k] < |groups| ==> at[k] < |groups[owners[k]]| - |queues[owners[k]]|
  }

  /** Groups before `done` have been served in round `round + 1`, the others not yet; a group that has fallen
      behind is out of candidates. */
  ghost predicate InRound(queues: seq<seq<Candidate>>, owners: seq<nat>, round: nat, done: nat) {
    forall g :: 0 <= g < |queues| ==>
      var turns := if g < done then round + 1 else round;
      Count(owners, g) <= turns && (queues[g] != [] ==> Count(owners, g) == turns)
  }

  /** Drop seen candidates from the front; take the first unseen one, if any. */
  method PopUnseen(queue: seq<Candidate>, seen: set<OutPoint>) returns (pick: Option<Candidate>, rest: seq<Candidate>)
    ensures |rest| <= |queue| && rest == queue[|queue| - |rest|..]
    ensures pick.None? ==> rest == [] && forall p :: 0 <= p < |queue| ==> queue[p].outPoint in seen
    ensures pick.Some? ==> |rest| < |queue| && queue[|queue| - |rest| - 1] == pick.value && pick.value.outPoint !in seen &&
                           forall p :: 0 <= p < |queue| - |rest| - 1 ==> queue[p].outPoint in seen
  {
    rest := queue;
    while rest != []
      invariant |rest| <= |queue| && rest == queue[|queue| - |rest|..]
      invariant forall p :: 0 <= p < |queue| - |rest| ==> queue[p].outPoint in seen
    {
      var candidate := rest[0];
      assert candidate == queue[|queue| - |rest|];
      rest := rest[1..];
      if candidate.outPoint !in seen {
        return Some(candidate), rest;
      }
    }
    pick := None;
  }

  /** What one group's turn leaves behind. */
  lemma {:induction false} AfterTurn(groups: seq<seq<Candidate>>, queues: seq<seq<Candidate>>, seen: set<OutPoint>,
                                     owners: seq<nat>, at: seq<nat>, selected: seq<Candidate>, g: nat,
                                     pick: Option<Candidate>, rest: seq<Candidate>)
    requires Traced(groups, selected, owners, at) && Queued(groups, queues, seen, owners, at) && g < |groups|
    requires |rest| <= |queues[g]| && rest == queues[g][|queues[g]| - |rest|..]
    requires pick.None? ==> rest == [] && forall p :: 0 <= p < |queues[g]| ==> queues[g][p].outPoint in seen
    requires pick.Some? ==> |rest| < |queues[g]| && queues[g][|queues[g]| - |rest| - 1] == pick.value &&
                            forall p :: 0 <= p < |queues[g]| - |rest| - 1 ==> queues[g][p].outPoint in seen
    ensures pick.None? ==> Queued(groups, queues[g := rest], seen, owners, at)
    ensures pick.Some? ==>
              var position := |groups[g]| - |rest| - 1;
              position >= 0 && Traced(groups, selected + [pick.value], owners + [g], at + [position]) &&
              Queued(groups, queues[g := rest], seen + {pick.value.outPoint}, owners + [g], at + [position])
  {
    StillQueued(groups, queues, seen, owners, at, g, pick, rest);
    if pick.Some? {
      TracedOneMore(groups, queues, seen, owners, at, selected, g, pick.value, rest);
    }
    hide Queued, Traced;
  }

  lemma {:induction false} TracedOneMore(groups: seq<seq<Candidate>>, queues: seq<seq<Candidate>>, seen: set<OutPoint>,
                                         owners: seq<nat>, at: seq<nat>, selected: seq<Candidate>, g: nat, pick: Candidate,
                                         rest: seq<Candidate>)
    requires Traced(groups, selected, owners, at) && Queued(groups, queues, seen, owners, at) && g < |groups|
    requires |rest| < |queues[g]| && queues[g][|queues[g]| - |rest| - 1] == pick
    ensures var position := |groups[g]| - |rest| - 1;
            position >= 0 && Traced(groups, selected + [pick], owners + [g], at + [position])
  {
    var from := |groups[g]| - |queues[g]|;
    assert queues[g][|queues[g]| - |rest| - 1] == groups[g][from + (|queues[g]| - |rest| - 1)];
  }

  lemma {:induction false} StillQueued(groups: seq<seq<Candidate>>, queues: seq<seq<Candidate>>, seen: set<OutPoint>,
                                       owners: seq<nat>, at: seq<nat>, g: nat, pick: Option<Candidate>,
                                       rest: seq<Candidate>)
    requires |owners| == |at| && Queued(groups, queues, seen, owners, at) && g < |groups|
    requires |rest| <= |queues[g]| && rest == queues[g][|queues[g]| - |rest|..]
    requires pick.None? ==> rest == [] && forall p :: 0 <= p < |queues[g]| ==> queues[g][p].outPoint in seen
    requires pick.Some? ==> |rest| < |queues[g]| && queues[g][|queues[g]| - |rest| - 1] == pick.value &&
                            forall p :: 0 <= p < |queues[g]| - |rest| - 1 ==> queues[g][p].outPoint in seen
    ensures pick.None? ==> Queued(groups, queues[g := rest], seen, owners, at)
    ensures pick.Some? ==>
              var position := |groups[g]| - |rest| - 1;
              position >= 0 &&
              Queued(groups, queues[g := rest], seen + {pick.value.outPoint}, owners + [g], at + [position])
  {
    var from := |groups[g]| - |queues[g]|;
    assert forall p :: 0 <= p < |queues[g]| ==> queues[g][p] == groups[g][from + p];
    forall p | 0 <= p < |groups[g]| - |rest| - (if pick.Some? then 1 else 0)
      ensures groups[g][p].outPoint in seen
    {
      if p >= from {
        assert groups[g][p] == queues[g][p - from];
      }
    }
  }

  lemma {:induction false} CountAppend(owners: seq<nat>, g: nat)
    ensures forall h: nat :: Count(owners + [g], h) == Count(owners, h) + if h == g then 1 else 0
  {
    assert (owners + [g])[..|owners|] == owners;
  }

  lemma {:induction false} LastIsNew(selected: seq<Candidate>)
    requires NoRepeat(selected) && selected != []
    ensures selected[|selected| - 1].outPoint !in OutPoints(selected[..|selected| - 1])
  {
    var front := selected[..|selected| - 1];
    forall i | 0 <= i < |front| ensures front[i].outPoint != selected[|selected| - 1].outPoint {
      assert front[i] == selected[i];
    }
  }

  lemma {:induction false} DistinctCount(selected: seq<Candidate>)
    requires NoRepeat(selected)
    ensures |OutPoints(selected)| == |selected|
  {
    hide OutPoints;
    if selected == [] {
      assert OutPoints([]) == {} by { NoOutPoints(); }
    } else {
      var front := selected[..|selected| - 1];
      DistinctCount(front);
      assert selected == front + [selected[|selected| - 1]];
      OutPointsAppend(front, selected[|selected| - 1]);
      LastIsNew(selected);
    }
  }

  lemma {:induction false} NoOutPoints()
    ensures OutPoints([]) == {}
  {
  }

  lemma {:induction false} PickedComeFromGroups(groups: seq<seq<Candidate>>, selected: seq<Candidate>, owners: seq<nat>,
                                                at: seq<nat>)
    requires Traced(groups, selected, owners, at)
    ensures OutPoints(selected) <= AllOutPoints(groups)
  {
    forall op | op in OutPoints(selected) ensures op in AllOutPoints(groups) {
      var c :| c in selected && c.outPoint == op;
      var k :| 0 <= k < |selected| && selected[k] == c;
      InAllOutPoints(groups, owners[k], c);
    }
  }

  /** Nobody is two picks behind while it still has candidates. */
  ghost predicate Balanced(queues: seq<seq<Candidate>>, owners: seq<nat>) {
    forall g, h :: 0 <= g < |queues| && 0 <= h < |queues| && Count(owners, g) + 1 < Count(owners, h) ==> queues[g] == []
  }

  lemma {:induction false} ServedInRound(queues: seq<seq<Candidate>>, owners: seq<nat>, round: nat, g: nat,
                                         rest: seq<Candidate>, picked: bool)
    requires InRound(queues, owners, round, g) && g < |queues| && (picked ==> queues[g] != []) && (!picked ==> rest == [])
    ensures InRound(queues[g := rest], if picked then owners + [g] else owners, round, g + 1)
    ensures Balanced(queues[g := rest], if picked then owners + [g] else owners)
  {
    CountAppend(owners, g);
  }

  /** The round in which pick `k` was made: its group had picked so many times before. */
  ghost function Round(owners: seq<nat>, k: nat): nat
    requires k < |owners|
  {
    Count(owners[..k], owners[k])
  }

  /** Picks are made round by round and, within a round, in the order of the groups. */
  ghost predicate InOrder(owners: seq<nat>) {
    forall k, l :: 0 <= k < l < |owners| ==>
      Round(owners, k) < Round(owners, l) || (Round(owners, k) == Round(owners, l) && owners[k] < owners[l])
  }

  /** Nothing was picked beyond group `done` of this round. */
  ghost predicate UpTo(owners: seq<nat>, round: nat, done: nat) {
    forall k :: 0 <= k < |owners| ==> Round(owners, k) < round || (Round(owners, k) == round && owners[k] < done)
  }

  lemma {:induction false} OrderOneMore(owners: seq<nat>, round: nat, g: nat)
    requires InOrder(owners) && UpTo(owners, round, g) && Count(owners, g) == round
    ensures InOrder(owners + [g]) && UpTo(owners + [g], round, g + 1)
  {
    hide Count;
    var more := owners + [g];
    assert more[..|owners|] == owners;
    forall k | 0 <= k < |owners| ensures Round(more, k) == Round(owners, k) {
      assert more[..k] == owners[..k];
    }
  }

  lemma {:induction false} StillUpTo(owners: seq<nat>, round: nat, g: nat)
    requires UpTo(owners, round, g)
    ensures UpTo(owners, round, g + 1) && UpTo(owners, round + 1, 0)
  {
    hide Round;
  }

  lemma {:induction false} TurnOf(queues: seq<seq<Candidate>>, owners: seq<nat>, round: nat, g: nat)
    requires InRound(queues, owners, round, g) && g < |queues| && queues[g] != []
    ensures Count(owners, g) == round
  {
  }

  /** When a queue is empty, everything its group names has been seen. */
  lemma {:induction false} EmptyMeansSeen(groups: seq<seq<Candidate>>, queues: seq<seq<Candidate>>, seen: set<OutPoint>,
                                          owners: seq<nat>, at: seq<nat>, g: nat)
    requires |owners| == |at| && Queued(groups, queues, seen, owners, at) && g < |groups| && queues[g] == []
    ensures OutPoints(groups[g]) <= seen
  {
    forall op | op in OutPoints(groups[g]) ensures op in seen {
      var c :| c in groups[g] && c.outPoint == op;
      var p :| 0 <= p < |groups[g]| && groups[g][p] == c;
    }
  }

  /** A group that has fewer picks than its place in the order allows has had nothing left to pick. */
  ghost predicate NobodySkipped(groups: seq<seq<Candidate>>, origin: set<OutPoint>, selected: seq<Candidate>, owners: seq<nat>)
    requires |owners| == |selected|
  {
    forall k, h :: 0 <= k < |owners| && 0 <= h < |groups| && h != owners[k] &&
                   Count(owners[..k], h) < Round(owners, k) + (if h < owners[k] then 1 else 0)
      ==> OutPoints(groups[h]) <= origin + OutPoints(selected[..k])
  }

  lemma {:induction false} StillNobodySkipped(
      groups: seq<seq<Candidate>>, queues: seq<seq<Candidate>>, origin: set<OutPoint>, seen: set<OutPoint>,
      selected: seq<Candidate>, owners: seq<nat>, at: seq<nat>, round: nat, g: nat, pick: Candidate)
    requires |owners| == |at| == |selected| && NobodySkipped(groups, origin, selected, owners)
    requires Picked(origin, seen, selected) && Queued(groups, queues, seen, owners, at)
    requires InRound(queues, owners, round, g) && g < |queues| && queues[g] != []
    ensures NobodySkipped(groups, origin, selected + [pick], owners + [g])
  {
    hide Count, OutPoints;
    var more, picks := owners + [g], selected + [pick];
    forall k, h | 0 <= k < |more| && 0 <= h < |groups| && h != more[k] &&
                  Count(more[..k], h) < Round(more, k) + (if h < more[k] then 1 else 0)
      ensures OutPoints(groups[h]) <= origin + OutPoints(picks[..k])
    {
      if k < |owners| {
        assert more[..k] == owners[..k] && picks[..k] == selected[..k];
        assert Round(more, k) == Round(owners, k);
      } else {
        assert more[..k] == owners && picks[..k] == selected;
        EmptyMeansSeen(groups, queues, seen, owners, at, h);
      }
    }
  }

  /** One round: a turn for each group, in rank order, ending early when the last wanted candidate is picked. */
  method OneRound(groups: seq<seq<Candidate>>, desired: nat, queuesIn: seq<seq<Candidate>>, selectedIn: seq<Candidate>,
                  seenIn: set<OutPoint>, ghost ownersIn: seq<nat>, ghost atIn: seq<nat>, ghost round: nat,
                  ghost origin: set<OutPoint>)
    returns (progressed: bool, queues: seq<seq<Candidate>>, selected: seq<Candidate>, seen: set<OutPoint>,
             ghost owners: seq<nat>, ghost at: seq<nat>)
    requires |selectedIn| < desired && Picked(origin, seenIn, selectedIn) && Traced(groups, selectedIn, ownersIn, atIn)
    requires Queued(groups, queuesIn, seenIn, ownersIn, atIn) && InRound(queuesIn, ownersIn, round, 0)
    requires Balanced(queuesIn, ownersIn) && InOrder(ownersIn) && UpTo(ownersIn, round, 0)
    requires |ownersIn| == |selectedIn| && NobodySkipped(groups, origin, selectedIn, ownersIn)
    ensures |owners| == |selected| && NobodySkipped(groups, origin, selected, owners)
    ensures InOrder(owners) && (|selected| < desired ==> UpTo(owners, round + 1, 0))
    ensures Picked(origin, seen, selected) && Traced(groups, selected, owners, at) && Queued(groups, queues, seen, owners, at)
    ensures Balanced(queues, owners) && |selectedIn| <= |selected| <= desired
    ensures |selected| < desired ==> InRound(queues, owners, round + 1, 0)
    ensures progressed ==> |selected| > |selectedIn|
    ensures !progressed ==> |selected| < desired && forall g :: 0 <= g < |queues| ==> queues[g] == []
  {
    hide Count, OutPoints, NoRepeat, Queued, InRound, Balanced, Traced, Picked, InOrder, UpTo, NobodySkipped;
    TracedLength(groups, selectedIn, ownersIn, atIn);
    QueuedLength(groups, queuesIn, seenIn, ownersIn, atIn);
    progressed, queues, selected, seen, owners, at := false, queuesIn, selectedIn, seenIn, ownersIn, atIn;
    for g := 0 to |groups|
      invariant |queues| == |groups| && |owners| == |at| == |selected|
      invariant |selectedIn| <= |selected| < desired && (progressed <==> |selected| > |selectedIn|)
      invariant Picked(origin, seen, selected) && Traced(groups, selected, owners, at)
      invariant Queued(groups, queues, seen, owners, at) && InRound(queues, owners, round, g) && Balanced(queues, owners)
      invariant InOrder(owners) && UpTo(owners, round, g) && NobodySkipped(groups, origin, selected, owners)
      invariant !progressed ==> forall h :: 0 <= h < g ==> queues[h] == []
    {
      var pick, rest := PopUnseen(queues[g], seen);
      AfterTurn(groups, queues, seen, owners, at, selected, g, pick, rest);
      ServedInRound(queues, owners, round, g, rest, pick.Some?);
      StillUpTo(owners, round, g);
      if pick.Some? {
        TurnOf(queues, owners, round, g);
        OrderOneMore(owners, round, g);
        StillNobodySkipped(groups, queues, origin, seen, selected, owners, at, round, g, pick.value);
      }
      queues := queues[g := rest];
      if pick.Some? {
        PickedOneMore(origin, seen, selected, pick.value);
        at := at + [|groups[g]| - |rest| - 1];
        owners := owners + [g];
        seen := seen + {pick.value.outPoint};
        selected := selected + [pick.value];
        progressed := true;
      }
      if |selected| >= desired {
        return;
      }
    }
    NextRound(queues, owners, round);
    StillUpTo(owners, round, |groups|);
  }

  lemma {:induction false} QueuedLength(groups: seq<seq<Candidate>>, queues: seq<seq<Candidate>>, seen: set<OutPoint>,
                                        owners: seq<nat>, at: seq<nat>)
    requires |owners| == |at| && Queued(groups, queues, seen, owners, at)
    ensures |queues| == |groups|
  {
  }

  lemma {:induction false} TracedLength(groups: seq<seq<Candidate>>, selected: seq<Candidate>, owners: seq<nat>, at: seq<nat>)
    requires Traced(groups, selected, owners, at)
    ensures |owners| == |at| == |selected|
  {
  }

  lemma {:induction false} NextRound(queues: seq<seq<Candidate>>, owners: seq<nat>, round: nat)
    requires InRound(queues, owners, round, |queues|)
    ensures InRound(queues, owners, round + 1, 0)
  {
  }

  lemma {:induction false} PickedOneMore(origin: set<OutPoint>, seen: set<OutPoint>, selected: seq<Candidate>, c: Candidate)
    requires Picked(origin, seen, selected) && c.outPoint !in seen
    ensures Picked(origin, seen + {c.outPoint}, selected + [c])
  {
    OutPointsAppend(selected, c);
  }

  lemma {:induction false} HowMany(groups: seq<seq<Candidate>>, queues: seq<seq<Candidate>>, origin: set<OutPoint>,
                                   seen: set<OutPoint>, selected: seq<Candidate>, owners: seq<nat>, at: seq<nat>, desired: nat)
    requires Picked(origin, seen, selected) && Traced(groups, selected, owners, at) && Queued(groups, queues, seen, owners, at)
    requires |selected| <= desired && Balanced(queues, owners)
    requires |selected| == desired || forall g :: 0 <= g < |queues| ==> queues[g] == []
    ensures |selected| == Min(desired, |AllOutPoints(groups) - origin|)
    ensures forall g, h :: 0 <= g < |groups| && 0 <= h < |groups| && Count(owners, g) + 1 < Count(owners, h)
              ==> OutPoints(groups[g]) <= seen
  {
    hide Count, AllOutPoints;
    DistinctCount(selected);
    PickedComeFromGroups(groups, selected, owners, at);
    var open := AllOutPoints(groups) - origin;
    SubsetSize(OutPoints(selected), open);
    forall g | 0 <= g < |groups| && queues[g] == [] ensures OutPoints(groups[g]) <= seen {
      EmptyMeansSeen(groups, queues, seen, owners, at, g);
    }
    if |selected| < desired {
      AllSeen(groups, seen);
      assert open == OutPoints(selected);
    }
  }

  /** Round by round, one unseen candidate from each group that still has one, until `desired` are picked or
      a whole round picks nothing. `owners` and `at` say where each pick came from. */
  method InterleaveGroups(groups: seq<seq<Candidate>>, desired: nat, seenIn: set<OutPoint>)
    returns (selected: seq<Candidate>, seen: set<OutPoint>, ghost owners: seq<nat>, ghost at: seq<nat>)
    ensures Picked(seenIn, seen, selected)
    ensures |selected| == Min(desired, |AllOutPoints(groups) - seenIn|)
    ensures Traced(groups, selected, owners, at) && InOrder(owners)
    ensures |owners| == |selected| && NobodySkipped(groups, seenIn, selected, owners)
    ensures forall g, h :: 0 <= g < |groups| && 0 <= h < |groups| && Count(owners, g) + 1 < Count(owners, h)
              ==> OutPoints(groups[g]) <= seen
  {
    hide Count, OutPoints, NoRepeat, AllOutPoints, Queued, InRound, Balanced, Picked, Traced, InOrder, UpTo, NobodySkipped;
    var queues := groups;
    selected, seen, owners, at := [], seenIn, [], [];
    ghost var round := 0;
    StartsPicked(groups, seenIn);
    while |selected| < desired
      invariant |selected| <= desired
      invariant Picked(seenIn, seen, selected) && Traced(groups, selected, owners, at) && |owners| == |at|
      invariant Queued(groups, queues, seen, owners, at) && Balanced(queues, owners)
      invariant |selected| < desired ==> InRound(queues, owners, round, 0) && UpTo(owners, round, 0)
      invariant InOrder(owners) && |owners| == |selected| && NobodySkipped(groups, seenIn, selected, owners)
      decreases desired - |selected|
    {
      var progressed;
      progressed, queues, selected, seen, owners, at :=
        OneRound(groups, desired, queues, selected, seen, owners, at, round, seenIn);
      TracedLength(groups, selected, owners, at);
      if !progressed {
        break;
      }
      round := round + 1;
    }
    HowMany(groups, queues, seenIn, seen, selected, owners, at, desired);
  }

  lemma {:induction false} StartsPicked(groups: seq<seq<Candidate>>, seenIn: set<OutPoint>)
    ensures Picked(seenIn, seenIn, [])
    ensures Traced(groups, [], [], []) && Queued(groups, groups, seenIn, [], [])
    ensures InRound(groups, [], 0, 0) && Balanced(groups, []) && InOrder([]) && UpTo([], 0, 0)
    ensures NobodySkipped(groups, seenIn, [], [])
  {
  }
}

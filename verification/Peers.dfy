/** The structural key of a peer list: its rows without telemetry, sorted by node id. */
module Peers {
  import opened Basics

  datatype Direction = Inbound | Outbound

  /** What a peer's key keeps. */
  datatype PeerRow = PeerRow(nodeId: string, addr: string, direction: Direction, version: string)

  /** A peer as polled; `telemetry` drifts from poll to poll. */
  datatype Peer = Peer(nodeId: string, addr: string, direction: Direction, version: string, telemetry: nat) {
    function Row(): PeerRow {
      PeerRow(nodeId, addr, direction, version)
    }
  }

  // ----- the order of node ids -----

  predicate Leq(a: string, b: string) {
    if a == "" then true else if b == "" then false else
    if a[0] == b[0] then Leq(a[1..], b[1..]) else a[0] < b[0]
  }

  /** The first difference decides, and without one the shorter string comes first. */
  lemma {:induction false} LeqIsLexicographic(a: string, b: string)
    ensures Leq(a, b) <==> a <= b || exists k :: DecidedAt(a, b, k)
  {
    hide DecidedAt;
    if a != "" && b != "" {
      var x, y := a[1..], b[1..];
      assert a == [a[0]] + x && b == [b[0]] + y;
      DecidedAtOnce(a, b);
      if a[0] == b[0] {
        LeqIsLexicographic(x, y);
        forall k: nat ensures DecidedAt(x, y, k) <==> DecidedAt(a, b, k + 1) {
          DecidedLater(a, b, k);
        }
        if k: nat :| DecidedAt(a, b, k) {
          assert DecidedAt(x, y, k - 1);
        }
      }
    } else {
      NothingToDecide(a, b);
    }
  }

  ghost predicate DecidedAt(a: string, b: string, k: nat) {
    k < |a| && k < |b| && a[..k] == b[..k] && a[k] < b[k]
  }

  lemma {:induction false} NothingToDecide(a: string, b: string)
    requires a == "" || b == ""
    ensures forall k: nat :: !DecidedAt(a, b, k)
  {
  }

  lemma {:induction false} DecidedAtOnce(a: string, b: string)
    requires a != "" && b != ""
    ensures DecidedAt(a, b, 0) <==> a[0] < b[0]
    ensures forall k: nat :: k > 0 && DecidedAt(a, b, k) ==> a[0] == b[0]
  {
    forall k: nat | k > 0 && DecidedAt(a, b, k) ensures a[0] == b[0] {
      assert a[..k][0] == b[..k][0];
    }
  }

  lemma {:induction false} DecidedLater(a: string, b: string, k: nat)
    requires a != "" && b != "" && a[0] == b[0]
    ensures DecidedAt(a[1..], b[1..], k) <==> DecidedAt(a, b, k + 1)
  {
    if k + 1 <= |a| && k + 1 <= |b| {
      assert a[..k + 1] == [a[0]] + a[1..][..k] && b[..k + 1] == [b[0]] + b[1..][..k];
      assert a[..k + 1] == b[..k + 1] ==> a[1..][..k] == a[..k + 1][1..] == b[..k + 1][1..] == b[1..][..k];
    }
  }

  lemma {:induction false} LeqTotal(a: string, b: string)
    ensures Leq(a, b) || Leq(b, a)
  {
    if a != "" && b != "" && a[0] == b[0] {
      LeqTotal(a[1..], b[1..]);
    }
  }

  lemma {:induction false} LeqAntisymmetric(a: string, b: string)
    requires Leq(a, b) && Leq(b, a)
    ensures a == b
  {
    if a != "" {
      LeqAntisymmetric(a[1..], b[1..]);
      assert a == [a[0]] + a[1..] && b == [b[0]] + b[1..];
    }
  }

  lemma {:induction false} LeqTransitive(a: string, b: string, c: string)
    requires Leq(a, b) && Leq(b, c)
    ensures Leq(a, c)
  {
    if a != "" && a[0] == b[0] == c[0] {
      LeqTransitive(a[1..], b[1..], c[1..]);
    }
  }

  // ----- the sorted key -----

  ghost predicate Sorted(rows: seq<PeerRow>) {
    forall i, j :: 0 <= i < j < |rows| ==> Leq(rows[i].nodeId, rows[j].nodeId)
  }

  /** Behind every row whose id is not larger. */
  function Insert(rows: seq<PeerRow>, row: PeerRow): seq<PeerRow> {
    if rows == [] then [row] else
    var n := |rows| - 1;
    if Leq(rows[n].nodeId, row.nodeId) then rows + [row] else Insert(rows[..n], row) + [rows[n]]
  }

  /** A stable sort by node id. */
  function SortById(rows: seq<PeerRow>): seq<PeerRow> {
    if rows == [] then [] else Insert(SortById(rows[..|rows| - 1]), rows[|rows| - 1])
  }

  function Rows(peers: seq<Peer>): seq<PeerRow> {
    seq(|peers|, i requires 0 <= i < |peers| => peers[i].Row())
  }

  /** Telemetry never enters the key. */
  function StructuralKey(peers: seq<Peer>): seq<PeerRow> {
    SortById(Rows(peers))
  }

  /** The rows of one node, in list order. */
  function RowsOf(rows: seq<PeerRow>, nodeId: string): seq<PeerRow> {
    if rows == [] then [] else
    var init, last := RowsOf(rows[..|rows| - 1], nodeId), rows[|rows| - 1];
    if last.nodeId == nodeId then init + [last] else init
  }

  lemma {:induction false} RowsOfConcat(a: seq<PeerRow>, b: seq<PeerRow>, nodeId: string)
    ensures RowsOf(a + b, nodeId) == RowsOf(a, nodeId) + RowsOf(b, nodeId)
    decreases |b|
  {
    if b == [] {
      assert a + b == a;
    } else {
      assert (a + b)[..|a + b| - 1] == a + b[..|b| - 1];
      RowsOfConcat(a, b[..|b| - 1], nodeId);
    }
  }

  lemma {:induction false} InsertIsStable(rows: seq<PeerRow>, row: PeerRow, nodeId: string)
    ensures RowsOf(Insert(rows, row), nodeId) ==
            if row.nodeId == nodeId then RowsOf(rows, nodeId) + [row] else RowsOf(rows, nodeId)
  {
    if rows != [] {
      var n := |rows| - 1;
      if Leq(rows[n].nodeId, row.nodeId) {
        assert (rows + [row])[..|rows|] == rows;
      } else {
        InsertIsStable(rows[..n], row, nodeId);
        var more := Insert(rows[..n], row);
        assert (more + [rows[n]])[..|more|] == more;
        LeqTotal(row.nodeId, row.nodeId);
      }
    } else {
      assert [row][..0] == [];
    }
  }

  /** Sorting keeps the rows of every node, in their order: it is a permutation, and a stable one. */
  lemma {:induction false} SortIsStable(rows: seq<PeerRow>, nodeId: string)
    ensures RowsOf(SortById(rows), nodeId) == RowsOf(rows, nodeId)
  {
    if rows != [] {
      var n := |rows| - 1;
      SortIsStable(rows[..n], nodeId);
      InsertIsStable(SortById(rows[..n]), rows[n], nodeId);
    }
  }

  lemma {:induction false} InsertKeepsSorted(rows: seq<PeerRow>, row: PeerRow)
    requires Sorted(rows)
    ensures Sorted(Insert(rows, row)) && multiset(Insert(rows, row)) == multiset(rows) + multiset{row}
  {
    if rows != [] {
      var n := |rows| - 1;
      assert rows == rows[..n] + [rows[n]];
      if Leq(rows[n].nodeId, row.nodeId) {
        forall i | 0 <= i < n ensures Leq(rows[i].nodeId, row.nodeId) {
          LeqTransitive(rows[i].nodeId, rows[n].nodeId, row.nodeId);
        }
      } else {
        InsertKeepsSorted(rows[..n], row);
        var more := Insert(rows[..n], row);
        LeqTotal(row.nodeId, rows[n].nodeId);
        forall i | 0 <= i < |more| ensures Leq(more[i].nodeId, rows[n].nodeId) {
          assert more[i] in multiset(more);
          if more[i] != row {
            assert more[i] in rows[..n];
          }
        }
      }
    }
  }

  lemma {:induction false} SortSorts(rows: seq<PeerRow>)
    ensures Sorted(SortById(rows)) && multiset(SortById(rows)) == multiset(rows)
  {
    if rows != [] {
      var n := |rows| - 1;
      assert rows == rows[..n] + [rows[n]];
      SortSorts(rows[..n]);
      InsertKeepsSorted(SortById(rows[..n]), rows[n]);
    }
  }

  lemma {:induction false} RowsOfPresent(rows: seq<PeerRow>, i: nat)
    requires i < |rows|
    ensures RowsOf(rows, rows[i].nodeId) != []
  {
    if i < |rows| - 1 {
      RowsOfPresent(rows[..|rows| - 1], i);
    }
  }

  lemma {:induction false} RowsOfOrigin(rows: seq<PeerRow>, nodeId: string)
    requires RowsOf(rows, nodeId) != []
    ensures exists i :: 0 <= i < |rows| && rows[i].nodeId == nodeId
  {
    var n := |rows| - 1;
    if rows[n].nodeId != nodeId {
      RowsOfOrigin(rows[..n], nodeId);
      var i :| 0 <= i < n && rows[..n][i].nodeId == nodeId;
      assert rows[i].nodeId == nodeId;
    }
  }

  /** The last id of a sorted list bounds every id in it. */
  lemma {:induction false} LastIsLargest(rows: seq<PeerRow>, nodeId: string)
    requires Sorted(rows) && RowsOf(rows, nodeId) != []
    ensures rows != [] && Leq(nodeId, rows[|rows| - 1].nodeId)
  {
    RowsOfOrigin(rows, nodeId);
    LeqTotal(nodeId, nodeId);
  }

  lemma {:induction false} RowsOfLast(rows: seq<PeerRow>)
    requires rows != []
    ensures var n := |rows| - 1;
            RowsOf(rows, rows[n].nodeId) == RowsOf(rows[..n], rows[n].nodeId) + [rows[n]] &&
            forall id: string :: id != rows[n].nodeId ==> RowsOf(rows, id) == RowsOf(rows[..n], id)
  {
  }

  lemma {:induction false} SameLast(a: seq<PeerRow>, x: PeerRow, b: seq<PeerRow>, y: PeerRow)
    requires a + [x] == b + [y]
    ensures a == b && x == y
  {
    assert (a + [x])[|a|] == x && (b + [y])[|b|] == y && |a| == |b|;
    assert a == (a + [x])[..|a|] && b == (b + [y])[..|b|];
  }

  lemma {:induction false} NoRowsOfNothing()
    ensures forall id: string :: RowsOf([], id) == []
  {
  }

  /** A sorted list is determined by each node's rows. */
  lemma {:induction false} SortedIsDetermined(a: seq<PeerRow>, b: seq<PeerRow>)
    requires Sorted(a) && Sorted(b) && SameRows(a, b)
    ensures a == b
  {
    hide Leq, RowsOf;
    NoRowsOfNothing();
    if a == [] {
      if b != [] {
        RowsOfPresent(b, |b| - 1);
      }
    } else {
      var x := a[|a| - 1];
      RowsOfPresent(a, |a| - 1);
      LastIsLargest(b, x.nodeId);
      var y := b[|b| - 1];
      RowsOfPresent(b, |b| - 1);
      LastIsLargest(a, y.nodeId);
      LeqAntisymmetric(x.nodeId, y.nodeId);
      var p, q := a[..|a| - 1], b[..|b| - 1];
      RowsOfLast(a);
      RowsOfLast(b);
      SameLast(RowsOf(p, x.nodeId), x, RowsOf(q, x.nodeId), y);
      forall id: string ensures RowsOf(p, id) == RowsOf(q, id) {
        assert RowsOf(a, id) == RowsOf(b, id);
      }
      SortedIsDetermined(p, q);
      assert a == p + [x] && b == q + [y];
    }
  }

  /** Every node has the same rows in both lists, in the same order. */
  ghost predicate SameRows(a: seq<PeerRow>, b: seq<PeerRow>) {
    forall id: string :: RowsOf(a, id) == RowsOf(b, id)
  }

  /** Two lists share a key exactly when every node has the same rows in both, in the same order. */
  lemma {:induction false} KeyMeaning(a: seq<PeerRow>, b: seq<PeerRow>)
    ensures SortById(a) == SortById(b) <==> SameRows(a, b)
  {
    if SortById(a) == SortById(b) {
      forall id: string ensures RowsOf(a, id) == RowsOf(b, id) {
        SortIsStable(a, id);
        SortIsStable(b, id);
      }
    }
    if SameRows(a, b) {
      SortSorts(a);
      SortSorts(b);
      forall id: string ensures RowsOf(SortById(a), id) == RowsOf(SortById(b), id) {
        SortIsStable(a, id);
        SortIsStable(b, id);
      }
      SortedIsDetermined(SortById(a), SortById(b));
    }
  }

  /** What is told of one node, in list order: everything but telemetry. */
  ghost function Told(peers: seq<Peer>, id: string): seq<(string, Direction, string)> {
    if peers == [] then [] else
    var init, p := Told(peers[..|peers| - 1], id), peers[|peers| - 1];
    if p.nodeId == id then init + [(p.addr, p.direction, p.version)] else init
  }

  ghost predicate TellTheSame(a: seq<Peer>, b: seq<Peer>) {
    forall id: string :: Told(a, id) == Told(b, id)
  }

  lemma {:induction false} ToldInRows(peers: seq<Peer>, id: string)
    ensures |RowsOf(Rows(peers), id)| == |Told(peers, id)|
    ensures forall k :: 0 <= k < |Told(peers, id)| ==>
              var r := RowsOf(Rows(peers), id)[k];
              r.nodeId == id && Told(peers, id)[k] == (r.addr, r.direction, r.version)
  {
    if peers != [] {
      ToldInRows(peers[..|peers| - 1], id);
      assert Rows(peers)[..|peers| - 1] == Rows(peers[..|peers| - 1]);
    }
  }

  /** Two polls share a key exactly when they tell the same of every node, telemetry aside. */
  lemma {:induction false} StructuralKeyMeaning(a: seq<Peer>, b: seq<Peer>)
    ensures StructuralKey(a) == StructuralKey(b) <==> TellTheSame(a, b)
  {
    hide Rows, RowsOf;
    KeyMeaning(Rows(a), Rows(b));
    if StructuralKey(a) == StructuralKey(b) {
      forall id: string ensures Told(a, id) == Told(b, id) {
        assert RowsOf(Rows(a), id) == RowsOf(Rows(b), id);
        SameTold(a, b, id);
      }
    }
    if TellTheSame(a, b) {
      forall id: string ensures RowsOf(Rows(a), id) == RowsOf(Rows(b), id) {
        SameTold(a, b, id);
      }
      assert SameRows(Rows(a), Rows(b));
    }
  }

  lemma {:induction false} SameTold(a: seq<Peer>, b: seq<Peer>, id: string)
    ensures RowsOf(Rows(a), id) == RowsOf(Rows(b), id) <==> Told(a, id) == Told(b, id)
  {
    hide Told, Rows, RowsOf;
    var p, q := RowsOf(Rows(a), id), RowsOf(Rows(b), id);
    ToldInRows(a, id);
    ToldInRows(b, id);
    if p == q {
      assert Told(a, id) == Told(b, id);
    }
    if Told(a, id) == Told(b, id) {
      forall k | 0 <= k < |p| ensures p[k] == q[k] {
        assert Told(a, id)[k] == Told(b, id)[k];
      }
    }
  }

  // ----- enumeration order -----

  /** Rows that share a node id are the same row; in particular distinct ids. */
  ghost predicate TiesAgree(rows: seq<PeerRow>) {
    forall r, s :: r in rows && s in rows && r.nodeId == s.nodeId ==> r == s
  }

  lemma {:induction false} TiedRows(rows: seq<PeerRow>, row: PeerRow)
    requires forall r :: r in rows && r.nodeId == row.nodeId ==> r == row
    ensures |RowsOf(rows, row.nodeId)| == multiset(rows)[row]
    ensures forall k :: 0 <= k < |RowsOf(rows, row.nodeId)| ==> RowsOf(rows, row.nodeId)[k] == row
  {
    if rows != [] {
      var n := |rows| - 1;
      assert rows == rows[..n] + [rows[n]];
      assert rows[n] in rows;
      TiedRows(rows[..n], row);
    }
  }

  lemma {:induction false} NoRows(rows: seq<PeerRow>, nodeId: string)
    requires forall r :: r in rows ==> r.nodeId != nodeId
    ensures RowsOf(rows, nodeId) == []
  {
    if rows != [] {
      assert rows[|rows| - 1] in rows;
      NoRows(rows[..|rows| - 1], nodeId);
    }
  }

  lemma {:induction false} ReorderedKey(rows: seq<PeerRow>, shuffled: seq<PeerRow>)
    requires TiesAgree(rows) && multiset(rows) == multiset(shuffled)
    ensures SortById(rows) == SortById(shuffled)
  {
    assert forall r :: r in shuffled ==> r in multiset(shuffled);
    assert forall r :: r in rows ==> r in multiset(rows);
    forall id: string ensures RowsOf(rows, id) == RowsOf(shuffled, id) {
      if exists r :: r in rows && r.nodeId == id {
        var r :| r in rows && r.nodeId == id;
        TiedRows(rows, r);
        TiedRows(shuffled, r);
      } else {
        NoRows(rows, id);
        NoRows(shuffled, id);
      }
    }
    KeyMeaning(rows, shuffled);
  }

  /** Swapping two different rows of one node is seen: the sort is stable, and compares ids only. */
  lemma {:induction false} SwapIsSeen(rows: seq<PeerRow>, i: nat, j: nat)
    requires i < j < |rows| && rows[i].nodeId == rows[j].nodeId && rows[i] != rows[j]
    ensures multiset(rows[i := rows[j]][j := rows[i]]) == multiset(rows)
    ensures SortById(rows[i := rows[j]][j := rows[i]]) != SortById(rows)
  {
    var swapped := rows[i := rows[j]][j := rows[i]];
    var id := rows[i].nodeId;
    assert rows == rows[..i] + [rows[i]] + rows[i + 1..];
    assert swapped == rows[..i] + [rows[j]] + swapped[i + 1..];
    RowsOfConcat(rows[..i] + [rows[i]], rows[i + 1..], id);
    RowsOfConcat(rows[..i] + [rows[j]], swapped[i + 1..], id);
    assert (rows[..i] + [rows[i]])[..i] == rows[..i] && (rows[..i] + [rows[j]])[..i] == rows[..i];
    var at := |RowsOf(rows[..i], id)|;
    assert RowsOf(rows, id)[at] == rows[i] && RowsOf(swapped, id)[at] == rows[j];
    KeyMeaning(rows, swapped);
  }

  /** The key is blind to enumeration order exactly when rows that share a node id agree. */
  lemma {:induction false} BlindToOrderIff(rows: seq<PeerRow>)
    ensures (forall shuffled: seq<PeerRow> :: multiset(shuffled) == multiset(rows)
               ==> SortById(shuffled) == SortById(rows)) <==> TiesAgree(rows)
  {
    if TiesAgree(rows) {
      forall shuffled: seq<PeerRow> | multiset(shuffled) == multiset(rows)
        ensures SortById(shuffled) == SortById(rows)
      {
        ReorderedKey(rows, shuffled);
      }
    } else {
      var r, s :| r in rows && s in rows && r.nodeId == s.nodeId && r != s;
      var i :| 0 <= i < |rows| && rows[i] == r;
      var j :| 0 <= j < |rows| && rows[j] == s;
      var low, high := Min(i, j), Max(i, j);
      SwapIsSeen(rows, low, high);
      var swapped := rows[low := rows[high]][high := rows[low]];
      assert multiset(swapped) == multiset(rows) && SortById(swapped) != SortById(rows);
    }
  }
}

/** The change-dedupe of the slow network poll. */
module Dedupe {
  import opened Basics
  import opened Peers

  const NETWORK_TELEMETRY_REFRESH_TICKS := 8

  datatype NetworkMutation =
    | PeersUpdated(peers: seq<Peer>)
    | ChainSyncUpdated(ibd: bool, bestKnownBlock: u64)
    | ChainNodeInfoUpdated(id: string, version: string, connections: u64, p2pNodeId: Option<string>)
    | AnythingElse(tag: nat)

  datatype Kind = PeersKind | SyncKind | NodeInfoKind

  /** What must reach clients at once; whatever a mutation carries besides it is telemetry. */
  datatype Key =
    | PeersKey(rows: seq<PeerRow>)
    | SyncKey(ibd: bool, bestKnownBlock: u64)
    | NodeInfoKey(version: string, connections: u64, p2pNodeId: Option<string>)

  function KindOf(m: NetworkMutation): Option<Kind> {
    match m
    case PeersUpdated(_) => Some(PeersKind)
    case ChainSyncUpdated(_, _) => Some(SyncKind)
    case ChainNodeInfoUpdated(_, _, _, _) => Some(NodeInfoKind)
    case AnythingElse(_) => None
  }

  function KeyOf(m: NetworkMutation): Key
    requires KindOf(m).Some?
  {
    match m
    case PeersUpdated(peers) => PeersKey(StructuralKey(peers))
    case ChainSyncUpdated(ibd, best) => SyncKey(ibd, best)
    case ChainNodeInfoUpdated(_, version, connections, p2p) => NodeInfoKey(version, connections, p2p)
  }

  /** Peers, sync state and node info each have a kind of their own, and of two mutations of one kind the keys tell apart
      exactly those that differ in something besides telemetry and the adapter's own name for the node. */
  lemma {:induction false} KeysSeparate(m: NetworkMutation, other: NetworkMutation)
    ensures KindOf(m).None? <==> m.AnythingElse?
    ensures KindOf(m) == KindOf(other) <==>
              (m.PeersUpdated? <==> other.PeersUpdated?) && (m.ChainSyncUpdated? <==> other.ChainSyncUpdated?) &&
              (m.ChainNodeInfoUpdated? <==> other.ChainNodeInfoUpdated?)
    ensures KindOf(m).Some? && KindOf(other).Some? ==>
              (KeyOf(m) == KeyOf(other) <==>
                match m
                case PeersUpdated(peers) =>
                  other.PeersUpdated? && TellTheSame(peers, other.peers)
                case ChainSyncUpdated(ibd, best) => other.ChainSyncUpdated? && ibd == other.ibd && best == other.bestKnownBlock
                case ChainNodeInfoUpdated(_, version, connections, p2p) =>
                  other.ChainNodeInfoUpdated? && version == other.version && connections == other.connections &&
                  p2p == other.p2pNodeId
                case AnythingElse(_) => false)
  {
    if m.PeersUpdated? && other.PeersUpdated? {
      hide TellTheSame, StructuralKey;
      StructuralKeyMeaning(m.peers, other.peers);
    }
  }

  /** The key last admitted and the tick that admitted it. */
  datatype Seen = Seen(key: Key, at: nat)

  predicate RefreshDue(tick: nat, emittedAt: nat) {
    (if tick < emittedAt then 0 else tick - emittedAt) >= NETWORK_TELEMETRY_REFRESH_TICKS
  }

  predicate Admits(lane: Option<Seen>, key: Key, tick: nat) {
    lane.None? || lane.value.key != key || RefreshDue(tick, lane.value.at)
  }

  datatype Lanes = Lanes(peers: Option<Seen>, sync: Option<Seen>, nodeInfo: Option<Seen>) {
    function Of(kind: Kind): Option<Seen> {
      match kind
      case PeersKind => peers
      case SyncKind => sync
      case NodeInfoKind => nodeInfo
    }

    function With(kind: Kind, seen: Seen): (l: Lanes)
      ensures forall other: Kind :: l.Of(other) == if other == kind then Some(seen) else Of(other)
    {
      match kind
      case PeersKind => this.(peers := Some(seen))
      case SyncKind => this.(sync := Some(seen))
      case NodeInfoKind => this.(nodeInfo := Some(seen))
    }
  }

  predicate Passes(lanes: Lanes, m: NetworkMutation, tick: nat) {
    KindOf(m).None? || Admits(lanes.Of(KindOf(m).value), KeyOf(m), tick)
  }

  function Step(lanes: Lanes, m: NetworkMutation, tick: nat): Lanes {
    if KindOf(m).Some? && Passes(lanes, m, tick) then lanes.With(KindOf(m).value, Seen(KeyOf(m), tick)) else lanes
  }

  /** One poll, mutation by mutation. */
  function After(lanes: Lanes, mutations: seq<NetworkMutation>, tick: nat): Lanes {
    if mutations == [] then lanes else
    var n := |mutations| - 1;
    Step(After(lanes, mutations[..n], tick), mutations[n], tick)
  }

  function Admitted(lanes: Lanes, mutations: seq<NetworkMutation>, tick: nat): seq<NetworkMutation> {
    if mutations == [] then [] else
    var n := |mutations| - 1;
    var init := Admitted(lanes, mutations[..n], tick);
    if Passes(After(lanes, mutations[..n], tick), mutations[n], tick) then init + [mutations[n]] else init
  }

  // ----- whole runs: the first poll is tick 1 -----

  const NOTHING_SEEN := Lanes(None, None, None)

  function RunLanes(polls: seq<seq<NetworkMutation>>): Lanes {
    if polls == [] then NOTHING_SEEN else
    var n := |polls| - 1;
    After(RunLanes(polls[..n]), polls[n], n + 1)
  }

  function RunOut(polls: seq<seq<NetworkMutation>>): seq<NetworkMutation> {
    if polls == [] then [] else
    var n := |polls| - 1;
    RunOut(polls[..n]) + Admitted(RunLanes(polls[..n]), polls[n], n + 1)
  }

  /** The run that emits every tick. */
  function Everything(polls: seq<seq<NetworkMutation>>): seq<NetworkMutation> {
    if polls == [] then [] else Everything(polls[..|polls| - 1]) + polls[|polls| - 1]
  }

  class NetworkPollDedupe {
    var tick: nat
    var peers: Option<Seen>
    var sync: Option<Seen>
    var nodeInfo: Option<Seen>
    ghost var polls: seq<seq<NetworkMutation>>

    ghost predicate Valid()
      reads this
    {
      tick == |polls| && Lanes(peers, sync, nodeInfo) == RunLanes(polls)
    }

    constructor ()
      ensures Valid() && polls == []
    {
      tick := 0;
      peers, sync, nodeInfo := None, None, None;
      polls := [];
    }

    /** The run so far grows by this poll, and what passes is what the run newly emits. */
    method Filter(mutations: seq<NetworkMutation>) returns (out: seq<NetworkMutation>)
      requires Valid()
      modifies this
      ensures Valid() && polls == old(polls) + [mutations]
      ensures RunOut(polls) == RunOut(old(polls)) + out
    {
      hide Passes, StructuralKey;
      ghost var before := Lanes(peers, sync, nodeInfo);
      tick := tick + 1;
      out := [];
      for i := 0 to |mutations|
        invariant tick == old(tick) + 1 && polls == old(polls)
        invariant Lanes(peers, sync, nodeInfo) == After(before, mutations[..i], tick)
        invariant out == Admitted(before, mutations[..i], tick)
      {
        var m := mutations[i];
        assert mutations[..i + 1][..i] == mutations[..i];
        PassesByKind(Lanes(peers, sync, nodeInfo), m, tick);
        var admit := true;
        match m {
          case PeersUpdated(list) =>
            var key := PeersKey(StructuralKey(list));
            admit := peers.None? || peers.value.key != key || RefreshDue(tick, peers.value.at);
            if admit {
              peers := Some(Seen(key, tick));
            }
          case ChainSyncUpdated(ibd, best) =>
            var key := SyncKey(ibd, best);
            admit := sync.None? || sync.value.key != key || RefreshDue(tick, sync.value.at);
            if admit {
              sync := Some(Seen(key, tick));
            }
          case ChainNodeInfoUpdated(_, version, connections, p2p) =>
            var key := NodeInfoKey(version, connections, p2p);
            admit := nodeInfo.None? || nodeInfo.value.key != key || RefreshDue(tick, nodeInfo.value.at);
            if admit {
              nodeInfo := Some(Seen(key, tick));
            }
          case AnythingElse(_) =>
        }
        if admit {
          out := out + [m];
        }
      }
      assert mutations[..|mutations|] == mutations;
      polls := polls + [mutations];
      assert polls[..|polls| - 1] == old(polls);
    }
  }

  lemma {:induction false} PassesByKind(lanes: Lanes, m: NetworkMutation, tick: nat)
    ensures Passes(lanes, m, tick) <==>
            (KindOf(m).None? || Admits(lanes.Of(KindOf(m).value), KeyOf(m), tick))
  {
  }

  // ----- the dedupe refines emitting every tick -----

  /** The last mutation of a kind: what a client that replaces by kind shows. */
  function Latest(mutations: seq<NetworkMutation>, kind: Kind): (m: Option<NetworkMutation>)
    ensures m.Some? ==> KindOf(m.value) == Some(kind) && m.value in mutations
  {
    if mutations == [] then None else
    var last := mutations[|mutations| - 1];
    if KindOf(last) == Some(kind) then Some(last) else Latest(mutations[..|mutations| - 1], kind)
  }

  function LatestKey(mutations: seq<NetworkMutation>, kind: Kind): Option<Key> {
    var m := Latest(mutations, kind);
    if m.Some? then Some(KeyOf(m.value)) else None
  }

  function LaneKey(lane: Option<Seen>): Option<Key> {
    if lane.Some? then Some(lane.value.key) else None
  }

  function Unkeyed(mutations: seq<NetworkMutation>): seq<NetworkMutation> {
    if mutations == [] then [] else
    var init, last := Unkeyed(mutations[..|mutations| - 1]), mutations[|mutations| - 1];
    if KindOf(last).None? then init + [last] else init
  }

  lemma {:induction false} LatestOneMore(mutations: seq<NetworkMutation>, m: NetworkMutation, kind: Kind)
    ensures Latest(mutations + [m], kind) == if KindOf(m) == Some(kind) then Some(m) else Latest(mutations, kind)
    ensures Unkeyed(mutations + [m]) == if KindOf(m).None? then Unkeyed(mutations) + [m] else Unkeyed(mutations)
  {
    assert (mutations + [m])[..|mutations|] == mutations;
  }

  /** Seen from a kind, the lanes, everything offered and everything admitted show the same key. */
  ghost predicate Mirrors(lanes: Lanes, offered: seq<NetworkMutation>, admitted: seq<NetworkMutation>) {
    (forall kind: Kind :: LaneKey(lanes.Of(kind)) == LatestKey(offered, kind) == LatestKey(admitted, kind)) &&
    Unkeyed(offered) == Unkeyed(admitted)
  }

  lemma {:induction false} StepMirrors(lanes: Lanes, m: NetworkMutation, tick: nat, offered: seq<NetworkMutation>,
                                       admitted: seq<NetworkMutation>)
    requires Mirrors(lanes, offered, admitted)
    ensures Mirrors(Step(lanes, m, tick), offered + [m], if Passes(lanes, m, tick) then admitted + [m] else admitted)
  {
    hide Latest, KeyOf, Unkeyed, RefreshDue;
    forall kind: Kind
      ensures var more := if Passes(lanes, m, tick) then admitted + [m] else admitted;
              LaneKey(Step(lanes, m, tick).Of(kind)) == LatestKey(offered + [m], kind) == LatestKey(more, kind)
    {
      LatestOneMore(offered, m, kind);
      LatestOneMore(admitted, m, kind);
    }
    LatestOneMore(offered, m, PeersKind);
    LatestOneMore(admitted, m, PeersKind);
  }

  lemma {:induction false} PollMirrors(lanes: Lanes, mutations: seq<NetworkMutation>, tick: nat,
                                       offered: seq<NetworkMutation>, admitted: seq<NetworkMutation>)
    requires Mirrors(lanes, offered, admitted)
    ensures Mirrors(After(lanes, mutations, tick), offered + mutations, admitted + Admitted(lanes, mutations, tick))
  {
    hide Mirrors, Step, Passes;
    if mutations == [] {
      assert offered + mutations == offered && admitted + Admitted(lanes, mutations, tick) == admitted;
    } else {
      var n := |mutations| - 1;
      var before, init := After(lanes, mutations[..n], tick), Admitted(lanes, mutations[..n], tick);
      PollMirrors(lanes, mutations[..n], tick, offered, admitted);
      StepMirrors(before, mutations[n], tick, offered + mutations[..n], admitted + init);
      assert offered + mutations == offered + mutations[..n] + [mutations[n]];
      assert admitted + (init + [mutations[n]]) == admitted + init + [mutations[n]];
    }
  }

  /** After every poll of every run, whatever the polls carry, a client of the dedupe shows the same structure as a
      client that is sent everything, and mutations of other kinds all pass, in order. */
  lemma {:induction false} RefinesEmittingEveryTick(polls: seq<seq<NetworkMutation>>)
    ensures forall kind: Kind :: LatestKey(RunOut(polls), kind) == LatestKey(Everything(polls), kind)
    ensures Unkeyed(RunOut(polls)) == Unkeyed(Everything(polls))
    ensures Mirrors(RunLanes(polls), Everything(polls), RunOut(polls))
  {
    hide After, Admitted, LatestKey, Latest, Unkeyed;
    if polls == [] {
      NothingMirrors();
    } else {
      var n := |polls| - 1;
      RefinesEmittingEveryTick(polls[..n]);
      PollMirrors(RunLanes(polls[..n]), polls[n], n + 1, Everything(polls[..n]), RunOut(polls[..n]));
    }
  }

  lemma {:induction false} NothingMirrors()
    ensures Mirrors(NOTHING_SEEN, [], [])
  {
  }

  // ----- how old what a client shows can be -----

  /** What a lane remembers was sent at the tick it remembers. */
  ghost predicate Dated(lane: Option<Seen>, polls: seq<seq<NetworkMutation>>, latest: Option<NetworkMutation>) {
    (lane.Some? <==> latest.Some?) &&
    (lane.Some? ==> 1 <= lane.value.at <= |polls| && latest.value in polls[lane.value.at - 1])
  }

  ghost predicate Recent(lane: Option<Seen>, tick: nat) {
    lane.Some? && tick - lane.value.at < NETWORK_TELEMETRY_REFRESH_TICKS
  }

  lemma {:induction false} StepDates(polls: seq<seq<NetworkMutation>>, lanes: Lanes, m: NetworkMutation,
                                     emitted: seq<NetworkMutation>, kind: Kind)
    requires polls != [] && m in polls[|polls| - 1] && Dated(lanes.Of(kind), polls, Latest(emitted, kind))
    ensures var more := if Passes(lanes, m, |polls|) then emitted + [m] else emitted;
            Dated(Step(lanes, m, |polls|).Of(kind), polls, Latest(more, kind))
    ensures KindOf(m) == Some(kind) || Recent(lanes.Of(kind), |polls|) ==> Recent(Step(lanes, m, |polls|).Of(kind), |polls|)
  {
    hide KeyOf, Latest;
    LatestOneMore(emitted, m, kind);
  }

  lemma {:induction false} PollDates(polls: seq<seq<NetworkMutation>>, done: seq<NetworkMutation>, lanes: Lanes,
                                     emitted: seq<NetworkMutation>, kind: Kind)
    requires polls != [] && done <= polls[|polls| - 1]
    requires Dated(lanes.Of(kind), polls, Latest(emitted, kind))
    ensures var lane := After(lanes, done, |polls|).Of(kind);
            Dated(lane, polls, Latest(emitted + Admitted(lanes, done, |polls|), kind)) &&
            (Latest(done, kind).Some? ==> Recent(lane, |polls|))
  {
    hide Dated, Recent, Step, Passes;
    if done == [] {
      assert emitted + Admitted(lanes, done, |polls|) == emitted;
    } else {
      var n := |done| - 1;
      PollDates(polls, done[..n], lanes, emitted, kind);
      var before, init := After(lanes, done[..n], |polls|), Admitted(lanes, done[..n], |polls|);
      assert done[n] == polls[|polls| - 1][n];
      StepDates(polls, before, done[n], emitted + init, kind);
      assert emitted + (init + [done[n]]) == emitted + init + [done[n]];
    }
  }

  /** Whatever a client shows of a kind was read by a poll less than eight ticks before the latest poll that carried
      the kind. */
  lemma {:induction false} TelemetryIsRecent(polls: seq<seq<NetworkMutation>>, kind: Kind)
    ensures Dated(RunLanes(polls).Of(kind), polls, Latest(RunOut(polls), kind))
    ensures polls != [] && Latest(polls[|polls| - 1], kind).Some?
            ==> Latest(RunOut(polls), kind).Some? &&
                exists k :: Max(0, |polls| - 8) <= k < |polls| &&
                  Latest(RunOut(polls), kind).value in polls[k]
  {
    hide After, Admitted, Latest;
    if polls == [] {
      NothingMirrors();
      assert Latest([], kind) == None by { LatestOfNothing(kind); }
    } else {
      var n := |polls| - 1;
      TelemetryIsRecent(polls[..n], kind);
      PollDates(polls, polls[n], RunLanes(polls[..n]), RunOut(polls[..n]), kind);
      var lane := RunLanes(polls).Of(kind);
      if lane.Some? {
        assert Latest(RunOut(polls), kind).value in polls[lane.value.at - 1];
      }
    }
  }

  lemma {:induction false} LatestOfNothing(kind: Kind)
    ensures Latest([], kind) == None
  {
  }

  // ----- how much passes -----

  function CountOf(mutations: seq<NetworkMutation>, kind: Kind): nat {
    if mutations == [] then 0 else
    CountOf(mutations[..|mutations| - 1], kind) + if KindOf(mutations[|mutations| - 1]) == Some(kind) then 1 else 0
  }

  lemma {:induction false} CountConcat(a: seq<NetworkMutation>, b: seq<NetworkMutation>, kind: Kind)
    ensures CountOf(a + b, kind) == CountOf(a, kind) + CountOf(b, kind)
    decreases |b|
  {
    if b == [] {
      assert a + b == a;
    } else {
      assert (a + b)[..|a + b| - 1] == a + b[..|b| - 1];
      CountConcat(a, b[..|b| - 1], kind);
    }
  }

  /** A mutation touches the lane of its own kind only. */
  lemma {:induction false} StepOfKind(lanes: Lanes, m: NetworkMutation, tick: nat, kind: Kind)
    ensures KindOf(m) != Some(kind) ==> Step(lanes, m, tick).Of(kind) == lanes.Of(kind)
    ensures KindOf(m) == Some(kind)
            ==> (Passes(lanes, m, tick) <==> Admits(lanes.Of(kind), KeyOf(m), tick)) &&
                Step(lanes, m, tick).Of(kind) ==
                if Passes(lanes, m, tick) then Some(Seen(KeyOf(m), tick)) else lanes.Of(kind)
  {
    hide KeyOf, Admits;
  }

  /** A poll without the kind leaves its lane alone. */
  lemma {:induction false} NoneOfAKind(lanes: Lanes, mutations: seq<NetworkMutation>, tick: nat, kind: Kind)
    requires CountOf(mutations, kind) == 0
    ensures Latest(mutations, kind).None? && After(lanes, mutations, tick).Of(kind) == lanes.Of(kind)
    ensures CountOf(Admitted(lanes, mutations, tick), kind) == 0
  {
    hide KeyOf, Admits, Step, Passes;
    if mutations != [] {
      var n := |mutations| - 1;
      NoneOfAKind(lanes, mutations[..n], tick, kind);
      StepOfKind(After(lanes, mutations[..n], tick), mutations[n], tick, kind);
      CountOneMore(Admitted(lanes, mutations[..n], tick), mutations[n], kind);
    }
  }

  /** A poll that carries one mutation of the kind steps that lane once. */
  lemma {:induction false} OneOfAKind(lanes: Lanes, mutations: seq<NetworkMutation>, tick: nat, kind: Kind)
    requires CountOf(mutations, kind) == 1
    ensures Latest(mutations, kind).Some?
    ensures var lane, key := lanes.Of(kind), KeyOf(Latest(mutations, kind).value);
            var passed := Admitted(lanes, mutations, tick);
            if Admits(lane, key, tick) then
              After(lanes, mutations, tick).Of(kind) == Some(Seen(key, tick)) && CountOf(passed, kind) == 1 &&
              Latest(passed, kind) == Latest(mutations, kind)
            else After(lanes, mutations, tick).Of(kind) == lane && CountOf(passed, kind) == 0
  {
    hide KeyOf, Admits, Step, Passes;
    var n := |mutations| - 1;
    var init := Admitted(lanes, mutations[..n], tick);
    StepOfKind(After(lanes, mutations[..n], tick), mutations[n], tick, kind);
    CountOneMore(init, mutations[n], kind);
    LatestOneMore(init, mutations[n], kind);
    if KindOf(mutations[n]) == Some(kind) {
      NoneOfAKind(lanes, mutations[..n], tick, kind);
    } else {
      OneOfAKind(lanes, mutations[..n], tick, kind);
    }
  }

  lemma {:induction false} CountOneMore(mutations: seq<NetworkMutation>, m: NetworkMutation, kind: Kind)
    ensures CountOf(mutations + [m], kind) == CountOf(mutations, kind) + if KindOf(m) == Some(kind) then 1 else 0
  {
    assert (mutations + [m])[..|mutations|] == mutations;
  }

  /** Every poll carries one mutation of the kind, always under the same key. */
  ghost predicate Steady(polls: seq<seq<NetworkMutation>>, kind: Kind, key: Key) {
    forall i :: 0 <= i < |polls| ==> CountOf(polls[i], kind) == 1 && LatestKey(polls[i], kind) == Some(key)
  }

  /** The tick at which the last refresh within `n` steady ticks was due. */
  function RefreshedAt(n: nat): (at: nat)
    requires n > 0
  {
    NETWORK_TELEMETRY_REFRESH_TICKS * Refreshes(n) + 1
  }

  function Refreshes(n: nat): nat
    requires n > 0
  {
    (n - 1) / NETWORK_TELEMETRY_REFRESH_TICKS
  }

  /** A segment that brings in a new key and keeps it: its lane and its count, poll by poll. */
  lemma {:induction false} SteadyLane(before: seq<seq<NetworkMutation>>, steady: seq<seq<NetworkMutation>>, kind: Kind,
                                      key: Key)
    requires steady != [] && Steady(steady, kind, key) && LatestKey(Everything(before), kind) != Some(key)
    ensures CountOf(RunOut(before + steady), kind) == CountOf(RunOut(before), kind) + 1 + Refreshes(|steady|)
    ensures RunLanes(before + steady).Of(kind) == Some(Seen(key, |before| + RefreshedAt(|steady|)))
    decreases |steady|
  {
    hide Steady, RunLanes, RunOut, Admits, LatestKey, Everything;
    var n, polls := |steady| - 1, before + steady;
    SteadySplit(steady, kind, key);
    assert polls[..|polls| - 1] == before + steady[..n];
    RunOneMore(polls, kind);
    if n == 0 {
      assert before + steady[..n] == before;
      RefinesEmittingEveryTick(before);
      NewKeyIsAdmitted(RunLanes(before), Everything(before), RunOut(before), kind, key, |polls|);
    } else {
      SteadyLane(before, steady[..n], kind, key);
      AdmitsWhenDue(RunLanes(before + steady[..n]).Of(kind), key, |polls|);
    }
  }

  lemma {:induction false} NewKeyIsAdmitted(lanes: Lanes, offered: seq<NetworkMutation>, admitted: seq<NetworkMutation>,
                                            kind: Kind, key: Key, tick: nat)
    requires Mirrors(lanes, offered, admitted) && LatestKey(offered, kind) != Some(key)
    ensures Admits(lanes.Of(kind), key, tick)
  {
    hide LatestKey;
  }

  lemma {:induction false} AdmitsWhenDue(lane: Option<Seen>, key: Key, tick: nat)
    requires lane.Some? ==> lane.value.key == key && lane.value.at <= tick
    ensures Admits(lane, key, tick) <==> (lane.None? || tick - lane.value.at >= NETWORK_TELEMETRY_REFRESH_TICKS)
  {
  }

  lemma {:induction false} SteadySplit(polls: seq<seq<NetworkMutation>>, kind: Kind, key: Key)
    requires polls != [] && Steady(polls, kind, key)
    ensures var n := |polls| - 1;
            Steady(polls[..n], kind, key) && CountOf(polls[n], kind) == 1 && LatestKey(polls[n], kind) == Some(key)
  {
    hide CountOf, Latest;
    var n := |polls| - 1;
    forall i | 0 <= i < n ensures polls[..n][i] == polls[i] {
    }
  }

  /** The last poll, when it carries one mutation of the kind. */
  lemma {:induction false} RunOneMore(polls: seq<seq<NetworkMutation>>, kind: Kind)
    requires polls != [] && CountOf(polls[|polls| - 1], kind) == 1
    ensures var n := |polls| - 1;
            LatestKey(polls[n], kind).Some? &&
            var lane, key := RunLanes(polls[..n]).Of(kind), LatestKey(polls[n], kind).value;
            var more := Admits(lane, key, n + 1);
            RunLanes(polls).Of(kind) == (if more then Some(Seen(key, n + 1)) else lane) &&
            CountOf(RunOut(polls), kind) == CountOf(RunOut(polls[..n]), kind) + if more then 1 else 0
  {
    hide After, Admitted, CountOf, Latest, KeyOf, Admits;
    var n := |polls| - 1;
    OneOfAKind(RunLanes(polls[..n]), polls[n], n + 1, kind);
    CountConcat(RunOut(polls[..n]), Admitted(RunLanes(polls[..n]), polls[n], n + 1), kind);
  }

  /** Whatever ran before, a key that is new and then stays unchanged over N ticks is admitted exactly
      1 + floor((N - 1) / 8) times. */
  lemma {:induction false} SteadySegment(before: seq<seq<NetworkMutation>>, steady: seq<seq<NetworkMutation>>, kind: Kind,
                                         key: Key)
    requires steady != [] && Steady(steady, kind, key) && LatestKey(Everything(before), kind) != Some(key)
    ensures CountOf(RunOut(before + steady), kind) == CountOf(RunOut(before), kind) + 1 + (|steady| - 1) / 8
  {
    hide CountOf, Steady, LatestKey, Everything, RunOut;
    SteadyLane(before, steady, kind, key);
  }

  /** From the first poll of the process on, the same. */
  lemma {:induction false} SteadyCount(polls: seq<seq<NetworkMutation>>, kind: Kind, key: Key)
    requires polls != [] && Steady(polls, kind, key)
    ensures CountOf(RunOut(polls), kind) == 1 + (|polls| - 1) / 8
  {
    SteadySegment([], polls, kind, key);
    assert [] + polls == polls;
  }

  /** Nor does enumerating the same peers in another order at every tick of such a segment admit anything, as long
      as rows that share a node id agree. */
  lemma {:induction false} ReorderingAdmitsNothingExtra(before: seq<seq<NetworkMutation>>,
                                                        steady: seq<seq<NetworkMutation>>, rows: seq<PeerRow>)
    requires steady != [] && TiesAgree(rows) && LatestKey(Everything(before), PeersKind) != Some(PeersKey(SortById(rows)))
    requires forall i :: 0 <= i < |steady| ==>
               CountOf(steady[i], PeersKind) == 1 && Latest(steady[i], PeersKind).Some? &&
               multiset(Rows(Latest(steady[i], PeersKind).value.peers)) == multiset(rows)
    ensures CountOf(RunOut(before + steady), PeersKind) == CountOf(RunOut(before), PeersKind) + 1 + (|steady| - 1) / 8
  {
    hide CountOf, Latest, RunOut, Everything;
    var key := PeersKey(SortById(rows));
    forall i | 0 <= i < |steady|
      ensures CountOf(steady[i], PeersKind) == 1 && LatestKey(steady[i], PeersKind) == Some(key)
    {
      ReorderedKey(rows, Rows(Latest(steady[i], PeersKind).value.peers));
    }
    SteadySegment(before, steady, PeersKind, key);
  }

  // ----- the order in which peers are enumerated -----

  /** The same mutation, or the same peers in another order, where rows that share a node id agree. */
  ghost predicate Alike(m: NetworkMutation, other: NetworkMutation) {
    m == other ||
    (m.PeersUpdated? && other.PeersUpdated? && TiesAgree(Rows(m.peers)) && multiset(m.peers) == multiset(other.peers))
  }

  ghost predicate AllAlike(mutations: seq<NetworkMutation>, others: seq<NetworkMutation>) {
    |mutations| == |others| && forall i :: 0 <= i < |mutations| ==> Alike(mutations[i], others[i])
  }

  /** Two runs that differ only in the order of peers. */
  ghost predicate SameUpToOrder(polls: seq<seq<NetworkMutation>>, others: seq<seq<NetworkMutation>>) {
    |polls| == |others| && forall i :: 0 <= i < |polls| ==> AllAlike(polls[i], others[i])
  }

  function Without<T>(all: seq<T>, k: nat): seq<T>
    requires k < |all|
  {
    all[..k] + all[k + 1..]
  }

  lemma {:induction false} WithoutOne<T>(all: seq<T>, k: nat)
    requires k < |all|
    ensures multiset(all) == multiset(Without(all, k)) + multiset{all[k]}
  {
    assert all == all[..k] + [all[k]] + all[k + 1..];
  }

  lemma {:induction false} RowsWithoutOne(peers: seq<Peer>, k: nat)
    requires k < |peers|
    ensures multiset(Rows(peers)) == multiset(Rows(Without(peers, k))) + multiset{peers[k].Row()}
  {
    WithoutOne(Rows(peers), k);
    assert Without(Rows(peers), k) == Rows(Without(peers, k));
  }

  lemma {:induction false} ReorderedRows(peers: seq<Peer>, others: seq<Peer>)
    requires multiset(peers) == multiset(others)
    ensures multiset(Rows(peers)) == multiset(Rows(others))
    decreases |peers|
  {
    hide Without, Rows;
    if peers == [] {
      assert |multiset(others)| == 0;
    } else {
      assert peers[0] in multiset(peers);
      var k :| 0 <= k < |others| && others[k] == peers[0];
      WithoutOne(peers, 0);
      WithoutOne(others, k);
      ShorterWithout(peers);
      SameAfterRemoval(multiset(Without(peers, 0)), multiset(Without(others, k)), peers[0]);
      ReorderedRows(Without(peers, 0), Without(others, k));
      RowsWithoutOne(peers, 0);
      RowsWithoutOne(others, k);
    }
  }

  lemma {:induction false} ShorterWithout<T>(all: seq<T>)
    requires all != []
    ensures |Without(all, 0)| < |all|
  {
  }

  lemma {:induction false} SameAfterRemoval<T>(a: multiset<T>, b: multiset<T>, x: T)
    requires a + multiset{x} == b + multiset{x}
    ensures a == b
  {
    assert a == a + multiset{x} - multiset{x};
    assert b == b + multiset{x} - multiset{x};
  }

  lemma {:induction false} AlikeShareKey(m: NetworkMutation, other: NetworkMutation)
    requires Alike(m, other)
    ensures KindOf(m) == KindOf(other) && (KindOf(m).Some? ==> KeyOf(m) == KeyOf(other))
  {
    if m != other {
      ReorderedRows(m.peers, other.peers);
      ReorderedKey(Rows(m.peers), Rows(other.peers));
    }
  }

  lemma {:induction false} AlikePolls(lanes: Lanes, mutations: seq<NetworkMutation>, others: seq<NetworkMutation>, tick: nat)
    requires AllAlike(mutations, others)
    ensures After(lanes, mutations, tick) == After(lanes, others, tick)
    ensures AllAlike(Admitted(lanes, mutations, tick), Admitted(lanes, others, tick))
  {
    hide KeyOf, Admits, Alike;
    if mutations != [] {
      var n := |mutations| - 1;
      AlikePolls(lanes, mutations[..n], others[..n], tick);
      AlikeShareKey(mutations[n], others[n]);
    }
  }

  /** The order in which peers are enumerated leaves no trace: over every run the same mutations pass, and they differ
      in that order only. */
  lemma {:induction false} OrderLeavesNoTrace(polls: seq<seq<NetworkMutation>>, others: seq<seq<NetworkMutation>>)
    requires SameUpToOrder(polls, others)
    ensures RunLanes(polls) == RunLanes(others)
    ensures AllAlike(RunOut(polls), RunOut(others))
  {
    hide After, Admitted, Alike;
    if polls != [] {
      var n := |polls| - 1;
      OrderLeavesNoTrace(polls[..n], others[..n]);
      AlikePolls(RunLanes(polls[..n]), polls[n], others[n], n + 1);
    }
  }

  lemma {:induction false} LatestConcat(a: seq<NetworkMutation>, b: seq<NetworkMutation>, kind: Kind)
    ensures Latest(a + b, kind) == if Latest(b, kind).Some? then Latest(b, kind) else Latest(a, kind)
    decreases |b|
  {
    if b == [] {
      assert a + b == a;
    } else {
      assert (a + b)[..|a + b| - 1] == a + b[..|b| - 1];
      LatestConcat(a, b[..|b| - 1], kind);
    }
  }

  /** A changed key is admitted by the poll that first carries it. */
  lemma {:induction false} ChangePassesAtOnce(polls: seq<seq<NetworkMutation>>, now: seq<NetworkMutation>, kind: Kind)
    requires CountOf(now, kind) == 1 && LatestKey(now, kind) != LatestKey(Everything(polls), kind)
    ensures CountOf(RunOut(polls + [now]), kind) == CountOf(RunOut(polls), kind) + 1
    ensures Latest(RunOut(polls + [now]), kind) == Latest(now, kind)
  {
    RefinesEmittingEveryTick(polls);
    assert (polls + [now])[..|polls|] == polls;
    OneOfAKind(RunLanes(polls), now, |polls| + 1, kind);
    var passed := Admitted(RunLanes(polls), now, |polls| + 1);
    CountConcat(RunOut(polls), passed, kind);
    LatestConcat(RunOut(polls), passed, kind);
  }
}

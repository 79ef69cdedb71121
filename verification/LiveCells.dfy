/** The batched `get_live_cell` call: a batch answers in any order, and is matched back by request id. */
module LiveCells {
  import opened Basics
  import opened Chain

  datatype AssetKind = Native | Dao | Other(kind: nat)

  /** The cell inside a live answer. `Broken` lacks one of the fields every live cell has. */
  datatype Body = NoCell | Broken | Output(capacity: u64, kind: AssetKind)

  /** A `result` field: whether its status is "live", and what it carries. */
  datatype Report = Report(live: bool, body: Body)

  datatype Response = Response(id: Option<nat>, failed: bool, result: Option<Report>) {
    predicate Answerable() { failed || result.Some? }

    /** An RPC error and an outpoint that is not live both read as "no cell". */
    function Verdict(): Option<Body>
      requires Answerable()
    {
      if failed || !result.value.live then None else Some(result.value.body)
    }
  }

  /** What the node answers at each call to a batch with the given first id. Any function is allowed. */
  type BatchScript = (nat, nat, seq<OutPoint>) -> Result<seq<Response>>

  // ----- what a batch says, whatever its order -----

  /** Every response is labelled, no label repeats. */
  ghost predicate Labelled(responses: seq<Response>) {
    (forall i :: 0 <= i < |responses| ==> responses[i].id.Some?) &&
    forall i, j :: 0 <= i < j < |responses| ==> responses[i].id != responses[j].id
  }

  /** An error says that there is no cell, and so does a status other than "live"; a live status says what it carries. */
  ghost predicate Says(r: Response, verdict: Option<Body>) {
    if r.failed then verdict == None
    else r.result.Some? && verdict == if r.result.value.live then Some(r.result.value.body) else None
  }

  ghost predicate AnsweredAt(responses: seq<Response>, id: nat, verdict: Option<Body>) {
    exists r :: r in responses && r.id == Some(id) && Says(r, verdict)
  }

  /** `verdicts[k]` is what the response labelled `first + k` says. */
  ghost predicate Answers(responses: seq<Response>, first: nat, verdicts: seq<Option<Body>>) {
    Labelled(responses) && forall k :: 0 <= k < |verdicts| ==> AnsweredAt(responses, first + k, verdicts[k])
  }

  lemma {:induction false} LabelledOnce(responses: seq<Response>, r: Response, s: Response)
    requires Labelled(responses) && r in responses && s in responses && r.id == s.id
    ensures r == s
  {
    var i :| 0 <= i < |responses| && responses[i] == r;
    var j :| 0 <= j < |responses| && responses[j] == s;
    assert i == j;
  }

  /** A batch says at most one thing. */
  lemma {:induction false} AnswersAreUnique(responses: seq<Response>, first: nat, a: seq<Option<Body>>,
                                            b: seq<Option<Body>>)
    requires Answers(responses, first, a) && Answers(responses, first, b) && |a| == |b|
    ensures a == b
  {
    forall k | 0 <= k < |a| ensures a[k] == b[k] {
      var r :| r in responses && r.id == Some(first + k) && Says(r, a[k]);
      var s :| s in responses && s.id == Some(first + k) && Says(s, b[k]);
      LabelledOnce(responses, r, s);
    }
  }

  lemma {:induction false} OccursTwice(responses: seq<Response>, i: nat, j: nat)
    requires i < j < |responses| && responses[i] == responses[j]
    ensures multiset(responses)[responses[i]] >= 2
  {
    assert responses == responses[..j] + [responses[j]] + responses[j + 1..];
    assert responses[..j][i] in multiset(responses[..j]);
  }

  lemma {:induction false} OccursOnce(responses: seq<Response>, r: Response)
    requires Labelled(responses) && r in responses
    ensures multiset(responses)[r] == 1
  {
    var k :| 0 <= k < |responses| && responses[k] == r;
    assert responses == responses[..k] + [r] + responses[k + 1..];
    assert r !in multiset(responses[..k]) && r !in multiset(responses[k + 1..]);
  }

  /** Labels cannot repeat in any rearrangement of a batch in which they do not. */
  lemma {:induction false} ReorderedStaysLabelled(responses: seq<Response>, shuffled: seq<Response>)
    requires multiset(responses) == multiset(shuffled) && Labelled(responses)
    ensures Labelled(shuffled)
  {
    forall i | 0 <= i < |shuffled| ensures shuffled[i] in responses && shuffled[i].id.Some? {
      assert shuffled[i] in multiset(shuffled);
      var k :| 0 <= k < |responses| && responses[k] == shuffled[i];
    }
    forall i, j | 0 <= i < j < |shuffled| ensures shuffled[i].id != shuffled[j].id {
      if shuffled[i].id == shuffled[j].id {
        var r := shuffled[i];
        LabelledOnce(responses, r, shuffled[j]);
        OccursTwice(shuffled, i, j);
        OccursOnce(responses, r);
        assert false;
      }
    }
  }

  /** Pairing survives any order of the responses (section 6 of the JSON-RPC 2.0 specification). */
  lemma {:induction false} ReorderedAnswersAgree(responses: seq<Response>, shuffled: seq<Response>, first: nat,
                                                 verdicts: seq<Option<Body>>)
    requires multiset(responses) == multiset(shuffled)
    ensures Answers(responses, first, verdicts) <==> Answers(shuffled, first, verdicts)
  {
    forall r ensures r in responses <==> r in shuffled {
      assert r in multiset(responses) <==> r in multiset(shuffled);
    }
    if Labelled(responses) {
      ReorderedStaysLabelled(responses, shuffled);
    }
    if Labelled(shuffled) {
      ReorderedStaysLabelled(shuffled, responses);
    }
    forall k | 0 <= k < |verdicts|
      ensures AnsweredAt(responses, first + k, verdicts[k]) <==> AnsweredAt(shuffled, first + k, verdicts[k])
    {
    }
  }

  /** What one batched call makes of the node's reply. */
  ghost predicate Replied(script: BatchScript, clock: nat, first: nat, outPoints: seq<OutPoint>,
                          reply: Result<seq<Option<Body>>>) {
    if outPoints == [] then reply == Ok([])
    else var answer := script(clock, first, outPoints);
         if answer.Err? then reply == Err(answer.fault)
         else if reply.Ok? then |reply.value| == |outPoints| && Answers(answer.value, first, reply.value)
         else forall verdicts :: |verdicts| == |outPoints| ==> !Answers(answer.value, first, verdicts)
  }

  class BatchClient {
    const script: BatchScript
    var calls: nat
    var nextId: nat

    constructor (script: BatchScript)
      ensures this.script == script && calls == 0 && nextId == 1
    {
      this.script := script;
      calls := 0;
      nextId := 1;
    }

    /** Request order is preserved: verdict `k` is about `outPoints[k]`. A batch that repeats or lacks a label,
        omits a request or answers neither with an error nor with a result fails as a whole. */
    method GetLiveCells(outPoints: seq<OutPoint>) returns (r: Result<seq<Option<Body>>>)
      modifies this
      ensures outPoints == [] ==> r == Ok([]) && calls == old(calls) && nextId == old(nextId)
      ensures outPoints != [] ==> calls == old(calls) + 1 && nextId == old(nextId) + |outPoints|
      ensures Replied(script, old(calls), old(nextId), outPoints, r)
    {
      if outPoints == [] {
        return Ok([]);
      }
      var first := nextId;
      nextId := nextId + |outPoints|;
      var reply := script(calls, first, outPoints);
      calls := calls + 1;
      if reply.Err? {
        return Err(reply.fault);
      }
      var responses := reply.value;
      r := Match(responses, first, |outPoints|);
    }
  }

  /** Indexes the responses by label, then takes them out in request order. */
  method Match(responses: seq<Response>, first: nat, count: nat) returns (r: Result<seq<Option<Body>>>)
    ensures r.Ok? ==> |r.value| == count && Answers(responses, first, r.value)
    ensures r.Err? ==> forall verdicts :: |verdicts| == count ==> !Answers(responses, first, verdicts)
  {
    hide Answers, Indexed;
    var indexed := IndexById(responses);
    if indexed.Err? {
      forall verdicts ensures !Answers(responses, first, verdicts) {
        UnlabelledIsUnanswered(responses, first, verdicts);
      }
      return Err(indexed.fault);
    }
    r := TakeInOrder(responses, indexed.value, first, count);
  }

  ghost predicate Indexed(responses: seq<Response>, byId: map<nat, Response>) {
    Labelled(responses) &&
    (forall k :: 0 <= k < |responses| ==>
       responses[k].id.value in byId && byId[responses[k].id.value] == responses[k]) &&
    forall id :: id in byId ==> byId[id] in responses && byId[id].id == Some(id)
  }

  lemma {:induction false} IndexOneMore(responses: seq<Response>, byId: map<nat, Response>, response: Response)
    requires Indexed(responses, byId) && response.id.Some?
    ensures response.id.value !in byId ==> Indexed(responses + [response], byId[response.id.value := response])
    ensures response.id.value in byId ==> !Labelled(responses + [response])
  {
    var more := responses + [response];
    var id := response.id.value;
    if id in byId {
      var k :| 0 <= k < |responses| && responses[k] == byId[id];
      assert more[k].id == more[|responses|].id;
    }
  }

  lemma {:induction false} LabelledPrefix(responses: seq<Response>, i: nat)
    requires i <= |responses| && !Labelled(responses[..i])
    ensures !Labelled(responses)
  {
    if Labelled(responses) {
      forall k | 0 <= k < i ensures responses[..i][k] == responses[k] {
      }
    }
  }

  method IndexById(responses: seq<Response>) returns (r: Result<map<nat, Response>>)
    ensures r.Ok? ==> Indexed(responses, r.value)
    ensures r.Err? ==> !Labelled(responses)
  {
    hide Indexed, Labelled;
    var byId: map<nat, Response> := map[];
    NothingIndexed();
    for i := 0 to |responses|
      invariant Indexed(responses[..i], byId)
    {
      var response := responses[i];
      assert responses[..i + 1] == responses[..i] + [response];
      if response.id.None? {
        LabelsAreThere(responses, i);
        return Err(Malformed);
      }
      IndexOneMore(responses[..i], byId, response);
      if response.id.value in byId {
        LabelledPrefix(responses, i + 1);
        return Err(Malformed);
      }
      byId := byId[response.id.value := response];
    }
    assert responses[..|responses|] == responses;
    r := Ok(byId);
  }

  lemma {:induction false} NothingIndexed()
    ensures forall responses: seq<Response> :: responses == [] ==> Indexed(responses, map[])
  {
  }

  lemma {:induction false} LabelsAreThere(responses: seq<Response>, i: nat)
    requires i < |responses| && responses[i].id.None?
    ensures !Labelled(responses)
  {
  }

  lemma {:induction false} UnlabelledIsUnanswered(responses: seq<Response>, first: nat, verdicts: seq<Option<Body>>)
    requires !Labelled(responses)
    ensures !Answers(responses, first, verdicts)
  {
  }

  method TakeInOrder(responses: seq<Response>, indexed: map<nat, Response>, first: nat, count: nat)
    returns (r: Result<seq<Option<Body>>>)
    requires Indexed(responses, indexed)
    ensures r.Ok? ==> |r.value| == count && Answers(responses, first, r.value)
    ensures r.Err? ==> forall verdicts :: |verdicts| == count ==> !Answers(responses, first, verdicts)
  {
    hide Answers, Labelled, Indexed;
    var byId := indexed;
    var ordered: seq<Option<Body>> := [];
    NothingAnswered(responses, indexed, first);
    for offset := 0 to count
      invariant |ordered| == offset && Answers(responses, first, ordered)
      invariant forall id :: id in byId ==> id in indexed && byId[id] == indexed[id]
      invariant forall id :: id in indexed && id !in byId ==> id < first + offset
    {
      var id := first + offset;
      if id !in byId || !byId[id].Answerable() {
        forall verdicts: seq<Option<Body>> | |verdicts| == count ensures !Answers(responses, first, verdicts) {
          Unanswered(responses, indexed, first, offset, verdicts);
        }
        return Err(Malformed);
      }
      var response := byId[id];
      byId := byId - {id};
      AnsweredOneMore(responses, indexed, first, ordered);
      ordered := ordered + [response.Verdict()];
    }
    r := Ok(ordered);
  }

  lemma {:induction false} NothingAnswered(responses: seq<Response>, byId: map<nat, Response>, first: nat)
    requires Indexed(responses, byId)
    ensures Answers(responses, first, [])
  {
  }

  lemma {:induction false} AnsweredOneMore(responses: seq<Response>, byId: map<nat, Response>, first: nat,
                                           ordered: seq<Option<Body>>)
    requires Indexed(responses, byId) && Answers(responses, first, ordered)
    requires first + |ordered| in byId && byId[first + |ordered|].Answerable()
    ensures Answers(responses, first, ordered + [byId[first + |ordered|].Verdict()])
  {
    var id := first + |ordered|;
    assert AnsweredAt(responses, id, byId[id].Verdict());
  }

  lemma {:induction false} Unanswered(responses: seq<Response>, byId: map<nat, Response>, first: nat, offset: nat,
                                      verdicts: seq<Option<Body>>)
    requires Indexed(responses, byId) && offset < |verdicts|
    requires first + offset !in byId || !byId[first + offset].Answerable()
    ensures !Answers(responses, first, verdicts)
  {
    assert !AnsweredAt(responses, first + offset, verdicts[offset]);
  }
}

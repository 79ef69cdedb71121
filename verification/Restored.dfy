/** A stream that an empty consumer accepts, judged over what another consumer restored. */
module Restored {
  import opened Basics
  import opened Chain

  /** What a log does to a consumer that already holds `restored`, given what it does to an empty one. */
  ghost predicate Stacked(restored: seq<Held>, actual: Audit, shadow: Audit)
    requires restored != []
  {
    var j := shadow.junction;
    (actual.legal <==> j.parent.None? || j.parent.value == Top(restored).block.hash) &&
    (actual.legal ==>
       actual.consumer == if j.rebuilt then shadow.consumer else Consumer(restored + shadow.consumer.chain, None)) &&
    actual.highest == (if j.rebuilt then shadow.highest else Some(Raised(shadow.highest, Top(restored).number))) &&
    actual.deepest == shadow.deepest && actual.mined == shadow.mined && actual.progress == shadow.progress
  }

  /** A stream that stands right on top of what was restored, as far as an empty consumer can tell. */
  ghost predicate StandsOn(restored: seq<Held>, shadow: Audit)
    requires restored != []
  {
    shadow.legal && shadow.junction.sound && (shadow.junction.seat.Some? ==> shadow.junction.seat.value == Top(restored).number)
  }

  lemma {:induction false} TruncateAbove(restored: seq<Held>, chain: seq<Held>, from: u64)
    requires restored != [] && Top(restored).number < from
    ensures Truncate(restored + chain, from) == restored + Truncate(chain, from)
  {
    var all := restored + chain;
    if chain == [] {
      assert all == restored;
    } else if Top(chain).number >= from {
      assert all[..|all| - 1] == restored + chain[..|chain| - 1];
      TruncateAbove(restored, chain[..|chain| - 1], from);
    }
  }

  lemma {:induction false} StackedStep(restored: seq<Held>, actual: Audit, shadow: Audit, m: Mutation)
    requires restored != [] && Stacked(restored, actual, shadow)
    requires StandsOn(restored, AuditStep(shadow, m))
    ensures Stacked(restored, AuditStep(actual, m), AuditStep(shadow, m))
  {
    var chain := shadow.consumer.chain;
    if !shadow.junction.rebuilt && actual.legal {
      if m.ChainReorganized? {
        TruncateAbove(restored, chain, m.fromBlock);
      } else if m.TxLanded? {
        assert (restored + chain)[..|restored + chain| - 1] == restored + chain[..|chain| - 1];
      }
    }
  }

  lemma {:induction false} StoodBefore(restored: seq<Held>, shadow: Audit, m: Mutation)
    requires restored != [] && StandsOn(restored, AuditStep(shadow, m))
    ensures StandsOn(restored, shadow)
  {
  }

  /** A sound stream is legal over what was restored exactly when the block its first parent hash names is the
      restored top; it then adds to what was restored, until a rebuild replaces it. */
  lemma {:induction false} StreamOverRestored(restored: seq<Held>, log: seq<Mutation>)
    requires restored != [] && StandsOn(restored, AuditLog([], log))
    ensures Stacked(restored, AuditLog(restored, log), AuditLog([], log))
  {
    if log != [] {
      var before := log[..|log| - 1];
      hide AuditStep, Stacked, StandsOn;
      StoodBefore(restored, AuditLog([], before), log[|log| - 1]);
      StreamOverRestored(restored, before);
      StackedStep(restored, AuditLog(restored, before), AuditLog([], before), log[|log| - 1]);
    }
  }
}

/** Ids derived from outpoints: a tag bit over a hashed payload, probed linearly when taken. */
module Identity {
  import opened Basics
  import opened Chain

  const COMPOSITION_ID_PREFIX := 0x10_0000_0000_0000
  const COMPOSITION_ID_SPAN := 0x8_0000_0000_0000

  /** The id of a hashed payload: the payload confined below the tag. */
  function Tagged(payload: nat): (id: nat)
    ensures InBand(id)
  {
    COMPOSITION_ID_PREFIX + payload % COMPOSITION_ID_SPAN
  }

  /** Tagged, and inside the safe-integer range of a 64-bit float. */
  predicate InBand(id: nat) {
    COMPOSITION_ID_PREFIX <= id < COMPOSITION_ID_PREFIX + COMPOSITION_ID_SPAN && id < 0x20_0000_0000_0000
  }

  // ----- bits -----

  const COMPOSITION_ID_MASK := 0x7_FFFF_FFFF_FFFF
  const WORD := 0x1_0000_0000_0000_0000

  function Pow2(n: nat): (p: nat)
    ensures p > 0
  {
    if n == 0 then 1 else 2 * Pow2(n - 1)
  }

  function BitAnd(a: nat, b: nat): nat {
    if a == 0 || b == 0 then 0 else 2 * BitAnd(a / 2, b / 2) + (a % 2) * (b % 2)
  }

  function BitOr(a: nat, b: nat): nat
    decreases a + b
  {
    if a == 0 && b == 0 then 0 else 2 * BitOr(a / 2, b / 2) + Max(a % 2, b % 2)
  }

  function BitXor(a: nat, b: nat): nat
    decreases a + b
  {
    if a == 0 && b == 0 then 0 else 2 * BitXor(a / 2, b / 2) + (a + b) % 2
  }

  /** Bit `k` of a number. */
  ghost function Bit(n: nat, k: nat): nat {
    if k == 0 then n % 2 else Bit(n / 2, k - 1)
  }

  /** The three operations work bit by bit: AND multiplies, OR takes the larger, XOR adds without carrying. */
  lemma {:induction false} BitByBit(a: nat, b: nat, k: nat)
    ensures Bit(BitAnd(a, b), k) == Bit(a, k) * Bit(b, k)
    ensures Bit(BitOr(a, b), k) == Max(Bit(a, k), Bit(b, k))
    ensures Bit(BitXor(a, b), k) == (Bit(a, k) + Bit(b, k)) % 2
  {
    hide BitAnd, BitOr, BitXor;
    LowBits(a, b);
    if k > 0 {
      BitByBit(a / 2, b / 2, k - 1);
    }
  }

  lemma {:induction false} LowBits(a: nat, b: nat)
    ensures BitAnd(a, b) % 2 == (a % 2) * (b % 2) && BitAnd(a, b) / 2 == BitAnd(a / 2, b / 2)
    ensures BitOr(a, b) % 2 == Max(a % 2, b % 2) && BitOr(a, b) / 2 == BitOr(a / 2, b / 2)
    ensures BitXor(a, b) % 2 == (a % 2 + b % 2) % 2 && BitXor(a, b) / 2 == BitXor(a / 2, b / 2)
  {
    assert 0 <= (a % 2) * (b % 2) <= 1 by {
      if a % 2 == 0 { assert (a % 2) * (b % 2) == 0; } else { assert (a % 2) * (b % 2) == b % 2; }
    }
  }

  /** A mask of low bits keeps a remainder. */
  lemma {:induction false} MaskIsRemainder(a: nat, k: nat, q: nat, r: nat)
    requires a == q * Pow2(k) + r && r < Pow2(k)
    ensures BitAnd(a, Pow2(k) - 1) == r
  {
    hide BitAnd;
    if k == 0 || a == 0 {
      AndNothing(a, Pow2(k) - 1);
      Zeroes(q, Pow2(k));
    } else {
      var p := Pow2(k - 1);
      Halved(a, q, p, r);
      MaskIsRemainder(a / 2, k - 1, q, r / 2);
      OddMask(p);
      AndOneBit(a, 2 * p - 1);
    }
  }

  lemma {:induction false} AndNothing(a: nat, b: nat)
    requires a == 0 || b == 0
    ensures BitAnd(a, b) == 0
  {
  }

  lemma {:induction false} Zeroes(q: nat, p: nat)
    ensures q * p >= 0
  {
  }

  lemma {:induction false} Halved(a: nat, q: nat, p: nat, r: nat)
    requires a == q * (2 * p) + r
    ensures a / 2 == q * p + r / 2 && a % 2 == r % 2
  {
    assert a == 2 * (q * p) + r;
  }

  lemma {:induction false} OddMask(p: nat)
    requires p > 0
    ensures (2 * p - 1) / 2 == p - 1 && (2 * p - 1) % 2 == 1
  {
  }

  lemma {:induction false} AndOneBit(a: nat, b: nat)
    requires a > 0 && b % 2 == 1
    ensures BitAnd(a, b) == 2 * BitAnd(a / 2, b / 2) + a % 2
  {
  }

  /** A bit over a smaller number adds to it. */
  lemma {:induction false} TagIsSum(k: nat, x: nat)
    requires x < Pow2(k)
    ensures BitOr(Pow2(k), x) == Pow2(k) + x
  {
    if k == 0 {
      assert BitOr(0, 0) == 0;
    } else {
      TagIsSum(k - 1, x / 2);
    }
  }

  lemma {:induction false} PowersMultiply(a: nat, b: nat)
    ensures Pow2(a + b) == Pow2(a) * Pow2(b)
  {
    if b > 0 {
      PowersMultiply(a, b - 1);
    }
  }

  lemma {:induction false} BandPowers()
    ensures Pow2(51) == COMPOSITION_ID_SPAN && Pow2(52) == COMPOSITION_ID_PREFIX
  {
    assert Pow2(13) == 0x2000;
    PowersMultiply(13, 13);
    PowersMultiply(26, 26);
  }

  /** The tag over the masked word, as the machine computes it. */
  function TagBits(word: nat): nat {
    BitOr(COMPOSITION_ID_PREFIX, BitAnd(word, COMPOSITION_ID_MASK))
  }

  /** OR and AND compute the tagged sum and the remainder, on every payload. */
  lemma {:induction false} TagIsBitwise(payload: nat)
    ensures TagBits(payload) == Tagged(payload)
  {
    hide BitAnd, BitOr, Pow2;
    BandPowers();
    MaskIsRemainder(payload, 51, payload / COMPOSITION_ID_SPAN, payload % COMPOSITION_ID_SPAN);
    TagIsSum(52, payload % COMPOSITION_ID_SPAN);
  }

  // ----- the hash itself -----

  type byte = n: nat | n < 0x100

  const FNV_OFFSET: u64 := 0xcbf29ce484222325
  const FNV_PRIME := 0x100000001b3

  /** One byte into the hash: XOR, then a multiplication that wraps at 64 bits. */
  function Mix(hash: u64, b: byte): u64 {
    BitXor(hash, b) * FNV_PRIME % WORD
  }

  /** FNV-1a: every byte, first to last. */
  function Fnv1a(bytes: seq<byte>): u64 {
    if bytes == [] then FNV_OFFSET else Mix(Fnv1a(bytes[..|bytes| - 1]), bytes[|bytes| - 1])
  }

  function LeBytes(index: u32): seq<byte> {
    [index % 0x100, index / 0x100 % 0x100, index / 0x1_0000 % 0x100, index / 0x100_0000 % 0x100]
  }

  lemma {:induction false} FnvEmpty()
    ensures Fnv1a([]) == FNV_OFFSET
  {
  }

  lemma {:induction false} FnvOneMore(bytes: seq<byte>, b: byte)
    ensures Fnv1a(bytes + [b]) == Mix(Fnv1a(bytes), b)
  {
    hide Mix;
    assert (bytes + [b])[..|bytes|] == bytes;
  }

  /** The hash after every byte, from the offset basis on: XOR the byte in, then multiply by the prime, wrapping. */
  ghost predicate Hashes(states: seq<u64>, bytes: seq<byte>) {
    |states| == |bytes| + 1 && states[0] == 0xcbf29ce484222325 &&
    forall i :: 0 <= i < |bytes| ==> states[i + 1] == BitXor(states[i], bytes[i]) * 0x100000001b3 % 0x1_0000_0000_0000_0000
  }

  lemma {:induction false} FnvRuns(bytes: seq<byte>)
    ensures exists states :: Hashes(states, bytes) && states[|bytes|] == Fnv1a(bytes)
  {
    if bytes == [] {
      assert Hashes([0xcbf29ce484222325], bytes);
    } else {
      var init, last := bytes[..|bytes| - 1], bytes[|bytes| - 1];
      FnvRuns(init);
      var states :| Hashes(states, init) && states[|init|] == Fnv1a(init);
      assert Hashes(states + [Mix(states[|init|], last)], bytes);
    }
  }

  /** What an outpoint's id is made of, given how transaction hashes are written out. */
  function PayloadOf(text: Hash -> seq<byte>): OutPoint -> nat {
    (o: OutPoint) => var payload: nat := Fnv1a(text(o.txHash) + LeBytes(o.index)); payload
  }

  /** The id is the tagged hash of one string, the transaction hash's bytes and then the index's, so it depends on
      nothing but the outpoint. */
  method CompositionIdForOutpoint(txHash: seq<byte>, index: u32) returns (id: nat)
    ensures id == Tagged(Fnv1a(txHash + LeBytes(index)))
    ensures id == 0x10_0000_0000_0000 +
                  Fnv1a(txHash + [index % 0x100, index / 0x100 % 0x100, index / 0x1_0000 % 0x100, index / 0x100_0000])
                  % 0x8_0000_0000_0000
  {
    hide Mix, Fnv1a, TagBits;
    FnvEmpty();
    var hash: u64 := FNV_OFFSET;
    assert txHash[..0] == [];
    for i := 0 to |txHash|
      invariant hash == Fnv1a(txHash[..i])
    {
      FnvOneMore(txHash[..i], txHash[i]);
      assert txHash[..i + 1] == txHash[..i] + [txHash[i]];
      hash := Mix(hash, txHash[i]);
    }
    var tail := LeBytes(index);
    assert txHash[..|txHash|] == txHash + tail[..0];
    for i := 0 to |tail|
      invariant hash == Fnv1a(txHash + tail[..i])
    {
      FnvOneMore(txHash + tail[..i], tail[i]);
      assert txHash + tail[..i + 1] == txHash + tail[..i] + [tail[i]];
      hash := Mix(hash, tail[i]);
    }
    assert tail[..|tail|] == tail;
    id := TagBits(hash);
    TagIsBitwise(hash);
  }

  /** The slot tried after `id`: a wrapping increment under the mask. */
  function NextSlot(id: nat): nat {
    TagBits((id + 1) % WORD)
  }

  /** The slot `steps` probes after the home slot of a payload. */
  function Probe(payload: nat, steps: nat): nat {
    Tagged(payload + steps)
  }

  /** The machine's increment, wrapping and masked, walks the band slot by slot and around its end. */
  lemma {:induction false} ProbeAdvances(payload: nat, steps: nat)
    ensures NextSlot(Probe(payload, steps)) == Probe(payload, steps + 1)
  {
    hide TagBits;
    var n := payload + steps;
    var id := Probe(payload, steps);
    assert (id + 1) % WORD == id + 1;
    TagIsBitwise(id + 1);
    assert COMPOSITION_ID_PREFIX == 2 * COMPOSITION_ID_SPAN;
    assert n == n / COMPOSITION_ID_SPAN * COMPOSITION_ID_SPAN + n % COMPOSITION_ID_SPAN;
    SameRemainder(n % COMPOSITION_ID_SPAN + 1 + COMPOSITION_ID_PREFIX, n + 1, 2 - n / COMPOSITION_ID_SPAN);
  }

  lemma {:induction false} SameRemainder(a: nat, b: nat, turns: int)
    requires a == b + turns * COMPOSITION_ID_SPAN
    ensures a % COMPOSITION_ID_SPAN == b % COMPOSITION_ID_SPAN
  {
  }

  /** Fewer ids than the band holds leave a slot free. */
  lemma {:induction false} BandHasRoom(admitted: set<nat>)
    requires |admitted| < COMPOSITION_ID_SPAN
    ensures exists free: nat :: InBand(free) && free !in admitted
  {
    var band := Band(COMPOSITION_ID_SPAN);
    if band <= admitted {
      SubsetSize(band, admitted);
      assert false;
    }
    var free :| free in band && free !in admitted;
  }

  ghost function Band(n: nat): (band: set<nat>)
    requires n <= COMPOSITION_ID_SPAN
    ensures |band| == n
    ensures forall id :: id in band <==> COMPOSITION_ID_PREFIX <= id < COMPOSITION_ID_PREFIX + n
  {
    if n == 0 then {} else Band(n - 1) + {COMPOSITION_ID_PREFIX + n - 1}
  }

  /** The ids already handed out. */
  class Admission {
    var outPoints: set<OutPoint>
    var ids: set<nat>

    constructor ()
      ensures outPoints == {} && ids == {}
    {
      outPoints := {};
      ids := {};
    }

    /** The id is the first free slot from the outpoint's own on, so an outpoint whose own slot is free is placed
        where every other producer would place it. One free slot is all that termination needs. */
    method AllocateId(outPoint: OutPoint, text: Hash -> seq<byte>) returns (id: nat)
      requires exists free: nat :: InBand(free) && free !in ids
      modifies this`ids
      ensures InBand(id) && id !in old(ids) && ids == old(ids) + {id}
      ensures Tagged(PayloadOf(text)(outPoint)) !in old(ids) ==> id == Tagged(PayloadOf(text)(outPoint))
      ensures exists steps: nat ::
                FirstFree(PayloadOf(text)(outPoint), steps, old(ids)) && id == Probe(PayloadOf(text)(outPoint), steps)
    {
      hide NextSlot, Fnv1a, LeBytes, TagBits;
      ghost var free: nat :| InBand(free) && free !in ids;
      ghost var payload := PayloadOf(text)(outPoint);
      ghost var limit := StepsTo(payload, free);
      id := CompositionIdForOutpoint(text(outPoint.txHash), outPoint.index);
      ghost var steps: nat := 0;
      while id in ids
        invariant ids == old(ids) && steps <= limit && id == Probe(payload, steps)
        invariant forall t :: 0 <= t < steps ==> Probe(payload, t) in ids
        decreases limit - steps
      {
        ProbeAdvances(payload, steps);
        assert Probe(payload, limit) == free;
        id := NextSlot(id);
        steps := steps + 1;
      }
      assert FirstFree(payload, steps, ids);
      ids := ids + {id};
    }
  }

  ghost predicate FirstFree(payload: nat, steps: nat, ids: set<nat>) {
    Probe(payload, steps) !in ids && forall t :: 0 <= t < steps ==> Probe(payload, t) in ids
  }

  /** How many probes reach a given slot of the band: less than a full turn. */
  ghost function StepsTo(payload: nat, slot: nat): (steps: nat)
    requires InBand(slot)
    ensures steps < COMPOSITION_ID_SPAN && Probe(payload, steps) == slot
  {
    var home, goal := payload % COMPOSITION_ID_SPAN, slot - COMPOSITION_ID_PREFIX;
    var steps := if home <= goal then goal - home else goal + COMPOSITION_ID_SPAN - home;
    assert (payload + steps) % COMPOSITION_ID_SPAN == goal by {
      var turns := payload / COMPOSITION_ID_SPAN;
      assert payload == home + turns * COMPOSITION_ID_SPAN;
      if home <= goal {
        SameRemainder(payload + steps, goal, turns);
      } else {
        SameRemainder(payload + steps, goal, turns + 1);
      }
    }
    steps
  }
}

/** Molecule tables: the Script preimage the index adapter writes, and the SporeData field the node adapter reads. */
module Molecule {
  import opened Basics

  type byte = n: int | 0 <= n < 256

  const WORD := 0x1_0000_0000
  const CLUSTER_ID_BYTES := 32
  const SPORE_DATA_FIELDS := 3

  /** The four little-endian bytes of a length narrowed to 32 bits. */
  function LeU32(n: nat): (word: seq<byte>)
    ensures |word| == 4
  {
    [n % 256, n / 0x100 % 256, n / 0x1_0000 % 256, n / 0x100_0000 % 256]
  }

  function FromLe(word: seq<byte>): (n: nat)
    requires |word| == 4
    ensures n < WORD
  {
    var b0: nat, b1: nat, b2: nat, b3: nat := word[0], word[1], word[2], word[3];
    b0 + 0x100 * b1 + 0x1_0000 * b2 + 0x100_0000 * b3
  }

  /** What four bytes say, the low one first. */
  ghost function LowFirst(b0: nat, b1: nat, b2: nat, b3: nat): nat {
    b0 + 0x100 * (b1 + 0x100 * (b2 + 0x100 * b3))
  }

  /** Narrowing is the only thing a length can lose on its way through a word, whose low byte comes first. */
  lemma {:induction false} LeRoundTrip(n: nat)
    ensures FromLe(LeU32(n)) == n % WORD
    ensures LowFirst(LeU32(n)[0], LeU32(n)[1], LeU32(n)[2], LeU32(n)[3]) == n % 0x1_0000_0000
  {
    var b0, b1, b2 := n % 256, n / 0x100 % 256, n / 0x1_0000 % 256;
    assert n / 0x1_0000 == n / 0x100 / 256 && n / 0x100_0000 == n / 0x1_0000 / 256;
    assert n == b0 + 256 * (n / 0x100) && n / 0x100 == b1 + 256 * (n / 0x1_0000);
    assert n / 0x1_0000 == b2 + 256 * (n / 0x100_0000);
    var high := n / 0x100_0000;
    assert high == high % 256 + 256 * (high / 256);
    assert n == FromLe(LeU32(n)) + WORD * (high / 256);
  }

  // ----- tables of three fields -----

  /** Full size, one start offset per field, then the fields back to back. */
  function Header3(a: nat, b: nat, c: nat): (header: seq<byte>)
    ensures |header| == 16
  {
    LeU32(16 + a + b + c) + LeU32(16) + LeU32(16 + a) + LeU32(16 + a + b)
  }

  function Table3(a: seq<byte>, b: seq<byte>, c: seq<byte>): (table: seq<byte>)
    ensures |table| == 16 + |a| + |b| + |c|
  {
    Header3(|a|, |b|, |c|) + (a + b + c)
  }

  /** A molecule `Bytes`: its own length, then the raw payload. */
  function Bytes(payload: seq<byte>): (bytes: seq<byte>)
    ensures |bytes| == 4 + |payload|
  {
    LeU32(|payload|) + payload
  }

  function Get(bytes: seq<byte>, from: nat, to: nat): (r: Option<seq<byte>>)
    ensures r.Some? <==> from <= to <= |bytes|
    ensures r.Some? ==> r.value == bytes[from..to]
  {
    if from <= to <= |bytes| then Some(bytes[from..to]) else None
  }

  function ReadU32(bytes: seq<byte>, at: nat): (r: Option<nat>)
    ensures r.Some? <==> at + 4 <= |bytes|
    ensures r.Some? ==> r.value == FromLe(bytes[at..at + 4])
  {
    var word := Get(bytes, at, at + 4);
    if word.Some? then Some(FromLe(word.value)) else None
  }

  /** Reading in a suffix is reading further along in the whole. */
  lemma {:induction false} ReadsThrough(bytes: seq<byte>, from: nat, at: nat)
    requires from + at + 4 <= |bytes|
    ensures ReadU32(bytes[from..], at) == ReadU32(bytes, from + at)
  {
    assert bytes[from..][at..at + 4] == bytes[from + at..from + at + 4];
  }

  lemma {:induction false} HeaderReadsBack(a: seq<byte>, b: seq<byte>, c: seq<byte>)
    ensures var table := Table3(a, b, c);
            ReadU32(table, 0) == Some(|table| % WORD) && ReadU32(table, 4) == Some(16) &&
            ReadU32(table, 8) == Some((16 + |a|) % WORD) && ReadU32(table, 12) == Some((16 + |a| + |b|) % WORD)
  {
    var table := Table3(a, b, c);
    var header := Header3(|a|, |b|, |c|);
    assert table[0..4] == header[0..4] == LeU32(|table|);
    assert table[4..8] == header[4..8] == LeU32(16);
    assert table[8..12] == header[8..12] == LeU32(16 + |a|);
    assert table[12..16] == header[12..16] == LeU32(16 + |a| + |b|);
    LeRoundTrip(|table|);
    LeRoundTrip(16);
    LeRoundTrip(16 + |a|);
    LeRoundTrip(16 + |a| + |b|);
  }

  lemma {:induction false} FieldsReadBack(a: seq<byte>, b: seq<byte>, c: seq<byte>)
    ensures var table := Table3(a, b, c);
            table[16..16 + |a|] == a && table[16 + |a|..16 + |a| + |b|] == b && table[16 + |a| + |b|..] == c
  {
  }

  lemma {:induction false} BytesReadBack(payload: seq<byte>)
    ensures ReadU32(Bytes(payload), 0) == Some(|payload| % WORD) && Bytes(payload)[4..] == payload
  {
    assert Bytes(payload)[0..4] == LeU32(|payload|);
    LeRoundTrip(|payload|);
  }

  // ----- Script -----

  datatype Script = Script(codeHash: seq<byte>, hashType: byte, args: seq<byte>) {
    predicate Valid() { |codeHash| == 32 }
  }

  function ScriptTable(s: Script): seq<byte> {
    Table3(s.codeHash, [s.hashType], Bytes(s.args))
  }

  /** The preimage, appended piece by piece as the hasher's buffer is filled. */
  method BuildScriptPreimage(s: Script) returns (table: seq<byte>)
    requires s.Valid()
    ensures table == ScriptTable(s) && |table| == 53 + |s.args|
  {
    var offsets := [16, 16 + |s.codeHash|, 16 + |s.codeHash| + 1];
    var fullSize := offsets[2] + 4 + |s.args|;
    table := LeU32(fullSize);
    for i := 0 to 3
      invariant table == LeU32(fullSize) + (if i > 0 then LeU32(offsets[0]) else []) +
                         (if i > 1 then LeU32(offsets[1]) else []) + (if i > 2 then LeU32(offsets[2]) else [])
    {
      table := table + LeU32(offsets[i]);
    }
    table := table + s.codeHash;
    table := table + [s.hashType];
    table := table + LeU32(|s.args|);
    table := table + s.args;
    assert table == ScriptTable(s);
  }

  /** A reader of three-field tables with the Script layout, checking sizes and offsets. */
  function DecodeScript(table: seq<byte>): Option<Script> {
    if |table| < 53 || ReadU32(table, 0) != Some(|table|) || ReadU32(table, 4) != Some(16) ||
       ReadU32(table, 8) != Some(48) || ReadU32(table, 12) != Some(49) || ReadU32(table, 49) != Some(|table| - 53)
    then None
    else Some(Script(table[16..48], table[48], table[53..]))
  }

  /** The preimage decodes back to the script exactly when its size fits the 32-bit header. */
  lemma {:induction false} ScriptRoundTrip(s: Script)
    requires s.Valid()
    ensures DecodeScript(ScriptTable(s)) == (if 53 + |s.args| < WORD then Some(s) else None)
  {
    hide LeU32, FromLe, Header3, Table3, ReadU32, Bytes;
    var table := ScriptTable(s);
    HeaderReadsBack(s.codeHash, [s.hashType], Bytes(s.args));
    FieldsReadBack(s.codeHash, [s.hashType], Bytes(s.args));
    BytesReadBack(s.args);
    ReadsThrough(table, 49, 0);
    assert table[53..] == table[49..][4..];
    assert table[48] == table[48..49][0] == s.hashType;
  }

  /** Distinct scripts have distinct preimages, whatever their size. */
  lemma {:induction false} ScriptPreimageIsInjective(s: Script, t: Script)
    requires s.Valid() && t.Valid() && ScriptTable(s) == ScriptTable(t)
    ensures s == t
  {
    FieldsReadBack(s.codeHash, [s.hashType], Bytes(s.args));
    FieldsReadBack(t.codeHash, [t.hashType], Bytes(t.args));
    BytesReadBack(s.args);
    BytesReadBack(t.args);
    assert [s.hashType] == [t.hashType];
    assert Bytes(s.args) == ScriptTable(s)[49..] == Bytes(t.args);
  }

  // ----- SporeData -----

  datatype SporeData = SporeData(contentType: seq<byte>, content: seq<byte>, clusterId: Option<seq<byte>>)

  /** How an optional field is laid out: nothing at all, or its bytes behind their length. */
  function OptionalBytes(payload: Option<seq<byte>>): seq<byte> {
    if payload.Some? then Bytes(payload.value) else []
  }

  function SporeTable(d: SporeData): seq<byte> {
    Table3(Bytes(d.contentType), Bytes(d.content), OptionalBytes(d.clusterId))
  }

  /** What follows the length word of a spore's third field, if the bytes are a table of three fields whose third one
      starts with a word of 32 and that many bytes. */
  function SporeClusterId(data: seq<byte>): (id: Option<seq<byte>>)
    ensures id.Some? ==> |id.value| == CLUSTER_ID_BYTES
  {
    var fullSize := ReadU32(data, 0);
    if fullSize.None? || fullSize.value != |data| then None else
    var header := ReadU32(data, 4);
    if header.None? || header.value % 4 != 0 || header.value / 4 != SPORE_DATA_FIELDS + 1 then None else
    var start := ReadU32(data, 4 * SPORE_DATA_FIELDS);
    if start.None? then None else
    var field := Get(data, start.value, fullSize.value);
    if field.None? then None else
    var length := ReadU32(field.value, 0);
    if length.None? || length.value != CLUSTER_ID_BYTES then None
    else Get(field.value, 4, 4 + CLUSTER_ID_BYTES)
  }

  /** For every SporeData the reader answers the 32-byte cluster id, and `None` when the spore has none, has one of
      another length, or is encoded too large for its size word. */
  lemma {:induction false} SporeRoundTrip(d: SporeData)
    ensures SporeClusterId(SporeTable(d)) ==
            if |SporeTable(d)| < WORD && d.clusterId.Some? && |d.clusterId.value| == CLUSTER_ID_BYTES then d.clusterId
            else None
  {
    hide LeU32, FromLe, Header3, Table3, ReadU32, Bytes;
    var a, b, c := Bytes(d.contentType), Bytes(d.content), OptionalBytes(d.clusterId);
    var table := SporeTable(d);
    HeaderReadsBack(a, b, c);
    FieldsReadBack(a, b, c);
    assert Get(table, 16 + |a| + |b|, |table|) == Some(c) by {
      assert table[16 + |a| + |b|..|table|] == table[16 + |a| + |b|..];
    }
    if d.clusterId.Some? {
      BytesReadBack(d.clusterId.value);
      assert c[4..|c|] == c[4..];
    }
  }

  /** The word at `at` is all there, low byte first, and says `n`. */
  ghost predicate Says(data: seq<byte>, at: nat, n: nat) {
    at + 4 <= |data| && n == LowFirst(data[at], data[at + 1], data[at + 2], data[at + 3])
  }

  /** A whole table of three fields, the third of which starts at `start` with a word of 32 and holds `id` behind it. */
  ghost predicate HoldsClusterId(data: seq<byte>, start: nat, id: seq<byte>) {
    Says(data, 0, |data|) && Says(data, 4, 16) && Says(data, 12, start) && Says(data, start, 32) &&
    start + 36 <= |data| && id == data[start + 4..start + 36]
  }

  /** Whatever the bytes, these are exactly the ones that are answered. */
  lemma {:induction false} ClusterIdIff(data: seq<byte>, id: seq<byte>)
    ensures SporeClusterId(data) == Some(id) <==> exists start: nat :: HoldsClusterId(data, start, id)
  {
    hide FromLe;
    ReadsWord(data, 0);
    ReadsWord(data, 4);
    ReadsWord(data, 12);
    if ReadU32(data, 12).Some? {
      var start := ReadU32(data, 12).value;
      ReadsWord(data, start);
      if start <= |data| {
        assert data[start..|data|] == data[start..];
        if start + 4 <= |data| {
          ReadsThrough(data, start, 0);
        }
        if start + 36 <= |data| {
          assert data[start..][4..36] == data[start + 4..start + 36];
          assert HoldsClusterId(data, start, data[start + 4..start + 36])
                 <==> Says(data, 0, |data|) && Says(data, 4, 16) && Says(data, start, 32);
        }
      }
    }
  }

  lemma {:induction false} ReadsWord(data: seq<byte>, at: nat)
    ensures forall n: nat :: ReadU32(data, at) == Some(n) <==> Says(data, at, n)
  {
  }
}

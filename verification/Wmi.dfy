/** The SMART blobs of WMICommunication.cpp: 12-byte chunks of attributes and of thresholds. */
module Wmi {
  import opened Sequences
  import opened Wrappers
  import opened SmartHealth
  import opened Agents

  const CHUNK := 12

  /** SmartData::GetCanonicalName. */
  type Names = byte -> string

  // ---- attributes ---------------------------------------------------------------------------------------

  /** A little-endian number. */
  function LittleEndian(bytes: seq<byte>): nat {
    if bytes == [] then 0 else bytes[0] + 256 * LittleEndian(bytes[1..])
  }

  function ChunkAttribute(chunk: seq<byte>, names: Names): Attribute
    requires |chunk| == CHUNK
  {
    Attribute(chunk[2], names(chunk[2]), chunk[3], chunk[4], 0, LittleEndian(chunk[5..11]))
  }

  /** The attributes of the whole chunks; a shorter rest is ignored. */
  function Fed(data: seq<byte>, names: Names): seq<Attribute> {
    if |data| < CHUNK then [] else [ChunkAttribute(data[..CHUNK], names)] + Fed(data[CHUNK..], names)
  }

  // ---- thresholds ---------------------------------------------------------------------------------------

  /** What the last of the first `n` chunks with this identifier says. */
  function LastThreshold(data: seq<byte>, n: nat, id: byte): Option<byte>
    requires n * CHUNK <= |data|
  {
    if n == 0 then None
    else if data[(n - 1) * CHUNK + 2] == id then Some(data[(n - 1) * CHUNK + 3])
    else LastThreshold(data, n - 1, id)
  }

  /** An attribute with the threshold the blob gives it, if any; identifier 0 marks an unused chunk. */
  function WithThreshold(a: Attribute, data: seq<byte>, n: nat): Attribute
    requires n * CHUNK <= |data|
  {
    if 0 < a.id < 256 && LastThreshold(data, n, a.id).Some?
    then a.(threshold := LastThreshold(data, n, a.id).value) else a
  }

  function WithThresholds(attributes: seq<Attribute>, data: seq<byte>, n: nat): seq<Attribute>
    requires n * CHUNK <= |data|
  {
    seq(|attributes|, i requires 0 <= i < |attributes| => WithThreshold(attributes[i], data, n))
  }

  // ---- the object ---------------------------------------------------------------------------------------

  lemma {:induction false} LittleEndianSplit(bytes: seq<byte>, b: nat)
    requires b < |bytes|
    ensures LittleEndian(bytes[b..]) == bytes[b] + 256 * LittleEndian(bytes[b + 1..])
  {
    assert bytes[b..][1..] == bytes[b + 1..];
  }

  /** The shifting loop; `or` adds, since the low byte is free after the shift. */
  method ReadRaw(data: seq<byte>, i: nat) returns (rawVal: int)
    requires i + CHUNK <= |data|
    ensures rawVal == LittleEndian(data[i + 5..i + 11])
  {
    rawVal := 0;
    var b := 5;
    ghost var raw := data[i + 5..i + 11];
    while b >= 0
      invariant -1 <= b <= 5
      invariant rawVal == LittleEndian(raw[b + 1..])
    {
      LittleEndianSplit(raw, b);
      rawVal := rawVal * 256 + data[i + 5 + b];
      b := b - 1;
    }
  }

  /** What is still to come from position `i` on, which a last partial chunk may have passed. */
  function FedFrom(data: seq<byte>, i: nat, names: Names): seq<Attribute> {
    if i < |data| then Fed(data[i..], names) else []
  }

  lemma {:induction false} FromStart(data: seq<byte>, names: Names)
    ensures FedFrom(data, 0, names) == Fed(data, names)
  {
    assert data[0..] == data;
  }

  function AttributeAt(data: seq<byte>, i: nat, names: Names): Attribute
    requires i + CHUNK <= |data|
  {
    Attribute(data[i + 2], names(data[i + 2]), data[i + 3], data[i + 4], 0, LittleEndian(data[i + 5..i + 11]))
  }

  lemma {:induction false} ChunkAt(data: seq<byte>, i: nat, names: Names)
    requires i + CHUNK <= |data|
    ensures ChunkAttribute(data[i..][..CHUNK], names) == AttributeAt(data, i, names)
    ensures Fed(data[i..], names) == [AttributeAt(data, i, names)] + FedFrom(data, i + CHUNK, names)
  {
    var chunk := data[i..][..CHUNK];
    assert chunk[5..11] == data[i + 5..i + 11];
    assert data[i..][CHUNK..] == data[i + CHUNK..];
  }

  /** One turn of the loop of FeedSmartDataStructure, with `done` fed so far. */
  lemma {:induction false} ChunkStep(done: seq<Attribute>, data: seq<byte>, i: nat, names: Names)
    requires i < |data|
    ensures i + CHUNK <= |data| ==>
              done + FedFrom(data, i, names) == (done + [AttributeAt(data, i, names)]) + FedFrom(data, i + CHUNK, names)
    ensures i + CHUNK > |data| ==> FedFrom(data, i, names) == [] && FedFrom(data, i + CHUNK, names) == []
  {
    if i + CHUNK <= |data| {
      ChunkAt(data, i, names);
      Associate(done, [AttributeAt(data, i, names)], FedFrom(data, i + CHUNK, names));
    }
  }

  /** The map of thresholds agrees with the search from the end, except that it holds no identifier 0. */
  ghost predicate Tabulates(thresholds: map<byte, byte>, data: seq<byte>, n: nat)
    requires n * CHUNK <= |data|
  {
    forall id: byte :: TabulatesId(thresholds, data, n, id)
  }

  predicate TabulatesId(thresholds: map<byte, byte>, data: seq<byte>, n: nat, id: byte)
    requires n * CHUNK <= |data|
  {
    if id == 0 || LastThreshold(data, n, id).None? then id !in thresholds
    else id in thresholds && thresholds[id] == LastThreshold(data, n, id).value
  }

  lemma {:induction false} TabulatesStep(thresholds: map<byte, byte>, data: seq<byte>, n: nat)
    requires (n + 1) * CHUNK <= |data| && Tabulates(thresholds, data, n)
    ensures var id, t := data[n * CHUNK + 2], data[n * CHUNK + 3];
            Tabulates(if id != 0 then thresholds[id := t] else thresholds, data, n + 1)
  {
    var id, t := data[n * CHUNK + 2], data[n * CHUNK + 3];
    var after := if id != 0 then thresholds[id := t] else thresholds;
    var m := n + 1;
    forall other: byte ensures TabulatesId(after, data, m, other) {
      assert TabulatesId(thresholds, data, n, other);
    }
  }

  class WMICommunication {
    var attributes: seq<Attribute>
    const names: Names

    constructor (names: Names)
      ensures attributes == [] && this.names == names
    {
      attributes := [];
      this.names := names;
    }

    method FeedSmartDataStructure(data: seq<byte>)
      modifies this
      ensures attributes == old(attributes) + Fed(data, names)
    {
      var i := 0;
      FromStart(data, names);
      while |data| > i
        invariant 0 <= i
        invariant attributes + FedFrom(data, i, names) == old(attributes) + Fed(data, names)
        decreases |data| - i
      {
        ChunkStep(attributes, data, i, names);
        if |data| >= i + CHUNK {
          var rawVal := ReadRaw(data, i);
          attributes := attributes + [Attribute(data[i + 2], names(data[i + 2]), data[i + 3], data[i + 4], 0, rawVal)];
        }
        i := i + CHUNK;
      }
      assert FedFrom(data, i, names) == [];
    }

    /** The blob must be at least as long as the size given with it. */
    method FeedThresholds(data: seq<byte>, dataSize: nat)
      requires dataSize <= |data|
      modifies this
      ensures attributes == WithThresholds(old(attributes), data, dataSize / CHUNK)
    {
      var thresholds := ReadThresholds(data, dataSize);
      for k := 0 to |attributes|
        invariant |attributes| == |old(attributes)|
        invariant forall j | 0 <= j < k :: attributes[j] == WithThreshold(old(attributes)[j], data, dataSize / CHUNK)
        invariant forall j | k <= j < |attributes| :: attributes[j] == old(attributes)[j]
      {
        var a := attributes[k];
        if 0 <= a.id < 256 {
          assert TabulatesId(thresholds, data, dataSize / CHUNK, a.id);
          if a.id in thresholds {
            attributes := attributes[k := a.(threshold := thresholds[a.id])];
          }
        }
      }
    }
  }

  /** The map loop of FeedThresholds. */
  method ReadThresholds(data: seq<byte>, dataSize: nat) returns (thresholds: map<byte, byte>)
    requires dataSize <= |data|
    ensures Tabulates(thresholds, data, dataSize / CHUNK)
  {
    thresholds := map[];
    ghost var n := 0;
    var i := 0;
    while i + CHUNK <= dataSize
      invariant i == n * CHUNK && i <= dataSize
      invariant Tabulates(thresholds, data, n)
    {
      TabulatesStep(thresholds, data, n);
      var id := data[i + 2];
      if id != 0 {
        thresholds := thresholds[id := data[i + 3]];
      }
      i := i + CHUNK;
      n := n + 1;
    }
    assert n == dataSize / CHUNK;
  }

  // ---- feeding undoes encoding --------------------------------------------------------------------------

  function Bytes(n: nat, count: nat): seq<byte> {
    if count == 0 then [] else [n % 256] + Bytes(n / 256, count - 1)
  }

  function Power256(count: nat): nat {
    if count == 0 then 1 else 256 * Power256(count - 1)
  }

  lemma {:induction false} BytesRead(n: nat, count: nat)
    requires n < Power256(count)
    ensures |Bytes(n, count)| == count && LittleEndian(Bytes(n, count)) == n
  {
    if count > 0 {
      BytesRead(n / 256, count - 1);
      assert Bytes(n, count)[1..] == Bytes(n / 256, count - 1);
    }
  }

  lemma {:induction false} SixBytesRead(n: nat)
    requires n < 0x1_0000_0000_0000
    ensures |Bytes(n, 6)| == 6 && LittleEndian(Bytes(n, 6)) == n
  {
    assert Power256(2) == 0x1_0000;
    assert Power256(4) == 0x1_0000_0000;
    assert Power256(6) == 0x1_0000_0000_0000;
    BytesRead(n, 6);
  }

  /** The attributes a blob can carry. */
  predicate AttributeOk(a: Attribute) {
    0 <= a.id < 256 && 0 <= a.value < 256 && 0 <= a.worst < 256 && 0 <= a.rawVal < 0x1_0000_0000_0000
  }

  /** The bytes of a chunk nobody reads. */
  datatype Filler = Filler(first: byte, second: byte, last: byte)

  function EncodeChunk(a: Attribute, f: Filler): seq<byte>
    requires AttributeOk(a)
  {
    [f.first, f.second, a.id, a.value, a.worst] + Bytes(a.rawVal, 6) + [f.last]
  }

  predicate AttributesOk(attributes: seq<Attribute>) {
    forall i | 0 <= i < |attributes| :: AttributeOk(attributes[i])
  }

  function Encode(attributes: seq<Attribute>, fillers: seq<Filler>, tail: seq<byte>): seq<byte>
    requires AttributesOk(attributes) && |fillers| == |attributes|
  {
    if attributes == [] then tail
    else EncodeChunk(attributes[0], fillers[0]) + Encode(attributes[1..], fillers[1..], tail)
  }

  /** What a blob cannot carry is the name, which comes from the identifier, and the threshold. */
  function Bare(attributes: seq<Attribute>, names: Names): seq<Attribute>
    requires AttributesOk(attributes)
  {
    seq(|attributes|, i requires 0 <= i < |attributes| =>
      attributes[i].(name := names(attributes[i].id), threshold := 0))
  }

  lemma {:induction false} ChunkRoundTrip(a: Attribute, f: Filler, names: Names)
    requires AttributeOk(a)
    ensures |EncodeChunk(a, f)| == CHUNK
    ensures ChunkAttribute(EncodeChunk(a, f), names) == a.(name := names(a.id), threshold := 0)
  {
    SixBytesRead(a.rawVal);
    assert EncodeChunk(a, f)[5..11] == Bytes(a.rawVal, 6);
  }

  /** Whatever the unread bytes and a short rest hold, feeding a blob gives back what was encoded. */
  lemma {:induction false} FeedUndoesEncode(attributes: seq<Attribute>, fillers: seq<Filler>, tail: seq<byte>,
      names: Names)
    requires AttributesOk(attributes) && |fillers| == |attributes| && |tail| < CHUNK
    ensures Fed(Encode(attributes, fillers, tail), names) == Bare(attributes, names)
  {
    if attributes != [] {
      var chunk, rest := EncodeChunk(attributes[0], fillers[0]), Encode(attributes[1..], fillers[1..], tail);
      ChunkRoundTrip(attributes[0], fillers[0], names);
      assert (chunk + rest)[..CHUNK] == chunk && (chunk + rest)[CHUNK..] == rest;
      FeedUndoesEncode(attributes[1..], fillers[1..], tail, names);
      assert Bare(attributes, names) == [Bare(attributes, names)[0]] + Bare(attributes[1..], names);
    }
  }

  // ---- thresholds join by identifier --------------------------------------------------------------------

  /** A threshold chunk: an identifier, its threshold, and ten bytes nobody reads. */
  datatype ThresholdEntry = ThresholdEntry(first: byte, second: byte, id: byte, threshold: byte, rest: seq<byte>)

  predicate EntriesOk(entries: seq<ThresholdEntry>) {
    forall i | 0 <= i < |entries| :: |entries[i].rest| == 8
  }

  function ThresholdChunk(e: ThresholdEntry): seq<byte> {
    [e.first, e.second, e.id, e.threshold] + e.rest
  }

  function EncodeThresholds(entries: seq<ThresholdEntry>): seq<byte> {
    if entries == [] then []
    else EncodeThresholds(entries[..|entries| - 1]) + ThresholdChunk(entries[|entries| - 1])
  }

  lemma {:induction false} EncodeThresholdsLength(entries: seq<ThresholdEntry>)
    requires EntriesOk(entries)
    ensures |EncodeThresholds(entries)| == |entries| * CHUNK
  {
    if entries != [] {
      EncodeThresholdsLength(entries[..|entries| - 1]);
    }
  }

  /** The last entry for an identifier. */
  predicate IsLast(entries: seq<ThresholdEntry>, k: nat, id: byte) {
    k < |entries| && entries[k].id == id && forall j | k < j < |entries| :: entries[j].id != id
  }

  lemma {:induction false} LastThresholdPrefix(a: seq<byte>, b: seq<byte>, n: nat, id: byte)
    requires n * CHUNK <= |a|
    ensures LastThreshold(a + b, n, id) == LastThreshold(a, n, id)
  {
    if n > 0 {
      LastThresholdPrefix(a, b, n - 1, id);
    }
  }

  lemma {:induction false} LastThresholdOfEntries(entries: seq<ThresholdEntry>, tail: seq<byte>, id: byte)
    requires EntriesOk(entries)
    ensures |EncodeThresholds(entries) + tail| >= |entries| * CHUNK
    ensures var found := LastThreshold(EncodeThresholds(entries) + tail, |entries|, id);
            && (forall k: nat | IsLast(entries, k, id) :: found == Some(entries[k].threshold))
            && ((forall k | 0 <= k < |entries| :: entries[k].id != id) ==> found == None)
  {
    EncodeThresholdsLength(entries);
    LastThresholdPrefix(EncodeThresholds(entries), tail, |entries|, id);
    if entries != [] {
      var n := |entries| - 1;
      var init, chunk := entries[..n], ThresholdChunk(entries[n]);
      var data := EncodeThresholds(init) + chunk;
      EncodeThresholdsLength(init);
      assert data[n * CHUNK + 2] == chunk[2] && data[n * CHUNK + 3] == chunk[3];
      if entries[n].id != id {
        LastThresholdOfEntries(init, chunk, id);
        forall k: nat | IsLast(entries, k, id) ensures IsLast(init, k, id) {
        }
      }
    }
  }

  /**
   Thresholds join by identifier: an attribute takes that of the last entry with its non-zero identifier, keeps
   its own without one, and keeps every other field. A rest shorter than a chunk does not count.
   */
  lemma {:induction false} ThresholdsJoin(attributes: seq<Attribute>, entries: seq<ThresholdEntry>, tail: seq<byte>,
      i: nat)
    requires EntriesOk(entries) && |tail| < CHUNK && i < |attributes| && 0 <= attributes[i].id < 256
    ensures |EncodeThresholds(entries) + tail| / CHUNK == |entries|
    ensures var a, data := attributes[i], EncodeThresholds(entries) + tail;
            var after := WithThresholds(attributes, data, |entries|)[i];
            && after.(threshold := a.threshold) == a
            && (forall k: nat | a.id != 0 && IsLast(entries, k, a.id) :: after.threshold == entries[k].threshold)
            && (a.id == 0 || (forall k | 0 <= k < |entries| :: entries[k].id != a.id) ==> after == a)
  {
    EncodeThresholdsLength(entries);
    LastThresholdOfEntries(entries, tail, attributes[i].id);
  }

  // ---- both blobs ---------------------------------------------------------------------------------------

  predicate Distinct(attributes: seq<Attribute>) {
    forall i, j | 0 <= i < j < |attributes| :: attributes[i].id != attributes[j].id
  }

  /** One threshold entry for each attribute. */
  predicate Describes(entries: seq<ThresholdEntry>, attributes: seq<Attribute>) {
    |entries| == |attributes|
    && forall i | 0 <= i < |entries| ::
         entries[i].id == attributes[i].id && entries[i].threshold == attributes[i].threshold
  }

  /** A drive's table comes through the two blobs whole. */
  lemma {:induction false} TableRoundTrip(attributes: seq<Attribute>, fillers: seq<Filler>,
      entries: seq<ThresholdEntry>, names: Names)
    requires AttributesOk(attributes) && Distinct(attributes) && |fillers| == |attributes|
    requires EntriesOk(entries) && Describes(entries, attributes)
    requires forall i | 0 <= i < |attributes| :: attributes[i].id != 0 && attributes[i].name == names(attributes[i].id)
    ensures |EncodeThresholds(entries)| == |entries| * CHUNK
    ensures WithThresholds(Fed(Encode(attributes, fillers, []), names), EncodeThresholds(entries), |entries|)
            == attributes
  {
    FeedUndoesEncode(attributes, fillers, [], names);
    EncodeThresholdsLength(entries);
    var bare, data := Bare(attributes, names), EncodeThresholds(entries);
    forall i | 0 <= i < |attributes| ensures WithThreshold(bare[i], data, |entries|) == attributes[i] {
      LastThresholdOfEntries(entries, [], bare[i].id);
      assert data + [] == data;
      assert IsLast(entries, i, bare[i].id);
    }
  }
}

/** The wire primitives of Protocol Buffers Encoding that the generated codec calls: base 128 varints,
    tags, length-delimited payloads, and skipping of unknown fields and groups. */
module Wire {
  import opened Octets
  import opened Messages

  datatype Error = Truncated | InvalidVarint | IllegalTag | InvalidEndGroup | CannotSkip

  datatype Result<+T> = Ok(value: T) | Err(error: Error) {
    predicate IsFailure() {
      Err?
    }
    function PropagateFailure<U>(): Result<U>
      requires Err?
    {
      Err(error)
    }
    function Extract(): T
      requires Ok?
    {
      value
    }
  }

  /** A value read, and the bytes after it. */
  type Read<T> = Result<(T, seq<byte>)>

  const TWO31: int := 0x8000_0000
  const TWO32: int := 0x1_0000_0000
  const TWO64: int := 0x1_0000_0000_0000_0000

  type int32 = v: int | -0x8000_0000 <= v < 0x8000_0000

  // ---------- Varints ----------

  function Varint(v: nat): seq<byte> {
    if v < 128 then [v] else [v % 128 + 128] + Varint(v / 128)
  }

  /** At most `budget` more bytes. */
  function ReadVarint(bs: seq<byte>, budget: nat): (r: Read<nat>)
    ensures r.Ok? ==> |r.value.1| < |bs|
  {
    if budget == 0 then Err(InvalidVarint)
    else if bs == [] then Err(Truncated)
    else if bs[0] < 128 then Ok((bs[0], bs[1..]))
    else
      var more :- ReadVarint(bs[1..], budget - 1);
      Ok((bs[0] - 128 + 128 * more.0, more.1))
  }

  const MAX_VARINT: nat := 10

  function Pow128(n: nat): nat {
    if n == 0 then 1 else 128 * Pow128(n - 1)
  }

  lemma {:induction false} VarintRoundTrip(v: nat, rest: seq<byte>, budget: nat)
    requires budget > 0 && v < Pow128(budget)
    ensures ReadVarint(Varint(v) + rest, budget) == Ok((v, rest))
    decreases budget
  {
    if v < 128 {
      assert ([v] + rest)[1..] == rest;
    } else {
      var bs := Varint(v) + rest;
      assert bs[1..] == Varint(v / 128) + rest;
      VarintRoundTrip(v / 128, rest, budget - 1);
    }
  }

  lemma Pow128Ten()
    ensures Pow128(9) == 0x8000_0000_0000_0000 && Pow128(10) == 0x40_0000_0000_0000_0000 && Pow128(10) > TWO64
  {
    assert Pow128(3) == 0x20_0000;
    assert Pow128(6) == 0x400_0000_0000;
  }

  lemma {:induction false} VarintLength(v: nat, n: nat)
    requires n > 0 && v < Pow128(n) && (n > 1 ==> Pow128(n - 1) <= v)
    ensures |Varint(v)| == n
    decreases n
  {
    if n > 1 {
      assert Pow128(n - 1) >= 128;
      VarintLength(v / 128, n - 1);
    }
  }

  lemma VarintNotEmpty(v: nat)
    ensures Varint(v) != []
  {
  }

  // ---------- Scalars ----------

  /** BinaryReader.uint32: longer encodings are cut to their low 32 bits. */
  function ReadUint32(bs: seq<byte>): (r: Read<nat>)
    ensures r.Ok? ==> |r.value.1| < |bs|
  {
    var (v, rest) :- ReadVarint(bs, MAX_VARINT);
    Ok((v % TWO32, rest))
  }

  /** BinaryWriter.int32: negative numbers as their 64-bit two's complement. */
  function Int32Bits(v: int32): nat {
    if v >= 0 then v else v + TWO64
  }

  function ToInt32(u: nat): int32
    requires u < TWO32
  {
    if u < TWO31 then u else u - TWO32
  }

  lemma Uint32RoundTrip(v: nat, rest: seq<byte>)
    requires v < TWO64
    ensures ReadUint32(Varint(v) + rest) == Ok((v % TWO32, rest))
  {
    Pow128Ten();
    VarintRoundTrip(v, rest, MAX_VARINT);
  }

  lemma Int32RoundTrip(v: int32, rest: seq<byte>)
    ensures ReadUint32(Varint(Int32Bits(v)) + rest) == Ok((Int32Bits(v) % TWO32, rest))
    ensures ToInt32(Int32Bits(v) % TWO32) == v
  {
    LowBits(v);
    Uint32RoundTrip(Int32Bits(v), rest);
  }

  /** The low 32 bits of the 64-bit two's complement are the 32-bit two's complement. */
  lemma LowBits(v: int32)
    ensures Int32Bits(v) < TWO64 && Int32Bits(v) % TWO32 == if v >= 0 then v else v + TWO32
  {
    if v < 0 {
      Wrap(v + TWO32, 0xFFFF_FFFF);
    }
  }

  lemma Wrap(r: nat, k: nat)
    requires r < TWO32
    ensures (r + k * TWO32) % TWO32 == r
  {
  }

  lemma NegativesTakeTenBytes(v: int32)
    requires v < 0
    ensures |Varint(Int32Bits(v))| == 10
  {
    Pow128Ten();
    VarintLength(Int32Bits(v), 10);
  }

  /** A length prefix and that many bytes. */
  function Delimited(s: seq<byte>): seq<byte> {
    Varint(|s|) + s
  }

  function ReadDelimited(bs: seq<byte>): (r: Read<seq<byte>>)
    ensures r.Ok? ==> |r.value.1| < |bs|
  {
    var (n, rest) :- ReadUint32(bs);
    if n > |rest| then Err(Truncated) else Ok((rest[..n], rest[n..]))
  }

  lemma DelimitedRoundTrip(s: seq<byte>, rest: seq<byte>)
    requires |s| < TWO32
    ensures ReadDelimited(Delimited(s) + rest) == Ok((s, rest))
  {
    assert Delimited(s) + rest == Varint(|s|) + (s + rest);
    Uint32RoundTrip(|s|, s + rest);
    assert (s + rest)[..|s|] == s && (s + rest)[|s|..] == rest;
  }

  // ---------- Skipping ----------

  function Drop(n: nat, bs: seq<byte>): (r: Result<seq<byte>>)
    ensures r.Ok? ==> |r.value| <= |bs|
  {
    if n > |bs| then Err(Truncated) else Ok(bs[n..])
  }

  /** BinaryReader.skip: the payload of a field of wire type `wt`; `no` is checked against the end of a
      group when it is known. */
  function Skip(wt: nat, no: Option<nat>, bs: seq<byte>): (r: Result<seq<byte>>)
    ensures r.Ok? ==> |r.value| <= |bs|
    decreases |bs|, 1
  {
    if wt == 0 then
      var (_, rest) :- ReadVarint(bs, MAX_VARINT);
      Ok(rest)
    else if wt == 1 then Drop(8, bs)
    else if wt == 2 then
      var (_, rest) :- ReadDelimited(bs);
      Ok(rest)
    else if wt == 3 then SkipGroup(no, bs)
    else if wt == 5 then Drop(4, bs)
    else Err(CannotSkip)
  }

  function SkipGroup(no: Option<nat>, bs: seq<byte>): (r: Result<seq<byte>>)
    ensures r.Ok? ==> |r.value| <= |bs|
    decreases |bs|, 0
  {
    var (tag, rest) :- ReadUint32(bs);
    if tag / 8 == 0 || tag % 8 > 5 then Err(IllegalTag)
    else if tag % 8 == 4 then
      if no.Some? && no.value != tag / 8 then Err(InvalidEndGroup) else Ok(rest)
    else
      var rest2 :- Skip(tag % 8, Some(tag / 8), rest);
      SkipGroup(no, rest2)
  }

  // ---------- Well-formed fields ----------

  datatype Field =
    | VarintField(no: nat, value: nat)
    | Fixed64Field(no: nat, bytes: seq<byte>)
    | DelimitedField(no: nat, bytes: seq<byte>)
    | GroupField(no: nat, body: Fields)
    | Fixed32Field(no: nat, bytes: seq<byte>)

  datatype Fields = End | More(head: Field, tail: Fields)

  const MAX_FIELD_NO: nat := 0x1FFF_FFFF

  predicate WellFormed(f: Field) {
    && 0 < f.no <= MAX_FIELD_NO
    && match f
       case VarintField(_, v) => v < TWO64
       case Fixed64Field(_, bytes) => |bytes| == 8
       case DelimitedField(_, bytes) => |bytes| < TWO32
       case GroupField(_, body) => AllWellFormed(body)
       case Fixed32Field(_, bytes) => |bytes| == 4
  }

  predicate AllWellFormed(fs: Fields) {
    fs.More? ==> WellFormed(fs.head) && AllWellFormed(fs.tail)
  }

  function WireType(f: Field): nat {
    match f
    case VarintField(_, _) => 0
    case Fixed64Field(_, _) => 1
    case DelimitedField(_, _) => 2
    case GroupField(_, _) => 3
    case Fixed32Field(_, _) => 5
  }

  function TagOf(f: Field): nat {
    f.no * 8 + WireType(f)
  }

  function Payload(f: Field): seq<byte> {
    match f
    case VarintField(_, v) => Varint(v)
    case Fixed64Field(_, bytes) => bytes
    case DelimitedField(_, bytes) => Delimited(bytes)
    case GroupField(no, body) => EncodeAll(body) + Varint(no * 8 + 4)
    case Fixed32Field(_, bytes) => bytes
  }

  function EncodeAll(fs: Fields): seq<byte> {
    match fs
    case End => []
    case More(f, tail) => Varint(TagOf(f)) + Payload(f) + EncodeAll(tail)
  }

  lemma TagRoundTrip(f: Field, rest: seq<byte>)
    requires WellFormed(f)
    ensures ReadUint32(Varint(TagOf(f)) + rest) == Ok((TagOf(f), rest))
    ensures TagOf(f) / 8 == f.no && TagOf(f) % 8 == WireType(f)
  {
    Uint32RoundTrip(TagOf(f), rest);
  }

  /** Skipping reads exactly the payload of a well-formed field, groups and all. */
  lemma {:induction false} SkipPayload(f: Field, no: Option<nat>, rest: seq<byte>)
    requires WellFormed(f) && (no.Some? ==> no.value == f.no)
    ensures Skip(WireType(f), no, Payload(f) + rest) == Ok(rest)
    decreases f, 1
  {
    if f.GroupField? {
      assert Payload(f) + rest == EncodeAll(f.body) + (Varint(f.no * 8 + 4) + rest);
      SkipBody(f.body, f.no, no, rest);
    } else {
      SkipScalar(f, no, rest);
    }
  }

  lemma SkipScalar(f: Field, no: Option<nat>, rest: seq<byte>)
    requires WellFormed(f) && !f.GroupField?
    ensures Skip(WireType(f), no, Payload(f) + rest) == Ok(rest)
  {
    match f
    case VarintField(_, v) =>
      Pow128Ten();
      VarintRoundTrip(v, rest, MAX_VARINT);
    case Fixed64Field(_, bytes) => assert (bytes + rest)[8..] == rest;
    case DelimitedField(_, bytes) => DelimitedRoundTrip(bytes, rest);
    case Fixed32Field(_, bytes) => assert (bytes + rest)[4..] == rest;
  }

  /** One field of a group read: the rest of the group remains. */
  lemma GroupStep(no: Option<nat>, bs: seq<byte>, tag: nat, rest: seq<byte>, rest2: seq<byte>)
    requires ReadUint32(bs) == Ok((tag, rest)) && tag / 8 > 0 && tag % 8 < 6 && tag % 8 != 4
    requires Skip(tag % 8, Some(tag / 8), rest) == Ok(rest2)
    ensures SkipGroup(no, bs) == SkipGroup(no, rest2)
  {
  }

  lemma SkipEnd(n: nat, no: Option<nat>, rest: seq<byte>)
    requires 0 < n <= MAX_FIELD_NO && (no.Some? ==> no.value == n)
    ensures SkipGroup(no, Varint(n * 8 + 4) + rest) == Ok(rest)
  {
    Uint32RoundTrip(n * 8 + 4, rest);
    GroupEnd(no, Varint(n * 8 + 4) + rest, n, rest);
  }

  lemma GroupEnd(no: Option<nat>, bs: seq<byte>, n: nat, rest: seq<byte>)
    requires 0 < n <= MAX_FIELD_NO && (no.Some? ==> no.value == n) && ReadUint32(bs) == Ok((n * 8 + 4, rest))
    ensures SkipGroup(no, bs) == Ok(rest)
  {
  }

  lemma {:induction false} SkipBody(fs: Fields, n: nat, no: Option<nat>, rest: seq<byte>)
    requires AllWellFormed(fs) && 0 < n <= MAX_FIELD_NO && (no.Some? ==> no.value == n)
    ensures SkipGroup(no, EncodeAll(fs) + (Varint(n * 8 + 4) + rest)) == Ok(rest)
    decreases fs, 0
  {
    var tail := Varint(n * 8 + 4) + rest;
    match fs
    case End =>
      assert EncodeAll(fs) + tail == tail;
      SkipEnd(n, no, rest);
    case More(f, more) =>
      SkipHead(f, more, no, tail);
      SkipBody(more, n, no, rest);
  }

  lemma {:induction false} SkipHead(f: Field, more: Fields, no: Option<nat>, tail: seq<byte>)
    requires WellFormed(f)
    ensures SkipGroup(no, EncodeAll(More(f, more)) + tail) == SkipGroup(no, EncodeAll(more) + tail)
    decreases f, 2
  {
    var after := EncodeAll(more) + tail;
    assert EncodeAll(More(f, more)) + tail == Varint(TagOf(f)) + (Payload(f) + after);
    TagRoundTrip(f, Payload(f) + after);
    SkipPayload(f, Some(f.no), after);
    GroupStep(no, EncodeAll(More(f, more)) + tail, TagOf(f), Payload(f) + after, after);
  }
}

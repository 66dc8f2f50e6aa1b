/** The generated codec: the two messages, what their encoders write, what their decoders make of any bytes,
    and the laws that join the two. */
module Codec {
  import opened Octets
  import opened Messages
  import opened Wire

  /** Strings stand as their encoded bytes. */
  datatype Message =
    | ReleaseRequest(email: seq<byte>, repo: seq<byte>, tag: seq<byte>,
                     unsubscribeToken: seq<byte>, idempotencyKey: seq<byte>)
    | ReleaseResponse(status: int32, text: seq<byte>)

  const EMPTY_REQUEST := ReleaseRequest([], [], [], [], [])
  const EMPTY_RESPONSE := ReleaseResponse(0, [])

  /** A field's value on the wire. */
  datatype Value = Text(bytes: seq<byte>) | Number(v: int32)

  /** One record of an encoded message: a field the message has, or one it does not. */
  datatype Record = Known(no: nat, value: Value) | Unknown(field: Field)

  // ---------- Decoding ----------

  /** The tags whose case of the switch reads a field. */
  predicate KnownTag(m: Message, tag: nat) {
    match m
    case ReleaseRequest(_, _, _, _, _) => tag == 10 || tag == 18 || tag == 26 || tag == 34 || tag == 42
    case ReleaseResponse(_, _) => tag == 8 || tag == 18
  }

  predicate IsNumber(m: Message, no: nat) {
    m.ReleaseResponse? && no == 1
  }

  /** `no` is a field of `m`, and `value` has its type. */
  predicate Assignable(m: Message, no: nat, value: Value) {
    match m
    case ReleaseRequest(_, _, _, _, _) => 1 <= no <= 5 && value.Text?
    case ReleaseResponse(_, _) => (no == 1 && value.Number?) || (no == 2 && value.Text?)
  }

  function Assign(m: Message, no: nat, value: Value): Message
    requires Assignable(m, no, value)
  {
    match m
    case ReleaseRequest(_, _, _, _, _) =>
      if no == 1 then m.(email := value.bytes)
      else if no == 2 then m.(repo := value.bytes)
      else if no == 3 then m.(tag := value.bytes)
      else if no == 4 then m.(unsubscribeToken := value.bytes)
      else m.(idempotencyKey := value.bytes)
    case ReleaseResponse(_, _) =>
      if no == 1 then m.(status := value.v) else m.(text := value.bytes)
  }

  /** reader.int32() or reader.string(), whichever the field asks for. */
  function ReadValue(m: Message, no: nat, bs: seq<byte>): (r: Read<Value>)
    ensures r.Ok? ==> |r.value.1| < |bs|
  {
    if IsNumber(m, no) then
      var (u, rest) :- ReadUint32(bs);
      Ok((Number(ToInt32(u)), rest))
    else
      var (s, rest) :- ReadDelimited(bs);
      Ok((Text(s), rest))
  }

  /** The decode loop from the message filled so far and the bytes left. */
  function Parse(bs: seq<byte>, m: Message): Result<Message>
    decreases |bs|
  {
    if bs == [] then Ok(m)
    else
      var (tag, rest) :- ReadUint32(bs);
      if KnownTag(m, tag) then
        var (value, rest2) :- ReadValue(m, tag / 8, rest);
        Parse(rest2, Assign(m, tag / 8, value))
      else if tag % 8 == 4 || tag == 0 then Ok(m)
      else
        var rest2 :- Skip(tag % 8, None, rest);
        Parse(rest2, m)
  }

  // ---------- Encoding ----------

  function TextField(tag: nat, s: seq<byte>): seq<byte> {
    if s == [] then [] else Varint(tag) + Delimited(s)
  }

  function Encode(m: Message): seq<byte> {
    match m
    case ReleaseRequest(email, repo, tag, token, key) =>
      TextField(10, email) + TextField(18, repo) + TextField(26, tag) + TextField(34, token) + TextField(42, key)
    case ReleaseResponse(status, text) =>
      (if status == 0 then [] else Varint(8) + Varint(Int32Bits(status))) + TextField(18, text)
  }

  /** What any length prefix can hold. */
  predicate Fits(m: Message) {
    match m
    case ReleaseRequest(email, repo, tag, token, key) =>
      |email| < TWO32 && |repo| < TWO32 && |tag| < TWO32 && |token| < TWO32 && |key| < TWO32
    case ReleaseResponse(_, text) => |text| < TWO32
  }

  // ---------- Records ----------

  predicate FitsRecord(m: Message, r: Record) {
    match r
    case Known(no, value) => Assignable(m, no, value) && (value.Text? ==> |value.bytes| < TWO32)
    case Unknown(f) => WellFormed(f) && !KnownTag(m, TagOf(f))
  }

  function RecordTag(no: nat, value: Value): nat {
    no * 8 + if value.Text? then 2 else 0
  }

  function EncodeValue(value: Value): seq<byte> {
    match value
    case Text(s) => Delimited(s)
    case Number(v) => Varint(Int32Bits(v))
  }

  function EncodeRecord(r: Record): seq<byte> {
    match r
    case Known(no, value) => Varint(RecordTag(no, value)) + EncodeValue(value)
    case Unknown(f) => Varint(TagOf(f)) + Payload(f)
  }

  function EncodeRecords(rs: seq<Record>): seq<byte> {
    if rs == [] then [] else EncodeRecord(rs[0]) + EncodeRecords(rs[1..])
  }

  predicate FitRecords(m: Message, rs: seq<Record>) {
    forall i :: 0 <= i < |rs| ==> FitsRecord(m, rs[i])
  }

  function Absorb(m: Message, r: Record): Message
    requires FitsRecord(m, r)
  {
    if r.Known? then Assign(m, r.no, r.value) else m
  }

  /** Same kind of message. */
  predicate Alike(a: Message, b: Message) {
    a.ReleaseRequest? == b.ReleaseRequest?
  }

  lemma AbsorbFits(m: Message, r: Record, rs: seq<Record>)
    requires FitsRecord(m, r) && FitRecords(m, rs)
    ensures Alike(Absorb(m, r), m) && FitRecords(Absorb(m, r), rs)
  {
    forall i | 0 <= i < |rs| ensures FitsRecord(Absorb(m, r), rs[i]) {
      assert FitsRecord(m, rs[i]);
    }
  }

  // ---------- Decoding any stream of records ----------

  lemma ParseKnown(m: Message, bs: seq<byte>, tag: nat, rest: seq<byte>, value: Value, rest2: seq<byte>)
    requires ReadUint32(bs) == Ok((tag, rest)) && KnownTag(m, tag)
    requires Assignable(m, tag / 8, value) && ReadValue(m, tag / 8, rest) == Ok((value, rest2))
    ensures Parse(bs, m) == Parse(rest2, Assign(m, tag / 8, value))
  {
  }

  lemma TagFits(m: Message, no: nat, value: Value)
    requires Assignable(m, no, value)
    ensures KnownTag(m, RecordTag(no, value)) && RecordTag(no, value) / 8 == no
  {
  }

  lemma ReadKnownTag(m: Message, no: nat, value: Value, rest: seq<byte>)
    requires Assignable(m, no, value)
    ensures ReadUint32(EncodeRecord(Known(no, value)) + rest) == Ok((RecordTag(no, value), EncodeValue(value) + rest))
  {
    var tag, after := RecordTag(no, value), EncodeValue(value) + rest;
    assert EncodeRecord(Known(no, value)) + rest == Varint(tag) + after;
    Uint32RoundTrip(tag, after);
  }

  lemma KnownStep(m: Message, no: nat, value: Value, rest: seq<byte>)
    requires FitsRecord(m, Known(no, value))
    ensures Parse(EncodeRecord(Known(no, value)) + rest, m) == Parse(rest, Assign(m, no, value))
  {
    TagFits(m, no, value);
    ReadKnownTag(m, no, value, rest);
    ValueRoundTrip(m, no, value, rest);
    ParseKnown(m, EncodeRecord(Known(no, value)) + rest, RecordTag(no, value), EncodeValue(value) + rest, value, rest);
  }

  lemma ValueRoundTrip(m: Message, no: nat, value: Value, rest: seq<byte>)
    requires FitsRecord(m, Known(no, value))
    ensures ReadValue(m, no, EncodeValue(value) + rest) == Ok((value, rest))
  {
    match value
    case Text(s) => DelimitedRoundTrip(s, rest);
    case Number(v) => Int32RoundTrip(v, rest);
  }

  lemma UnknownStep(m: Message, f: Field, rest: seq<byte>)
    requires FitsRecord(m, Unknown(f))
    ensures Parse(EncodeRecord(Unknown(f)) + rest, m) == Parse(rest, m)
  {
    assert EncodeRecord(Unknown(f)) + rest == Varint(TagOf(f)) + (Payload(f) + rest);
    TagRoundTrip(f, Payload(f) + rest);
    SkipPayload(f, None, rest);
    VarintNotEmpty(TagOf(f));
  }

  lemma RecordStep(m: Message, r: Record, rest: seq<byte>)
    requires FitsRecord(m, r)
    ensures Parse(EncodeRecord(r) + rest, m) == Parse(rest, Absorb(m, r))
  {
    match r
    case Known(no, value) => KnownStep(m, no, value, rest);
    case Unknown(f) => UnknownStep(m, f, rest);
  }

  function AbsorbAll(m: Message, rs: seq<Record>): Message
    requires FitRecords(m, rs)
    decreases |rs|
  {
    if rs == [] then m
    else
      AbsorbFits(m, rs[0], rs[1..]);
      AbsorbAll(Absorb(m, rs[0]), rs[1..])
  }

  /** The decoder reads any stream of well-formed records in order, whatever follows. */
  lemma {:induction false} ParseRecords(m: Message, rs: seq<Record>, rest: seq<byte>)
    requires FitRecords(m, rs)
    ensures Parse(EncodeRecords(rs) + rest, m) == Parse(rest, AbsorbAll(m, rs))
    decreases |rs|
  {
    if rs == [] {
      assert EncodeRecords(rs) + rest == rest;
    } else {
      var after := EncodeRecords(rs[1..]) + rest;
      assert EncodeRecords(rs) + rest == EncodeRecord(rs[0]) + after;
      RecordStep(m, rs[0], after);
      AbsorbFits(m, rs[0], rs[1..]);
      ParseRecords(Absorb(m, rs[0]), rs[1..], rest);
    }
  }

  // ---------- Last one wins ----------

  predicate HasField(m: Message, no: nat) {
    match m
    case ReleaseRequest(_, _, _, _, _) => 1 <= no <= 5
    case ReleaseResponse(_, _) => 1 <= no <= 2
  }

  function FieldOf(m: Message, no: nat): Value
    requires HasField(m, no)
  {
    match m
    case ReleaseRequest(email, repo, tag, token, key) =>
      Text(if no == 1 then email else if no == 2 then repo else if no == 3 then tag
           else if no == 4 then token else key)
    case ReleaseResponse(status, text) => if no == 1 then Number(status) else Text(text)
  }

  /** The value of the last record of field `no`, `otherwise` when there is none. */
  function Latest(rs: seq<Record>, no: nat, otherwise: Value): Value {
    if rs == [] then otherwise
    else
      var last := rs[|rs| - 1];
      if last.Known? && last.no == no then last.value else Latest(rs[..|rs| - 1], no, otherwise)
  }

  lemma AbsorbAllKind(m: Message, rs: seq<Record>)
    requires FitRecords(m, rs)
    ensures Alike(AbsorbAll(m, rs), m)
    decreases |rs|
  {
    if rs != [] {
      AbsorbFits(m, rs[0], rs[1..]);
      AbsorbAllKind(Absorb(m, rs[0]), rs[1..]);
    }
  }

  lemma {:induction false} LatestOfFirst(rs: seq<Record>, no: nat, otherwise: Value)
    requires rs != []
    ensures Latest(rs, no, otherwise)
            == Latest(rs[1..], no, if rs[0].Known? && rs[0].no == no then rs[0].value else otherwise)
    decreases |rs|
  {
    if |rs| > 1 {
      assert rs[1..][..|rs| - 2] == rs[..|rs| - 1][1..];
      LatestOfFirst(rs[..|rs| - 1], no, otherwise);
    }
  }

  lemma {:induction false} AbsorbIsLatest(m: Message, rs: seq<Record>, no: nat)
    requires FitRecords(m, rs) && HasField(m, no)
    ensures Alike(AbsorbAll(m, rs), m)
    ensures FieldOf(AbsorbAll(m, rs), no) == Latest(rs, no, FieldOf(m, no))
    decreases |rs|
  {
    AbsorbAllKind(m, rs);
    if rs != [] {
      AbsorbFits(m, rs[0], rs[1..]);
      AbsorbIsLatest(Absorb(m, rs[0]), rs[1..], no);
      LatestOfFirst(rs, no, FieldOf(m, no));
    }
  }

  /** Decoding keeps, for each field, the value of its last record, whatever else the stream holds. */
  lemma LastOneWins(m: Message, rs: seq<Record>, no: nat)
    requires FitRecords(m, rs) && HasField(m, no)
    ensures Parse(EncodeRecords(rs), m).Ok? && Alike(Parse(EncodeRecords(rs), m).value, m)
    ensures FieldOf(Parse(EncodeRecords(rs), m).value, no) == Latest(rs, no, FieldOf(m, no))
  {
    ParseRecords(m, rs, []);
    assert EncodeRecords(rs) + [] == EncodeRecords(rs);
    AbsorbIsLatest(m, rs, no);
  }

  // ---------- Unknown fields ----------

  function KnownOnly(rs: seq<Record>): seq<Record> {
    if rs == [] then []
    else (if rs[0].Known? then [rs[0]] else []) + KnownOnly(rs[1..])
  }

  lemma {:induction false} AbsorbKnownOnly(m: Message, rs: seq<Record>)
    requires FitRecords(m, rs)
    ensures FitRecords(m, KnownOnly(rs)) && AbsorbAll(m, KnownOnly(rs)) == AbsorbAll(m, rs)
    decreases |rs|
  {
    if rs != [] {
      AbsorbFits(m, rs[0], rs[1..]);
      AbsorbKnownOnly(m, rs[1..]);
      AbsorbKnownOnly(Absorb(m, rs[0]), rs[1..]);
      var ks := KnownOnly(rs);
      if rs[0].Known? {
        assert ks[0] == rs[0] && ks[1..] == KnownOnly(rs[1..]);
      } else {
        assert ks == KnownOnly(rs[1..]);
      }
    }
  }

  /** Well-formed unknown fields, groups included, may stand anywhere between the records. */
  lemma UnknownsChangeNothing(m: Message, rs: seq<Record>, rest: seq<byte>)
    requires FitRecords(m, rs)
    ensures Parse(EncodeRecords(rs) + rest, m) == Parse(EncodeRecords(KnownOnly(rs)) + rest, m)
  {
    AbsorbKnownOnly(m, rs);
    ParseRecords(m, rs, rest);
    ParseRecords(m, KnownOnly(rs), rest);
  }

  // ---------- Round trip and merge ----------

  /** `a` with the non-default fields of `b` in place of its own. */
  function Override(a: Message, b: Message): Message
    requires Alike(a, b)
  {
    match b
    case ReleaseRequest(email, repo, tag, token, key) =>
      ReleaseRequest(if email == [] then a.email else email, if repo == [] then a.repo else repo,
                     if tag == [] then a.tag else tag,
                     if token == [] then a.unsubscribeToken else token,
                     if key == [] then a.idempotencyKey else key)
    case ReleaseResponse(status, text) =>
      ReleaseResponse(if status == 0 then a.status else status, if text == [] then a.text else text)
  }

  /** The records of an encoded message: one for each non-default field, in order of number. */
  function RecordsOf(m: Message): seq<Record> {
    match m
    case ReleaseRequest(email, repo, tag, token, key) =>
      TextRecord(1, email) + (TextRecord(2, repo) + (TextRecord(3, tag) + (TextRecord(4, token) + TextRecord(5, key))))
    case ReleaseResponse(status, text) =>
      (if status == 0 then [] else [Known(1, Number(status))]) + TextRecord(2, text)
  }

  function TextRecord(no: nat, s: seq<byte>): seq<Record> {
    if s == [] then [] else [Known(no, Text(s))]
  }

  lemma {:induction false} EncodeRecordsAdds(a: seq<Record>, b: seq<Record>)
    ensures EncodeRecords(a + b) == EncodeRecords(a) + EncodeRecords(b)
  {
    if a == [] {
      assert a + b == b;
    } else {
      assert (a + b)[0] == a[0] && (a + b)[1..] == a[1..] + b;
      EncodeRecordsAdds(a[1..], b);
      Regroup(EncodeRecord(a[0]), EncodeRecords(a[1..]), EncodeRecords(b));
    }
  }

  lemma Regroup(a: seq<byte>, b: seq<byte>, c: seq<byte>)
    ensures a + b + c == a + (b + c)
  {
  }

  lemma RegroupFive(a: seq<byte>, b: seq<byte>, c: seq<byte>, d: seq<byte>, e: seq<byte>)
    ensures a + b + c + d + e == a + (b + (c + (d + e)))
  {
    Regroup(a + b + c, d, e);
    Regroup(a + b, c, d + e);
    Regroup(a, b, c + (d + e));
  }

  lemma EncodeTextRecord(no: nat, s: seq<byte>)
    ensures EncodeRecords(TextRecord(no, s)) == TextField(no * 8 + 2, s)
  {
    if s != [] {
      assert EncodeRecords(TextRecord(no, s)) == EncodeRecord(Known(no, Text(s))) + EncodeRecords([]);
    }
  }

  lemma EncodeTextThen(no: nat, s: seq<byte>, rs: seq<Record>)
    ensures EncodeRecords(TextRecord(no, s) + rs) == TextField(no * 8 + 2, s) + EncodeRecords(rs)
  {
    EncodeTextRecord(no, s);
    EncodeRecordsAdds(TextRecord(no, s), rs);
  }

  lemma LastTexts(tag: seq<byte>, token: seq<byte>, key: seq<byte>)
    ensures EncodeRecords(TextRecord(3, tag) + (TextRecord(4, token) + TextRecord(5, key)))
            == TextField(26, tag) + (TextField(34, token) + TextField(42, key))
  {
    EncodeTextRecord(5, key);
    EncodeTextThen(4, token, TextRecord(5, key));
    EncodeTextThen(3, tag, TextRecord(4, token) + TextRecord(5, key));
  }

  lemma FirstTexts(email: seq<byte>, repo: seq<byte>, rs: seq<Record>)
    ensures EncodeRecords(TextRecord(1, email) + (TextRecord(2, repo) + rs))
            == TextField(10, email) + (TextField(18, repo) + EncodeRecords(rs))
  {
    EncodeTextThen(2, repo, rs);
    EncodeTextThen(1, email, TextRecord(2, repo) + rs);
  }

  lemma RequestIsRecords(m: Message)
    requires m.ReleaseRequest?
    ensures EncodeRecords(RecordsOf(m)) == Encode(m)
  {
    LastTexts(m.tag, m.unsubscribeToken, m.idempotencyKey);
    FirstTexts(m.email, m.repo,
               TextRecord(3, m.tag) + (TextRecord(4, m.unsubscribeToken) + TextRecord(5, m.idempotencyKey)));
    RegroupFive(TextField(10, m.email), TextField(18, m.repo), TextField(26, m.tag),
                TextField(34, m.unsubscribeToken), TextField(42, m.idempotencyKey));
  }

  lemma ResponseIsRecords(m: Message)
    requires m.ReleaseResponse?
    ensures EncodeRecords(RecordsOf(m)) == Encode(m)
  {
    EncodeTextRecord(2, m.text);
    var r1: seq<Record> := if m.status == 0 then [] else [Known(1, Number(m.status))];
    EncodeRecordsAdds(r1, TextRecord(2, m.text));
    if m.status != 0 {
      assert EncodeRecords(r1) == EncodeRecord(r1[0]) + EncodeRecords([]);
    }
  }

  lemma FitAppend(m: Message, a: seq<Record>, b: seq<Record>)
    requires FitRecords(m, a) && FitRecords(m, b)
    ensures FitRecords(m, a + b)
  {
  }

  lemma RecordsFit(m: Message)
    requires Fits(m)
    ensures FitRecords(m, RecordsOf(m))
  {
    if m.ReleaseRequest? {
      FitAppend(m, TextRecord(4, m.unsubscribeToken), TextRecord(5, m.idempotencyKey));
      var r4 := TextRecord(4, m.unsubscribeToken) + TextRecord(5, m.idempotencyKey);
      FitAppend(m, TextRecord(3, m.tag), r4);
      FitAppend(m, TextRecord(2, m.repo), TextRecord(3, m.tag) + r4);
      FitAppend(m, TextRecord(1, m.email), TextRecord(2, m.repo) + (TextRecord(3, m.tag) + r4));
    }
  }

  /** An encoded message is the stream of its own records. */
  lemma EncodeIsRecords(m: Message)
    requires Fits(m)
    ensures FitRecords(m, RecordsOf(m)) && EncodeRecords(RecordsOf(m)) == Encode(m)
  {
    RecordsFit(m);
    if m.ReleaseRequest? {
      RequestIsRecords(m);
    } else {
      ResponseIsRecords(m);
    }
  }

  /** What a record of the text `s` does to a message; an empty text has none. */
  function Put(m: Message, no: nat, s: seq<byte>): Message
    requires Assignable(m, no, Text(s))
  {
    if s == [] then m else Assign(m, no, Text(s))
  }

  lemma TextFieldRecord(m: Message, no: nat, s: seq<byte>)
    requires Assignable(m, no, Text(s)) && 0 < |s| < TWO32
    ensures FitsRecord(m, Known(no, Text(s))) && EncodeRecord(Known(no, Text(s))) == TextField(no * 8 + 2, s)
    ensures Assign(m, no, Text(s)) == Put(m, no, s)
  {
  }

  lemma ParseText(m: Message, no: nat, s: seq<byte>, rest: seq<byte>)
    requires Assignable(m, no, Text(s)) && |s| < TWO32
    ensures Parse(TextField(no * 8 + 2, s) + rest, m) == Parse(rest, Put(m, no, s))
  {
    if s == [] {
      assert TextField(no * 8 + 2, s) + rest == rest;
    } else {
      TextFieldRecord(m, no, s);
      KnownStep(m, no, Text(s), rest);
    }
  }

  lemma RequestBytes(b: Message, rest: seq<byte>)
    requires b.ReleaseRequest?
    ensures Encode(b) + rest
            == TextField(10, b.email) + (TextField(18, b.repo) + (TextField(26, b.tag)
               + (TextField(34, b.unsubscribeToken) + (TextField(42, b.idempotencyKey) + rest))))
  {
    var f1, f2, f3, f4, f5 := TextField(10, b.email), TextField(18, b.repo), TextField(26, b.tag),
                              TextField(34, b.unsubscribeToken), TextField(42, b.idempotencyKey);
    Regroup(f1 + f2 + f3 + f4, f5, rest);
    RegroupFive(f1, f2, f3, f4, f5 + rest);
  }

  lemma ParseLastTexts(m: Message, tag: seq<byte>, token: seq<byte>, key: seq<byte>, rest: seq<byte>)
    requires m.ReleaseRequest? && |tag| < TWO32 && |token| < TWO32 && |key| < TWO32
    ensures Parse(TextField(26, tag) + (TextField(34, token) + (TextField(42, key) + rest)), m)
            == Parse(rest, Put(Put(Put(m, 3, tag), 4, token), 5, key))
  {
    var e5 := TextField(42, key) + rest;
    ParseText(m, 3, tag, TextField(34, token) + e5);
    ParseText(Put(m, 3, tag), 4, token, e5);
    ParseText(Put(Put(m, 3, tag), 4, token), 5, key, rest);
  }

  lemma ParseRequest(a: Message, b: Message, rest: seq<byte>)
    requires Fits(b) && a.ReleaseRequest? && b.ReleaseRequest?
    ensures Parse(Encode(b) + rest, a) == Parse(rest, Override(a, b))
  {
    RequestBytes(b, rest);
    var e3 := TextField(26, b.tag) + (TextField(34, b.unsubscribeToken) + (TextField(42, b.idempotencyKey) + rest));
    ParseText(a, 1, b.email, TextField(18, b.repo) + e3);
    var a1 := Put(a, 1, b.email);
    ParseText(a1, 2, b.repo, e3);
    ParseLastTexts(Put(a1, 2, b.repo), b.tag, b.unsubscribeToken, b.idempotencyKey, rest);
  }

  lemma ParseStatus(m: Message, status: int32, rest: seq<byte>)
    requires m.ReleaseResponse?
    ensures Parse((if status == 0 then [] else Varint(8) + Varint(Int32Bits(status))) + rest, m)
            == Parse(rest, if status == 0 then m else m.(status := status))
  {
    if status == 0 {
      assert [] + rest == rest;
    } else {
      KnownStep(m, 1, Number(status), rest);
    }
  }

  lemma ParseResponse(a: Message, b: Message, rest: seq<byte>)
    requires Fits(b) && a.ReleaseResponse? && b.ReleaseResponse?
    ensures Parse(Encode(b) + rest, a) == Parse(rest, Override(a, b))
  {
    var first := if b.status == 0 then [] else Varint(8) + Varint(Int32Bits(b.status));
    Regroup(first, TextField(18, b.text), rest);
    ParseStatus(a, b.status, TextField(18, b.text) + rest);
    ParseText(if b.status == 0 then a else a.(status := b.status), 2, b.text, rest);
  }

  /** An encoded message, read into any message of its kind, overrides it field by field. */
  lemma ParseEncoded(a: Message, b: Message, rest: seq<byte>)
    requires Fits(b) && Alike(a, b)
    ensures Parse(Encode(b) + rest, a) == Parse(rest, Override(a, b))
  {
    if b.ReleaseRequest? {
      ParseRequest(a, b, rest);
    } else {
      ParseResponse(a, b, rest);
    }
  }

  function Empty(m: Message): Message {
    if m.ReleaseRequest? then EMPTY_REQUEST else EMPTY_RESPONSE
  }

  /** decode(encode(m)) is m, for every request and every response. */
  lemma RoundTrip(m: Message)
    requires Fits(m)
    ensures Parse(Encode(m), Empty(m)) == Ok(m)
  {
    ParseEncoded(Empty(m), m, []);
    assert Encode(m) + [] == Encode(m);
  }

  /** decode(encode(a) ++ encode(b)) is a overridden by the non-default fields of b. */
  lemma ConcatenationMerges(a: Message, b: Message)
    requires Fits(a) && Fits(b) && Alike(a, b)
    ensures Parse(Encode(a) + Encode(b), Empty(a)) == Ok(Override(a, b))
  {
    ParseEncoded(Empty(a), a, Encode(b));
    ParseEncoded(a, b, []);
    assert Encode(b) + [] == Encode(b);
    assert Override(Empty(a), a) == a;
  }

  /** Two messages that encode alike are the same. */
  lemma EncodeInjective(a: Message, b: Message)
    requires Fits(a) && Fits(b) && Alike(a, b) && Encode(a) == Encode(b)
    ensures a == b
  {
    RoundTrip(a);
    RoundTrip(b);
  }

  /** Unknown fields slipped between the records of an encoded message leave the message. */
  lemma UnknownsKeepMessage(m: Message, rs: seq<Record>)
    requires Fits(m) && FitRecords(m, rs) && KnownOnly(rs) == RecordsOf(m)
    ensures Parse(EncodeRecords(rs), Empty(m)) == Ok(m)
  {
    assert FitRecords(Empty(m), rs) by {
      forall i | 0 <= i < |rs| ensures FitsRecord(Empty(m), rs[i]) {
        assert FitsRecord(m, rs[i]);
      }
    }
    UnknownsChangeNothing(Empty(m), rs, []);
    EncodeIsRecords(m);
    RoundTrip(m);
    assert EncodeRecords(rs) + [] == EncodeRecords(rs) && Encode(m) + [] == Encode(m);
  }

  lemma StopStep(m: Message, tag: nat, junk: seq<byte>)
    requires tag < TWO32 && (tag % 8 == 4 || tag == 0)
    ensures Parse(Varint(tag) + junk, m) == Ok(m)
  {
    Uint32RoundTrip(tag, junk);
    VarintNotEmpty(tag);
  }

  /** An end-group tag or a zero tag ends the message, whatever bytes follow. */
  lemma StopsAtEndGroup(m: Message, rs: seq<Record>, tag: nat, junk: seq<byte>)
    requires FitRecords(m, rs) && tag < TWO32 && (tag % 8 == 4 || tag == 0)
    ensures Parse(EncodeRecords(rs) + (Varint(tag) + junk), m) == Parse(EncodeRecords(rs), m)
  {
    ParseRecords(m, rs, Varint(tag) + junk);
    ParseRecords(m, rs, []);
    assert EncodeRecords(rs) + [] == EncodeRecords(rs);
    StopStep(AbsorbAll(m, rs), tag, junk);
  }
}

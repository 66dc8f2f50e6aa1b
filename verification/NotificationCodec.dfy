/** encode and decode as the generated code runs them, over a writer and a reader. */
module NotificationCodec {
  import opened Octets
  import opened Messages
  import opened Wire
  import opened Codec
  import opened WireStreams

  /** A text field is written only when it is not empty. */
  method EncodeText(tag: nat, s: seq<byte>, writer: BinaryWriter)
    modifies writer
    ensures writer.buf == old(writer.buf) + TextField(tag, s)
  {
    if s != [] {
      writer.Uint32(tag);
      writer.Text(s);
      Regroup(old(writer.buf), Varint(tag), Delimited(s));
    }
  }

  lemma RegroupOnto(o: seq<byte>, a: seq<byte>, b: seq<byte>, c: seq<byte>, d: seq<byte>, e: seq<byte>)
    ensures o + a + b + c + d + e == o + (a + b + c + d + e)
  {
    Regroup(o, a, b);
    Regroup(o, a + b, c);
    Regroup(o, a + b + c, d);
    Regroup(o, a + b + c + d, e);
  }

  method EncodeRequest(m: Message, writer: BinaryWriter)
    requires m.ReleaseRequest?
    modifies writer
    ensures writer.buf == old(writer.buf) + Encode(m)
  {
    EncodeText(10, m.email, writer);
    EncodeText(18, m.repo, writer);
    EncodeText(26, m.tag, writer);
    EncodeText(34, m.unsubscribeToken, writer);
    EncodeText(42, m.idempotencyKey, writer);
    RegroupOnto(old(writer.buf), TextField(10, m.email), TextField(18, m.repo), TextField(26, m.tag),
                TextField(34, m.unsubscribeToken), TextField(42, m.idempotencyKey));
  }

  method EncodeResponse(m: Message, writer: BinaryWriter)
    requires m.ReleaseResponse?
    modifies writer
    ensures writer.buf == old(writer.buf) + Encode(m)
  {
    if m.status != 0 {
      writer.Uint32(8);
      writer.Int32(m.status);
    }
    EncodeText(18, m.text, writer);
  }

  /** The cases of the request's switch. */
  method ReadText(reader: BinaryReader, message: Message, tag: nat) returns (r: Result<Message>)
    requires reader.Valid() && message.ReleaseRequest? && KnownTag(message, tag)
    modifies reader`pos
    ensures reader.Valid() && reader.pos >= old(reader.pos)
    ensures match ReadDelimited(old(reader.Left()))
            case Ok(p) => r == Ok(Assign(message, tag / 8, Text(p.0))) && reader.Left() == p.1
            case Err(e) => r == Err(e)
  {
    var s :- reader.Text();
    match tag
    case 10 => return Ok(message.(email := s));
    case 18 => return Ok(message.(repo := s));
    case 26 => return Ok(message.(tag := s));
    case 34 => return Ok(message.(unsubscribeToken := s));
    case _ => return Ok(message.(idempotencyKey := s));
  }

  /** `decode` of a whole buffer: the loop fills `message` until the bytes end. */
  method DecodeRequest(bytes: seq<byte>) returns (r: Result<Message>)
    ensures r == Parse(bytes, EMPTY_REQUEST)
  {
    var reader := new BinaryReader(bytes);
    var message := EMPTY_REQUEST;
    assert reader.Left() == bytes;
    while reader.pos < |reader.buf|
      invariant reader.Valid() && reader.buf == bytes && message.ReleaseRequest?
      invariant Parse(reader.Left(), message) == Parse(bytes, EMPTY_REQUEST)
      decreases |reader.buf| - reader.pos
    {
      ghost var from := reader.Left();
      var tag :- reader.Uint32();
      assert |reader.Left()| < |from|;
      if KnownTag(message, tag) {
        message :- ReadText(reader, message, tag);
      } else {
        if tag % 8 == 4 || tag == 0 {
          return Ok(message);
        }
        var _ :- reader.Pass(tag % 8, None);
      }
    }
    return Ok(message);
  }

  method DecodeResponse(bytes: seq<byte>) returns (r: Result<Message>)
    ensures r == Parse(bytes, EMPTY_RESPONSE)
  {
    var reader := new BinaryReader(bytes);
    var message := EMPTY_RESPONSE;
    assert reader.Left() == bytes;
    while reader.pos < |reader.buf|
      invariant reader.Valid() && reader.buf == bytes && message.ReleaseResponse?
      invariant Parse(reader.Left(), message) == Parse(bytes, EMPTY_RESPONSE)
      decreases |reader.buf| - reader.pos
    {
      ghost var from := reader.Left();
      var tag :- reader.Uint32();
      assert |reader.Left()| < |from|;
      if tag == 8 {
        var status :- reader.Int32();
        message := message.(status := status);
      } else if tag == 18 {
        var s :- reader.Text();
        message := message.(text := s);
      } else {
        if tag % 8 == 4 || tag == 0 {
          return Ok(message);
        }
        var _ :- reader.Pass(tag % 8, None);
      }
    }
    return Ok(message);
  }
}

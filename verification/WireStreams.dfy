/** The reader and writer the generated code drives, as objects: a buffer and a position that only grows. */
module WireStreams {
  import opened Octets
  import opened Messages
  import opened Wire

  class BinaryWriter {
    var buf: seq<byte>

    constructor ()
      ensures buf == []
    {
      buf := [];
    }

    /** uint32: seven bits at a time, low ones first. */
    method Uint32(v: nat)
      modifies this
      ensures buf == old(buf) + Varint(v)
    {
      var left := v;
      while left >= 128
        invariant buf + Varint(left) == old(buf) + Varint(v)
      {
        ghost var before := buf;
        buf := buf + [left % 128 + 128];
        assert before + Varint(left) == buf + Varint(left / 128);
        left := left / 128;
      }
      buf := buf + [left];
    }

    method Int32(v: int32)
      modifies this
      ensures buf == old(buf) + Varint(Int32Bits(v))
    {
      Uint32(Int32Bits(v));
    }

    /** string: a length prefix and the bytes. */
    method Text(s: seq<byte>)
      modifies this
      ensures buf == old(buf) + Delimited(s)
    {
      Uint32(|s|);
      buf := buf + s;
    }
  }

  /** A varint read from the middle: `value` is what the earlier bytes gave, `scale` the weight of the next. */
  function Resumed(value: nat, scale: nat, r: Read<nat>): Read<nat> {
    match r
    case Ok(p) => Ok((value + scale * p.0, p.1))
    case Err(e) => Err(e)
  }

  lemma ResumeStep(value: nat, scale: nat, bs: seq<byte>, budget: nat)
    requires budget > 0 && bs != [] && bs[0] >= 128
    ensures Resumed(value, scale, ReadVarint(bs, budget))
            == Resumed(value + scale * (bs[0] - 128), scale * 128, ReadVarint(bs[1..], budget - 1))
  {
    var more := ReadVarint(bs[1..], budget - 1);
    if more.Ok? {
      var low, w := bs[0] - 128, more.value.0;
      assert scale * (low + 128 * w) == scale * low + scale * 128 * w;
    }
  }

  /** What an object's read did, against what the bytes say. */
  ghost predicate Took<T>(r: Result<T>, spec: Read<T>, rest: seq<byte>) {
    match spec
    case Ok(p) => r == Ok(p.0) && rest == p.1
    case Err(e) => r == Err(e)
  }

  ghost predicate Passed(r: Result<()>, spec: Result<seq<byte>>, rest: seq<byte>) {
    match spec
    case Ok(after) => r == Ok(()) && rest == after
    case Err(e) => r == Err(e)
  }

  class BinaryReader {
    const buf: seq<byte>
    var pos: nat

    ghost predicate Valid()
      reads this
    {
      pos <= |buf|
    }

    ghost function Left(): seq<byte>
      requires Valid()
      reads this
    {
      buf[pos..]
    }

    constructor (bytes: seq<byte>)
      ensures Valid() && buf == bytes && pos == 0
    {
      buf, pos := bytes, 0;
    }

    method VarintOf() returns (r: Result<nat>)
      requires Valid()
      modifies this`pos
      ensures Valid() && pos >= old(pos)
      ensures Took(r, ReadVarint(old(Left()), MAX_VARINT), Left())
    {
      var value: nat, scale: nat, count := 0, 1, 0;
      while count < MAX_VARINT
        invariant 0 <= count <= MAX_VARINT && Valid() && pos >= old(pos)
        invariant ReadVarint(old(Left()), MAX_VARINT) == Resumed(value, scale, ReadVarint(Left(), MAX_VARINT - count))
      {
        if pos == |buf| {
          return Err(Truncated);
        }
        var b := buf[pos];
        assert buf[pos..][1..] == buf[pos + 1..];
        if b < 128 {
          pos := pos + 1;
          return Ok(value + scale * b);
        }
        ResumeStep(value, scale, Left(), MAX_VARINT - count);
        pos := pos + 1;
        value, scale, count := value + scale * (b - 128), scale * 128, count + 1;
      }
      return Err(InvalidVarint);
    }

    method Uint32() returns (r: Result<nat>)
      requires Valid()
      modifies this`pos
      ensures Valid() && pos >= old(pos)
      ensures Took(r, ReadUint32(old(Left())), Left())
    {
      var v :- VarintOf();
      return Ok(v % TWO32);
    }

    method Int32() returns (r: Result<int32>)
      requires Valid()
      modifies this`pos
      ensures Valid() && pos >= old(pos)
      ensures match ReadUint32(old(Left()))
              case Ok(p) => p.0 < TWO32 && r == Ok(ToInt32(p.0)) && Left() == p.1
              case Err(e) => r == Err(e)
    {
      var u :- Uint32();
      return Ok(ToInt32(u));
    }

    method Text() returns (r: Result<seq<byte>>)
      requires Valid()
      modifies this`pos
      ensures Valid() && pos >= old(pos)
      ensures Took(r, ReadDelimited(old(Left())), Left())
    {
      var n :- Uint32();
      if n > |buf| - pos {
        return Err(Truncated);
      }
      assert buf[pos..][..n] == buf[pos..pos + n] && buf[pos..][n..] == buf[pos + n..];
      r := Ok(buf[pos..pos + n]);
      pos := pos + n;
    }

    method Advance(n: nat) returns (r: Result<()>)
      requires Valid()
      modifies this`pos
      ensures Valid() && pos >= old(pos)
      ensures Passed(r, Drop(n, old(Left())), Left())
    {
      if n > |buf| - pos {
        return Err(Truncated);
      }
      assert buf[pos..][n..] == buf[pos + n..];
      pos := pos + n;
      return Ok(());
    }

    /** skip(wireType, fieldNo): the payload of a field the message does not have. */
    method Pass(wt: nat, no: Option<nat>) returns (r: Result<()>)
      requires Valid()
      modifies this`pos
      ensures Valid() && pos >= old(pos)
      ensures Passed(r, Skip(wt, no, old(Left())), Left())
      decreases |buf| - pos, 1
    {
      if wt == 0 {
        var _ :- VarintOf();
        return Ok(());
      } else if wt == 1 {
        r := Advance(8);
      } else if wt == 2 {
        var _ :- Text();
        return Ok(());
      } else if wt == 3 {
        r := PassGroup(no);
      } else if wt == 5 {
        r := Advance(4);
      } else {
        return Err(CannotSkip);
      }
    }

    method PassGroup(no: Option<nat>) returns (r: Result<()>)
      requires Valid()
      modifies this`pos
      ensures Valid() && pos >= old(pos)
      ensures Passed(r, SkipGroup(no, old(Left())), Left())
      decreases |buf| - pos, 0
    {
      while true
        invariant Valid() && pos >= old(pos)
        invariant SkipGroup(no, Left()) == SkipGroup(no, old(Left()))
        decreases |buf| - pos
      {
        ghost var from := Left();
        var tag :- Uint32();
        assert |Left()| < |from|;
        if tag / 8 == 0 || tag % 8 > 5 {
          return Err(IllegalTag);
        }
        if tag % 8 == 4 {
          if no.Some? && no.value != tag / 8 {
            return Err(InvalidEndGroup);
          }
          return Ok(());
        }
        var _ :- Pass(tag % 8, Some(tag / 8));
      }
    }
  }
}

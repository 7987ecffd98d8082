/**
 A parcel: a run of bytes written at the end and read from a cursor. Numbers are
 little-endian; everything is padded to four bytes.
 */
module Parcel {
  import opened Types

  type Byte = n: nat | n < 0x100
  type Bytes = seq<Byte>
  type Word32 = n: nat | n < UINT32_RANGE
  type Word64 = n: nat | n < UINT64_RANGE

  /** What was read and the bytes still to read, or nothing. */
  datatype Taken<+T> = Short | Taken(value: T, rest: Bytes)

  function U32(n: Word32): (b: Bytes)
    ensures |b| == 4
  {
    [n % 0x100, n / 0x100 % 0x100, n / 0x1_0000 % 0x100, n / 0x100_0000]
  }

  function I32(i: Int32): (b: Bytes)
    ensures |b| == 4
  {
    U32(i % UINT32_RANGE)
  }

  function U64(n: Word64): (b: Bytes)
    ensures |b| == 8
  {
    U32(n % UINT32_RANGE) + U32(n / UINT32_RANGE)
  }

  /** How many zero bytes follow a run of this length. */
  function PadSize(length: nat): nat {
    (4 - length % 4) % 4
  }

  function Padded(b: Bytes): (r: Bytes)
    ensures |r| == |b| + PadSize(|b|) && |r| % 4 == 0
  {
    b + seq(PadSize(|b|), _ => 0)
  }

  /** A string: its length, its bytes and a closing zero. */
  predicate Writable(s: Bytes) {
    |s| < INT32_RANGE - 1
  }

  function Str(s: Bytes): (r: Bytes)
    requires Writable(s)
    ensures |r| >= |s| + 5 && |r| % 4 == 0
  {
    I32(|s|) + Padded(s + [0])
  }

  function TakeU32(s: Bytes): Taken<Word32> {
    if |s| < 4 then Short
    else Taken(s[0] as int + 0x100 * s[1] as int + 0x1_0000 * s[2] as int + 0x100_0000 * s[3] as int, s[4..])
  }

  function TakeI32(s: Bytes): Taken<Int32> {
    match TakeU32(s)
    case Short => Short
    case Taken(n, rest) => Taken(Signed32(n), rest)
  }

  function TakeU64(s: Bytes): Taken<Word64> {
    if |s| < 8 then Short
    else
      var low, high := TakeU32(s), TakeU32(s[4..]);
      Taken(low.value + UINT32_RANGE * high.value, s[8..])
  }

  function TakeBuffer(s: Bytes, length: nat): Taken<Bytes> {
    if |s| < length then Short
    else
      var after := length + PadSize(length);
      Taken(s[..length], if after <= |s| then s[after..] else [])
  }

  function TakeStr(s: Bytes): Taken<Bytes> {
    match TakeI32(s)
    case Short => Short
    case Taken(length, rest) =>
      if length < 0 then Short
      else
        match TakeBuffer(rest, length as int + 1)
        case Short => Short
        case Taken(b, rest') => if b[length] == 0 then Taken(b[..length], rest') else Short
  }

  lemma Assoc(a: Bytes, b: Bytes, c: Bytes)
    ensures (a + b) + c == a + (b + c)
  {
  }

  // Reading takes back what was written, and no more

  lemma DigitsOf(n: Word32)
    ensures n % 0x100 + 0x100 * (n / 0x100 % 0x100) + 0x1_0000 * (n / 0x1_0000 % 0x100)
            + 0x100_0000 * (n / 0x100_0000) == n
  {
  }

  lemma U32Back(n: Word32, rest: Bytes)
    ensures TakeU32(U32(n) + rest) == Taken(n, rest)
  {
    DigitsOf(n);
    assert (U32(n) + rest)[4..] == rest;
  }

  lemma I32Back(i: Int32, rest: Bytes)
    ensures TakeI32(I32(i) + rest) == Taken(i, rest)
  {
    U32Back(i % UINT32_RANGE, rest);
  }

  lemma U64Back(n: Word64, rest: Bytes)
    ensures TakeU64(U64(n) + rest) == Taken(n, rest)
  {
    var (low, high) := (U32(n % UINT32_RANGE), U32(n / UINT32_RANGE));
    var s := U64(n) + rest;
    assert s == low + (high + rest);
    assert s[4..] == high + rest && s[8..] == rest;
    U32Back(n % UINT32_RANGE, high + rest);
    U32Back(n / UINT32_RANGE, rest);
  }

  lemma BufferBack(b: Bytes, rest: Bytes)
    ensures TakeBuffer(Padded(b) + rest, |b|) == Taken(b, rest)
  {
    var s := Padded(b) + rest;
    assert s[..|b|] == b && s[|Padded(b)|..] == rest;
  }

  lemma StrBack(s: Bytes, rest: Bytes)
    requires Writable(s)
    ensures TakeStr(Str(s) + rest) == Taken(s, rest)
  {
    assert Str(s) + rest == I32(|s|) + (Padded(s + [0]) + rest);
    I32Back(|s|, Padded(s + [0]) + rest);
    BufferBack(s + [0], rest);
    assert (s + [0])[..|s|] == s;
  }

  class MessageParcel {
    var data: Bytes
    var readCursor: nat

    constructor ()
      ensures data == [] && readCursor == 0
    {
      data, readCursor := [], 0;
    }

    ghost predicate Valid()
      reads this
    {
      readCursor <= |data|
    }

    /** What is still to read. */
    function Unread(): Bytes
      reads this
      requires Valid()
    {
      data[readCursor..]
    }

    method WriteUint32(n: Word32)
      modifies this`data
      ensures data == old(data) + U32(n)
    {
      data := data + U32(n);
    }

    method WriteInt32(i: Int32)
      modifies this`data
      ensures data == old(data) + I32(i)
    {
      data := data + I32(i);
    }

    method WriteUint64(n: Word64)
      modifies this`data
      ensures data == old(data) + U64(n)
    {
      data := data + U64(n);
    }

    /** Nothing to write counts as a failure. */
    method WriteBuffer(b: Bytes) returns (ok: bool)
      modifies this`data
      ensures ok == (b != []) && data == if ok then old(data) + Padded(b) else old(data)
    {
      ok := b != [];
      if ok {
        data := data + Padded(b);
      }
    }

    method WriteString(s: Bytes) returns (ok: bool)
      modifies this`data
      ensures ok == Writable(s) && data == if ok then old(data) + Str(s) else old(data)
    {
      ok := Writable(s);
      if ok {
        data := data + Str(s);
      }
    }

    method ReadUint32() returns (n: Option<Word32>)
      requires Valid()
      modifies this`readCursor
      ensures Valid() && TakeU32(old(Unread())) == if n.Some? then Taken(n.value, Unread()) else Short
    {
      var t := TakeU32(data[readCursor..]);
      if t.Short? {
        return None;
      }
      readCursor := readCursor + 4;
      n := Some(t.value);
    }

    method ReadInt32() returns (i: Option<Int32>)
      requires Valid()
      modifies this`readCursor
      ensures Valid() && TakeI32(old(Unread())) == if i.Some? then Taken(i.value, Unread()) else Short
    {
      var n := ReadUint32();
      i := if n.Some? then Some(Signed32(n.value)) else None;
    }

    method ReadUint64() returns (n: Option<Word64>)
      requires Valid()
      modifies this`readCursor
      ensures Valid() && TakeU64(old(Unread())) == if n.Some? then Taken(n.value, Unread()) else Short
    {
      var t := TakeU64(data[readCursor..]);
      if t.Short? {
        return None;
      }
      readCursor := readCursor + 8;
      n := Some(t.value);
    }

    method ReadBuffer(length: nat) returns (b: Option<Bytes>)
      requires Valid()
      modifies this`readCursor
      ensures Valid() && TakeBuffer(old(Unread()), length) == if b.Some? then Taken(b.value, Unread()) else Short
    {
      if |data| - readCursor < length {
        return None;
      }
      ghost var unread := Unread();
      b := Some(data[readCursor..readCursor + length]);
      assert unread[..length] == b.value;
      var after := readCursor + length + PadSize(length);
      readCursor := if after <= |data| then after else |data|;
    }

    method ReadString() returns (s: Option<Bytes>)
      requires Valid()
      modifies this`readCursor
      ensures Valid() && match TakeStr(old(Unread()))
                         case Short => s == None
                         case Taken(v, rest) => s == Some(v) && Unread() == rest
    {
      var length := ReadInt32();
      if length.None? || length.value < 0 {
        return None;
      }
      var b := ReadBuffer(length.value as int + 1);
      if b.None? || b.value[length.value] != 0 {
        return None;
      }
      s := Some(b.value[..length.value]);
    }
  }
}

/**
Little-endian numbers on the wire, and the cursor the codecs read and write them through. Reading
past the end is an error and leaves the caller without a value; writing overwrites what lies under
the cursor and extends the buffer behind its end.
*/
module Wire {
  import opened Options

  type Bytes = seq<U8>

  type I32 = x: int | -0x8000_0000 <= x < 0x8000_0000
  type I8 = x: int | -0x80 <= x < 0x80

  /** A player as the core counts them; four is no player. */
  type CorePlayer = x: U8 | x <= 3 || x == 5

  datatype Error = Eof | NoVariant

  /** What a reader finds: a value and the bytes after it, or an error. */
  datatype Read<T> = Got(value: T, rest: Bytes) | Failed(error: Error)

  function Le16(x: U16): Bytes { [x % 0x100, x / 0x100] }

  function Le32(x: U32): Bytes { Le16(x % 0x1_0000) + Le16(x / 0x1_0000) }

  function Signed(x: I32): U32 { if x < 0 then x + 0x1_0000_0000 else x }

  function Unsigned(x: U32): I32 { if x < 0x8000_0000 then x else x - 0x1_0000_0000 }

  function SignedByte(x: I8): U8 { if x < 0 then x + 0x100 else x }

  function UnsignedByte(x: U8): I8 { if x < 0x80 then x else x - 0x100 }

  function TakeU8(s: Bytes): Read<U8> { if |s| < 1 then Failed(Eof) else Got(s[0], s[1..]) }

  function TakeU16(s: Bytes): Read<U16> { if |s| < 2 then Failed(Eof) else Got(s[0] as int + 0x100 * s[1] as int, s[2..]) }

  function TakeU32(s: Bytes): Read<U32> {
    if |s| < 4 then Failed(Eof) else Got(s[0] as int + 0x100 * s[1] as int + 0x1_0000 * s[2] as int + 0x100_0000 * s[3] as int, s[4..])
  }

  function TakeCorePlayer(s: Bytes): Read<CorePlayer> {
    if |s| < 1 then Failed(Eof) else if s[0] <= 3 || s[0] == 5 then Got(s[0], s[1..]) else Failed(NoVariant)
  }

  lemma TakeBack8(x: U8, rest: Bytes)
    ensures TakeU8([x] + rest) == Got(x, rest)
  {
  }

  lemma TakeBack16(x: U16, rest: Bytes)
    ensures TakeU16(Le16(x) + rest) == Got(x, rest)
  {
  }

  lemma TakeBack32(x: U32, rest: Bytes)
    ensures TakeU32(Le32(x) + rest) == Got(x, rest)
  {
    assert x == x % 0x100 + 0x100 * (x / 0x100 % 0x100) + 0x1_0000 * (x / 0x1_0000 % 0x100) + 0x100_0000 * (x / 0x100_0000);
    var s := Le32(x) + rest;
    assert s[0] == x % 0x1_0000 % 0x100 && s[1] == x % 0x1_0000 / 0x100 && s[2] == x / 0x1_0000 % 0x100 && s[3] == x / 0x1_0000 / 0x100;
    assert s[4..] == rest;
  }

  // ---------- lists of words ----------

  function Words16(list: seq<U16>): Bytes {
    if list == [] then [] else Le16(list[0]) + Words16(list[1..])
  }

  function Words32(list: seq<U32>): Bytes {
    if list == [] then [] else Le32(list[0]) + Words32(list[1..])
  }

  function TakeWords16(s: Bytes, count: nat): Read<seq<U16>>
    decreases count
  {
    if count == 0 then Got([], s)
    else
      match TakeU16(s)
      case Failed(error) => Failed(error)
      case Got(x, rest) =>
        match TakeWords16(rest, count - 1)
        case Failed(error) => Failed(error)
        case Got(list, left) => Got([x] + list, left)
  }

  function TakeWords32(s: Bytes, count: nat): Read<seq<U32>>
    decreases count
  {
    if count == 0 then Got([], s)
    else
      match TakeU32(s)
      case Failed(error) => Failed(error)
      case Got(x, rest) =>
        match TakeWords32(rest, count - 1)
        case Failed(error) => Failed(error)
        case Got(list, left) => Got([x] + list, left)
  }

  /** Words until the input ends; an odd byte at the end is dropped. */
  function AllWords16(s: Bytes): seq<U16> {
    if |s| < 2 then [] else [TakeU16(s).value] + AllWords16(TakeU16(s).rest)
  }

  lemma {:induction false} WordsLength16(list: seq<U16>)
    ensures |Words16(list)| == 2 * |list|
    decreases list
  {
    if list != [] { WordsLength16(list[1..]); }
  }

  lemma {:induction false} WordsLength32(list: seq<U32>)
    ensures |Words32(list)| == 4 * |list|
    decreases list
  {
    if list != [] { WordsLength32(list[1..]); }
  }

  lemma {:induction false} TakeWordsBack16(list: seq<U16>, count: nat, rest: Bytes)
    requires count <= |list|
    ensures TakeWords16(Words16(list) + rest, count) == Got(list[..count], Words16(list[count..]) + rest)
    decreases count
  {
    if count == 0 {
      assert list[0..] == list;
    } else {
      assert Words16(list) + rest == Le16(list[0]) + (Words16(list[1..]) + rest);
      TakeBack16(list[0], Words16(list[1..]) + rest);
      TakeWordsBack16(list[1..], count - 1, rest);
      assert [list[0]] + list[1..][..count - 1] == list[..count] && list[1..][count - 1..] == list[count..];
    }
  }

  lemma {:induction false} TakeWordsBack32(list: seq<U32>, rest: Bytes)
    ensures TakeWords32(Words32(list) + rest, |list|) == Got(list, rest)
    decreases list
  {
    if list == [] {
      assert [] + rest == rest;
    } else {
      assert Words32(list) + rest == Le32(list[0]) + (Words32(list[1..]) + rest);
      TakeBack32(list[0], Words32(list[1..]) + rest);
      TakeWordsBack32(list[1..], rest);
      assert [list[0]] + list[1..] == list;
    }
  }

  lemma {:induction false} AllWordsBack16(list: seq<U16>)
    ensures AllWords16(Words16(list)) == list
    decreases list
  {
    if list != [] {
      TakeBack16(list[0], Words16(list[1..]));
      AllWordsBack16(list[1..]);
    }
  }

  lemma {:induction false} WordsAppend16(list: seq<U16>, x: U16)
    ensures Words16(list + [x]) == Words16(list) + Le16(x)
    decreases list
  {
    if list != [] {
      assert (list + [x])[1..] == list[1..] + [x];
      WordsAppend16(list[1..], x);
    }
  }

  lemma {:induction false} WordsAppend32(list: seq<U32>, x: U32)
    ensures Words32(list + [x]) == Words32(list) + Le32(x)
    decreases list
  {
    if list != [] {
      assert (list + [x])[1..] == list[1..] + [x];
      WordsAppend32(list[1..], x);
    }
  }

  // ---------- reading a list element by element ----------

  /** What a reader has collected, followed by what it has yet to read. */
  function Prepend<T>(list: seq<T>, tail: Read<seq<T>>): Read<seq<T>> {
    if tail.Failed? then tail else Got(list + tail.value, tail.rest)
  }

  lemma PrependNone<T>(tail: Read<seq<T>>)
    ensures Prepend([], tail) == tail
  {
    if tail.Got? { assert [] + tail.value == tail.value; }
  }

  lemma PrependOne<T>(list: seq<T>, x: T, tail: Read<seq<T>>)
    ensures Prepend(list, Prepend([x], tail)) == Prepend(list + [x], tail)
  {
    if tail.Got? { assert list + ([x] + tail.value) == list + [x] + tail.value; }
  }

  // ---------- the cursor ----------

  function Overwrite(data: Bytes, pos: nat, bytes: Bytes): Bytes
    requires pos <= |data|
  {
    data[..pos] + bytes + if pos + |bytes| <= |data| then data[pos + |bytes|..] else []
  }

  lemma OverwriteTwice(data: Bytes, pos: nat, first: Bytes, second: Bytes)
    requires pos <= |data|
    ensures var once := Overwrite(data, pos, first);
      pos + |first| <= |once| && Overwrite(once, pos + |first|, second) == Overwrite(data, pos, first + second)
  {
    var once := Overwrite(data, pos, first);
    assert once[..pos + |first|] == data[..pos] + first;
    assert pos + |first| + |second| <= |data| ==> once[pos + |first| + |second|..] == data[pos + |first| + |second|..];
  }

  lemma OverwriteNone(data: Bytes, pos: nat)
    requires pos <= |data|
    ensures Overwrite(data, pos, []) == data
  {
  }

  function RestOf(data: Bytes, pos: nat): Bytes { if pos <= |data| then data[pos..] else [] }

  /** An in-memory stream with a position that reads and writes advance. */
  class Cursor {
    var data: Bytes
    var pos: nat

    constructor (bytes: Bytes)
      ensures data == bytes && pos == 0
    {
      data, pos := bytes, 0;
    }

    function Rest(): Bytes
      reads this
    {
      RestOf(data, pos)
    }

    method ReadU8() returns (r: Read<U8>)
      modifies `pos
      ensures r == TakeU8(old(Rest())) && (r.Got? ==> Rest() == r.rest) && (r.Failed? ==> pos == old(pos))
    {
      r := TakeU8(Rest());
      if r.Got? { pos := pos + 1; }
    }

    method ReadU16() returns (r: Read<U16>)
      modifies `pos
      ensures r == TakeU16(old(Rest())) && (r.Got? ==> Rest() == r.rest) && (r.Failed? ==> pos == old(pos))
    {
      r := TakeU16(Rest());
      if r.Got? { pos := pos + 2; }
    }

    method ReadU32() returns (r: Read<U32>)
      modifies `pos
      ensures r == TakeU32(old(Rest())) && (r.Got? ==> Rest() == r.rest) && (r.Failed? ==> pos == old(pos))
    {
      r := TakeU32(Rest());
      if r.Got? { pos := pos + 4; }
    }

    method ReadCorePlayer() returns (r: Read<CorePlayer>)
      modifies `pos
      ensures r == TakeCorePlayer(old(Rest())) && (r.Got? ==> Rest() == r.rest)
    {
      var byte := ReadU8();
      if byte.Failed? { return Failed(byte.error); }
      if !(byte.value <= 3 || byte.value == 5) { return Failed(NoVariant); }
      r := Got(byte.value, byte.rest);
    }

    /** Everything that is left, without moving. */
    method ReadAllRemaining() returns (bytes: Bytes)
      modifies `pos
      ensures bytes == old(Rest()) && pos == old(pos)
    {
      var start := pos;
      bytes := Rest();
      pos := |data|;
      pos := start;
    }

    method Seek(to: nat)
      modifies `pos
      ensures pos == to
    {
      pos := to;
    }

    method Write(bytes: Bytes)
      requires pos <= |data|
      modifies this
      ensures data == Overwrite(old(data), old(pos), bytes) && pos == old(pos) + |bytes| && pos <= |data|
    {
      data := Overwrite(data, pos, bytes);
      pos := pos + |bytes|;
    }
  }
}

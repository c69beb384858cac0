/** The two stream endpoints of the codec: a `Cursor` that reads a byte stream
    front to back, and a `Sink` that collects the bytes a writer emits. Every
    reader method is specified by the matching decoder of `Wire`, so a method
    that chains them can be proved equal to a decoder that chains the same
    steps. */
module Streams {
  import opened Wire

  /** A reader positioned in a byte stream; `rest` holds the bytes not yet read.
      After a failed read the position is unspecified, as it is after a failed
      `std::io::Read` call. */
  class Cursor {
    var rest: Bytes

    constructor (input: Bytes)
      ensures rest == input
    {
      rest := input;
    }

    method ReadU8() returns (r: Result<Byte>)
      modifies this
      ensures r == U8From(old(rest))
      ensures r.Ok? ==> rest == r.rest
    {
      if |rest| < 1 {
        r := Fail(Truncated);
      } else {
        r := Ok(rest[0], rest[1..]);
        rest := rest[1..];
      }
    }

    method ReadI8() returns (r: Result<I8>)
      modifies this
      ensures r == I8From(old(rest))
      ensures r.Ok? ==> rest == r.rest
    {
      var b :- ReadU8();
      r := Ok(Signed8(b.v), rest);
    }

    method ReadU16() returns (r: Result<U16>)
      modifies this
      ensures r == U16From(old(rest))
      ensures r.Ok? ==> rest == r.rest
    {
      if |rest| < 2 {
        r := Fail(Truncated);
      } else {
        r := Ok(rest[0] as int + 0x100 * (rest[1] as int), rest[2..]);
        rest := rest[2..];
      }
    }

    method ReadI16() returns (r: Result<I16>)
      modifies this
      ensures r == I16From(old(rest))
      ensures r.Ok? ==> rest == r.rest
    {
      var w :- ReadU16();
      r := Ok(Signed16(w.v), rest);
    }

    method ReadU32() returns (r: Result<U32>)
      modifies this
      ensures r == U32From(old(rest))
      ensures r.Ok? ==> rest == r.rest
    {
      if |rest| < 4 {
        r := Fail(Truncated);
      } else {
        r := Ok(rest[0] as int + 0x100 * (rest[1] as int) + 0x1_0000 * (rest[2] as int)
                + 0x100_0000 * (rest[3] as int), rest[4..]);
        rest := rest[4..];
      }
    }

    method ReadI32() returns (r: Result<I32>)
      modifies this
      ensures r == I32From(old(rest))
      ensures r.Ok? ==> rest == r.rest
    {
      var w :- ReadU32();
      r := Ok(Signed32(w.v), rest);
    }

    method ReadF32() returns (r: Result<F32>)
      modifies this
      ensures r == F32From(old(rest))
      ensures r.Ok? ==> rest == r.rest
    {
      r := ReadU32();
    }

    method Skip(n: nat) returns (r: Result<()>)
      modifies this
      ensures r == SkipFrom(old(rest), n)
      ensures r.Ok? ==> rest == r.rest
    {
      if |rest| < n {
        r := Fail(Truncated);
      } else {
        rest := rest[n..];
        r := Ok((), rest);
      }
    }

    method ReadRaw(n: nat) returns (r: Result<Bytes>)
      modifies this
      ensures r == RawFrom(old(rest), n)
      ensures r.Ok? ==> rest == r.rest
    {
      if |rest| < n {
        r := Fail(Truncated);
      } else {
        r := Ok(rest[..n], rest[n..]);
        rest := rest[n..];
      }
    }

    method ReadOptU32() returns (r: Result<Option<U32>>)
      modifies this
      ensures r == OptU32From(old(rest))
      ensures r.Ok? ==> rest == r.rest
    {
      var w :- ReadU32();
      r := Ok(if w.v == 0xFFFF_FFFF then None else Some(w.v), rest);
    }

    method ReadOptU16() returns (r: Result<Option<U16>>)
      modifies this
      ensures r == OptU16From(old(rest))
      ensures r.Ok? ==> rest == r.rest
    {
      var w :- ReadU16();
      r := Ok(if w.v == 0xFFFF then None else Some(w.v), rest);
    }

    /** A call to a record's `read_from` whose fields are read one after
        another without a loop: the record's decoder says what it reads. */
    method ReadRecord<T>(item: Bytes -> Result<T>) returns (r: Result<T>)
      modifies this
      ensures r == item(old(rest))
      ensures r.Ok? ==> rest == r.rest
    {
      r := item(rest);
      if r.Ok? {
        rest := r.rest;
      }
    }

    /** A record read by code outside this model. */
    method ReadForeign(size: Option<nat>) returns (r: Result<Bytes>)
      modifies this
      ensures r == ForeignFrom(old(rest), size)
      ensures r.Ok? ==> rest == r.rest
    {
      r := ForeignFrom(rest, size);
      if r.Ok? {
        rest := r.rest;
      }
    }

    /** `read_u32_into`: fills the whole buffer, front to back. */
    method ReadU32Into(a: array<U32>) returns (r: Result<()>)
      modifies this, a
      ensures Fills(Many(old(rest), a.Length, U32From), r, a[..])
      ensures r.Ok? ==> rest == r.rest
    {
      ghost var s0 := rest;
      var i := 0;
      ResumesStart(s0, a.Length, U32From);
      while i < a.Length
        invariant 0 <= i <= a.Length
        invariant Resumes(s0, a.Length, U32From, a[..i], rest)
      {
        ResumesNext(s0, a.Length, U32From, a[..i], rest);
        var w :- ReadU32();
        a[i] := w.v;
        assert a[..i + 1] == a[..i] + [w.v];
        i := i + 1;
      }
      assert a[..i] == a[..];
      ResumesDone(s0, a.Length, U32From, a[..], rest);
      r := Ok((), rest);
    }

    /** `read_i32_into`. */
    method ReadI32Into(a: array<I32>) returns (r: Result<()>)
      modifies this, a
      ensures Fills(Many(old(rest), a.Length, I32From), r, a[..])
      ensures r.Ok? ==> rest == r.rest
    {
      ghost var s0 := rest;
      var i := 0;
      ResumesStart(s0, a.Length, I32From);
      while i < a.Length
        invariant 0 <= i <= a.Length
        invariant Resumes(s0, a.Length, I32From, a[..i], rest)
      {
        ResumesNext(s0, a.Length, I32From, a[..i], rest);
        var w :- ReadI32();
        a[i] := w.v;
        assert a[..i + 1] == a[..i] + [w.v];
        i := i + 1;
      }
      assert a[..i] == a[..];
      ResumesDone(s0, a.Length, I32From, a[..], rest);
      r := Ok((), rest);
    }

    /** `read_i8_into`. */
    method ReadI8Into(a: array<I8>) returns (r: Result<()>)
      modifies this, a
      ensures Fills(Many(old(rest), a.Length, I8From), r, a[..])
      ensures r.Ok? ==> rest == r.rest
    {
      ghost var s0 := rest;
      var i := 0;
      ResumesStart(s0, a.Length, I8From);
      while i < a.Length
        invariant 0 <= i <= a.Length
        invariant Resumes(s0, a.Length, I8From, a[..i], rest)
      {
        ResumesNext(s0, a.Length, I8From, a[..i], rest);
        var w :- ReadI8();
        a[i] := w.v;
        assert a[..i + 1] == a[..i] + [w.v];
        i := i + 1;
      }
      assert a[..i] == a[..];
      ResumesDone(s0, a.Length, I8From, a[..], rest);
      r := Ok((), rest);
    }
  }

  /** A counted loop `for _ in 0..n { list.push(read(input)?) }`. */
  method ReadMany<T>(c: Cursor, n: nat, item: Bytes -> Result<T>) returns (r: Result<seq<T>>)
    modifies c
    ensures r == Many(old(c.rest), n, item)
    ensures r.Ok? ==> c.rest == r.rest
  {
    ghost var s0 := c.rest;
    var list: seq<T> := [];
    ResumesStart(s0, n, item);
    for i := 0 to n
      invariant |list| == i
      invariant Resumes(s0, n, item, list, c.rest)
    {
      ResumesNext(s0, n, item, list, c.rest);
      var x :- c.ReadRecord(item);
      list := list + [x.v];
    }
    ResumesDone(s0, n, item, list, c.rest);
    r := Ok(list, c.rest);
  }

  /** `let n = read_u32()?; for _ in 0..n { list.push(read(input)?) }`. */
  method ReadCounted<T>(c: Cursor, item: Bytes -> Result<T>) returns (r: Result<seq<T>>)
    modifies c
    ensures r == Counted(old(c.rest), item)
    ensures r.Ok? ==> c.rest == r.rest
  {
    var n :- c.ReadU32();
    r := ReadMany(c, n.v, item);
  }

  /** `read_u32_into` on a fresh buffer of n words. */
  method ReadU32s(c: Cursor, n: nat) returns (r: Result<seq<U32>>)
    modifies c
    ensures r == U32sFrom(old(c.rest), n)
    ensures r.Ok? ==> c.rest == r.rest
  {
    var words := new U32[n](_ => 0);
    ManyU32s(c.rest, words.Length);
    var filled := c.ReadU32Into(words);
    if filled.Fail? {
      return Fail(filled.error);
    }
    r := Ok(words[..], c.rest);
  }

  /** `for x in buffer.iter_mut() { *x = read(input)? }`: fills the whole
      buffer front to back. */
  method ReadInto<T>(c: Cursor, a: array<T>, item: Bytes -> Result<T>) returns (r: Result<()>)
    modifies c, a
    ensures Fills(Many(old(c.rest), a.Length, item), r, a[..])
    ensures r.Ok? ==> c.rest == r.rest
  {
    ghost var s0 := c.rest;
    var i := 0;
    ResumesStart(s0, a.Length, item);
    while i < a.Length
      invariant 0 <= i <= a.Length
      invariant Resumes(s0, a.Length, item, a[..i], c.rest)
    {
      ResumesNext(s0, a.Length, item, a[..i], c.rest);
      var x :- c.ReadRecord(item);
      a[i] := x.v;
      assert a[..i + 1] == a[..i] + [x.v];
      i := i + 1;
    }
    assert a[..i] == a[..];
    ResumesDone(s0, a.Length, item, a[..], c.rest);
    r := Ok((), c.rest);
  }

  /** The output of a writer: `out` holds every byte written so far. */
  class Sink {
    var out: Bytes

    constructor ()
      ensures out == []
    {
      out := [];
    }

    method WriteU8(x: Byte)
      modifies this
      ensures out == old(out) + E8(x)
    {
      out := out + [x];
    }

    method WriteI8(x: I8)
      modifies this
      ensures out == old(out) + EI8(x)
    {
      out := out + [Unsigned8(x)];
    }

    method WriteU16(x: U16)
      modifies this
      ensures out == old(out) + E16(x)
    {
      out := out + [x % 0x100, x / 0x100];
    }

    method WriteU32(x: U32)
      modifies this
      ensures out == old(out) + E32(x)
    {
      out := out + [x % 0x100, (x / 0x100) % 0x100, (x / 0x100 / 0x100) % 0x100,
                    x / 0x100 / 0x100 / 0x100];
    }

    method WriteI32(x: I32)
      modifies this
      ensures out == old(out) + EI32(x)
    {
      WriteU32(Unsigned32(x));
    }

    method WriteF32(x: F32)
      modifies this
      ensures out == old(out) + E32(x)
    {
      WriteU32(x);
    }

    method WriteBool(b: bool)
      modifies this
      ensures out == old(out) + EBool(b)
    {
      WriteU8(if b then 1 else 0);
    }

    method WriteZeros(n: nat)
      modifies this
      ensures out == old(out) + Zeros(n)
    {
      out := out + seq(n, _ => 0);
    }
  }
}

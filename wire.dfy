/** The primitive field codec of the recorded-game format.

    A stream is modelled as the bytes that remain to be read. A decoder takes
    those bytes and either fails or returns the decoded value together with the
    bytes that remain after it, so the bytes a decoder consumed are
    `|s| - |r.rest|`. Every integer is little-endian. An f32 field is kept as
    its 32-bit pattern and never interpreted, which keeps every round trip
    bit-exact. */
module Wire {

  // ---------------------------------------------------------------------------
  // Integer widths

  type Byte = x: int | 0 <= x < 0x100
  type Bytes = seq<Byte>
  type I8 = x: int | -0x80 <= x < 0x80
  type U16 = x: int | 0 <= x < 0x1_0000
  type I16 = x: int | -0x8000 <= x < 0x8000
  type U32 = x: int | 0 <= x < 0x1_0000_0000
  type I32 = x: int | -0x8000_0000 <= x < 0x8000_0000

  /** An f32 field as its raw bit pattern. */
  type F32 = U32

  // Identifier domains. The wrapped widths are those of the identifier types
  // the codec converts into (PlayerID over a u8, ObjectID over a u32,
  // UnitTypeID, TechID and SpriteID over a u16); a `try_into()` into one of
  // them fails exactly when the value is outside that width.
  type PlayerId = Byte
  type ObjectId = U32
  type UnitTypeId = U16
  type TechId = U16
  type SpriteId = U16

  /** The float comparisons the codec makes on raw f32 patterns, supplied by
      the caller: `f32_neq!(x, -1.0)`, `x >= 0.0`, and the version number an
      f32 save-version field denotes, in hundredths (11.76 is 1176). */
  datatype Floats = Floats(
    differsFromMinusOne: F32 -> bool,
    nonNegative: F32 -> bool,
    hundredths: F32 -> int)

  /** Two's-complement readings of unsigned patterns, and back. */
  function Signed8(x: Byte): I8 { if x < 0x80 then x else x - 0x100 }
  function Signed16(x: U16): I16 { if x < 0x8000 then x else x - 0x1_0000 }
  function Signed32(x: U32): I32 { if x < 0x8000_0000 then x else x - 0x1_0000_0000 }
  function Unsigned8(x: I8): Byte { if x < 0 then x + 0x100 else x }
  function Unsigned16(x: I16): U16 { if x < 0 then x + 0x1_0000 else x }
  function Unsigned32(x: I32): U32 { if x < 0 then x + 0x1_0000_0000 else x }

  // ---------------------------------------------------------------------------
  // Results

  /** An optional value; as a failure-compatible type, None stands for a
      writer that panics on an `unwrap()`. */
  datatype Option<+T> = None | Some(value: T) {
    predicate IsFailure() { None? }
    function PropagateFailure<U>(): Option<U> requires None? { None }
    function Extract(): T requires Some? { value }
  }

  datatype Error =
    | Truncated      // an io read found fewer bytes than the field needs
    | Unsupported    // an opcode, sub-opcode or tag outside the closed table (a panic)
    | BadGuard       // an assertion on a fixed marker value failed (a panic)
    | OutOfRange     // a `try_into().unwrap()` narrowing or a slice bound failed (a panic)
    | Unimplemented  // the decoder reached a `todo!()` (a panic)
    | Foreign        // a reader outside this model failed

  /** What `:-` hands on after a successful step: the value and the remaining bytes. */
  datatype Parsed<+T> = Parsed(v: T, rest: Bytes)

  datatype Result<+T> = Ok(value: T, rest: Bytes) | Fail(error: Error) {
    predicate IsFailure() { Fail? }
    function PropagateFailure<U>(): Result<U> requires Fail? { Fail(error) }
    function Extract(): Parsed<T> requires Ok? { Parsed(value, rest) }
  }

  /** r succeeded after consuming exactly the first n bytes of s. */
  ghost predicate Consumed<T>(s: Bytes, r: Result<T>, n: nat) {
    r.Ok? && n <= |s| && r.rest == s[n..]
  }

  /** Prepends already-decoded items to the items of a later decode. */
  function Prefixed<T>(xs: seq<T>, r: Result<seq<T>>): Result<seq<T>> {
    match r
    case Ok(ys, t) => Ok(xs + ys, t)
    case Fail(e) => Fail(e)
  }

  // ---------------------------------------------------------------------------
  // Fixed-width readers

  function U8From(s: Bytes): (r: Result<Byte>)
    ensures r.Ok? <==> |s| >= 1
    ensures r.Ok? ==> r.rest == s[1..]
  {
    if |s| < 1 then Fail(Truncated) else Ok(s[0], s[1..])
  }

  function I8From(s: Bytes): (r: Result<I8>)
    ensures r.Ok? <==> |s| >= 1
    ensures r.Ok? ==> r.rest == s[1..]
  {
    var b :- U8From(s);
    Ok(Signed8(b.v), b.rest)
  }

  function U16From(s: Bytes): (r: Result<U16>)
    ensures r.Ok? <==> |s| >= 2
    ensures r.Ok? ==> r.rest == s[2..]
  {
    if |s| < 2 then Fail(Truncated)
    else Ok(s[0] as int + 0x100 * (s[1] as int), s[2..])
  }

  function I16From(s: Bytes): (r: Result<I16>)
    ensures r.Ok? <==> |s| >= 2
    ensures r.Ok? ==> r.rest == s[2..]
  {
    var w :- U16From(s);
    Ok(Signed16(w.v), w.rest)
  }

  function U32From(s: Bytes): (r: Result<U32>)
    ensures r.Ok? <==> |s| >= 4
    ensures r.Ok? ==> r.rest == s[4..]
  {
    if |s| < 4 then Fail(Truncated)
    else Ok(s[0] as int + 0x100 * (s[1] as int) + 0x1_0000 * (s[2] as int)
            + 0x100_0000 * (s[3] as int), s[4..])
  }

  function I32From(s: Bytes): (r: Result<I32>)
    ensures r.Ok? <==> |s| >= 4
    ensures r.Ok? ==> r.rest == s[4..]
  {
    var w :- U32From(s);
    Ok(Signed32(w.v), w.rest)
  }

  /** An f32 field: four bytes kept as their pattern. */
  function F32From(s: Bytes): (r: Result<F32>)
    ensures r.Ok? <==> |s| >= 4
    ensures r.Ok? ==> r.rest == s[4..]
  {
    U32From(s)
  }

  /** Discards n bytes; fails when fewer remain. */
  function SkipFrom(s: Bytes, n: nat): (r: Result<()>)
    ensures r.Ok? ==> n <= |s| && r.rest == s[n..]
  {
    if |s| < n then Fail(Truncated) else Ok((), s[n..])
  }

  /** n raw bytes. */
  function RawFrom(s: Bytes, n: nat): (r: Result<Bytes>)
    ensures r.Ok? ==> n <= |s| && r.value == s[..n] && r.rest == s[n..]
  {
    if |s| < n then Fail(Truncated) else Ok(s[..n], s[n..])
  }

  /** A record read by code outside this model. Its reader is known only by
      the number of bytes it takes from the stream (None when it fails); the
      record is kept as those raw bytes. */
  function ForeignFrom(s: Bytes, size: Option<nat>): (r: Result<Bytes>)
    ensures r.Ok? <==> size.Some? && size.value <= |s|
    ensures r.Ok? ==> r.value == s[..size.value] && r.rest == s[size.value..]
  {
    match size
    case None => Fail(Foreign)
    case Some(n) => if |s| < n then Fail(Truncated) else Ok(s[..n], s[n..])
  }

  /** The 32-bit "absent" sentinel: 0xFFFFFFFF reads as None. */
  function OptU32From(s: Bytes): (r: Result<Option<U32>>)
    ensures r.Ok? <==> |s| >= 4
    ensures r.Ok? ==> r.rest == s[4..] && r.value != Some(0xFFFF_FFFF)
  {
    var w :- U32From(s);
    Ok(if w.v == 0xFFFF_FFFF then None else Some(w.v), w.rest)
  }

  /** The 16-bit "absent" sentinel: 0xFFFF reads as None. */
  function OptU16From(s: Bytes): (r: Result<Option<U16>>)
    ensures r.Ok? <==> |s| >= 2
    ensures r.Ok? ==> r.rest == s[2..] && r.value != Some(0xFFFF)
  {
    var w :- U16From(s);
    Ok(if w.v == 0xFFFF then None else Some(w.v), w.rest)
  }

  // ---------------------------------------------------------------------------
  // Whole-buffer readers: `read_u32_into`, `read_i32_into` and `read_i8_into`
  // read the buffer's bytes at once and convert them

  /** The little-endian u32 words of a byte string (a trailing partial word
      is ignored). */
  function WordsLE(b: Bytes): (ws: seq<U32>)
    ensures |ws| == |b| / 4
    decreases |b|
  {
    if |b| < 4 then [] else [U32From(b).value] + WordsLE(b[4..])
  }

  /** The little-endian i32 words of a byte string. */
  function SignedWordsLE(b: Bytes): (ws: seq<I32>)
    ensures |ws| == |b| / 4
    decreases |b|
  {
    if |b| < 4 then [] else [I32From(b).value] + SignedWordsLE(b[4..])
  }

  /** The i8 readings of a byte string. */
  function SignedBytes(b: Bytes): (xs: seq<I8>)
    ensures |xs| == |b|
    decreases |b|
  {
    if |b| == 0 then [] else [Signed8(b[0])] + SignedBytes(b[1..])
  }

  /** n u32 words read into a buffer. */
  function U32sFrom(s: Bytes, n: nat): (r: Result<seq<U32>>)
    ensures r.Ok? <==> |s| >= 4 * n
    ensures r.Ok? ==> r.rest == s[4 * n..] && |r.value| == n
    ensures r.Ok? ==> forall k :: 0 <= k < n ==> r.value[k] == U32From(s[4 * k..]).value
  {
    var raw :- RawFrom(s, 4 * n);
    WordsLEPrefix(s, n);
    Ok(WordsLE(raw.v), raw.rest)
  }

  /** The k-th word of a byte string is the u32 at offset 4k. */
  lemma {:induction false} WordsLEAt(b: Bytes, k: nat)
    requires 4 * k + 4 <= |b|
    ensures WordsLE(b)[k] == U32From(b[4 * k..]).value
    decreases k
  {
    if k > 0 {
      WordsLEAt(b[4..], k - 1);
      assert b[4..][4 * (k - 1)..] == b[4 * k..];
    }
  }

  /** The words of the first 4n bytes are the u32 values at offsets 0, 4, …, 4(n-1). */
  lemma WordsLEPrefix(s: Bytes, n: nat)
    requires 4 * n <= |s|
    ensures forall k :: 0 <= k < n ==> WordsLE(s[..4 * n])[k] == U32From(s[4 * k..]).value
  {
    forall k | 0 <= k < n
      ensures WordsLE(s[..4 * n])[k] == U32From(s[4 * k..]).value
    {
      WordsLEAt(s[..4 * n], k);
      assert s[..4 * n][4 * k..][..4] == s[4 * k..][..4];
    }
  }

  /** n i32 words read into a buffer. */
  function I32sFrom(s: Bytes, n: nat): (r: Result<seq<I32>>)
    ensures r.Ok? <==> |s| >= 4 * n
    ensures r.Ok? ==> r.rest == s[4 * n..] && |r.value| == n
  {
    var raw :- RawFrom(s, 4 * n);
    Ok(SignedWordsLE(raw.v), raw.rest)
  }

  /** n i8 values read into a buffer. */
  function I8sFrom(s: Bytes, n: nat): (r: Result<seq<I8>>)
    ensures r.Ok? <==> |s| >= n
    ensures r.Ok? ==> r.rest == s[n..] && |r.value| == n
  {
    var raw :- RawFrom(s, n);
    Ok(SignedBytes(raw.v), raw.rest)
  }

  /** The records of a run of k-byte records, in order (a trailing partial
      record is ignored). */
  function ChunksOf<T>(b: Bytes, k: nat, item: Bytes -> Result<T>): seq<T>
    decreases |b|
  {
    if k == 0 || |b| < k || item(b).Fail? then [] else [item(b).value] + ChunksOf(b[k..], k, item)
  }

  /** n records of k bytes each: the whole run taken at once, then decoded. */
  function FixedFrom<T>(s: Bytes, n: nat, item: Bytes -> Result<T>, k: nat): (r: Result<seq<T>>)
    ensures r.Ok? <==> |s| >= n * k
    ensures r.Ok? ==> r.rest == s[n * k..]
  {
    var raw :- RawFrom(s, n * k);
    Ok(ChunksOf(raw.v, k, item), raw.rest)
  }

  /** n items, each decoded by `item` from where the previous one stopped. */
  function Many<T>(s: Bytes, n: nat, item: Bytes -> Result<T>): (r: Result<seq<T>>)
    ensures r.Ok? ==> |r.value| == n
    decreases n
  {
    if n == 0 then Ok([], s)
    else
      var x :- item(s);
      var xs :- Many(x.rest, n - 1, item);
      Ok([x.v] + xs.v, xs.rest)
  }

  /** A u32 count, then that many items. */
  function Counted<T>(s: Bytes, item: Bytes -> Result<T>): (r: Result<seq<T>>)
    ensures r.Ok? ==> U32From(s).Ok? && |r.value| == U32From(s).value
  {
    var n :- U32From(s);
    Many(n.rest, n.v, item)
  }

  /** A block read only when its gate is open, and absent otherwise. */
  function GatedFrom<T>(s: Bytes, open: bool, item: Bytes -> Result<T>): (r: Result<Option<T>>)
    ensures r.Ok? ==> (r.value.Some? <==> open)
    ensures !open ==> r == Ok(None, s)
  {
    if open then
      var x :- item(s);
      Ok(Some(x.v), x.rest)
    else Ok(None, s)
  }

  // ---------------------------------------------------------------------------
  // Narrowing conversions: a `try_into().unwrap()` that panics out of range

  function NarrowPlayer(p: Parsed<int>): (r: Result<PlayerId>)
  {
    if 0 <= p.v < 0x100 then Ok(p.v, p.rest) else Fail(OutOfRange)
  }

  function NarrowObject(p: Parsed<int>): (r: Result<ObjectId>)
  {
    if 0 <= p.v < 0x1_0000_0000 then Ok(p.v, p.rest) else Fail(OutOfRange)
  }

  function NarrowUnitType(p: Parsed<int>): (r: Result<UnitTypeId>)
  {
    if 0 <= p.v < 0x1_0000 then Ok(p.v, p.rest) else Fail(OutOfRange)
  }

  function NarrowI32(p: Parsed<int>): (r: Result<I32>)
  {
    if -0x8000_0000 <= p.v < 0x8000_0000 then Ok(p.v, p.rest) else Fail(OutOfRange)
  }

  // ---------------------------------------------------------------------------
  // Fixed-width writers: the bytes a writer appends to its output

  function E8(x: Byte): (r: Bytes)
    ensures |r| == 1
  {
    [x]
  }
  function EI8(x: I8): (r: Bytes)
    ensures |r| == 1
  {
    E8(Unsigned8(x))
  }
  function E16(x: U16): (r: Bytes)
    ensures |r| == 2
  {
    [x % 0x100, x / 0x100]
  }
  function EI16(x: I16): (r: Bytes)
    ensures |r| == 2
  {
    E16(Unsigned16(x))
  }
  function E32(x: U32): (r: Bytes)
    ensures |r| == 4
  {
    [x % 0x100, (x / 0x100) % 0x100, (x / 0x100 / 0x100) % 0x100, x / 0x100 / 0x100 / 0x100]
  }
  function EI32(x: I32): (r: Bytes)
    ensures |r| == 4
  {
    E32(Unsigned32(x))
  }
  function EBool(b: bool): (r: Bytes)
    ensures |r| == 1
  {
    if b then [1] else [0]
  }

  /** A u8 flag read as `!= 0`. */
  function BoolFrom(s: Bytes): (r: Result<bool>)
    ensures r.Ok? <==> |s| >= 1
    ensures r.Ok? ==> r.rest == s[1..]
  {
    var b :- U8From(s);
    Ok(b.v != 0, b.rest)
  }
  function Zeros(n: nat): (z: Bytes)
    ensures |z| == n && forall i :: 0 <= i < n ==> z[i] == 0
  {
    seq(n, _ => 0)
  }

  /** Items written one after another, each by `enc`. */
  function Concat<T>(xs: seq<T>, enc: T -> Bytes): Bytes
    decreases |xs|
  {
    if xs == [] then [] else enc(xs[0]) + Concat(xs[1..], enc)
  }

  /** The f32 words of a sequence of floats. */
  function F32sBytes(xs: seq<F32>): (b: Bytes)
    ensures |b| == 4 * |xs|
  {
    ConcatLength(xs, E32, 4);
    Concat(xs, E32)
  }

  /** The optional-id writers: None is written as -1, that is 0xFFFFFFFF. */
  function EOptU32(x: Option<U32>): (r: Bytes)
    ensures |r| == 4
  {
    match x
    case None => E32(0xFFFF_FFFF)
    case Some(v) => E32(v)
  }

  function EOptU16(x: Option<U16>): (r: Bytes)
    ensures |r| == 2
  {
    match x
    case None => E16(0xFFFF)
    case Some(v) => E16(v)
  }

  // ---------------------------------------------------------------------------
  // Laws of the primitive codec

  /** Concatenation regrouped one piece at a time, so that a record's bytes
      followed by a tail can be read field by field. */
  lemma Associate<T>(a: seq<T>, b: seq<T>, t: seq<T>)
    ensures (a + b) + t == a + (b + t)
  {}

  /** A nonempty sequence is its first element followed by the rest. */
  lemma HeadTail<T>(xs: seq<T>)
    requires xs != []
    ensures [xs[0]] + xs[1..] == xs
  {}

  lemma SignedUnsigned8(x: I8)
    ensures Signed8(Unsigned8(x)) == x
  {}

  lemma SignedUnsigned16(x: I16)
    ensures Signed16(Unsigned16(x)) == x
  {}

  lemma SignedUnsigned32(x: I32)
    ensures Signed32(Unsigned32(x)) == x
  {}

  lemma U8Write(x: Byte, t: Bytes)
    ensures U8From(E8(x) + t) == Ok(x, t)
  {
    assert (E8(x) + t)[1..] == t;
  }

  lemma I8Write(x: I8, t: Bytes)
    ensures I8From(EI8(x) + t) == Ok(x, t)
  {
    U8Write(Unsigned8(x), t);
  }

  /** A u8 read back through an i8 slot: the byte's two's-complement reading. */
  lemma I8OfU8Write(x: Byte, t: Bytes)
    ensures I8From(E8(x) + t) == Ok(Signed8(x), t)
  {
    U8Write(x, t);
  }

  lemma U16Write(x: U16, t: Bytes)
    ensures U16From(E16(x) + t) == Ok(x, t)
  {
    assert (E16(x) + t)[2..] == t;
  }

  lemma I16Write(x: I16, t: Bytes)
    ensures I16From(EI16(x) + t) == Ok(x, t)
  {
    U16Write(Unsigned16(x), t);
  }

  lemma U32Write(x: U32, t: Bytes)
    ensures U32From(E32(x) + t) == Ok(x, t)
  {
    var q0 := x / 0x100;
    var q1 := q0 / 0x100;
    assert x == x % 0x100 + 0x100 * q0;
    assert q0 == q0 % 0x100 + 0x100 * q1;
    assert q1 == q1 % 0x100 + 0x100 * (q1 / 0x100);
    assert (E32(x) + t)[4..] == t;
  }

  lemma I32Write(x: I32, t: Bytes)
    ensures I32From(EI32(x) + t) == Ok(x, t)
  {
    U32Write(Unsigned32(x), t);
  }

  /** A u32 below 2^31 reads back unchanged through an i32 slot. */
  lemma I32OfU32Write(x: U32, t: Bytes)
    requires x < 0x8000_0000
    ensures I32From(E32(x) + t) == Ok(x, t)
  {
    U32Write(x, t);
  }

  lemma F32Write(x: F32, t: Bytes)
    ensures F32From(E32(x) + t) == Ok(x, t)
  {
    U32Write(x, t);
  }

  lemma BoolWrite(b: bool, t: Bytes)
    ensures BoolFrom(EBool(b) + t) == Ok(b, t)
  {
    U8Write(if b then 1 else 0, t);
  }

  lemma SkipWrite(z: Bytes, t: Bytes)
    ensures SkipFrom(z + t, |z|) == Ok((), t)
  {
    assert (z + t)[|z|..] == t;
  }

  /** Writing -1 as an i32 emits the all-ones sentinel. */
  lemma MinusOneIsSentinel()
    ensures EI32(-1) == E32(0xFFFF_FFFF)
  {}

  /** The 32-bit sentinel law: None and 0xFFFFFFFF correspond in both directions. */
  lemma OptU32Write(x: Option<U32>, t: Bytes)
    requires x != Some(0xFFFF_FFFF)
    ensures OptU32From(EOptU32(x) + t) == Ok(x, t)
    ensures x.None? <==> EOptU32(x) == [0xFF, 0xFF, 0xFF, 0xFF]
  {
    match x
    case None => U32Write(0xFFFF_FFFF, t);
    case Some(v) => U32Write(v, t);
  }

  /** The 16-bit sentinel law. */
  lemma OptU16Write(x: Option<U16>, t: Bytes)
    requires x != Some(0xFFFF)
    ensures OptU16From(EOptU16(x) + t) == Ok(x, t)
    ensures x.None? <==> EOptU16(x) == [0xFF, 0xFF]
  {
    match x
    case None => U16Write(0xFFFF, t);
    case Some(v) => U16Write(v, t);
  }

  /** Decoding a sentinel pattern always yields None, whatever follows. */
  lemma SentinelReadsNone(t: Bytes)
    ensures OptU32From([0xFF, 0xFF, 0xFF, 0xFF] + t) == Ok(None, t)
    ensures OptU16From([0xFF, 0xFF] + t) == Ok(None, t)
  {
    assert ([0xFF, 0xFF, 0xFF, 0xFF] + t)[4..] == t;
    assert ([0xFF, 0xFF] + t)[2..] == t;
  }

  /** Many items of a reader that always takes k bytes take n * k bytes. */
  lemma {:induction false} ManyConsumes<T>(s: Bytes, n: nat, item: Bytes -> Result<T>, k: nat)
    requires forall t: Bytes :: item(t).Ok? ==> k <= |t| && item(t).rest == t[k..]
    ensures Many(s, n, item).Ok? ==> n * k <= |s| && Many(s, n, item).rest == s[n * k..]
    decreases n
  {
    if n > 0 && item(s).Ok? {
      var x := item(s);
      ManyConsumes(x.rest, n - 1, item, k);
      var r := Many(x.rest, n - 1, item);
      if r.Ok? {
        var m := (n - 1) * k;
        assert n * k == k + m by {
          MulSucc(n - 1, k);
        }
        assert Many(s, n, item).rest == r.rest;
        assert r.rest == x.rest[m..] && x.rest == s[k..];
        assert s[k..][m..] == s[k + m..];
      }
    }
  }

  /** Many items of a reader that fails only on fewer than k bytes, and then
      always takes k, succeed exactly when n * k bytes remain. */
  lemma {:induction false} ManyExact<T>(s: Bytes, n: nat, item: Bytes -> Result<T>, k: nat)
    requires forall t: Bytes :: item(t).Ok? <==> k <= |t|
    requires forall t: Bytes :: item(t).Ok? ==> k <= |t| && item(t).rest == t[k..]
    ensures Many(s, n, item).Ok? <==> n * k <= |s|
    ensures Many(s, n, item).Ok? ==> Many(s, n, item).rest == s[n * k..]
    decreases n
  {
    ManyConsumes(s, n, item, k);
    if n > 0 {
      MulSucc(n - 1, k);
      if k <= |s| {
        ManyExact(item(s).rest, n - 1, item, k);
      }
    }
  }

  /** For a record that always takes k bytes, fails only when cut short and
      depends on nothing past its k bytes, reading n records one at a time
      reads what taking the whole run at once reads. */
  lemma {:induction false} ManyFixed<T>(s: Bytes, n: nat, item: Bytes -> Result<T>, k: nat)
    requires k > 0
    requires forall t: Bytes :: item(t).Ok? <==> k <= |t|
    requires forall t: Bytes :: item(t).Fail? ==> item(t).error == Truncated
    requires forall t: Bytes :: item(t).Ok? ==> k <= |t| && item(t).rest == t[k..]
    requires forall t: Bytes, m: nat {:trigger item(t[..m])} ::
               k <= m <= |t| ==> item(t[..m]).value == item(t).value
    ensures Many(s, n, item) == FixedFrom(s, n, item, k)
    decreases n
  {
    if n == 0 {
      assert s[0..] == s;
    } else if |s| < k {
      MulSucc(n - 1, k);
    } else {
      ManyFixed(s[k..], n - 1, item, k);
      FixedStep(s, n, item, k);
    }
  }

  /** Taking a run of n fixed-size records at once, split after the first. */
  lemma FixedStep<T>(s: Bytes, n: nat, item: Bytes -> Result<T>, k: nat)
    requires k > 0 && n > 0 && k <= |s|
    requires forall t: Bytes :: item(t).Ok? <==> k <= |t|
    requires forall t: Bytes, m: nat {:trigger item(t[..m])} ::
               k <= m <= |t| ==> item(t[..m]).value == item(t).value
    ensures FixedFrom(s, n, item, k) == Prefixed([item(s).value], FixedFrom(s[k..], n - 1, item, k))
  {
    var a := (n - 1) * k;
    assert n * k == k + a by { MulSucc(n - 1, k); }
    if |s| >= k + a {
      ChunksStep(s, n, item, k);
      assert s[k..][a..] == s[k + a..];
    }
  }

  /** A run of n whole records decodes to n records. */
  lemma {:induction false} ChunksLength<T>(b: Bytes, n: nat, item: Bytes -> Result<T>, k: nat)
    requires k > 0 && |b| == n * k
    requires forall t: Bytes :: item(t).Ok? <==> k <= |t|
    ensures |ChunksOf(b, k, item)| == n
    decreases n
  {
    if n > 0 {
      MulSucc(n - 1, k);
      ChunksLength(b[k..], n - 1, item, k);
    }
  }

  /** The first record of an n-record run, for a record as in `ManyFixed`. */
  lemma ChunksStep<T>(s: Bytes, n: nat, item: Bytes -> Result<T>, k: nat)
    requires k > 0 && n > 0 && n * k <= |s|
    requires forall t: Bytes :: item(t).Ok? <==> k <= |t|
    requires forall t: Bytes, m: nat {:trigger item(t[..m])} ::
               k <= m <= |t| ==> item(t[..m]).value == item(t).value
    ensures ChunksOf(s[..n * k], k, item)
            == [item(s).value] + ChunksOf(s[k..][..(n - 1) * k], k, item)
  {
    MulSucc(n - 1, k);
    var b := s[..n * k];
    assert b[k..] == s[k..][..(n - 1) * k];
    assert item(b).value == item(s).value;
  }

  /** Reading n u32 words one at a time reads what the whole-buffer reader
      reads, and fails where it fails. */
  lemma {:induction false} ManyU32s(s: Bytes, n: nat)
    ensures Many(s, n, U32From) == U32sFrom(s, n)
    decreases n
  {
    if n > 0 && |s| >= 4 {
      ManyU32s(s[4..], n - 1);
      if |s| >= 4 * n {
        assert s[..4 * n][4..] == s[4..][..4 * (n - 1)];
        assert s[4..][4 * (n - 1)..] == s[4 * n..];
        assert s[..4 * n][..4] == s[..4];
      }
    }
  }

  /** The same for i32 words. */
  lemma {:induction false} ManyI32s(s: Bytes, n: nat)
    ensures Many(s, n, I32From) == I32sFrom(s, n)
    decreases n
  {
    if n > 0 && |s| >= 4 {
      ManyI32s(s[4..], n - 1);
      if |s| >= 4 * n {
        assert s[..4 * n][4..] == s[4..][..4 * (n - 1)];
        assert s[4..][4 * (n - 1)..] == s[4 * n..];
        assert s[..4 * n][..4] == s[..4];
      }
    }
  }

  /** The same for i8 values. */
  lemma {:induction false} ManyI8s(s: Bytes, n: nat)
    ensures Many(s, n, I8From) == I8sFrom(s, n)
    decreases n
  {
    if n > 0 && |s| >= 1 {
      ManyI8s(s[1..], n - 1);
      if |s| >= n {
        assert s[..n][1..] == s[1..][..n - 1];
        assert s[1..][n - 1..] == s[n..];
      }
    }
  }

  /** A counted repetition of a k-byte item takes 4 + n * k bytes. */
  lemma CountedConsumes<T>(s: Bytes, item: Bytes -> Result<T>, k: nat)
    requires forall t: Bytes :: item(t).Ok? ==> k <= |t| && item(t).rest == t[k..]
    ensures Counted(s, item).Ok? ==>
              var n := U32From(s).value;
              4 + n * k <= |s| && Counted(s, item).rest == s[4 + n * k..]
  {
    if U32From(s).Ok? {
      var n := U32From(s).value;
      ManyConsumes(s[4..], n, item, k);
      if Counted(s, item).Ok? {
        assert s[4..][n * k..] == s[4 + n * k..];
      }
    }
  }

  /** Every item of a repetition has a property that every decoded item has. */
  lemma {:induction false} ManyEach<T>(s: Bytes, n: nat, item: Bytes -> Result<T>, p: T -> bool)
    requires forall t: Bytes :: item(t).Ok? ==> p(item(t).value)
    ensures Many(s, n, item).Ok? ==> forall x :: x in Many(s, n, item).value ==> p(x)
    decreases n
  {
    if n > 0 && item(s).Ok? {
      ManyEach(item(s).rest, n - 1, item, p);
    }
  }

  lemma MulSucc(a: nat, k: nat)
    ensures (a + 1) * k == k + a * k
  {}

  /** Peeling one decoded item off the front of a repetition. */
  lemma ManyStep<T>(xs: seq<T>, s: Bytes, m: nat, item: Bytes -> Result<T>)
    requires m > 0 && item(s).Ok?
    ensures Prefixed(xs, Many(s, m, item))
         == Prefixed(xs + [item(s).value], Many(item(s).rest, m - 1, item))
  {
    var x := item(s);
    match Many(x.rest, m - 1, item)
    case Ok(ys, t) =>
      assert xs + ([x.value] + ys) == (xs + [x.value]) + ys;
    case Fail(e) =>
  }

  /** An empty prefix changes nothing. */
  lemma PrefixedNone<T>(r: Result<seq<T>>)
    ensures Prefixed([], r) == r
  {
    if r.Ok? {
      assert [] + r.value == r.value;
    }
  }

  /** Prepending to a prepended decode. */
  lemma PrefixedTwice<T>(xs: seq<T>, ys: seq<T>, r: Result<seq<T>>)
    ensures Prefixed(xs, Prefixed(ys, r)) == Prefixed(xs + ys, r)
  {
    if r.Ok? {
      assert xs + (ys + r.value) == (xs + ys) + r.value;
    }
  }

  /** Appending one item to a concatenation. */
  lemma {:induction false} ConcatSnoc<T>(xs: seq<T>, x: T, enc: T -> Bytes)
    ensures Concat(xs + [x], enc) == Concat(xs, enc) + enc(x)
    decreases |xs|
  {
    if xs == [] {
      assert xs + [x] == [x];
      assert [x][1..] == [];
    } else {
      assert (xs + [x])[1..] == xs[1..] + [x];
      ConcatSnoc(xs[1..], x, enc);
    }
  }

  /** Items of a fixed encoded width k take k bytes each. */
  lemma {:induction false} ConcatLength<T>(xs: seq<T>, enc: T -> Bytes, k: nat)
    requires forall x :: |enc(x)| == k
    ensures |Concat(xs, enc)| == k * |xs|
    decreases |xs|
  {
    if xs != [] {
      ConcatLength(xs[1..], enc, k);
    }
  }

  /** A repetition of a reader reads back the concatenation of its writer. */
  lemma {:induction false} ManyRoundTrip<T>(xs: seq<T>, enc: T -> Bytes, item: Bytes -> Result<T>, t: Bytes)
    requires forall x, u :: item(enc(x) + u) == Ok(x, u)
    ensures Many(Concat(xs, enc) + t, |xs|, item) == Ok(xs, t)
    decreases |xs|
  {
    if xs != [] {
      var tail := Concat(xs[1..], enc) + t;
      assert Concat(xs, enc) + t == enc(xs[0]) + tail;
      assert item(enc(xs[0]) + tail) == Ok(xs[0], tail);
      ManyRoundTrip(xs[1..], enc, item, t);
      assert [xs[0]] + xs[1..] == xs;
    }
  }

  /** Floats written as words read back as words. */
  lemma F32sRoundTrip(xs: seq<F32>, t: Bytes)
    ensures Many(F32sBytes(xs) + t, |xs|, F32From) == Ok(xs, t)
  {
    forall x: F32, u: Bytes ensures F32From(E32(x) + u) == Ok(x, u) {
      F32Write(x, u);
    }
    ManyRoundTrip(xs, E32, F32From, t);
  }

  /** Words written one after another read back as those words. */
  lemma U32sRoundTrip(xs: seq<U32>, t: Bytes)
    ensures Many(Concat(xs, E32) + t, |xs|, U32From) == Ok(xs, t)
    ensures |Concat(xs, E32)| == 4 * |xs|
  {
    forall x: U32, u: Bytes ensures U32From(E32(x) + u) == Ok(x, u) {
      U32Write(x, u);
    }
    ManyRoundTrip(xs, E32, U32From, t);
    ConcatLength(xs, E32, 4);
  }

  /** One step of a repetition: either the next item extends the prefix, or
      the repetition stops with that item's error. */
  lemma ManyNext<T>(xs: seq<T>, s: Bytes, m: nat, item: Bytes -> Result<T>)
    requires m > 0
    ensures item(s).Ok? ==> Prefixed(xs, Many(s, m, item))
                            == Prefixed(xs + [item(s).value], Many(item(s).rest, m - 1, item))
    ensures item(s).Fail? ==> Prefixed(xs, Many(s, m, item)) == Fail(item(s).error)
  {
    if item(s).Ok? {
      ManyStep(xs, s, m, item);
    }
  }

  /** The loop state of a repetition read one item at a time: `done` holds
      the items read so far, `rest` the unread bytes, and resuming the
      remaining reads from there gives the whole repetition. */
  ghost predicate Resumes<T>(s0: Bytes, n: nat, item: Bytes -> Result<T>, done: seq<T>, rest: Bytes)
  {
    |done| <= n && Many(s0, n, item) == Prefixed(done, Many(rest, n - |done|, item))
  }

  lemma ResumesStart<T>(s0: Bytes, n: nat, item: Bytes -> Result<T>)
    ensures Resumes(s0, n, item, [], s0)
  {
    PrefixedNone(Many(s0, n, item));
  }

  lemma ResumesNext<T>(s0: Bytes, n: nat, item: Bytes -> Result<T>, done: seq<T>, rest: Bytes)
    requires |done| < n && Resumes(s0, n, item, done, rest)
    ensures item(rest).Ok? ==> Resumes(s0, n, item, done + [item(rest).value], item(rest).rest)
    ensures item(rest).Fail? ==> Many(s0, n, item) == Fail(item(rest).error)
  {
    ManyNext(done, rest, n - |done|, item);
  }

  lemma ResumesDone<T>(s0: Bytes, n: nat, item: Bytes -> Result<T>, done: seq<T>, rest: Bytes)
    requires |done| == n && Resumes(s0, n, item, done, rest)
    ensures Many(s0, n, item) == Ok(done, rest)
  {
    assert done + [] == done;
  }

  /** An in-place fill of a buffer agrees with a decoded repetition: on success
      the buffer holds the items and the result the remaining bytes, and on
      failure the result carries the repetition's error. */
  ghost predicate Fills<T>(m: Result<seq<T>>, r: Result<()>, contents: seq<T>) {
    match m
    case Ok(v, t) => r == Ok((), t) && contents == v
    case Fail(e) => r == Fail(e)
  }
}

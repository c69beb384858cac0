/** The object-list codec: the ids a command applies to, preceded elsewhere by
    a count whose width depends on the command. A count of 255 or more stands
    for "the same objects as the previous command". */
module ObjectLists {
  import opened Wire
  import opened Streams

  datatype ObjectsList = SameAsLast | List(ids: seq<ObjectId>)

  /** `len`: the number of ids, with `SameAsLast` counting as none. */
  function Len(l: ObjectsList): nat {
    match l
    case SameAsLast => 0
    case List(ids) => |ids|
  }

  predicate IsEmpty(l: ObjectsList) {
    Len(l) == 0
  }

  /** Every id of an explicit list fits the signed 32-bit slot it is read from. */
  predicate IdsFitI32(l: ObjectsList) {
    l.List? ==> forall i :: 0 <= i < |l.ids| ==> l.ids[i] < 0x8000_0000
  }

  /** What a list reads back as: `SameAsLast` is written without ids. */
  function Explicit(l: ObjectsList): ObjectsList {
    match l
    case SameAsLast => List([])
    case List(ids) => l
  }

  /** The 32-bit little-endian word at word index i. */
  function WordAt(s: Bytes, i: nat): U32
    requires 4 * i + 4 <= |s|
  {
    U32From(s[4 * i..]).value
  }

  // ---------------------------------------------------------------------------
  // Decoding

  /** One id: a signed 32-bit value narrowed to an object id. */
  function ObjectIdFrom(s: Bytes): (r: Result<ObjectId>)
    ensures r.Ok? ==> |s| >= 4 && r.rest == s[4..]
  {
    var raw :- I32From(s);
    NarrowObject(raw)
  }

  /** `ObjectsList::read_from` for a count already read by the caller. */
  function ObjectsListFrom(s: Bytes, count: int): Result<ObjectsList> {
    if count < 0xFF then
      var ids :- Many(s, if count < 0 then 0 else count, ObjectIdFrom);
      Ok(List(ids.v), ids.rest)
    else
      Ok(SameAsLast, s)
  }

  /** n ids decode exactly when 4n bytes remain and none of the n words has its
      sign bit set; the ids are those words, and 4n bytes are consumed. */
  lemma {:induction false} IdsDecode(s: Bytes, n: nat)
    ensures Many(s, n, ObjectIdFrom).Ok? <==> IdsReadable(s, n)
    ensures Many(s, n, ObjectIdFrom).Ok? ==>
              Many(s, n, ObjectIdFrom).rest == s[4 * n..] &&
              forall i :: 0 <= i < n ==> Many(s, n, ObjectIdFrom).value[i] == WordAt(s, i)
    decreases n
  {
    if n > 0 && |s| >= 4 {
      var t := s[4..];
      IdsDecode(t, n - 1);
      WordsShift(s, n);
      ReadableStep(s, n);
      assert ObjectIdFrom(s).Ok? <==> WordAt(s, 0) < 0x8000_0000;
      var r := Many(s, n, ObjectIdFrom);
      if r.Ok? {
        var a := 4 * (n - 1);
        assert 4 * n == 4 + a;
        assert s[4 + a..] == t[a..];
        forall i | 0 <= i < n ensures r.value[i] == WordAt(s, i) {
          if i > 0 {
            assert WordAt(s, i) == WordAt(t, i - 1);
          }
        }
      }
    }
  }

  /** n words without their sign bit. */
  ghost predicate IdsReadable(s: Bytes, n: nat) {
    4 * n <= |s| && forall i :: 0 <= i < n ==> WordAt(s, i) < 0x8000_0000
  }

  lemma WordsShift(s: Bytes, n: nat)
    requires |s| >= 4
    ensures forall i :: 0 <= i && 4 * (i + 1) + 4 <= |s| ==> WordAt(s, i + 1) == WordAt(s[4..], i)
  {
    forall i | 0 <= i && 4 * (i + 1) + 4 <= |s|
      ensures WordAt(s, i + 1) == WordAt(s[4..], i)
    {
      assert s[4 * (i + 1)..] == s[4..][4 * i..];
    }
  }

  lemma ReadableStep(s: Bytes, n: nat)
    requires n > 0 && |s| >= 4
    requires forall i :: 0 <= i && 4 * (i + 1) + 4 <= |s| ==> WordAt(s, i + 1) == WordAt(s[4..], i)
    ensures IdsReadable(s, n) <==> WordAt(s, 0) < 0x8000_0000 && IdsReadable(s[4..], n - 1)
  {
    var t := s[4..];
    if WordAt(s, 0) < 0x8000_0000 && IdsReadable(t, n - 1) {
      forall i | 0 <= i < n ensures WordAt(s, i) < 0x8000_0000 {
        if i > 0 {
          assert WordAt(s, i) == WordAt(t, i - 1);
        }
      }
    }
    if IdsReadable(s, n) {
      forall i | 0 <= i < n - 1 ensures WordAt(t, i) < 0x8000_0000 {
        assert WordAt(s, i + 1) == WordAt(t, i);
      }
    }
  }

  /** The count rule: 0..254 gives an explicit list of exactly that many ids
      taken from the next 4·count bytes, 255 and above gives `SameAsLast`
      without reading, and a negative count gives an empty list. */
  lemma ObjectsListByCount(s: Bytes, count: int)
    ensures 0 <= count < 0xFF ==>
              (ObjectsListFrom(s, count).Ok? <==>
                 4 * count <= |s| && forall i :: 0 <= i < count ==> WordAt(s, i) < 0x8000_0000)
    ensures 0 <= count < 0xFF && ObjectsListFrom(s, count).Ok? ==>
              var r := ObjectsListFrom(s, count);
              r.value.List? && |r.value.ids| == count && r.rest == s[4 * count..] &&
              forall i :: 0 <= i < count ==> r.value.ids[i] == WordAt(s, i)
    ensures count >= 0xFF ==> ObjectsListFrom(s, count) == Ok(SameAsLast, s)
    ensures count < 0 ==> ObjectsListFrom(s, count) == Ok(List([]), s)
  {
    if 0 <= count < 0xFF {
      IdsDecode(s, count);
    }
  }

  // ---------------------------------------------------------------------------
  // Encoding

  /** The ids of a list as consecutive u32 words. */
  function IdsBytes(ids: seq<ObjectId>): Bytes {
    if ids == [] then [] else E32(ids[0]) + IdsBytes(ids[1..])
  }

  /** `ObjectsList::write_to`: the ids only; the caller writes the count. */
  function ObjectsListBytes(l: ObjectsList): (b: Bytes)
    ensures |b| == 4 * Len(l)
  {
    match l
    case SameAsLast => []
    case List(ids) => IdsBytesLength(ids); IdsBytes(ids)
  }

  lemma {:induction false} IdsBytesLength(ids: seq<ObjectId>)
    ensures |IdsBytes(ids)| == 4 * |ids|
  {
    if ids != [] {
      IdsBytesLength(ids[1..]);
    }
  }

  lemma {:induction false} IdsBytesSnoc(ids: seq<ObjectId>, x: ObjectId)
    ensures IdsBytes(ids + [x]) == IdsBytes(ids) + E32(x)
  {
    if ids == [] {
      assert ids + [x] == [x];
      assert [x][1..] == [];
    } else {
      assert (ids + [x])[1..] == ids[1..] + [x];
      IdsBytesSnoc(ids[1..], x);
    }
  }

  /** Ids that fit an i32 read back unchanged, and the reader stops right after them. */
  lemma {:induction false} IdsRoundTrip(ids: seq<ObjectId>, t: Bytes)
    requires forall i :: 0 <= i < |ids| ==> ids[i] < 0x8000_0000
    ensures Many(IdsBytes(ids) + t, |ids|, ObjectIdFrom) == Ok(ids, t)
  {
    if ids != [] {
      var tail := IdsBytes(ids[1..]) + t;
      assert IdsBytes(ids) + t == E32(ids[0]) + tail;
      I32OfU32Write(ids[0], tail);
      IdsRoundTrip(ids[1..], t);
      assert [ids[0]] + ids[1..] == ids;
    }
  }

  /** Writing a list and reading it back with its own `len` as the count gives
      the list back, with `SameAsLast` turned into the empty list it is written as. */
  lemma ObjectsListRoundTrip(l: ObjectsList, t: Bytes)
    requires Len(l) < 0xFF && IdsFitI32(l)
    ensures ObjectsListFrom(ObjectsListBytes(l) + t, Len(l)) == Ok(Explicit(l), t)
  {
    match l
    case SameAsLast =>
      assert [] + t == t;
    case List(ids) =>
      IdsRoundTrip(ids, t);
  }

  /** `is_empty` holds exactly when the list contributes no bytes. */
  lemma EmptyWritesNothing(l: ObjectsList)
    ensures IsEmpty(l) <==> ObjectsListBytes(l) == []
  {
    if l.List? {
      IdsBytesLength(l.ids);
    }
  }

  // ---------------------------------------------------------------------------
  // The stream methods

  /** The reading loop: one id per iteration, pushed onto the list. */
  method ReadObjectsList(c: Cursor, count: int) returns (r: Result<ObjectsList>)
    modifies c
    ensures r == ObjectsListFrom(old(c.rest), count)
    ensures r.Ok? ==> c.rest == r.rest
  {
    if count < 0xFF {
      var n: nat := if count < 0 then 0 else count;
      ghost var s0 := c.rest;
      var list: seq<ObjectId> := [];
      var i := 0;
      PrefixedNone(Many(s0, n, ObjectIdFrom));
      while i < n
        invariant 0 <= i <= n && |list| == i
        invariant Many(s0, n, ObjectIdFrom) == Prefixed(list, Many(c.rest, n - i, ObjectIdFrom))
      {
        ManyNext(list, c.rest, n - i, ObjectIdFrom);
        var raw :- c.ReadI32();
        var id :- NarrowObject(raw);
        list := list + [id.v];
        i := i + 1;
      }
      assert list + [] == list;
      r := Ok(List(list), c.rest);
    } else {
      r := Ok(SameAsLast, c.rest);
    }
  }

  /** The writing loop: one u32 per id; nothing for `SameAsLast`. */
  method WriteObjectsList(o: Sink, l: ObjectsList)
    modifies o
    ensures o.out == old(o.out) + ObjectsListBytes(l)
  {
    if l.List? {
      var i := 0;
      while i < |l.ids|
        invariant 0 <= i <= |l.ids|
        invariant o.out == old(o.out) + IdsBytes(l.ids[..i])
      {
        IdsBytesSnoc(l.ids[..i], l.ids[i]);
        assert l.ids[..i + 1] == l.ids[..i] + [l.ids[i]];
        o.WriteU32(l.ids[i]);
        i := i + 1;
      }
      assert l.ids[..i] == l.ids;
    } else {
      assert ObjectsListBytes(l) == [] && o.out == o.out + [];
    }
  }
}

/** The sprite list a static unit may carry: nodes introduced by a u8 type
    byte, where 0 ends the list and 2 means an animation record follows the
    node's fixed fields. */
module Sprites {
  import opened Wire
  import opened Streams

  datatype SpriteNodeAnimation = SpriteNodeAnimation(
    animateInterval: U32, animateLast: U32, lastFrame: U16, frameChanged: Byte,
    frameLooped: Byte, animateFlag: Byte, lastSpeed: F32)

  datatype SpriteNode = SpriteNode(
    id: SpriteId, x: U32, y: U32, frame: U16, invisible: bool,
    animation: Option<SpriteNodeAnimation>, order: Byte, flag: Byte, count: Byte)

  // ---------------------------------------------------------------------------
  // Decoding

  function AnimationFrom(s: Bytes): (r: Result<SpriteNodeAnimation>)
    ensures r.Ok? <==> |s| >= 17
    ensures r.Ok? ==> r.rest == s[17..]
  {
    var interval :- U32From(s);
    var last :- U32From(interval.rest);
    var frame :- U16From(last.rest);
    var changed :- U8From(frame.rest);
    var looped :- U8From(changed.rest);
    var flag :- U8From(looped.rest);
    var speed :- F32From(flag.rest);
    Ok(SpriteNodeAnimation(interval.v, last.v, frame.v, changed.v, looped.v, flag.v, speed.v),
       speed.rest)
  }

  /** The fields of a node before its optional animation. */
  function NodeHeadFrom(s: Bytes): (r: Result<(SpriteId, U32, U32, U16, bool)>)
    ensures r.Ok? <==> |s| >= 13
    ensures r.Ok? ==> r.rest == s[13..]
  {
    var id :- U16From(s);
    var x :- U32From(id.rest);
    var y :- U32From(x.rest);
    var frame :- U16From(y.rest);
    var invisible :- BoolFrom(frame.rest);
    Ok((id.v, x.v, y.v, frame.v, invisible.v), invisible.rest)
  }

  /** The animation, read only under type 2. */
  function NodeAnimationFrom(s: Bytes, ty: Byte): (r: Result<Option<SpriteNodeAnimation>>)
    ensures r.Ok? ==> (r.value.Some? <==> ty == 2)
    ensures r.Ok? ==> |r.rest| <= |s|
  {
    if ty == 2 then
      var a := AnimationFrom(s);
      if a.Ok? then Ok(Some(a.value), a.rest) else Fail(a.error)
    else Ok(None, s)
  }

  /** The order, flag and count bytes that close a node. */
  function NodeTailFrom(s: Bytes): (r: Result<(Byte, Byte, Byte)>)
    ensures r.Ok? <==> |s| >= 3
    ensures r.Ok? ==> r.rest == s[3..]
  {
    var order :- U8From(s);
    var flag :- U8From(order.rest);
    var count :- U8From(flag.rest);
    Ok((order.v, flag.v, count.v), count.rest)
  }

  /** A node after its nonzero type byte. */
  function NodeBodyFrom(s: Bytes, ty: Byte): (r: Result<SpriteNode>)
    ensures r.Ok? ==> |r.rest| < |s|
    ensures r.Ok? ==> (r.value.animation.Some? <==> ty == 2)
  {
    var head :- NodeHeadFrom(s);
    var animation :- NodeAnimationFrom(head.rest, ty);
    var tail :- NodeTailFrom(animation.rest);
    var (id, x, y, frame, invisible) := head.v;
    var (order, flag, count) := tail.v;
    Ok(SpriteNode(id, x, y, frame, invisible, animation.v, order, flag, count), tail.rest)
  }

  /** `SpriteNode::read_from`: type 0 yields no node and consumes only the
      type byte. */
  function SpriteNodeFrom(s: Bytes): (r: Result<Option<SpriteNode>>)
    ensures r.Ok? ==> |r.rest| < |s|
    ensures r.Ok? ==> (r.value.None? <==> s[0] == 0)
    ensures r.Ok? && r.value.Some? ==> (r.value.value.animation.Some? <==> s[0] == 2)
  {
    var ty := U8From(s);
    if ty.Fail? then Fail(ty.error)
    else if ty.value == 0 then Ok(None, ty.rest)
    else
      var node := NodeBodyFrom(ty.rest, ty.value);
      if node.Fail? then Fail(node.error) else Ok(Some(node.value), node.rest)
  }

  /** `SpriteList::read_from`: nodes until the first type 0. */
  function SpriteListFrom(s: Bytes): (r: Result<seq<SpriteNode>>)
    ensures r.Ok? ==> |r.rest| < |s|
    decreases |s|
  {
    var node := SpriteNodeFrom(s);
    if node.Fail? then Fail(node.error)
    else if node.value.None? then Ok([], node.rest)
    else
      var more := SpriteListFrom(node.rest);
      if more.Fail? then Fail(more.error)
      else Ok([node.value.value] + more.value, more.rest)
  }

  // ---------------------------------------------------------------------------
  // Encoding

  function AnimationBytes(a: SpriteNodeAnimation): (b: Bytes)
    ensures |b| == 17
  {
    E32(a.animateInterval) + E32(a.animateLast) + E16(a.lastFrame) + E8(a.frameChanged)
      + E8(a.frameLooped) + E8(a.animateFlag) + E32(a.lastSpeed)
  }

  /** The type byte the writer chooses: 2 exactly when an animation follows. */
  function NodeType(n: SpriteNode): Byte {
    if n.animation.Some? then 2 else 1
  }

  function NodeHeadBytes(n: SpriteNode): (b: Bytes)
    ensures |b| == 13
  {
    E16(n.id) + E32(n.x) + E32(n.y) + E16(n.frame) + EBool(n.invisible)
  }

  function NodeAnimationBytes(n: SpriteNode): Bytes {
    match n.animation
    case None => []
    case Some(a) => AnimationBytes(a)
  }

  function NodeTailBytes(n: SpriteNode): (b: Bytes)
    ensures |b| == 3
  {
    E8(n.order) + E8(n.flag) + E8(n.count)
  }

  function NodeBodyBytes(n: SpriteNode): Bytes {
    NodeHeadBytes(n) + NodeAnimationBytes(n) + NodeTailBytes(n)
  }

  /** `SpriteNode::write_to`. */
  function SpriteNodeBytes(n: SpriteNode): Bytes {
    E8(NodeType(n)) + NodeBodyBytes(n)
  }

  /** `SpriteList::write_to`: every node, then a 0 type byte. */
  function SpriteListBytes(sprites: seq<SpriteNode>): Bytes {
    Concat(sprites, SpriteNodeBytes) + E8(0)
  }

  // ---------------------------------------------------------------------------
  // Laws

  lemma AnimationRoundTrip(a: SpriteNodeAnimation, t: Bytes)
    ensures AnimationFrom(AnimationBytes(a) + t) == Ok(a, t)
  {
    var t6 := E32(a.lastSpeed) + t;
    var t5 := E8(a.animateFlag) + t6;
    var t4 := E8(a.frameLooped) + t5;
    var t3 := E8(a.frameChanged) + t4;
    var t2 := E16(a.lastFrame) + t3;
    var t1 := E32(a.animateLast) + t2;
    assert AnimationBytes(a) + t == E32(a.animateInterval) + t1 by {
      var p1 := E32(a.animateInterval);
      var p2 := p1 + E32(a.animateLast);
      var p3 := p2 + E16(a.lastFrame);
      var p4 := p3 + E8(a.frameChanged);
      var p5 := p4 + E8(a.frameLooped);
      var p6 := p5 + E8(a.animateFlag);
      assert AnimationBytes(a) == p6 + E32(a.lastSpeed);
      Associate(p6, E32(a.lastSpeed), t);
      Associate(p5, E8(a.animateFlag), t6);
      Associate(p4, E8(a.frameLooped), t5);
      Associate(p3, E8(a.frameChanged), t4);
      Associate(p2, E16(a.lastFrame), t3);
      Associate(p1, E32(a.animateLast), t2);
    }
    U32Write(a.animateInterval, t1);
    U32Write(a.animateLast, t2);
    U16Write(a.lastFrame, t3);
    U8Write(a.frameChanged, t4);
    U8Write(a.frameLooped, t5);
    U8Write(a.animateFlag, t6);
    F32Write(a.lastSpeed, t);
  }

  lemma NodeHeadRoundTrip(n: SpriteNode, t: Bytes)
    ensures NodeHeadFrom(NodeHeadBytes(n) + t) == Ok((n.id, n.x, n.y, n.frame, n.invisible), t)
  {
    var t4 := EBool(n.invisible) + t;
    var t3 := E16(n.frame) + t4;
    var t2 := E32(n.y) + t3;
    var t1 := E32(n.x) + t2;
    assert NodeHeadBytes(n) + t == E16(n.id) + t1 by {
      var p1 := E16(n.id);
      var p2 := p1 + E32(n.x);
      var p3 := p2 + E32(n.y);
      var p4 := p3 + E16(n.frame);
      assert NodeHeadBytes(n) == p4 + EBool(n.invisible);
      Associate(p4, EBool(n.invisible), t);
      Associate(p3, E16(n.frame), t4);
      Associate(p2, E32(n.y), t3);
      Associate(p1, E32(n.x), t2);
    }
    U16Write(n.id, t1);
    U32Write(n.x, t2);
    U32Write(n.y, t3);
    U16Write(n.frame, t4);
    BoolWrite(n.invisible, t);
  }

  /** The written type byte is 2 exactly when the node has an animation, and
      never 0, so a written node never reads as the end of a list. */
  lemma NodeTypeChoice(n: SpriteNode)
    ensures SpriteNodeBytes(n)[0] == NodeType(n) && NodeType(n) != 0
    ensures NodeType(n) == 2 <==> n.animation.Some?
  {}

  lemma NodeTailRoundTrip(n: SpriteNode, t: Bytes)
    ensures NodeTailFrom(NodeTailBytes(n) + t) == Ok((n.order, n.flag, n.count), t)
  {
    var t2 := E8(n.count) + t;
    var t1 := E8(n.flag) + t2;
    assert NodeTailBytes(n) + t == E8(n.order) + t1 by {
      Associate(E8(n.order) + E8(n.flag), E8(n.count), t);
      Associate(E8(n.order), E8(n.flag), t2);
    }
    U8Write(n.order, t1);
    U8Write(n.flag, t2);
    U8Write(n.count, t);
  }

  lemma NodeBodyRoundTrip(n: SpriteNode, t: Bytes)
    ensures NodeBodyFrom(NodeBodyBytes(n) + t, NodeType(n)) == Ok(n, t)
  {
    var t2 := NodeTailBytes(n) + t;
    var t1 := NodeAnimationBytes(n) + t2;
    assert NodeBodyBytes(n) + t == NodeHeadBytes(n) + t1 by {
      Associate(NodeHeadBytes(n) + NodeAnimationBytes(n), NodeTailBytes(n), t);
      Associate(NodeHeadBytes(n), NodeAnimationBytes(n), t2);
    }
    NodeHeadRoundTrip(n, t1);
    NodeAnimationRoundTrip(n, t2);
    NodeTailRoundTrip(n, t);
  }

  lemma NodeAnimationRoundTrip(n: SpriteNode, t: Bytes)
    ensures NodeAnimationFrom(NodeAnimationBytes(n) + t, NodeType(n)) == Ok(n.animation, t)
  {
    if n.animation.Some? {
      AnimationRoundTrip(n.animation.value, t);
    } else {
      assert NodeAnimationBytes(n) + t == t;
    }
  }

  /** `read_from(write_to(n)) == Some(n)`. */
  lemma SpriteNodeRoundTrip(n: SpriteNode, t: Bytes)
    ensures SpriteNodeFrom(SpriteNodeBytes(n) + t) == Ok(Some(n), t)
  {
    Associate(E8(NodeType(n)), NodeBodyBytes(n), t);
    U8Write(NodeType(n), NodeBodyBytes(n) + t);
    NodeBodyRoundTrip(n, t);
  }

  /** A list stops at the first type 0 and takes that byte. */
  lemma SpriteListStops(t: Bytes)
    ensures SpriteListFrom(E8(0) + t) == Ok([], t)
  {
    U8Write(0, t);
  }

  /** Lists written by `SpriteList::write_to` read back. */
  lemma {:induction false} SpriteListRoundTrip(sprites: seq<SpriteNode>, t: Bytes)
    ensures SpriteListFrom(SpriteListBytes(sprites) + t) == Ok(sprites, t)
    decreases |sprites|
  {
    if sprites == [] {
      assert SpriteListBytes(sprites) == E8(0);
      SpriteListStops(t);
    } else {
      var n := sprites[0];
      var more := SpriteListBytes(sprites[1..]) + t;
      assert SpriteListBytes(sprites) + t == SpriteNodeBytes(n) + more by {
        Associate(SpriteNodeBytes(n), Concat(sprites[1..], SpriteNodeBytes), E8(0));
        Associate(SpriteNodeBytes(n), SpriteListBytes(sprites[1..]), t);
      }
      SpriteNodeRoundTrip(n, more);
      SpriteListRoundTrip(sprites[1..], t);
      HeadTail(sprites);
    }
  }

  /** One step of the list: a node is followed by the rest of the list. */
  lemma SpriteListStep(s: Bytes)
    requires SpriteNodeFrom(s).Ok? && SpriteNodeFrom(s).value.Some?
    ensures var n := SpriteNodeFrom(s);
            SpriteListFrom(s) == Prefixed([n.value.value], SpriteListFrom(n.rest))
  {}

  // ---------------------------------------------------------------------------
  // The reader and the writers on a cursor and a sink

  /** `SpriteNodeAnimation::read_from`. */
  method ReadAnimation(c: Cursor) returns (r: Result<SpriteNodeAnimation>)
    modifies c
    ensures r == AnimationFrom(old(c.rest))
    ensures r.Ok? ==> c.rest == r.rest
  {
    var interval :- c.ReadU32();
    var last :- c.ReadU32();
    var frame :- c.ReadU16();
    var changed :- c.ReadU8();
    var looped :- c.ReadU8();
    var flag :- c.ReadU8();
    var speed :- c.ReadF32();
    r := Ok(SpriteNodeAnimation(interval.v, last.v, frame.v, changed.v, looped.v, flag.v, speed.v),
            c.rest);
  }

  /** `SpriteNode::read_from`: the type byte, the fixed fields, the animation
      when the type is 2, and the three closing bytes. */
  method ReadSpriteNode(c: Cursor) returns (r: Result<Option<SpriteNode>>)
    modifies c
    ensures r == SpriteNodeFrom(old(c.rest))
    ensures r.Ok? ==> c.rest == r.rest
  {
    var ty :- c.ReadU8();
    if ty.v == 0 {
      return Ok(None, c.rest);
    }
    var id :- c.ReadU16();
    var x :- c.ReadU32();
    var y :- c.ReadU32();
    var frame :- c.ReadU16();
    var invisible :- c.ReadU8();
    var animation: Option<SpriteNodeAnimation> := None;
    if ty.v == 2 {
      var a :- ReadAnimation(c);
      animation := Some(a.v);
    }
    var order :- c.ReadU8();
    var flag :- c.ReadU8();
    var count :- c.ReadU8();
    r := Ok(Some(SpriteNode(id.v, x.v, y.v, frame.v, invisible.v != 0, animation,
                            order.v, flag.v, count.v)),
            c.rest);
  }

  /** `SpriteList::read_from`: the `while let Some(node)` loop. */
  method ReadSpriteList(c: Cursor) returns (r: Result<seq<SpriteNode>>)
    modifies c
    ensures r == SpriteListFrom(old(c.rest))
    ensures r.Ok? ==> c.rest == r.rest
  {
    var sprites := [];
    ghost var s0 := c.rest;
    PrefixedNone(SpriteListFrom(s0));
    while true
      invariant SpriteListFrom(s0) == Prefixed(sprites, SpriteListFrom(c.rest))
      decreases |c.rest|
    {
      ghost var here := c.rest;
      var node := ReadSpriteNode(c);
      if node.Fail? {
        return Fail(node.error);
      }
      if node.value.None? {
        assert sprites + [] == sprites;
        return Ok(sprites, c.rest);
      }
      SpriteListStep(here);
      PrefixedTwice(sprites, [node.value.value], SpriteListFrom(c.rest));
      sprites := sprites + [node.value.value];
    }
  }

  method WriteAnimation(o: Sink, a: SpriteNodeAnimation)
    modifies o
    ensures o.out == old(o.out) + AnimationBytes(a)
  {
    o.WriteU32(a.animateInterval);
    o.WriteU32(a.animateLast);
    o.WriteU16(a.lastFrame);
    o.WriteU8(a.frameChanged);
    o.WriteU8(a.frameLooped);
    o.WriteU8(a.animateFlag);
    o.WriteF32(a.lastSpeed);
  }

  /** `SpriteNode::write_to`. */
  method WriteSpriteNode(o: Sink, n: SpriteNode)
    modifies o
    ensures o.out == old(o.out) + SpriteNodeBytes(n)
  {
    o.WriteU8(if n.animation.Some? then 2 else 1);
    ghost var p1 := o.out;
    WriteNodeHead(o, n);
    ghost var p2 := o.out;
    if n.animation.Some? {
      WriteAnimation(o, n.animation.value);
    }
    assert o.out == p2 + NodeAnimationBytes(n);
    ghost var p3 := o.out;
    o.WriteU8(n.order);
    o.WriteU8(n.flag);
    o.WriteU8(n.count);
    assert o.out == p3 + NodeTailBytes(n);
    Associate(p1, NodeHeadBytes(n), NodeAnimationBytes(n));
    Associate(p1, NodeHeadBytes(n) + NodeAnimationBytes(n), NodeTailBytes(n));
    Associate(old(o.out), E8(NodeType(n)), NodeBodyBytes(n));
  }

  /** The fixed fields after the type byte. */
  method WriteNodeHead(o: Sink, n: SpriteNode)
    modifies o
    ensures o.out == old(o.out) + NodeHeadBytes(n)
  {
    o.WriteU16(n.id);
    o.WriteU32(n.x);
    o.WriteU32(n.y);
    o.WriteU16(n.frame);
    o.WriteU8(if n.invisible then 1 else 0);
  }

  /** `SpriteList::write_to`: the loop over the nodes, then the 0 byte. */
  method WriteSpriteList(o: Sink, sprites: seq<SpriteNode>)
    modifies o
    ensures o.out == old(o.out) + SpriteListBytes(sprites)
  {
    ghost var start := o.out;
    for i := 0 to |sprites|
      invariant o.out == start + Concat(sprites[..i], SpriteNodeBytes)
    {
      ghost var written := Concat(sprites[..i], SpriteNodeBytes);
      WriteSpriteNode(o, sprites[i]);
      ConcatSnoc(sprites[..i], sprites[i], SpriteNodeBytes);
      assert sprites[..i + 1] == sprites[..i] + [sprites[i]];
      Associate(start, written, SpriteNodeBytes(sprites[i]));
    }
    assert sprites[..|sprites|] == sprites;
    o.WriteU8(0);
    Associate(start, Concat(sprites, SpriteNodeBytes), E8(0));
  }
}

/** The moving block of a unit: its path records, optional movement data,
    orientation, user-defined waypoints and substitute position. */
module UnitMotion {
  import opened Wire
  import opened Streams
  import opened UnitActions
  import opened UnitStatic

  datatype PathData = PathData(
    id: U32, linkedPathType: U32, waypointLevel: U32, pathId: U32, waypoint: U32,
    disableFlags: Option<U32>, enableFlags: Option<U32>,
    state: U32, range: F32, targetId: U32, pauseTime: F32, continueCounter: U32, flags: U32)

  datatype MovementData = MovementData(velocity: Position3, acceleration: Position3)

  datatype MovingUnitAttributes = MovingUnitAttributes(
    trailRemainder: U32, velocity: Position3, angle: F32,
    turnTowardsTime: U32, turnTimer: U32, continueCounter: U32,
    currentTerrainException: (Option<U32>, Option<U32>),
    waitingToMove: Byte, waitDelaysCount: Byte, onGround: Byte,
    pathData: seq<PathData>, futurePathData: Option<PathData>,
    movementData: Option<MovementData>,
    position: Position3, orientationForward: Position3, orientationRight: Position3,
    lastMoveTime: U32, userDefinedWaypoints: seq<Position3>,
    substitutePosition: Option<Position3>, consecutiveSubstituteCount: U32)

  // ---------------------------------------------------------------------------
  // PathData

  /** Id, linked path type, waypoint level, path id and waypoint. */
  function PathHeadFrom(s: Bytes): (r: Result<(U32, U32, U32, U32, U32)>)
    ensures r.Ok? <==> |s| >= 20
    ensures r.Ok? ==> r.rest == s[20..]
  {
    var id :- U32From(s);
    var linked :- U32From(id.rest);
    var level :- U32From(linked.rest);
    var pathId :- U32From(level.rest);
    var waypoint :- U32From(pathId.rest);
    Ok((id.v, linked.v, level.v, pathId.v, waypoint.v), waypoint.rest)
  }

  /** The width of the flag words: only the disable flags before 10.20,
      both from 10.20 to 10.25, neither from 10.25 on. */
  function FlagsSize(version: Version): nat {
    if version < 1025 then (if version >= 1020 then 8 else 4) else 0
  }

  /** `disable_flags` is read exactly when the version is below 10.25, and
      `enable_flags` exactly when it is from 10.20 up to 10.25. */
  function PathFlagsFrom(s: Bytes, version: Version): (r: Result<(Option<U32>, Option<U32>)>)
    ensures r.Ok? <==> |s| >= FlagsSize(version)
    ensures r.Ok? ==> r.rest == s[FlagsSize(version)..]
    ensures r.Ok? ==> (r.value.0.Some? <==> version < 1025)
    ensures r.Ok? ==> (r.value.1.Some? <==> 1020 <= version < 1025)
  {
    if version < 1025 then
      var disable :- U32From(s);
      if version >= 1020 then
        var enable :- U32From(disable.rest);
        Ok((Some(disable.v), Some(enable.v)), enable.rest)
      else Ok((Some(disable.v), None), disable.rest)
    else Ok((None, None), s)
  }

  /** State, range, target id, pause time, continue counter and flags. */
  function PathTailFrom(s: Bytes): (r: Result<(U32, F32, U32, F32, U32, U32)>)
    ensures r.Ok? <==> |s| >= 24
    ensures r.Ok? ==> r.rest == s[24..]
  {
    var state :- U32From(s);
    var range :- F32From(state.rest);
    var target :- U32From(range.rest);
    var pause :- F32From(target.rest);
    var counter :- U32From(pause.rest);
    var flags :- U32From(counter.rest);
    Ok((state.v, range.v, target.v, pause.v, counter.v, flags.v), flags.rest)
  }

  /** A path record carries `disable_flags` exactly below 10.25 and
      `enable_flags` exactly from 10.20 up to 10.25. */
  predicate FlagsGated(p: PathData, version: Version) {
    && (p.disableFlags.Some? <==> version < 1025)
    && (p.enableFlags.Some? <==> 1020 <= version < 1025)
  }

  /** `PathData::read_from`: 44 bytes and the version-dependent flag words. */
  function PathDataFrom(s: Bytes, version: Version): (r: Result<PathData>)
    ensures r.Ok? ==> FlagsGated(r.value, version)
  {
    var head :- PathHeadFrom(s);
    var flags :- PathFlagsFrom(head.rest, version);
    var tail :- PathTailFrom(flags.rest);
    var (id, linked, level, pathId, waypoint) := head.v;
    var (state, range, target, pause, counter, pathFlags) := tail.v;
    Ok(PathData(id, linked, level, pathId, waypoint, flags.v.0, flags.v.1,
                state, range, target, pause, counter, pathFlags),
       tail.rest)
  }

  /** The path decoder of one version, as an item decoder for a repetition. */
  function PathDataOf(version: Version): Bytes -> Result<PathData> {
    t => PathDataFrom(t, version)
  }

  /** A path record takes 44 bytes and its flag words, whatever they hold. */
  lemma PathDataConsumes(s: Bytes, version: Version)
    ensures PathDataFrom(s, version).Ok? <==> |s| >= 44 + FlagsSize(version)
    ensures PathDataFrom(s, version).Ok? ==>
              PathDataFrom(s, version).rest == s[44 + FlagsSize(version)..]
  {
    var k := FlagsSize(version);
    if |s| >= 20 + k {
      assert s[20..][k..] == s[20 + k..];
      if |s| >= 44 + k {
        assert s[20 + k..][24..] == s[44 + k..];
      }
    }
  }

  // ---------------------------------------------------------------------------
  // MovementData

  function MovementDataFrom(s: Bytes): (r: Result<MovementData>)
    ensures r.Ok? <==> |s| >= 24
    ensures r.Ok? ==> r.rest == s[24..]
  {
    var velocity :- Position3From(s);
    var acceleration :- Position3From(velocity.rest);
    Ok(MovementData(velocity.v, acceleration.v), acceleration.rest)
  }

  /** `MovementData::write_to`. */
  function MovementDataBytes(m: MovementData): (b: Bytes)
    ensures |b| == 24
  {
    Position3Bytes(m.velocity) + Position3Bytes(m.acceleration)
  }

  lemma MovementDataRoundTrip(m: MovementData, t: Bytes)
    ensures MovementDataFrom(MovementDataBytes(m) + t) == Ok(m, t)
  {
    Associate(Position3Bytes(m.velocity), Position3Bytes(m.acceleration), t);
    Position3RoundTrip(m.velocity, Position3Bytes(m.acceleration) + t);
    Position3RoundTrip(m.acceleration, t);
  }

  // ---------------------------------------------------------------------------
  // The moving block

  /** Trail remainder, velocity, angle, turn times and continue counter. */
  function MovingHeadFrom(s: Bytes): (r: Result<(U32, Position3, F32, U32, U32, U32)>)
    ensures r.Ok? <==> |s| >= 32
    ensures r.Ok? ==> r.rest == s[32..]
  {
    var trail :- U32From(s);
    var velocity :- Position3From(trail.rest);
    var angle :- F32From(velocity.rest);
    var turnTowards :- U32From(angle.rest);
    var turnTimer :- U32From(turnTowards.rest);
    var counter :- U32From(turnTimer.rest);
    Ok((trail.v, velocity.v, angle.v, turnTowards.v, turnTimer.v, counter.v), counter.rest)
  }

  /** The two terrain exceptions and the waiting and ground bytes. */
  function MovingGroundFrom(s: Bytes): (r: Result<((Option<U32>, Option<U32>), Byte, Byte, Byte)>)
    ensures r.Ok? <==> |s| >= 11
    ensures r.Ok? ==> r.rest == s[11..]
  {
    var exception0 :- OptU32From(s);
    var exception1 :- OptU32From(exception0.rest);
    var waiting :- U8From(exception1.rest);
    var delays :- U8From(waiting.rest);
    var onGround :- U8From(delays.rest);
    Ok(((exception0.v, exception1.v), waiting.v, delays.v, onGround.v), onGround.rest)
  }

  /** `path_data`: a u32 count, then that many path records. */
  function PathsFrom(s: Bytes, version: Version): (r: Result<seq<PathData>>)
    ensures r.Ok? ==> U32From(s).Ok? && |r.value| == U32From(s).value
    ensures r.Ok? ==> forall p :: p in r.value ==> FlagsGated(p, version)
  {
    var n :- U32From(s);
    ManyEach(n.rest, n.v, PathDataOf(version), p => FlagsGated(p, version));
    Many(n.rest, n.v, PathDataOf(version))
  }

  /** A u32 presence word; the future path follows exactly when it is nonzero. */
  function FuturePathFrom(s: Bytes, version: Version): (r: Result<Option<PathData>>)
    ensures r.Ok? ==> |s| >= 4 && (r.value.Some? <==> U32From(s).value != 0)
    ensures r.Ok? && r.value.Some? ==> FlagsGated(r.value.value, version)
  {
    var present :- U32From(s);
    if present.v != 0 then
      var path :- PathDataFrom(present.rest, version);
      Ok(Some(path.v), path.rest)
    else Ok(None, present.rest)
  }

  /** A u32 presence word; the movement data follows exactly when it is nonzero. */
  function MovementOptFrom(s: Bytes): (r: Result<Option<MovementData>>)
    ensures r.Ok? ==> |s| >= 4 && (r.value.Some? <==> U32From(s).value != 0)
  {
    var present :- U32From(s);
    if present.v != 0 then
      var movement :- MovementDataFrom(present.rest);
      Ok(Some(movement.v), movement.rest)
    else Ok(None, present.rest)
  }

  /** Position, forward and right orientation, last move time. */
  function MovingPoseFrom(s: Bytes): (r: Result<(Position3, Position3, Position3, U32)>)
    ensures r.Ok? <==> |s| >= 40
    ensures r.Ok? ==> r.rest == s[40..]
  {
    var position :- Position3From(s);
    var forward :- Position3From(position.rest);
    var right :- Position3From(forward.rest);
    var time :- U32From(right.rest);
    Ok((position.v, forward.v, right.v, time.v), time.rest)
  }

  /** `i32::max(n, 0)`. */
  function Clamp(n: I32): nat {
    if n < 0 then 0 else n
  }

  /** `user_defined_waypoints`: an i32 count clamped at 0, then that many
      positions. */
  function WaypointsFrom(s: Bytes): (r: Result<seq<Position3>>)
    ensures r.Ok? ==> I32From(s).Ok? && |r.value| == Clamp(I32From(s).value)
  {
    var n :- I32From(s);
    Many(n.rest, Clamp(n.v), Position3From)
  }

  /** Each waypoint takes 12 bytes after the 4-byte count, so a negative
      count takes no more than the count itself. */
  lemma WaypointsConsume(s: Bytes)
    ensures WaypointsFrom(s).Ok? ==>
              var n := Clamp(I32From(s).value);
              4 + n * 12 <= |s| && WaypointsFrom(s).rest == s[4 + n * 12..]
  {
    if I32From(s).Ok? {
      var n := Clamp(I32From(s).value);
      ManyConsumes(s[4..], n, Position3From, 12);
      if WaypointsFrom(s).Ok? {
        assert s[4..][n * 12..] == s[4 + n * 12..];
      }
    }
  }

  /** The substitute position: a u32 presence word and three floats, all
      read whether or not the position is present. */
  function SubstituteFrom(s: Bytes): (r: Result<Option<Position3>>)
    ensures r.Ok? <==> |s| >= 16
    ensures r.Ok? ==> r.rest == s[16..] && (r.value.Some? <==> U32From(s).value != 0)
  {
    var exists_ :- U32From(s);
    var position :- Position3From(exists_.rest);
    Ok(if exists_.v != 0 then Some(position.v) else None, position.rest)
  }

  /** `MovingUnitAttributes::read_from`. */
  function MovingFrom(s: Bytes, version: Version): (r: Result<MovingUnitAttributes>)
    ensures r.Ok? ==> forall p :: p in r.value.pathData ==> FlagsGated(p, version)
    ensures r.Ok? && r.value.futurePathData.Some? ==>
              FlagsGated(r.value.futurePathData.value, version)
  {
    var head :- MovingHeadFrom(s);
    var ground :- MovingGroundFrom(head.rest);
    var paths :- PathsFrom(ground.rest, version);
    var future :- FuturePathFrom(paths.rest, version);
    var movement :- MovementOptFrom(future.rest);
    var pose :- MovingPoseFrom(movement.rest);
    var waypoints :- WaypointsFrom(pose.rest);
    var substitute :- SubstituteFrom(waypoints.rest);
    var count :- U32From(substitute.rest);
    var (trail, velocity, angle, turnTowards, turnTimer, counter) := head.v;
    var (exceptions, waiting, delays, onGround) := ground.v;
    var (position, forward, right, time) := pose.v;
    Ok(MovingUnitAttributes(
         trail, velocity, angle, turnTowards, turnTimer, counter, exceptions,
         waiting, delays, onGround, paths.v, future.v, movement.v,
         position, forward, right, time, waypoints.v, substitute.v, count.v),
       count.rest)
  }

  // ---------------------------------------------------------------------------
  // The readers and the writer on a cursor and a sink

  /** `PathData::read_from`: the struct literal, then the gated flag words. */
  method ReadPathData(c: Cursor, version: Version) returns (r: Result<PathData>)
    modifies c
    ensures r == PathDataFrom(old(c.rest), version)
    ensures r.Ok? ==> c.rest == r.rest
  {
    var head :- c.ReadRecord(PathHeadFrom);
    ghost var atFlags := c.rest;
    var disable: Option<U32> := None;
    var enable: Option<U32> := None;
    if version < 1025 {
      var d :- c.ReadU32();
      disable := Some(d.v);
      if version >= 1020 {
        var e :- c.ReadU32();
        enable := Some(e.v);
      }
    }
    assert PathFlagsFrom(atFlags, version) == Ok((disable, enable), c.rest);
    var tail :- c.ReadRecord(PathTailFrom);
    var (id, linked, level, pathId, waypoint) := head.v;
    var (state, range, target, pause, counter, flags) := tail.v;
    r := Ok(PathData(id, linked, level, pathId, waypoint, disable, enable,
                     state, range, target, pause, counter, flags), c.rest);
  }

  /** `path_data`: the `for _ in 0..num_paths` loop. */
  method ReadPaths(c: Cursor, version: Version) returns (r: Result<seq<PathData>>)
    modifies c
    ensures r == PathsFrom(old(c.rest), version)
    ensures r.Ok? ==> c.rest == r.rest
  {
    var n :- c.ReadU32();
    r := ReadMany(c, n.v, PathDataOf(version));
  }

  method ReadFuturePath(c: Cursor, version: Version) returns (r: Result<Option<PathData>>)
    modifies c
    ensures r == FuturePathFrom(old(c.rest), version)
    ensures r.Ok? ==> c.rest == r.rest
  {
    var present :- c.ReadU32();
    if present.v != 0 {
      var path :- ReadPathData(c, version);
      r := Ok(Some(path.v), c.rest);
    } else {
      r := Ok(None, c.rest);
    }
  }

  method ReadMovementData(c: Cursor) returns (r: Result<MovementData>)
    modifies c
    ensures r == MovementDataFrom(old(c.rest))
    ensures r.Ok? ==> c.rest == r.rest
  {
    var velocity :- c.ReadRecord(Position3From);
    var acceleration :- c.ReadRecord(Position3From);
    r := Ok(MovementData(velocity.v, acceleration.v), c.rest);
  }

  /** `MovementData::write_to`: six floats. */
  method WriteMovementData(o: Sink, m: MovementData)
    modifies o
    ensures o.out == old(o.out) + MovementDataBytes(m)
  {
    o.WriteF32(m.velocity.0);
    o.WriteF32(m.velocity.1);
    o.WriteF32(m.velocity.2);
    o.WriteF32(m.acceleration.0);
    o.WriteF32(m.acceleration.1);
    o.WriteF32(m.acceleration.2);
  }

  /** `user_defined_waypoints`: the clamped count, then a loop pushing three
      floats at a time. */
  method ReadWaypoints(c: Cursor) returns (r: Result<seq<Position3>>)
    modifies c
    ensures r == WaypointsFrom(old(c.rest))
    ensures r.Ok? ==> c.rest == r.rest
  {
    var count :- c.ReadI32();
    var n := if count.v < 0 then 0 else count.v;
    ghost var s1 := c.rest;
    var waypoints: seq<Position3> := [];
    PrefixedNone(Many(s1, n, Position3From));
    for i := 0 to n
      invariant Many(s1, n, Position3From) == Prefixed(waypoints, Many(c.rest, n - i, Position3From))
    {
      ManyNext(waypoints, c.rest, n - i, Position3From);
      ghost var here := c.rest;
      var x :- c.ReadF32();
      var y :- c.ReadF32();
      var z :- c.ReadF32();
      assert Position3From(here) == Ok((x.v, y.v, z.v), c.rest);
      waypoints := waypoints + [(x.v, y.v, z.v)];
    }
    assert waypoints + [] == waypoints;
    r := Ok(waypoints, c.rest);
  }

  /** The substitute position: the presence word and the three floats are
      read before the choice. */
  method ReadSubstitute(c: Cursor) returns (r: Result<Option<Position3>>)
    modifies c
    ensures r == SubstituteFrom(old(c.rest))
    ensures r.Ok? ==> c.rest == r.rest
  {
    var exists_ :- c.ReadU32();
    var x :- c.ReadF32();
    var y :- c.ReadF32();
    var z :- c.ReadF32();
    r := Ok(if exists_.v != 0 then Some((x.v, y.v, z.v)) else None, c.rest);
  }

  /** `MovingUnitAttributes::read_from`. */
  method ReadMoving(c: Cursor, version: Version) returns (r: Result<MovingUnitAttributes>)
    modifies c
    ensures r == MovingFrom(old(c.rest), version)
    ensures r.Ok? ==> c.rest == r.rest
  {
    var head :- c.ReadRecord(MovingHeadFrom);
    var ground :- c.ReadRecord(MovingGroundFrom);
    var paths :- ReadPaths(c, version);
    var future :- ReadFuturePath(c, version);
    var present :- c.ReadU32();
    var movement := None;
    if present.v != 0 {
      var m :- ReadMovementData(c);
      movement := Some(m.v);
    }
    var pose :- c.ReadRecord(MovingPoseFrom);
    var waypoints :- ReadWaypoints(c);
    var substitute :- ReadSubstitute(c);
    var count :- c.ReadU32();
    var (trail, velocity, angle, turnTowards, turnTimer, counter) := head.v;
    var (exceptions, waiting, delays, onGround) := ground.v;
    var (position, forward, right, time) := pose.v;
    r := Ok(MovingUnitAttributes(
              trail, velocity, angle, turnTowards, turnTimer, counter, exceptions,
              waiting, delays, onGround, paths.v, future.v, movement,
              position, forward, right, time, waypoints.v, substitute.v, count.v),
            c.rest);
  }
}

/** The commands the codec only decodes — build, wall, ungarrison, flare and
    unit order — stated by the byte layout they read, their guards and their
    sentinels. */
module DecoderLaws {
  import opened Wire
  import opened ObjectLists
  import opened Commands

  // ---------------------------------------------------------------------------
  // Flags and sentinels

  /** n flag bytes read one at a time: each is set exactly when its byte is
      not zero, and exactly n bytes are taken. */
  lemma {:induction false} FlagsFrom(s: Bytes, n: nat)
    ensures Many(s, n, BoolFrom).Ok? <==> n <= |s|
    ensures Many(s, n, BoolFrom).Ok? ==>
              var r := Many(s, n, BoolFrom);
              && r.rest == s[n..]
              && forall i :: 0 <= i < n ==> r.value[i] == (s[i] != 0)
    decreases n
  {
    if n > 0 && |s| >= 1 {
      FlagsFrom(s[1..], n - 1);
      var r := Many(s, n, BoolFrom);
      if r.Ok? {
        var more := Many(s[1..], n - 1, BoolFrom);
        assert r.value == [s[0] != 0] + more.value;
        assert s[1..][n - 1..] == s[n..];
        forall i | 1 <= i < n
          ensures r.value[i] == (s[i] != 0)
        {
          assert r.value[i] == more.value[i - 1] && s[1..][i - 1] == s[i];
        }
      }
    }
  }

  /** A unit order's parameter is absent exactly for the byte 0xFF (-1 as an
      i8); any other byte comes back unchanged through `as u8`. */
  lemma OptParamRule(b: Byte)
    ensures OptParamOf(Signed8(b)).None? <==> b == 0xFF
    ensures OptParamOf(Signed8(b)).Some? ==> OptParamOf(Signed8(b)).value == b
  {}

  // ---------------------------------------------------------------------------
  // Build

  /** `BuildCommand::read_from`: the count, the player, a pad byte, the
      location, the unit type, two pad bytes, the command's optional unique
      id, the frame and three pad bytes take 23 bytes; the builders follow,
      read as an objects list under the signed count. */
  lemma BuildLayout(s: Bytes)
    ensures BuildFrom(s).Ok? ==> |s| >= 23
    ensures |s| >= 23 ==>
              var builders := ObjectsListFrom(s[23..], Signed8(s[0]));
              && (BuildFrom(s).Ok? <==> builders.Ok?)
              && (BuildFrom(s).Ok? ==>
                    BuildFrom(s).rest == builders.rest
                    && BuildFrom(s).value
                       == BuildCommand(s[1], U16From(s[11..]).value,
                                       (U32From(s[3..]).value, U32From(s[7..]).value), s[19],
                                       builders.value, OptU32From(s[15..]).value))
  {
    if |s| >= 23 {
      assert s[1..][1..][1..] == s[3..];
      assert s[3..][4..][4..] == s[11..];
      assert s[11..][2..][2..] == s[15..];
      assert s[15..][4..] == s[19..];
      assert s[19..][1..][3..] == s[23..];
    }
  }

  // ---------------------------------------------------------------------------
  // Build wall

  /** The builders of a wall under its signed count: -1 is "same as last" and
      reads nothing; a lower count fails; otherwise count i32 ids are read,
      the whole list fails if one of them is negative, except that a single
      -1 id stands for no builders. */
  lemma WallBuildersRule(s: Bytes, count: I8)
    ensures count == -1 ==> WallBuildersFrom(s, count) == Ok(SameAsLast, s)
    ensures count < -1 ==> WallBuildersFrom(s, count) == Fail(OutOfRange)
    ensures count >= 0 && |s| < 4 * count ==> WallBuildersFrom(s, count).Fail?
    ensures count == 1 && |s| >= 4 && I32From(s).value == -1 ==>
              WallBuildersFrom(s, count) == Ok(List([]), s[4..])
    ensures count >= 0 && 4 * count <= |s| && !(count == 1 && I32From(s).value == -1) ==>
              var raw := I32sFrom(s, count).value;
              && (WallBuildersFrom(s, count).Ok? <==> forall i :: 0 <= i < count ==> raw[i] >= 0)
              && (WallBuildersFrom(s, count).Ok? ==>
                    WallBuildersFrom(s, count) == Ok(List(raw), s[4 * count..]))
  {
    if count >= 0 {
      ManyI32s(s, count);
      if count == 1 && |s| >= 4 {
        assert I32sFrom(s, 1).value[0] == I32From(s).value by {
          assert s[..4] == s[..4][..4];
        }
      }
    }
  }

  /** `BuildWallCommand::read_from`: the count, the player, the start and end
      tiles, a pad byte, the unit type and two pad bytes take 11 bytes; a
      u32 that must be 0xFFFFFFFF follows (any other value fails the guard),
      and then the builders. */
  lemma BuildWallLayout(s: Bytes)
    ensures BuildWallFrom(s).Ok? ==> |s| >= 15
    ensures |s| >= 15 && U32From(s[11..]).value != 0xFFFF_FFFF ==>
              BuildWallFrom(s) == Fail(BadGuard)
    ensures |s| >= 15 && U32From(s[11..]).value == 0xFFFF_FFFF ==>
              var builders := WallBuildersFrom(s[15..], Signed8(s[0]));
              && (BuildWallFrom(s).Ok? <==> builders.Ok?)
              && (BuildWallFrom(s).Ok? ==>
                    BuildWallFrom(s).rest == builders.rest
                    && BuildWallFrom(s).value
                       == BuildWallCommand(s[1], (s[2], s[3]), (s[4], s[5]),
                                           U16From(s[7..]).value, builders.value))
  {
    if |s| >= 15 {
      assert s[1..][1..][1..][1..][1..][1..][1..] == s[7..];
      assert s[7..][2..][2..] == s[11..];
    }
  }

  // ---------------------------------------------------------------------------
  // Ungarrison

  /** `UngarrisonCommand::read_from`: the count, two pad bytes, the location,
      the ungarrison type, three pad bytes and the optional unit type take 19
      bytes, and the objects list follows. The location is kept only when
      neither coordinate is -1.0. */
  lemma UngarrisonLayout(fl: Floats, s: Bytes)
    ensures UngarrisonFrom(fl, s).Ok? ==> |s| >= 19
    ensures |s| >= 19 ==>
              var objects := ObjectsListFrom(s[19..], Signed8(s[0]));
              var x := U32From(s[3..]).value;
              var y := U32From(s[7..]).value;
              && (UngarrisonFrom(fl, s).Ok? <==> objects.Ok?)
              && (UngarrisonFrom(fl, s).Ok? ==>
                    var u := UngarrisonFrom(fl, s).value;
                    && UngarrisonFrom(fl, s).rest == objects.rest
                    && u.ungarrisonType == Signed8(s[11])
                    && u.unitTypeId == OptU32From(s[15..]).value
                    && u.objects == objects.value
                    && (u.location.Some? <==> fl.differsFromMinusOne(x) && fl.differsFromMinusOne(y))
                    && (u.location.Some? ==> u.location.value == (x, y)))
  {
    if |s| >= 19 {
      assert s[1..][2..] == s[3..];
      assert s[3..][4..][4..] == s[11..];
      assert s[11..][1..][3..] == s[15..];
      assert s[15..][4..] == s[19..];
    }
  }

  // ---------------------------------------------------------------------------
  // Flare

  /** The part of a flare after its flags: three pad bytes, the location,
      the player, the communicating player and two pad bytes, 15 bytes. */
  lemma FlareTailLayout(recipients: Recipients, t: Bytes)
    ensures FlareTailFrom(recipients, t).Ok? <==> |t| >= 15
    ensures FlareTailFrom(recipients, t).Ok? ==>
              FlareTailFrom(recipients, t)
              == Ok(FlareCommand(t[11], t[12], recipients,
                                 (U32From(t[3..]).value, U32From(t[7..]).value)), t[15..])
  {
    if |t| >= 15 {
      assert t[3..][4..][4..] == t[11..];
      assert t[11..][1..][1..][2..] == t[15..];
    }
  }

  /** `FlareCommand::read_from`: three pad bytes and a unit id that must be
      -1 (any other id fails the guard), nine recipient flags, three pad
      bytes, the location, the player, the communicating player and two pad
      bytes: 31 bytes in all. */
  lemma FlareLayout(s: Bytes)
    ensures |s| >= 7 && I32From(s[3..]).value != -1 ==> FlareFrom(s) == Fail(BadGuard)
    ensures FlareFrom(s).Ok? <==> |s| >= 31 && I32From(s[3..]).value == -1
    ensures FlareFrom(s).Ok? ==>
              var f := FlareFrom(s).value;
              && FlareFrom(s).rest == s[31..]
              && (forall i :: 0 <= i < 9 ==> f.recipients[i] == (s[7 + i] != 0))
              && f.location == (U32From(s[19..]).value, U32From(s[23..]).value)
              && f.playerId == s[27] && f.commPlayerId == s[28]
  {
    if |s| >= 7 && I32From(s[3..]).value == -1 {
      var t := s[7..];
      assert s[3..][4..] == t;
      FlagsFrom(t, 9);
      if |s| >= 16 {
        var flags := Many(t, 9, BoolFrom);
        var u := s[16..];
        assert t[9..] == u;
        FlareTailLayout(flags.value, u);
        if |s| >= 31 {
          assert u[15..] == s[31..];
          assert u[3..] == s[19..] && u[7..] == s[23..];
          assert u[11] == s[27] && u[12] == s[28];
        }
        forall i | 0 <= i < 9
          ensures flags.value[i] == (s[7 + i] != 0)
        {
          assert t[i] == s[7 + i];
        }
      }
    }
  }

  // ---------------------------------------------------------------------------
  // Unit order

  /** `UnitOrderCommand::read_from`: the count, two pad bytes, the optional
      target, the action, the parameter, two pad bytes, the location and the
      optional unique id take 23 bytes, and the objects list follows. The
      parameter byte 0xFF is no parameter, and the location is kept only
      when neither coordinate is -1.0. */
  lemma UnitOrderLayout(fl: Floats, s: Bytes)
    ensures UnitOrderFrom(fl, s).Ok? ==> |s| >= 23
    ensures |s| >= 23 ==>
              var objects := ObjectsListFrom(s[23..], Signed8(s[0]));
              var x := U32From(s[11..]).value;
              var y := U32From(s[15..]).value;
              && (UnitOrderFrom(fl, s).Ok? <==> objects.Ok?)
              && (UnitOrderFrom(fl, s).Ok? ==>
                    var u := UnitOrderFrom(fl, s).value;
                    && UnitOrderFrom(fl, s).rest == objects.rest
                    && u.targetId == OptU32From(s[3..]).value
                    && u.action == Signed8(s[7])
                    && (u.param.None? <==> s[8] == 0xFF)
                    && (u.param.Some? ==> u.param.value == s[8])
                    && u.uniqueId == OptU32From(s[19..]).value
                    && u.objects == objects.value
                    && (u.location.Some? <==> fl.differsFromMinusOne(x) && fl.differsFromMinusOne(y))
                    && (u.location.Some? ==> u.location.value == (x, y)))
  {
    if |s| >= 23 {
      assert s[1..][2..] == s[3..];
      assert s[3..][4..] == s[7..];
      assert s[7..][1..][1..][2..] == s[11..];
      assert s[11..][4..][4..] == s[19..];
      assert s[19..][4..] == s[23..];
      OptParamRule(s[8]);
    }
  }
}

/**
 * The two numeric kernels of the angular frames: the projection of a
 * horizon direction onto the offset plane of a reference direction
 * (`altaz_to_offset`) and its inverse (`offset_to_altaz`). All trigonometry
 * goes through an uninterpreted `Trig.Functions`; angles are radians here
 * unless a unit is attached.
 */
module AngularKernels {
  import opened Trig
  import opened Units

  /** A planar angular offset, radians. */
  datatype Offset = Offset(x: real, y: real)

  /** A horizon direction, radians. */
  datatype Direction = Direction(alt: real, az: real)

  /** A point of the unit sphere in some Cartesian frame. */
  datatype Vector3 = Vector3(x: real, y: real, z: real)

  /**
   * The unit vector of the target (objAz, objAlt) expressed in the axes of
   * the reference direction (az, alt): rotation by the azimuth difference,
   * then about the altitude axis. The local z axis points at the reference.
   */
  function ToReferenceAxes(t: Functions, objAz: real, objAlt: real, az: real, alt: real): Vector3 {
    var diffAz := objAz - az;
    var cosineObjAlt := t.cos(objAlt);
    var xp0 := -t.cos(diffAz) * cosineObjAlt;
    var yp0 := t.sin(diffAz) * cosineObjAlt;
    var zp0 := t.sin(objAlt);
    var sinSysAlt := t.sin(alt);
    var cosSysAlt := t.cos(alt);
    Vector3(sinSysAlt * xp0 + cosSysAlt * zp0,
            yp0,
            -cosSysAlt * xp0 + sinSysAlt * zp0)
  }

  /** The tangent-plane projection of a local unit vector. */
  function Project(t: Functions, p: Vector3): Offset {
    var disp := t.tan(t.arccos(p.z));
    var alpha := t.arctan2(p.y, p.x);
    Offset(disp * t.cos(alpha), disp * t.sin(alpha))
  }

  /** `altaz_to_offset(obj_azimuth, obj_altitude, azimuth, altitude)`, radians in and out. */
  function AltazToOffset(t: Functions, objAz: real, objAlt: real, az: real, alt: real): Offset {
    Project(t, ToReferenceAxes(t, objAz, objAlt, az, alt))
  }

  /** The reference direction is the local zenith of its own axes: (0, 0, 1). */
  lemma ReferenceIsLocalZenith(t: Functions, az: real, alt: real)
    requires Laws(t)
    ensures ToReferenceAxes(t, az, alt, az, alt) == Vector3(0.0, 0.0, 1.0)
  {
    var c, s := t.cos(alt), t.sin(alt);
    assert az - az == 0.0;
    PythagoreanIdentity(t, alt);
    assert -c * (-c) + s * s == c * c + s * s;
  }

  /** A target equal to the reference is projected to the offset origin. */
  lemma AltazToOffsetAtReference(t: Functions, az: real, alt: real)
    requires Laws(t)
    ensures AltazToOffset(t, az, alt, az, alt) == Offset(0.0, 0.0)
  {
    ReferenceIsLocalZenith(t, az, alt);
  }

  /**
   * `altaz_to_offset` on whole arrays, as numpy's unit-aware ufuncs run it:
   * every angle is taken in radians and the offsets come back in radians, of
   * the shape of `objAz`.
   */
  function AltazToOffsets(t: Functions, objAz: Angles, objAlt: Angles, azimuth: Angle, altitude: Angle): (r: (Angles, Angles))
    requires SameShape(objAz, objAlt)
    ensures r.0.unit == Rad && r.1.unit == Rad
    ensures SameShape(r.0, objAz) && SameShape(r.1, objAz)
  {
    var n := |objAz.values|;
    var objAzR, objAltR := RadValues(objAz), RadValues(objAlt);
    var az, alt := ToRad(azimuth.value, azimuth.unit), ToRad(altitude.value, altitude.unit);
    var o := seq(n, i requires 0 <= i < n => AltazToOffset(t, objAzR[i], objAltR[i], az, alt));
    (Angles(seq(n, i requires 0 <= i < n => o[i].x), Rad, objAz.scalar),
     Angles(seq(n, i requires 0 <= i < n => o[i].y), Rad, objAz.scalar))
  }

  /** Targets that all sit at the reference direction project to offsets that are all zero. */
  lemma AltazToOffsetsAtReference(t: Functions, objAz: Angles, objAlt: Angles, azimuth: Angle, altitude: Angle)
    requires Laws(t)
    requires SameShape(objAz, objAlt)
    requires forall i :: 0 <= i < |objAz.values| ==>
      ToRad(objAz.values[i], objAz.unit) == ToRad(azimuth.value, azimuth.unit) &&
      ToRad(objAlt.values[i], objAlt.unit) == ToRad(altitude.value, altitude.unit)
    ensures var r := AltazToOffsets(t, objAz, objAlt, azimuth, altitude);
      forall i :: 0 <= i < |objAz.values| ==> r.0.values[i] == 0.0 && r.1.values[i] == 0.0
  {
    var az, alt := ToRad(azimuth.value, azimuth.unit), ToRad(altitude.value, altitude.unit);
    AltazToOffsetAtReference(t, az, alt);
  }

  /** The value numpy stores in place of an exactly zero offset. */
  const ZeroOffsetSubstitute: real := 1e-14

  /** `sqrt(x_off * x_off + y_off * y_off)`. */
  function OffsetNorm(t: Functions, x: real, y: real): real {
    t.sqrt(x * x + y * y)
  }

  /**
   * The general formula of `offset_to_altaz` for one element, given the
   * (never zero) offset magnitude it divides by.
   */
  function GeneralDirection(t: Functions, x: real, y: real, offset: real, alt: real, az: real): Direction
    requires offset != 0.0
  {
    var atanOff := t.arctan(offset);
    var sinAtanOff := t.sin(atanOff);
    var xp1 := x * (sinAtanOff / offset);
    var yp1 := y * (sinAtanOff / offset);
    var zp1 := t.cos(atanOff);
    var sinObjAlt := t.sin(alt);
    var cosObjAlt := t.cos(alt);
    var xp0 := sinObjAlt * xp1 - cosObjAlt * zp1;
    var yp0 := yp1;
    var zp0 := cosObjAlt * xp1 + sinObjAlt * zp1;
    // not wrapped into [0, 2 pi)
    Direction(t.arcsin(zp0), t.arctan2(yp0, -xp0) + az)
  }

  /**
   * What `offset_to_altaz` computes for one element, radians: the reference
   * direction itself when the offset is exactly zero, otherwise the general
   * formula.
   */
  function DirectionOfOffset(t: Functions, x: real, y: real, alt: real, az: real): Direction {
    var offset := OffsetNorm(t, x, y);
    if offset == 0.0 then Direction(alt, az) else GeneralDirection(t, x, y, offset, alt, az)
  }

  /**
   * `offset_to_altaz(x_off, y_off, altitude, azimuth)` on whole arrays: the
   * returned pair is (altitude, azimuth), both in the unit of `azimuth`, of
   * the shape of `xOff`.
   */
  function OffsetsToAltaz(t: Functions, xOff: Angles, yOff: Angles, altitude: Angle, azimuth: Angle): (r: (Angles, Angles))
    requires SameShape(xOff, yOff)
    ensures r.0.unit == azimuth.unit && r.1.unit == azimuth.unit
    ensures SameShape(r.0, xOff) && SameShape(r.1, xOff)
  {
    var n := |xOff.values|;
    var x, y := RadValues(xOff), RadValues(yOff);
    var alt, az := ToRad(altitude.value, altitude.unit), ToRad(azimuth.value, azimuth.unit);
    var d := seq(n, i requires 0 <= i < n => DirectionOfOffset(t, x[i], y[i], alt, az));
    (Angles(seq(n, i requires 0 <= i < n => FromRad(d[i].alt, azimuth.unit)), azimuth.unit, xOff.scalar),
     Angles(seq(n, i requires 0 <= i < n => FromRad(d[i].az, azimuth.unit)), azimuth.unit, xOff.scalar))
  }

  /** The origin of the offset plane has norm exactly zero. */
  lemma OriginHasZeroNorm(t: Functions)
    requires Laws(t)
    ensures OffsetNorm(t, 0.0, 0.0) == 0.0
  {
    assert 0.0 * 0.0 + 0.0 * 0.0 == 0.0;
  }

  /**
   * An element whose offset is exactly zero comes back as the reference
   * direction: the reference altitude converted to the unit of the azimuth,
   * and the azimuth value itself.
   */
  lemma ZeroOffsetGivesReference(t: Functions, xOff: Angles, yOff: Angles, altitude: Angle, azimuth: Angle, i: nat)
    requires SameShape(xOff, yOff) && i < |xOff.values|
    requires OffsetNorm(t, ToRad(xOff.values[i], xOff.unit), ToRad(yOff.values[i], yOff.unit)) == 0.0
    ensures OffsetsToAltaz(t, xOff, yOff, altitude, azimuth).0.values[i] ==
            FromRad(ToRad(altitude.value, altitude.unit), azimuth.unit)
    ensures OffsetsToAltaz(t, xOff, yOff, altitude, azimuth).1.values[i] == azimuth.value
  {
    ToRadThenFromRad(azimuth.value, azimuth.unit);
  }

  /**
   * Every other element is the general formula at its own offset; its
   * azimuth is `arctan2(yp0, -xp0) + azimuth`, with no reduction to [0, 2 pi).
   */
  lemma NonzeroOffsetUsesGeneralFormula(t: Functions, xOff: Angles, yOff: Angles, altitude: Angle, azimuth: Angle, i: nat)
    requires SameShape(xOff, yOff) && i < |xOff.values|
    requires OffsetNorm(t, ToRad(xOff.values[i], xOff.unit), ToRad(yOff.values[i], yOff.unit)) != 0.0
    ensures var x, y := ToRad(xOff.values[i], xOff.unit), ToRad(yOff.values[i], yOff.unit);
      var d := GeneralDirection(t, x, y, OffsetNorm(t, x, y),
                                ToRad(altitude.value, altitude.unit), ToRad(azimuth.value, azimuth.unit));
      && OffsetsToAltaz(t, xOff, yOff, altitude, azimuth).0.values[i] == FromRad(d.alt, azimuth.unit)
      && OffsetsToAltaz(t, xOff, yOff, altitude, azimuth).1.values[i] == FromRad(d.az, azimuth.unit)
  {
  }

  /**
   * Array batching: element `i` of an array call is the result of the scalar
   * call on element `i`.
   */
  lemma ArrayAgreesWithScalars(t: Functions, xOff: Angles, yOff: Angles, altitude: Angle, azimuth: Angle, i: nat)
    requires SameShape(xOff, yOff) && i < |xOff.values|
    ensures var one := OffsetsToAltaz(t, Angles([xOff.values[i]], xOff.unit, true),
                                      Angles([yOff.values[i]], yOff.unit, true), altitude, azimuth);
      var all := OffsetsToAltaz(t, xOff, yOff, altitude, azimuth);
      one.0.scalar && one.1.scalar &&
      all.0.values[i] == one.0.values[0] && all.1.values[i] == one.1.values[0]
  {
  }

  /**
   * The azimuth that comes back is not wrapped into [0, 2 pi): a zero offset
   * about a reference azimuth of 7 rad returns 7 rad.
   */
  lemma AzimuthIsNotWrapped(t: Functions)
    requires Laws(t)
    ensures var r := OffsetsToAltaz(t, Angles([0.0], Rad, true), Angles([0.0], Rad, true),
                                    Angle(0.5, Rad), Angle(7.0, Rad));
      r.1.values == [7.0] && r.1.values[0] >= 2.0 * Pi
  {
    OriginHasZeroNorm(t);
    var r := OffsetsToAltaz(t, Angles([0.0], Rad, true), Angles([0.0], Rad, true),
                            Angle(0.5, Rad), Angle(7.0, Rad));
    assert r.1.values[0] == 7.0;
  }

  /** `np.where(a == 0)`: the positions of the exact zeros, in increasing order. */
  method ZeroPositions(a: array<real>) returns (pos: seq<nat>)
    ensures forall k :: 0 <= k < |pos| ==> pos[k] < a.Length
    ensures forall k, l :: 0 <= k < l < |pos| ==> pos[k] < pos[l]
    ensures forall j :: 0 <= j < a.Length ==> (a[j] == 0.0 <==> j in pos)
  {
    pos := [];
    for i := 0 to a.Length
      invariant forall k :: 0 <= k < |pos| ==> pos[k] < i
      invariant forall k, l :: 0 <= k < l < |pos| ==> pos[k] < pos[l]
      invariant forall j :: 0 <= j < i ==> (a[j] == 0.0 <==> j in pos)
    {
      if a[i] == 0.0 {
        pos := pos + [i];
      }
    }
  }

  /** `a[pos] = v`: numpy's in-place assignment at an index array. */
  method AssignAt(a: array<real>, pos: seq<nat>, v: real)
    requires forall k :: 0 <= k < |pos| ==> pos[k] < a.Length
    modifies a
    ensures forall j :: 0 <= j < a.Length ==> a[j] == if j in pos then v else old(a[j])
  {
    for k := 0 to |pos|
      invariant forall j :: 0 <= j < a.Length ==> a[j] == if j in pos[..k] then v else old(a[j])
    {
      a[pos[k]] := v;
      assert pos[..k + 1] == pos[..k] + [pos[k]];
    }
    assert pos[..|pos|] == pos;
  }

  /** The general formula applied to every element, into two new arrays. */
  method GeneralDirections(t: Functions, x: seq<real>, y: seq<real>, offset: array<real>, alt: real, az: real)
    returns (objAlt: array<real>, objAz: array<real>)
    requires |x| == |y| == offset.Length
    requires forall j :: 0 <= j < offset.Length ==> offset[j] != 0.0
    ensures fresh(objAlt) && fresh(objAz) && objAlt != objAz
    ensures objAlt.Length == objAz.Length == offset.Length
    ensures forall j :: 0 <= j < offset.Length ==>
      Direction(objAlt[j], objAz[j]) == GeneralDirection(t, x[j], y[j], offset[j], alt, az)
  {
    var n, o := offset.Length, offset[..];
    var ds := seq(n, j requires 0 <= j < n => GeneralDirection(t, x[j], y[j], o[j], alt, az));
    objAlt := new real[n](j requires 0 <= j < n => ds[j].alt);
    objAz := new real[n](j requires 0 <= j < n => ds[j].az);
  }

  /**
   * The `if len(pos[0]) > 0` blocks of `offset_to_altaz`: `a[pos] = v` on an
   * array, `a = v` on a scalar (whose only element is then the one zero).
   */
  method AssignAtZeros(a: array<real>, pos: seq<nat>, scalar: bool, v: real)
    requires scalar ==> a.Length == 1
    requires forall k :: 0 <= k < |pos| ==> pos[k] < a.Length
    modifies a
    ensures forall j :: 0 <= j < a.Length ==> a[j] == if j in pos then v else old(a[j])
  {
    if |pos| > 0 {
      if scalar {
        assert pos[0] == 0;
        a[0] := v;
      } else {
        AssignAt(a, pos, v);
      }
    }
  }

  /** Converting a direction per element back to the unit of the azimuth gives `OffsetsToAltaz`. */
  lemma ConvertedDirections(t: Functions, xOff: Angles, yOff: Angles, altitude: Angle, azimuth: Angle,
                            alts: seq<real>, azs: seq<real>)
    requires SameShape(xOff, yOff)
    requires |alts| == |azs| == |xOff.values|
    requires forall j :: 0 <= j < |alts| ==>
      Direction(alts[j], azs[j]) ==
      DirectionOfOffset(t, ToRad(xOff.values[j], xOff.unit), ToRad(yOff.values[j], yOff.unit),
                        ToRad(altitude.value, altitude.unit), ToRad(azimuth.value, azimuth.unit))
    ensures OffsetsToAltaz(t, xOff, yOff, altitude, azimuth) ==
      (Angles(seq(|alts|, j requires 0 <= j < |alts| => FromRad(alts[j], azimuth.unit)), azimuth.unit, xOff.scalar),
       Angles(seq(|azs|, j requires 0 <= j < |azs| => FromRad(azs[j], azimuth.unit)), azimuth.unit, xOff.scalar))
  {
    var r := OffsetsToAltaz(t, xOff, yOff, altitude, azimuth);
    var a := seq(|alts|, j requires 0 <= j < |alts| => FromRad(alts[j], azimuth.unit));
    var z := seq(|azs|, j requires 0 <= j < |azs| => FromRad(azs[j], azimuth.unit));
    forall j | 0 <= j < |alts|
      ensures r.0.values[j] == a[j] && r.1.values[j] == z[j]
    {
    }
    assert r.0.values == a && r.1.values == z;
  }

  /**
   * `offset_to_altaz` as numpy runs it: offsets are computed into an array,
   * the exactly-zero positions are found and overwritten with 1e-14 so that
   * the general formula never divides by zero, and afterwards the results at
   * those positions are overwritten with the reference direction. A scalar
   * input takes the scalar branches, which do the same to its one element.
   */
  method OffsetToAltaz(t: Functions, xOff: Angles, yOff: Angles, altitude: Angle, azimuth: Angle)
    returns (objAltitude: Angles, objAzimuth: Angles)
    requires SameShape(xOff, yOff)
    ensures (objAltitude, objAzimuth) == OffsetsToAltaz(t, xOff, yOff, altitude, azimuth)
  {
    var unit := azimuth.unit;
    var n := |xOff.values|;
    var x, y := RadValues(xOff), RadValues(yOff);
    var az, alt := ToRad(azimuth.value, azimuth.unit), ToRad(altitude.value, altitude.unit);

    var offset := new real[n](i requires 0 <= i < n => OffsetNorm(t, x[i], y[i]));
    ghost var norms := offset[..];
    var pos := ZeroPositions(offset);
    AssignAtZeros(offset, pos, xOff.scalar, ZeroOffsetSubstitute);
    ghost var substituted := offset[..];

    var objAlt, objAz := GeneralDirections(t, x, y, offset, alt, az);
    ghost var general := seq(n, j requires 0 <= j < n => GeneralDirection(t, x[j], y[j], substituted[j], alt, az));
    AssignAtZeros(objAlt, pos, xOff.scalar, alt);
    AssignAtZeros(objAz, pos, xOff.scalar, az);
    assert forall j :: 0 <= j < n ==>
      Direction(objAlt[j], objAz[j]) == if j in pos then Direction(alt, az) else general[j];

    // obj_altitude.to(unit), obj_azimuth.to(unit)
    var alts, azs := objAlt[..], objAz[..];
    ConvertedDirections(t, xOff, yOff, altitude, azimuth, alts, azs);
    objAltitude := Angles(seq(|alts|, j requires 0 <= j < |alts| => FromRad(alts[j], unit)), unit, xOff.scalar);
    objAzimuth := Angles(seq(|azs|, j requires 0 <= j < |azs| => FromRad(azs[j], unit)), unit, xOff.scalar);
  }
}

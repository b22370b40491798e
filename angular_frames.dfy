/**
 * The four angular coordinate frames of a Cherenkov telescope array and the
 * transforms between them: Horizon (alt/az on the sky), Telescope (angular
 * offset from one telescope's pointing), Nominal (angular offset from the
 * array's reference point) and Camera (metres in the focal plane).
 *
 * A transform is a function of the source coordinate and the destination
 * frame. Reading `.alt` of an attribute that was never set fails in the
 * source; here that is `Err(MissingAttribute(..))`, raised for the first
 * attribute the transform reads.
 */
module AngularFrames {
  import opened Wrappers
  import opened Trig
  import opened Units
  import opened AngularKernels

  /** A geocentric observatory position, metres. */
  datatype EarthLocation = EarthLocation(x: real, y: real, z: real)

  /** A direction held by a horizon-frame coordinate attribute. */
  datatype Pointing = Pointing(alt: Angle, az: Angle)

  /** Observation times are Julian dates. */
  type Time = real

  /** The horizon (alt/az) frame; its attributes all default to unset. */
  datatype HorizonFrame = HorizonFrame(
    obstime: Option<Time> := None,
    location: Option<EarthLocation> := None)

  /** Angular offsets from the pointing of one telescope. */
  datatype TelescopeFrame = TelescopeFrame(
    telescopePointing: Option<Pointing> := None,
    obstime: Option<Time> := None,
    location: Option<EarthLocation> := None)

  /** Angular offsets from the reference point of the array. */
  datatype NominalFrame = NominalFrame(
    referencePoint: Option<Pointing> := None,
    obstime: Option<Time> := None,
    location: Option<EarthLocation> := None)

  /**
   * The focal plane of a camera. The focal length is in metres and defaults
   * to 0; the rotation is held in radians and defaults to 0 degrees.
   */
  datatype CameraFrame = CameraFrame(
    focalLength: real := 0.0,
    rotation: real := 0.0,
    telescopePointing: Option<Pointing> := None,
    obstime: Option<Time> := None,
    location: Option<EarthLocation> := None)

  /** Directions on the sky; `az` and `alt` are combined element by element. */
  datatype HorizonCoord = HorizonCoord(frame: HorizonFrame, az: Angles, alt: Angles) {
    predicate Valid() { SameShape(az, alt) }
  }

  datatype TelescopeCoord = TelescopeCoord(frame: TelescopeFrame, x: Angles, y: Angles) {
    predicate Valid() { SameShape(x, y) }
  }

  datatype NominalCoord = NominalCoord(frame: NominalFrame, x: Angles, y: Angles) {
    predicate Valid() { SameShape(x, y) }
  }

  datatype CameraCoord = CameraCoord(frame: CameraFrame, x: Lengths, y: Lengths, z: Lengths) {
    predicate Valid() { SameLengthShape(x, y) && SameLengthShape(x, z) }
  }

  /** The frame attributes a transform may find unset. */
  datatype Attribute = TelescopePointing | ReferencePoint

  datatype Error = MissingAttribute(attribute: Attribute)

  /** Every element of an array of angles is the given angle. */
  predicate AllAt(a: Angles, target: Angle) {
    forall i :: 0 <= i < |a.values| ==> ToRad(a.values[i], a.unit) == ToRad(target.value, target.unit)
  }

  /** Every element of an array of angles is zero. */
  predicate AllZero(a: Angles) {
    forall i :: 0 <= i < |a.values| ==> a.values[i] == 0.0
  }

  // ---------------------------------------------------------------------
  // Horizon <-> Telescope

  /** `horizon_to_telescope`: the pointing comes from the destination frame. */
  function HorizonToTelescope(t: Functions, c: HorizonCoord, frame: TelescopeFrame): (r: Result<TelescopeCoord, Error>)
    requires c.Valid()
    ensures r.Err? <==> frame.telescopePointing.None?
    ensures r.Err? ==> r.error == MissingAttribute(TelescopePointing)
    ensures r.Ok? ==> r.value.frame == frame && r.value.Valid() && SameShape(r.value.x, c.az)
    ensures r.Ok? ==> r.value.x.unit == Rad && r.value.y.unit == Rad
  {
    match frame.telescopePointing
    case None => Err(MissingAttribute(TelescopePointing))
    case Some(p) =>
      var offsets := AltazToOffsets(t, c.az, c.alt, p.az, p.alt);
      Ok(TelescopeCoord(frame, offsets.0, offsets.1))
  }

  /**
   * `telescope_to_horizon`: the pointing comes from the source coordinate's
   * frame; the result is in the unit of the pointing azimuth.
   */
  function TelescopeToHorizon(t: Functions, c: TelescopeCoord, frame: HorizonFrame): (r: Result<HorizonCoord, Error>)
    requires c.Valid()
    ensures r.Err? <==> c.frame.telescopePointing.None?
    ensures r.Err? ==> r.error == MissingAttribute(TelescopePointing)
    ensures r.Ok? ==> r.value.frame == frame && r.value.Valid() && SameShape(r.value.az, c.x)
    ensures r.Ok? ==> r.value.az.unit == c.frame.telescopePointing.value.az.unit == r.value.alt.unit
  {
    match c.frame.telescopePointing
    case None => Err(MissingAttribute(TelescopePointing))
    case Some(p) =>
      var direction := OffsetsToAltaz(t, c.x, c.y, p.alt, p.az);
      Ok(HorizonCoord(frame, direction.1, direction.0))
  }

  /** A target at the telescope pointing lands on the telescope-frame origin. */
  lemma PointingMapsToTelescopeOrigin(t: Functions, c: HorizonCoord, frame: TelescopeFrame)
    requires Laws(t) && c.Valid() && frame.telescopePointing.Some?
    requires AllAt(c.az, frame.telescopePointing.value.az) && AllAt(c.alt, frame.telescopePointing.value.alt)
    ensures var r := HorizonToTelescope(t, c, frame);
      r.Ok? && AllZero(r.value.x) && AllZero(r.value.y)
  {
    var p := frame.telescopePointing.value;
    AltazToOffsetsAtReference(t, c.az, c.alt, p.az, p.alt);
  }

  /**
   * The telescope-frame origin lands exactly on the pointing: its altitude
   * expressed in the unit of its azimuth, and its azimuth.
   */
  lemma TelescopeOriginMapsToPointing(t: Functions, c: TelescopeCoord, frame: HorizonFrame)
    requires Laws(t) && c.Valid() && c.frame.telescopePointing.Some?
    requires AllZero(c.x) && AllZero(c.y)
    ensures var r := TelescopeToHorizon(t, c, frame);
      var p := c.frame.telescopePointing.value;
      r.Ok? && AllAt(r.value.alt, p.alt) &&
      forall i :: 0 <= i < |r.value.az.values| ==> r.value.az.values[i] == p.az.value
  {
    var p := c.frame.telescopePointing.value;
    OffsetOriginMapsToReference(t, c.x, c.y, p.alt, p.az);
  }

  /** Zero offsets give the reference direction, element by element. */
  lemma OffsetOriginMapsToReference(t: Functions, x: Angles, y: Angles, altitude: Angle, azimuth: Angle)
    requires Laws(t) && SameShape(x, y) && AllZero(x) && AllZero(y)
    ensures var r := OffsetsToAltaz(t, x, y, altitude, azimuth);
      AllAt(r.0, altitude) && forall i :: 0 <= i < |r.1.values| ==> r.1.values[i] == azimuth.value
  {
    var r := OffsetsToAltaz(t, x, y, altitude, azimuth);
    forall i | 0 <= i < |x.values|
      ensures ToRad(r.0.values[i], r.0.unit) == ToRad(altitude.value, altitude.unit)
      ensures r.1.values[i] == azimuth.value
    {
      OriginHasZeroNorm(t);
      ZeroOffsetGivesReference(t, x, y, altitude, azimuth, i);
    }
  }

  // ---------------------------------------------------------------------
  // Nominal <-> Horizon

  /** `nominal_to_altaz`: the reference point comes from the source coordinate's frame. */
  function NominalToAltaz(t: Functions, c: NominalCoord, frame: HorizonFrame): (r: Result<HorizonCoord, Error>)
    requires c.Valid()
    ensures r.Err? <==> c.frame.referencePoint.None?
    ensures r.Err? ==> r.error == MissingAttribute(ReferencePoint)
    ensures r.Ok? ==> r.value.frame == frame && r.value.Valid() && SameShape(r.value.az, c.x)
    ensures r.Ok? ==> r.value.az.unit == c.frame.referencePoint.value.az.unit == r.value.alt.unit
  {
    match c.frame.referencePoint
    case None => Err(MissingAttribute(ReferencePoint))
    case Some(p) =>
      var direction := OffsetsToAltaz(t, c.x, c.y, p.alt, p.az);
      Ok(HorizonCoord(frame, direction.1, direction.0))
  }

  /** `altaz_to_nominal`: the reference point comes from the destination frame. */
  function AltazToNominal(t: Functions, c: HorizonCoord, frame: NominalFrame): (r: Result<NominalCoord, Error>)
    requires c.Valid()
    ensures r.Err? <==> frame.referencePoint.None?
    ensures r.Err? ==> r.error == MissingAttribute(ReferencePoint)
    ensures r.Ok? ==> r.value.frame == frame && r.value.Valid() && SameShape(r.value.x, c.az)
    ensures r.Ok? ==> r.value.x.unit == Rad && r.value.y.unit == Rad
  {
    match frame.referencePoint
    case None => Err(MissingAttribute(ReferencePoint))
    case Some(p) =>
      var offsets := AltazToOffsets(t, c.az, c.alt, p.az, p.alt);
      Ok(NominalCoord(frame, offsets.0, offsets.1))
  }

  /** The nominal-frame origin lands exactly on the reference point. */
  lemma NominalOriginMapsToReferencePoint(t: Functions, c: NominalCoord, frame: HorizonFrame)
    requires Laws(t) && c.Valid() && c.frame.referencePoint.Some?
    requires AllZero(c.x) && AllZero(c.y)
    ensures var r := NominalToAltaz(t, c, frame);
      var p := c.frame.referencePoint.value;
      r.Ok? && AllAt(r.value.alt, p.alt) &&
      forall i :: 0 <= i < |r.value.az.values| ==> r.value.az.values[i] == p.az.value
  {
    var p := c.frame.referencePoint.value;
    OffsetOriginMapsToReference(t, c.x, c.y, p.alt, p.az);
  }

  /** A target at the reference point lands on the nominal-frame origin. */
  lemma ReferencePointMapsToNominalOrigin(t: Functions, c: HorizonCoord, frame: NominalFrame)
    requires Laws(t) && c.Valid() && frame.referencePoint.Some?
    requires AllAt(c.az, frame.referencePoint.value.az) && AllAt(c.alt, frame.referencePoint.value.alt)
    ensures var r := AltazToNominal(t, c, frame);
      r.Ok? && AllZero(r.value.x) && AllZero(r.value.y)
  {
    var p := frame.referencePoint.value;
    AltazToOffsetsAtReference(t, c.az, c.alt, p.az, p.alt);
  }

  // ---------------------------------------------------------------------
  // Telescope <-> Nominal

  /**
   * `telescope_to_nominal`: back onto the sky about the telescope pointing
   * (read first, from the source coordinate), then onto the offset plane of
   * the reference point (read second, from the destination frame).
   */
  function TelescopeToNominal(t: Functions, c: TelescopeCoord, frame: NominalFrame): (r: Result<NominalCoord, Error>)
    requires c.Valid()
    ensures r.Err? <==> c.frame.telescopePointing.None? || frame.referencePoint.None?
    ensures r == Err(MissingAttribute(TelescopePointing)) <==> c.frame.telescopePointing.None?
    ensures r.Ok? ==> r.value.frame == frame && r.value.Valid() && SameShape(r.value.x, c.x)
    ensures r.Ok? ==> r.value.x.unit == Rad && r.value.y.unit == Rad
  {
    match c.frame.telescopePointing
    case None => Err(MissingAttribute(TelescopePointing))
    case Some(tel) =>
      match frame.referencePoint
      case None => Err(MissingAttribute(ReferencePoint))
      case Some(nom) =>
        var direction := OffsetsToAltaz(t, c.x, c.y, tel.alt, tel.az);
        var offsets := AltazToOffsets(t, direction.1, direction.0, nom.az, nom.alt);
        Ok(NominalCoord(frame, offsets.0, offsets.1))
  }

  /**
   * `telescope_to_nominal` is exactly `telescope_to_horizon` followed by
   * `altaz_to_nominal`, failures included, whatever the intermediate
   * horizon frame.
   */
  lemma TelescopeToNominalViaHorizon(t: Functions, c: TelescopeCoord, frame: NominalFrame, horizon: HorizonFrame)
    requires c.Valid()
    ensures TelescopeToNominal(t, c, frame) ==
      match TelescopeToHorizon(t, c, horizon)
      case Err(e) => Err(e)
      case Ok(h) => AltazToNominal(t, h, frame)
  {
  }

  /**
   * `nominal_to_telescope`: back onto the sky about the reference point, then
   * onto the offset plane of the telescope pointing. The telescope pointing
   * (of the destination frame) is read before the reference point (of the
   * source coordinate); the offsets come back in the unit of the source `x`.
   */
  function NominalToTelescope(t: Functions, c: NominalCoord, frame: TelescopeFrame): (r: Result<TelescopeCoord, Error>)
    requires c.Valid()
    ensures r.Err? <==> frame.telescopePointing.None? || c.frame.referencePoint.None?
    ensures r == Err(MissingAttribute(TelescopePointing)) <==> frame.telescopePointing.None?
    ensures r.Ok? ==> r.value.frame == frame && r.value.Valid() && SameShape(r.value.x, c.x)
    ensures r.Ok? ==> r.value.x.unit == c.x.unit && r.value.y.unit == c.x.unit
  {
    match frame.telescopePointing
    case None => Err(MissingAttribute(TelescopePointing))
    case Some(tel) =>
      match c.frame.referencePoint
      case None => Err(MissingAttribute(ReferencePoint))
      case Some(nom) =>
        var direction := OffsetsToAltaz(t, c.x, c.y, nom.alt, nom.az);
        var offsets := AltazToOffsets(t, direction.1, direction.0, tel.az, tel.alt);
        Ok(TelescopeCoord(frame, ConvertTo(offsets.0, c.x.unit), ConvertTo(offsets.1, c.x.unit)))
  }

  /**
   * When both attributes are set, `nominal_to_telescope` is `nominal_to_altaz`
   * followed by `horizon_to_telescope`, re-expressed in the unit of the source `x`.
   */
  lemma NominalToTelescopeViaHorizon(t: Functions, c: NominalCoord, frame: TelescopeFrame, horizon: HorizonFrame)
    requires c.Valid() && frame.telescopePointing.Some? && c.frame.referencePoint.Some?
    ensures var h := NominalToAltaz(t, c, horizon);
      h.Ok? &&
      var tel := HorizonToTelescope(t, h.value, frame);
      tel.Ok? &&
      NominalToTelescope(t, c, frame) ==
        Ok(TelescopeCoord(frame, ConvertTo(tel.value.x, c.x.unit), ConvertTo(tel.value.y, c.x.unit)))
  {
  }

  /**
   * With neither attribute set the two routes fail differently:
   * `nominal_to_telescope` reports the telescope pointing, the chain through
   * the horizon frame reports the reference point.
   */
  lemma NominalToTelescopeFailsOnPointingFirst(t: Functions, c: NominalCoord, frame: TelescopeFrame, horizon: HorizonFrame)
    requires c.Valid() && frame.telescopePointing.None? && c.frame.referencePoint.None?
    ensures NominalToTelescope(t, c, frame) == Err(MissingAttribute(TelescopePointing))
    ensures NominalToAltaz(t, c, horizon) == Err(MissingAttribute(ReferencePoint))
  {
  }

  /**
   * When the telescope points at the reference point, the centre of the
   * telescope frame is the centre of the nominal frame.
   */
  lemma AlignedCentresCoincide(t: Functions, c: TelescopeCoord, frame: NominalFrame)
    requires Laws(t) && c.Valid()
    requires c.frame.telescopePointing.Some? && frame.referencePoint == c.frame.telescopePointing
    requires AllZero(c.x) && AllZero(c.y)
    ensures var r := TelescopeToNominal(t, c, frame);
      r.Ok? && AllZero(r.value.x) && AllZero(r.value.y)
  {
    var p := c.frame.telescopePointing.value;
    var direction := OffsetsToAltaz(t, c.x, c.y, p.alt, p.az);
    OffsetOriginMapsToReference(t, c.x, c.y, p.alt, p.az);
    forall i | 0 <= i < |direction.1.values|
      ensures ToRad(direction.1.values[i], direction.1.unit) == ToRad(p.az.value, p.az.unit)
    {
    }
    AltazToOffsetsAtReference(t, direction.1, direction.0, p.az, p.alt);
  }

  // ---------------------------------------------------------------------
  // Camera <-> Telescope

  /** A point of a plane. */
  datatype Planar = Planar(x: real, y: real)

  /**
   * Counter-clockwise rotation by `rot` radians; a rotation of exactly zero
   * passes the point through untouched.
   */
  function Rotate(t: Functions, rot: real, p: Planar): Planar {
    if rot == 0.0 then p
    else Planar(p.x * t.cos(rot) - p.y * t.sin(rot), p.x * t.sin(rot) + p.y * t.cos(rot))
  }

  /** Rotating by `rot` and then by `-rot` is the identity. */
  lemma RotateThenUnrotate(t: Functions, rot: real, p: Planar)
    requires Laws(t)
    ensures Rotate(t, -rot, Rotate(t, rot, p)) == p
  {
    if rot != 0.0 {
      var c, s := t.cos(rot), t.sin(rot);
      CosOfNegation(t, rot);
      SinOfNegation(t, rot);
      PythagoreanIdentity(t, rot);
      var x, y := p.x, p.y;
      assert (x * c - y * s) * c + (x * s + y * c) * s == x * (c * c + s * s);
      assert -(x * c - y * s) * s + (x * s + y * c) * c == y * (c * c + s * s);
    }
  }

  /** Multiplication of both coordinates by `k`. */
  function Scale(p: Planar, k: real): Planar {
    Planar(p.x * k, p.y * k)
  }

  /** Division of both coordinates by a non-zero `f`. */
  function Divide(p: Planar, f: real): Planar
    requires f != 0.0
  {
    Planar(p.x / f, p.y / f)
  }

  lemma DivideIsScale(p: Planar, f: real)
    requires f != 0.0
    ensures Divide(p, f) == Scale(p, 1.0 / f)
  {
  }

  lemma ScaleAndDivideCancel(p: Planar, f: real)
    requires f != 0.0
    ensures Scale(Divide(p, f), f) == p
    ensures Divide(Scale(p, f), f) == p
  {
  }

  lemma LinearInScale(x: real, y: real, c: real, s: real, k: real)
    ensures (x * k) * c - (y * k) * s == (x * c - y * s) * k
    ensures (x * k) * s + (y * k) * c == (x * s + y * c) * k
  {
  }

  /** Rotation commutes with scaling. */
  lemma RotateScaled(t: Functions, rot: real, p: Planar, k: real)
    ensures Rotate(t, rot, Scale(p, k)) == Scale(Rotate(t, rot, p), k)
  {
    if rot != 0.0 {
      LinearInScale(p.x, p.y, t.cos(rot), t.sin(rot), k);
    }
  }

  /**
   * One focal-plane point (metres) as a telescope-frame offset (radians):
   * rotated by the camera rotation, divided by the focal length.
   */
  function CameraToTelescopePoint(t: Functions, rot: real, f: real, p: Planar): Planar
    requires f != 0.0
  {
    Divide(Rotate(t, rot, p), f)
  }

  /**
   * One telescope-frame offset (radians) as a focal-plane point (metres):
   * rotated by the negated camera rotation, multiplied by the focal length.
   */
  function TelescopeToCameraPoint(t: Functions, rot: real, f: real, p: Planar): Planar {
    Scale(Rotate(t, -rot, p), f)
  }

  /** With the same rotation and focal length, the point maps are inverse: camera first. */
  lemma CameraPointRoundTrip(t: Functions, rot: real, f: real, p: Planar)
    requires Laws(t) && f != 0.0
    ensures TelescopeToCameraPoint(t, rot, f, CameraToTelescopePoint(t, rot, f, p)) == p
  {
    var q := Rotate(t, rot, p);
    DivideIsScale(q, f);
    DivideIsScale(p, f);
    RotateScaled(t, -rot, q, 1.0 / f);
    RotateThenUnrotate(t, rot, p);
    ScaleAndDivideCancel(p, f);
  }

  /** With the same rotation and focal length, the point maps are inverse: telescope first. */
  lemma TelescopePointRoundTrip(t: Functions, rot: real, f: real, p: Planar)
    requires Laws(t) && f != 0.0
    ensures CameraToTelescopePoint(t, rot, f, TelescopeToCameraPoint(t, rot, f, p)) == p
  {
    var q := Rotate(t, -rot, p);
    RotateScaled(t, rot, q, f);
    RotateThenUnrotate(t, -rot, p);
    assert - -rot == rot;
    ScaleAndDivideCancel(p, f);
  }

  /** The focal-plane point of element `i`. */
  function CameraPoint(c: CameraCoord, i: nat): Planar
    requires i < |c.x.values| && i < |c.y.values|
  {
    Planar(c.x.values[i], c.y.values[i])
  }

  /** The radian offsets of element `i`. */
  function TelescopePoint(c: TelescopeCoord, i: nat): Planar
    requires i < |c.x.values| && i < |c.y.values|
  {
    Planar(ToRad(c.x.values[i], c.x.unit), ToRad(c.y.values[i], c.y.unit))
  }

  /**
   * `camera_to_telescope`: every focal-plane point, rotated by the camera
   * rotation and divided by the focal length (small-angle approximation),
   * in radians; the rotation and focal length are those of the source
   * coordinate's frame.
   */
  function CameraToTelescope(t: Functions, c: CameraCoord, frame: TelescopeFrame): (r: TelescopeCoord)
    requires c.Valid() && c.frame.focalLength != 0.0
    ensures r.frame == frame && r.Valid() && r.x.unit == Rad && r.y.unit == Rad
    ensures |r.x.values| == |c.x.values| && r.x.scalar == c.x.scalar
    ensures forall i :: 0 <= i < |c.x.values| ==>
      TelescopePoint(r, i) == CameraToTelescopePoint(t, c.frame.rotation, c.frame.focalLength, CameraPoint(c, i))
  {
    var n := |c.x.values|;
    var p := seq(n, i requires 0 <= i < n =>
      CameraToTelescopePoint(t, c.frame.rotation, c.frame.focalLength, CameraPoint(c, i)));
    TelescopeCoord(frame,
      Angles(seq(n, i requires 0 <= i < n => p[i].x), Rad, c.x.scalar),
      Angles(seq(n, i requires 0 <= i < n => p[i].y), Rad, c.x.scalar))
  }

  /** An unrotated camera maps every `(x, y)` to exactly `(x / f, y / f)` radians. */
  lemma UnrotatedCameraScales(t: Functions, c: CameraCoord, frame: TelescopeFrame)
    requires c.Valid() && c.frame.focalLength != 0.0 && c.frame.rotation == 0.0
    ensures var r := CameraToTelescope(t, c, frame);
      forall i :: 0 <= i < |c.x.values| ==>
        r.x.values[i] == c.x.values[i] / c.frame.focalLength &&
        r.y.values[i] == c.y.values[i] / c.frame.focalLength
  {
  }

  /**
   * `telescope_to_camera`: every offset, in radians, rotated by the negated
   * rotation of the destination frame and multiplied by its focal length;
   * `z` is 0 m everywhere.
   */
  function TelescopeToCamera(t: Functions, c: TelescopeCoord, frame: CameraFrame): (r: CameraCoord)
    requires c.Valid()
    ensures r.frame == frame && r.Valid()
    ensures |r.x.values| == |c.x.values| && r.x.scalar == c.x.scalar
    ensures forall i :: 0 <= i < |c.x.values| ==>
      CameraPoint(r, i) == TelescopeToCameraPoint(t, frame.rotation, frame.focalLength, TelescopePoint(c, i))
    ensures forall i :: 0 <= i < |r.z.values| ==> r.z.values[i] == 0.0
  {
    var n := |c.x.values|;
    var p := seq(n, i requires 0 <= i < n =>
      TelescopeToCameraPoint(t, frame.rotation, frame.focalLength, TelescopePoint(c, i)));
    CameraCoord(frame,
      Lengths(seq(n, i requires 0 <= i < n => p[i].x), c.x.scalar),
      Lengths(seq(n, i requires 0 <= i < n => p[i].y), c.x.scalar),
      Lengths(seq(n, i requires 0 <= i < n => 0.0), c.x.scalar))
  }

  /**
   * Camera to telescope and back, with the same rotation and non-zero focal
   * length, recovers the original focal-plane positions.
   */
  lemma CameraRoundTrip(t: Functions, c: CameraCoord, telescope: TelescopeFrame, camera: CameraFrame)
    requires Laws(t) && c.Valid() && c.frame.focalLength != 0.0
    requires camera.focalLength == c.frame.focalLength && camera.rotation == c.frame.rotation
    ensures var r := TelescopeToCamera(t, CameraToTelescope(t, c, telescope), camera);
      r.x == c.x && r.y == c.y
  {
    var tel := CameraToTelescope(t, c, telescope);
    var r := TelescopeToCamera(t, tel, camera);
    forall i | 0 <= i < |c.x.values|
      ensures CameraPoint(r, i) == CameraPoint(c, i)
    {
      CameraPointRoundTrip(t, camera.rotation, camera.focalLength, CameraPoint(c, i));
    }
    assert r.x.values == c.x.values;
    assert r.y.values == c.y.values;
  }

  /**
   * Telescope to camera and back, with the same rotation and non-zero focal
   * length, recovers the original offsets, in radians.
   */
  lemma TelescopeRoundTrip(t: Functions, c: TelescopeCoord, camera: CameraFrame, telescope: TelescopeFrame)
    requires Laws(t) && c.Valid() && camera.focalLength != 0.0
    ensures var r := CameraToTelescope(t, TelescopeToCamera(t, c, camera), telescope);
      r.x.values == RadValues(c.x) && r.y.values == RadValues(c.y)
  {
    var cam := TelescopeToCamera(t, c, camera);
    var r := CameraToTelescope(t, cam, telescope);
    forall i | 0 <= i < |c.x.values|
      ensures TelescopePoint(r, i) == TelescopePoint(c, i)
    {
      TelescopePointRoundTrip(t, camera.rotation, camera.focalLength, TelescopePoint(c, i));
    }
    assert r.x.values == RadValues(c.x);
    assert r.y.values == RadValues(c.y);
  }
}

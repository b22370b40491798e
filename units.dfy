/**
 * Angular units. Every angular quantity crossing a transform carries its
 * unit; the kernels work in radians and convert back, as astropy's
 * `Quantity.to` does. Lengths in the camera plane are metres throughout.
 */
module Units {

  /** numpy's double-precision pi, as a decimal. */
  const Pi: real := 3.141592653589793

  datatype AngleUnit = Rad | Deg

  /** One angle with its unit (the `alt` or `az` of a pointing). */
  datatype Angle = Angle(value: real, unit: AngleUnit)

  /**
   * A scalar or a one-dimensional array of angles sharing one unit.
   * A scalar holds exactly one value (see `Shaped`).
   */
  datatype Angles = Angles(values: seq<real>, unit: AngleUnit, scalar: bool)

  /** A scalar or a one-dimensional array of lengths, in metres. */
  datatype Lengths = Lengths(values: seq<real>, scalar: bool)

  predicate Shaped(a: Angles) {
    a.scalar ==> |a.values| == 1
  }

  /** Two arrays that the transforms combine element by element. */
  predicate SameShape(a: Angles, b: Angles) {
    Shaped(a) && |a.values| == |b.values| && a.scalar == b.scalar
  }

  /** `q.to(u.rad).value` for a value in unit `u`. */
  function ToRad(v: real, u: AngleUnit): (r: real)
    ensures r == 0.0 <==> v == 0.0
  {
    if u == Rad then v else v * (Pi / 180.0)
  }

  /** `(v * u.rad).to(u).value`: the inverse of `ToRad`. */
  function FromRad(v: real, u: AngleUnit): (r: real)
    ensures ToRad(r, u) == v
  {
    if u == Rad then v else v * (180.0 / Pi)
  }

  /** Converting to radians and back gives the original value. */
  lemma ToRadThenFromRad(v: real, u: AngleUnit)
    ensures FromRad(ToRad(v, u), u) == v
  {
  }

  /** The radian values of an array of angles. */
  function RadValues(a: Angles): seq<real> {
    seq(|a.values|, i requires 0 <= i < |a.values| => ToRad(a.values[i], a.unit))
  }

  /**
   * `q.to(u)` on an array: the same angles, expressed in unit `u`.
   */
  function ConvertTo(a: Angles, u: AngleUnit): (r: Angles)
    ensures r.unit == u && r.scalar == a.scalar && |r.values| == |a.values|
    ensures forall i :: 0 <= i < |a.values| ==> ToRad(r.values[i], u) == ToRad(a.values[i], a.unit)
  {
    Angles(seq(|a.values|, i requires 0 <= i < |a.values| => FromRad(ToRad(a.values[i], a.unit), u)), u, a.scalar)
  }

  /** Converting an array into its own unit changes nothing. */
  lemma ConvertToOwnUnit(a: Angles)
    ensures ConvertTo(a, a.unit) == a
  {
    var r := ConvertTo(a, a.unit);
    forall i | 0 <= i < |a.values|
      ensures r.values[i] == a.values[i]
    {
      ToRadThenFromRad(a.values[i], a.unit);
    }
  }

  /** Two length arrays that the transforms combine element by element. */
  predicate SameLengthShape(a: Lengths, b: Lengths) {
    (a.scalar ==> |a.values| == 1) && |a.values| == |b.values| && a.scalar == b.scalar
  }
}

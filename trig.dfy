/**
 * The elementary functions the frame transforms call (numpy's sin, cos, tan,
 * arctan, arcsin, arccos, arctan2 and sqrt), kept uninterpreted: a value of
 * `Functions` is one choice of them and `Laws` is the handful of identities
 * the proofs about the transforms rely on. Nothing else about them is assumed.
 */
module Trig {

  datatype Functions = Functions(
    sin: real -> real,
    cos: real -> real,
    tan: real -> real,
    arctan: real -> real,
    arcsin: real -> real,
    arccos: real -> real,
    arctan2: (real, real) -> real,
    sqrt: real -> real)

  /**
   * cos^2 + sin^2 = 1 at one angle. Kept as a predicate of its own so that
   * the identity is only instantiated where a proof asks for it.
   */
  ghost predicate PythagoreanAt(t: Functions, r: real) {
    t.cos(r) * t.cos(r) + t.sin(r) * t.sin(r) == 1.0
  }

  /** The identities the real functions satisfy and the proofs use. */
  ghost predicate Laws(t: Functions) {
    && (forall r :: t.cos(-r) == t.cos(r))
    && (forall r :: t.sin(-r) == -t.sin(r))
    && (forall r :: PythagoreanAt(t, r))
    && t.cos(0.0) == 1.0
    && t.sin(0.0) == 0.0
    && t.arccos(1.0) == 0.0
    && t.tan(0.0) == 0.0
    && t.sqrt(0.0) == 0.0
  }

  lemma CosOfNegation(t: Functions, r: real)
    requires Laws(t)
    ensures t.cos(-r) == t.cos(r)
  {
  }

  lemma SinOfNegation(t: Functions, r: real)
    requires Laws(t)
    ensures t.sin(-r) == -t.sin(r)
  {
  }

  lemma PythagoreanIdentity(t: Functions, r: real)
    requires Laws(t)
    ensures t.cos(r) * t.cos(r) + t.sin(r) * t.sin(r) == 1.0
  {
    assert PythagoreanAt(t, r);
  }

  /** A degenerate choice of the functions: every angle behaves like zero. */
  function Degenerate(): Functions {
    Functions(r => 0.0, r => 1.0, r => 0.0, r => r, r => r,
              r => 0.0, (y, x) => 0.0, v => v)
  }

  /** The laws are consistent: the degenerate choice meets them. */
  lemma LawsAreSatisfiable()
    ensures Laws(Degenerate())
  {
    var t := Degenerate();
    forall r: real
      ensures PythagoreanAt(t, r)
    {
      assert t.cos(r) == 1.0 && t.sin(r) == 0.0;
    }
  }
}

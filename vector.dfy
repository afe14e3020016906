/** The immutable 2-D vector of `src/vector.ts`, over the reals.
 *
 *  `Vector2` is a datatype: every operation returns a new value and none can
 *  change its argument, which is what the `readonly` fields of the source
 *  class guarantee. The source's `Point` interface has the same two fields,
 *  so one datatype stands for both.
 *
 *  `Math.sqrt`, `Math.cos` and `Math.sin` belong to the host and are not part
 *  of the model: they are passed in as a `MathLib`, and `Lawful` states the
 *  only facts about them that the proofs use.
 */
module Vector {

  datatype Vector2 = Vector2(x: real, y: real)

  const Zero := Vector2(0.0, 0.0)

  /** The host's square root, cosine and sine. */
  datatype MathLib = MathLib(sqrt: real -> real, cos: real -> real, sin: real -> real)

  /** What the proofs assume of the host functions: `sqrt` is the non-negative
   *  square root on non-negative arguments, and `(cos a, sin a)` lies on the
   *  unit circle. Each law is used only where a proof names it. */
  ghost predicate Lawful(m: MathLib) {
    (forall t {:trigger SqrtLaw(m, t)} :: SqrtLaw(m, t))
    && (forall a {:trigger CircleLaw(m, a)} :: CircleLaw(m, a))
  }

  ghost predicate SqrtLaw(m: MathLib, t: real) {
    0.0 <= t ==> 0.0 <= m.sqrt(t) && Sq(m.sqrt(t)) == t
  }

  ghost predicate CircleLaw(m: MathLib, a: real) {
    Sq(m.cos(a)) + Sq(m.sin(a)) == 1.0
  }

  /** The square of a number. */
  function Sq(a: real): real {
    a * a
  }

  /** `Vector2.From`: a new vector with the coordinates of a point. */
  function From(p: Vector2): Vector2 {
    Vector2(p.x, p.y)
  }

  /** `Vector2.FromAngle`: the direction `r` radians from the x axis. */
  function FromAngle(m: MathLib, r: real): Vector2 {
    Vector2(m.cos(r), m.sin(r))
  }

  /** `Vector2.DirBetween`: the vector leading from `start` to `end`. */
  function DirBetween(start: Vector2, end: Vector2): Vector2 {
    Minus(From(end), start)
  }

  /** The square of the Euclidean length, with no square root taken. */
  function SquaredLength(v: Vector2): real {
    Sq(v.x) + Sq(v.y)
  }

  /** `magnitude`: the Euclidean length. */
  function Magnitude(m: MathLib, v: Vector2): real {
    m.sqrt(SquaredLength(v))
  }

  /** `toUnit`: the source divides by the magnitude unguarded, so a zero
   *  magnitude is excluded here (in the source it yields NaN). */
  function ToUnit(m: MathLib, v: Vector2): Vector2
    requires Magnitude(m, v) != 0.0
  {
    Multiply(v, 1.0 / Magnitude(m, v))
  }

  function Multiply(v: Vector2, scale: real): Vector2 {
    Vector2(v.x * scale, v.y * scale)
  }

  function Plus(v: Vector2, that: Vector2): Vector2 {
    Vector2(v.x + that.x, v.y + that.y)
  }

  function Minus(v: Vector2, that: Vector2): Vector2 {
    Vector2(v.x - that.x, v.y - that.y)
  }

  // ---------------------------------------------------------------------
  // Algebraic laws

  /** `From` copies a point exactly. */
  lemma FromIsCopy(p: Vector2)
    ensures From(p) == p
  {
  }

  /** The direction from `a` to `b` is the reverse of the one from `b` to
   *  `a`, and following it from `a` arrives at `b`. */
  lemma DirBetweenAntisymmetric(a: Vector2, b: Vector2)
    ensures DirBetween(a, b) == Multiply(DirBetween(b, a), -1.0)
    ensures Plus(DirBetween(a, b), a) == b
    ensures DirBetween(a, b) == Zero <==> a == b
  {
  }

  lemma PlusCommutes(v: Vector2, w: Vector2)
    ensures Plus(v, w) == Plus(w, v)
  {
  }

  /** `minus` undoes `plus`. */
  lemma MinusUndoesPlus(v: Vector2, w: Vector2)
    ensures Minus(Plus(v, w), w) == v
    ensures Plus(Minus(v, w), w) == v
  {
  }

  lemma MultiplyByOne(v: Vector2)
    ensures Multiply(v, 1.0) == v
  {
  }

  lemma MultiplyComposes(v: Vector2, a: real, b: real)
    ensures Multiply(Multiply(v, a), b) == Multiply(v, a * b)
  {
  }

  // ---------------------------------------------------------------------
  // Length

  /** Squaring is strictly increasing on the non-negative reals. */
  lemma SquareMonotone(a: real, b: real)
    requires 0.0 <= a < b
    ensures Sq(a) < Sq(b)
  {
    calc {
      Sq(a);
    == a * a;
    <= a * b;
    < b * b;
    == Sq(b);
    }
  }

  /** Only zero squares to zero; every other square is positive. */
  lemma SquarePositive(a: real)
    ensures 0.0 <= Sq(a)
    ensures a != 0.0 ==> 0.0 < Sq(a)
  {
    if 0.0 < a {
      calc {
        Sq(a);
      == a * a;
      > 0.0;
      }
    } else if a < 0.0 {
      calc {
        Sq(a);
      == (-a) * (-a);
      > 0.0;
      }
    }
  }

  lemma ProductNonNegative(a: real, b: real)
    requires 0.0 <= a && 0.0 <= b
    ensures 0.0 <= a * b
  {
  }

  /** The square of a product is the product of the squares. */
  lemma SquareOfProduct(a: real, b: real)
    ensures Sq(a * b) == Sq(a) * Sq(b)
  {
    calc {
      Sq(a * b);
    == (a * b) * (a * b);
    == (a * a) * (b * b);
    }
  }

  /** On a lawful host, the square root of a square is the non-negative base. */
  lemma SqrtOfSquare(m: MathLib, a: real, t: real)
    requires Lawful(m)
    requires 0.0 <= a && t == Sq(a)
    ensures m.sqrt(t) == a
  {
    SquarePositive(a);
    var s := m.sqrt(t);
    assert SqrtLaw(m, t);
    assert 0.0 <= s && Sq(s) == Sq(a);
    if s < a {
      SquareMonotone(s, a);
    } else if a < s {
      SquareMonotone(a, s);
    }
  }

  /** `magnitude` is non-negative, squares to `x*x + y*y`, and is zero only
   *  for the zero vector. */
  lemma MagnitudeFacts(m: MathLib, v: Vector2)
    requires Lawful(m)
    ensures 0.0 <= Magnitude(m, v)
    ensures Sq(Magnitude(m, v)) == SquaredLength(v)
    ensures Magnitude(m, v) == 0.0 <==> v == Zero
  {
    var t := SquaredLength(v);
    var r := m.sqrt(t);
    assert 0.0 <= t by {
      SquarePositive(v.x);
      SquarePositive(v.y);
    }
    assert 0.0 <= r && Sq(r) == t by {
      assert SqrtLaw(m, t);
    }
    assert r == 0.0 <==> t == 0.0 by {
      SquarePositive(r);
    }
    assert t == 0.0 <==> v == Zero by {
      SumOfSquaresZero(v.x, v.y);
    }
  }

  /** A sum of two squares is zero only when both bases are. */
  lemma SumOfSquaresZero(a: real, b: real)
    ensures Sq(a) + Sq(b) == 0.0 <==> a == 0.0 && b == 0.0
  {
    SquarePositive(a);
    SquarePositive(b);
  }

  /** Scaling a vector scales its squared length by the square of the factor. */
  lemma SquaredLengthScales(v: Vector2, k: real)
    ensures SquaredLength(Multiply(v, k)) == Sq(k) * SquaredLength(v)
  {
    SquareOfProduct(v.x, k);
    SquareOfProduct(v.y, k);
  }

  /** Scaling by a non-negative factor scales the length by that factor. */
  lemma MagnitudeScales(m: MathLib, v: Vector2, k: real)
    requires Lawful(m)
    requires 0.0 <= k
    ensures Magnitude(m, Multiply(v, k)) == k * Magnitude(m, v)
  {
    var r := Magnitude(m, v);
    MagnitudeFacts(m, v);
    var t := SquaredLength(Multiply(v, k));
    assert t == Sq(k * r) by {
      SquaredLengthScales(v, k);
      SquareOfProduct(k, r);
    }
    ProductNonNegative(k, r);
    SqrtOfSquare(m, k * r, t);
  }

  /** Comparing a length against a non-negative bound is the same as
   *  comparing the squared length against the squared bound. */
  lemma CompareBySquares(m: MathLib, v: Vector2, bound: real)
    requires Lawful(m)
    requires 0.0 <= bound
    ensures Magnitude(m, v) <= bound <==> SquaredLength(v) <= Sq(bound)
    ensures Magnitude(m, v) < bound <==> SquaredLength(v) < Sq(bound)
  {
    var r := Magnitude(m, v);
    MagnitudeFacts(m, v);
    if r < bound {
      SquareMonotone(r, bound);
    } else if bound < r {
      SquareMonotone(bound, r);
    }
  }

  /** For a non-zero vector `toUnit` is defined, has length one, and scaling
   *  it back by the original length restores the vector: it is the vector
   *  shrunk by the positive factor `1 / magnitude`. */
  lemma UnitVector(m: MathLib, v: Vector2)
    requires Lawful(m)
    requires v != Zero
    ensures 0.0 < Magnitude(m, v)
    ensures Magnitude(m, ToUnit(m, v)) == 1.0
    ensures Multiply(ToUnit(m, v), Magnitude(m, v)) == v
  {
    MagnitudeFacts(m, v);
    var r := Magnitude(m, v);
    MagnitudeScales(m, v, 1.0 / r);
    assert (1.0 / r) * r == 1.0;
  }

  /** `FromAngle` always yields a unit vector. */
  lemma FromAngleIsUnit(m: MathLib, r: real)
    requires Lawful(m)
    ensures Magnitude(m, FromAngle(m, r)) == 1.0
  {
    var u := FromAngle(m, r);
    assert CircleLaw(m, r);
    SqrtOfSquare(m, 1.0, SquaredLength(u));
  }
}

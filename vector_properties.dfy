/**
 * Properties of the vector operators: the ordering `operator<` defines and
 * what `operator>` does with it, exact and tolerant equality, the
 * arithmetic operators, the cross product, and the normalisation guard.
 */
module VectorProperties {
  import opened MathUtils
  import opened MyVector

  // ---------------------------------------------------------------------
  // operator< : a strict lexicographic order on (x, y) and (x, y, z)
  // ---------------------------------------------------------------------

  lemma Less2Irreflexive(a: Vec2)
    ensures !Less2(a, a)
  {
  }

  lemma Less2Transitive(a: Vec2, b: Vec2, c: Vec2)
    requires Less2(a, b) && Less2(b, c)
    ensures Less2(a, c)
  {
  }

  /** Exactly one of `a < b`, `a == b`, `b < a` holds. */
  lemma Less2Trichotomy(a: Vec2, b: Vec2)
    ensures Less2(a, b) || a == b || Less2(b, a)
    ensures !(Less2(a, b) && Less2(b, a))
    ensures Less2(a, b) ==> a != b
  {
  }

  lemma Less3Irreflexive(a: Vec3)
    ensures !Less3(a, a)
  {
  }

  lemma Less3Transitive(a: Vec3, b: Vec3, c: Vec3)
    requires Less3(a, b) && Less3(b, c)
    ensures Less3(a, c)
  {
  }

  lemma Less3Trichotomy(a: Vec3, b: Vec3)
    ensures Less3(a, b) || a == b || Less3(b, a)
    ensures !(Less3(a, b) && Less3(b, a))
    ensures Less3(a, b) ==> a != b
  {
  }

  // ---------------------------------------------------------------------
  // operator> as written is `!(a < b)`, which is `>=`, not `>`
  // ---------------------------------------------------------------------

  /** As written, every vector is greater than itself. */
  lemma Greater2IsReflexive(a: Vec2)
    ensures Greater2(a, a)
    ensures Greater2(a, a) != StrictGreater2(a, a)
  {
  }

  lemma Greater3IsReflexive(a: Vec3)
    ensures Greater3(a, a)
    ensures Greater3(a, a) != StrictGreater3(a, a)
  {
  }

  /** The intended `>` is the written one with equality taken out. */
  lemma StrictGreater2IsGreaterAndDistinct(a: Vec2, b: Vec2)
    ensures StrictGreater2(a, b) <==> Greater2(a, b) && a != b
  {
  }

  lemma StrictGreater3IsGreaterAndDistinct(a: Vec3, b: Vec3)
    ensures StrictGreater3(a, b) <==> Greater3(a, b) && a != b
  {
  }

  lemma StrictGreater2IsStrictOrder(a: Vec2, b: Vec2, c: Vec2)
    ensures !StrictGreater2(a, a)
    ensures StrictGreater2(a, b) && StrictGreater2(b, c) ==> StrictGreater2(a, c)
  {
    if StrictGreater2(a, b) && StrictGreater2(b, c) {
      Less2Transitive(c, b, a);
    }
  }

  lemma StrictGreater3IsStrictOrder(a: Vec3, b: Vec3, c: Vec3)
    ensures !StrictGreater3(a, a)
    ensures StrictGreater3(a, b) && StrictGreater3(b, c) ==> StrictGreater3(a, c)
  {
    if StrictGreater3(a, b) && StrictGreater3(b, c) {
      Less3Transitive(c, b, a);
    }
  }

  // ---------------------------------------------------------------------
  // Exact and tolerant equality
  // ---------------------------------------------------------------------

  /** `operator==` is equality of values and `operator!=` its negation. */
  lemma Eq2IsEquality(a: Vec2, b: Vec2)
    ensures Eq2(a, b) <==> a == b
    ensures Ne2(a, b) <==> !Eq2(a, b)
  {
  }

  lemma Eq3IsEquality(a: Vec3, b: Vec3)
    ensures Eq3(a, b) <==> a == b
    ensures Ne3(a, b) <==> !Eq3(a, b)
  {
  }

  /** `equal` compares a vector with itself as equal exactly when the tolerance is not negative. */
  lemma Equal2Reflexive(a: Vec2, e: real)
    ensures Equal2(a, a, e) <==> e >= 0.0
  {
  }

  lemma Equal3Reflexive(a: Vec3, e: real)
    ensures Equal3(a, a, e) <==> e >= 0.0
  {
  }

  /** `equal` does not depend on which vector is the receiver. */
  lemma {:induction false} Equal2Symmetric(a: Vec2, b: Vec2, e: real)
    ensures Equal2(a, b, e) == Equal2(b, a, e)
  {
    AbsOfNegation(b.x - a.x);
    AbsOfNegation(b.y - a.y);
  }

  lemma {:induction false} Equal3Symmetric(a: Vec3, b: Vec3, e: real)
    ensures Equal3(a, b, e) == Equal3(b, a, e)
  {
    AbsOfNegation(b.x - a.x);
    AbsOfNegation(b.y - a.y);
    AbsOfNegation(b.z - a.z);
  }

  lemma AbsOfNegation(r: real)
    ensures Abs(-r) == Abs(r)
  {
  }

  /** Exact equality implies tolerant equality at the default tolerance. */
  lemma Eq2ImpliesEqual(a: Vec2, b: Vec2)
    requires Eq2(a, b)
    ensures Equal2(a, b)
  {
  }

  lemma Eq3ImpliesEqual(a: Vec3, b: Vec3)
    requires Eq3(a, b)
    ensures Equal3(a, b)
  {
  }

  /** The tolerance is a bound on each component, not on the distance. */
  /** `equal` accepts exactly the component differences of size at most e, the bound included. */
  lemma Equal2WithinTolerance(a: Vec2, b: Vec2, e: real)
    ensures Equal2(a, b, e) <==> (Abs(b.x - a.x) <= e && Abs(b.y - a.y) <= e)
  {
  }

  lemma Equal3WithinTolerance(a: Vec3, b: Vec3, e: real)
    ensures Equal3(a, b, e) <==> (Abs(b.x - a.x) <= e && Abs(b.y - a.y) <= e && Abs(b.z - a.z) <= e)
  {
  }

  /** A difference of exactly the tolerance is still `equal`: the comparison is not strict. */
  lemma EqualAcceptsExactTolerance()
    ensures Equal2(Vec2(0.0, 0.0), Vec2(0.5, 0.0), 0.5)
    ensures Equal3(Vec3(0.0, 0.0, 0.0), Vec3(0.0, 0.0, 0.5), 0.5)
  {
  }

  // ---------------------------------------------------------------------
  // Arithmetic operators
  // ---------------------------------------------------------------------

  lemma AddSubCancel2(a: Vec2, b: Vec2)
    ensures Sub2(Add2(a, b), b) == a
    ensures Add2(Sub2(a, b), b) == a
    ensures Sub2(a, b) == Add2(a, Neg2(b))
    ensures Neg2(Neg2(a)) == a
  {
  }

  lemma AddSubCancel3(a: Vec3, b: Vec3)
    ensures Sub3(Add3(a, b), b) == a
    ensures Add3(Sub3(a, b), b) == a
    ensures Sub3(a, b) == Add3(a, Neg3(b))
    ensures Neg3(Neg3(a)) == a
  {
  }

  /** Dividing a scaled vector by the same non-negligible scalar gives it back. */
  lemma {:induction false} Div2UndoesScale(v: Vec2, s: real)
    requires Abs(s) >= Epsilon
    ensures Div2(Scale2(v, s), s) == Ok(v)
  {
    var r := Div2(Scale2(v, s), s);
    assert r.Ok?;
    assert Scale2(r.value, s) == Scale2(v, s);
    CancelFactor(r.value.x, v.x, s);
    CancelFactor(r.value.y, v.y, s);
  }

  lemma {:induction false} Div3UndoesScale(v: Vec3, s: real)
    requires Abs(s) >= Epsilon
    ensures Div3(Scale3(v, s), s) == Ok(v)
  {
    var r := Div3(Scale3(v, s), s);
    assert r.Ok?;
    assert Scale3(r.value, s) == Scale3(v, s);
    CancelFactor(r.value.x, v.x, s);
    CancelFactor(r.value.y, v.y, s);
    CancelFactor(r.value.z, v.z, s);
  }

  lemma CancelFactor(p: real, q: real, s: real)
    requires s != 0.0 && p * s == q * s
    ensures p == q
  {
    assert (p - q) * s == 0.0;
  }

  /** The dot product is symmetric. */
  lemma DotSymmetric(a: Vec2, b: Vec2, c: Vec3, d: Vec3)
    ensures Dot2(a, b) == Dot2(b, a)
    ensures Dot3(c, d) == Dot3(d, c)
  {
  }

  /** A vector dotted with itself is the squared length under `length()`'s square root. */
  lemma DotIsSquaredLength(a: Vec2, c: Vec3)
    ensures Dot2(a, a) == SquaredLength2(a)
    ensures Dot3(c, c) == SquaredLength3(c)
  {
  }

  /** The dot product distributes over `+` in its first factor. */
  lemma DotDistributes2(a: Vec2, b: Vec2, c: Vec2)
    ensures Dot2(Add2(a, b), c) == Dot2(a, c) + Dot2(b, c)
  {
  }

  lemma DotDistributes3(a: Vec3, b: Vec3, c: Vec3)
    ensures Dot3(Add3(a, b), c) == Dot3(a, c) + Dot3(b, c)
  {
  }

  /**
   * The componentwise `*` commutes, has (1, 1) as unit, and multiplying by
   * the constant vector (s, s) is `* scale`.
   */
  lemma Mul2Laws(a: Vec2, b: Vec2, s: real)
    ensures Mul2(a, b) == Mul2(b, a)
    ensures Mul2(a, Vec2(1.0, 1.0)) == a
    ensures Mul2(a, Vec2(s, s)) == Scale2(a, s)
  {
  }

  lemma Mul3Laws(a: Vec3, b: Vec3, s: real)
    ensures Mul3(a, b) == Mul3(b, a)
    ensures Mul3(a, Vec3(1.0, 1.0, 1.0)) == a
    ensures Mul3(a, Vec3(s, s, s)) == Scale3(a, s)
  {
  }

  /** The cross product is perpendicular to both factors. */
  lemma CrossIsOrthogonal(a: Vec3, b: Vec3)
    ensures Dot3(Cross3(a, b), a) == 0.0
    ensures Dot3(Cross3(a, b), b) == 0.0
  {
  }

  /** Swapping the factors negates the cross product; a vector crossed with itself is zero. */
  lemma CrossAnticommutes(a: Vec3, b: Vec3)
    ensures Cross3(b, a) == Neg3(Cross3(a, b))
    ensures Cross3(a, a) == Vec3(0.0, 0.0, 0.0)
  {
  }

  // ---------------------------------------------------------------------
  // normalize / normalized
  // ---------------------------------------------------------------------

  /** A non-negative number whose square is zero is zero. */
  lemma {:induction false} ZeroSquare(len: real)
    requires len >= 0.0 && len * len == 0.0
    ensures len == 0.0
  {
    if len > 0.0 {
      ZeroFactorOfSquare(1.0, len);
    }
  }

  /** The zero vector has length zero. */
  lemma {:induction false} ZeroVectorLength2(len: real)
    requires len >= 0.0 && len * len == SquaredLength2(Vec2(0.0, 0.0))
    ensures len == 0.0
  {
    assert len * len == 0.0;
    ZeroSquare(len);
  }

  lemma {:induction false} ZeroVectorLength3(len: real)
    requires len >= 0.0 && len * len == SquaredLength3(Vec3(0.0, 0.0, 0.0))
    ensures len == 0.0
  {
    assert len * len == 0.0;
    ZeroSquare(len);
  }

  /** Normalising the zero vector always throws. */
  lemma {:induction false} Normalized2ZeroFails(len: real)
    requires IsLength2(Vec2(0.0, 0.0), len)
    ensures Normalized2(Vec2(0.0, 0.0), len) == Err(DivisionByZero)
  {
    ZeroVectorLength2(len);
  }

  lemma {:induction false} Normalized3ZeroFails(len: real)
    requires IsLength3(Vec3(0.0, 0.0, 0.0), len)
    ensures Normalized3(Vec3(0.0, 0.0, 0.0), len) == Err(DivisionByZero)
  {
    ZeroVectorLength3(len);
  }

  /** A zero length on either side makes `angle` throw. */
  lemma AngleNeedsNonzeroLengths(a: Vec3, b: Vec3, lenA: real, lenB: real, phi: real)
    requires IsLength3(a, lenA) && IsLength3(b, lenB)
    requires lenA == 0.0 || lenB == 0.0
    ensures Angle3(a, b, lenA, lenB, phi) == Err(DivisionByZero)
  {
  }

  /** The normalised vector points the same way: scaled back by the length it is v. */
  lemma {:induction false} NormalizedKeepsDirection2(v: Vec2, len: real)
    requires IsLength2(v, len) && Normalized2(v, len).Ok?
    ensures Scale2(Normalized2(v, len).value, len) == v
  {
    var n := Normalized2(v, len).value;
    assert n == Vec2(v.x / len, v.y / len);
    DivThenMul(v.x, len);
    DivThenMul(v.y, len);
  }

  lemma {:induction false} NormalizedKeepsDirection3(v: Vec3, len: real)
    requires IsLength3(v, len) && Normalized3(v, len).Ok?
    ensures Scale3(Normalized3(v, len).value, len) == v
  {
    var n := Normalized3(v, len).value;
    assert n == Vec3(v.x / len, v.y / len, v.z / len);
    DivThenMul(v.x, len);
    DivThenMul(v.y, len);
    DivThenMul(v.z, len);
  }

  lemma DivThenMul(p: real, s: real)
    requires s != 0.0
    ensures (p / s) * s == p
  {
  }

  /** A unit vector is left as it is. */
  lemma NormalizedUnitIsFixed2(v: Vec2)
    requires SquaredLength2(v) == 1.0
    ensures IsLength2(v, 1.0)
    ensures Normalized2(v, 1.0) == Ok(v)
  {
  }

  lemma NormalizedUnitIsFixed3(v: Vec3)
    requires SquaredLength3(v) == 1.0
    ensures IsLength3(v, 1.0)
    ensures Normalized3(v, 1.0) == Ok(v)
  {
  }
}

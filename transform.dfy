/**
 * The rigid transform carried through the toolkit: a rotation (a versor), a
 * translation, an error estimate and a validity period.  The operations that
 * compute a new transform are functions on TransformValue; the setters that
 * overwrite a transform in place are methods of the class Transform.
 *
 * The versor arithmetic is the textbook one for unit quaternions, with the
 * components in the order x, y, z, w.  The time stamp keeps a start and an
 * expiration time in milliseconds; the clock is passed in as `now`.
 */
module Transforms {

  datatype Vec3 = Vec3(x: real, y: real, z: real)

  /** A rotation as a quaternion, components in the order x, y, z, w. */
  datatype Versor = Versor(x: real, y: real, z: real, w: real)

  /** A validity period in milliseconds. */
  datatype TimeStamp = TimeStamp(start: real, expiration: real)

  datatype TransformValue = TransformValue(error: real, translation: Vec3, rotation: Versor, stamp: TimeStamp)

  const ZeroVector: Vec3 := Vec3(0.0, 0.0, 0.0)
  const IdentityVersor: Versor := Versor(0.0, 0.0, 0.0, 1.0)
  /** The time stamp of a transform that was never stamped. */
  const NeverStamped: TimeStamp := TimeStamp(0.0, 0.0)

  function Pow2(n: nat): (r: nat)
    ensures r >= 1
  {
    if n == 0 then 1 else 2 * Pow2(n - 1)
  }

  /** The smallest positive normalised double, 2^-1022: the error of a
      transform is never zero. */
  const SmallestPositiveError: real := 1.0 / (Pow2(1022) as real)

  lemma SmallestPositiveErrorIsPositive()
    ensures SmallestPositiveError > 0.0
  {
    assert Pow2(1022) >= 1;
  }

  // ---------------------------------------------------------------- vectors

  function Add(a: Vec3, b: Vec3): Vec3 { Vec3(a.x + b.x, a.y + b.y, a.z + b.z) }

  function Negate(a: Vec3): Vec3 { Vec3(-a.x, -a.y, -a.z) }

  function Abs(r: real): real { if r < 0.0 then -r else r }

  // ---------------------------------------------------------------- versors

  /** The Hamilton product a * b: rotating by b first, then by a. */
  function Multiply(a: Versor, b: Versor): Versor
  {
    Versor(a.w * b.x + a.x * b.w + a.y * b.z - a.z * b.y,
           a.w * b.y - a.x * b.z + a.y * b.w + a.z * b.x,
           a.w * b.z + a.x * b.y - a.y * b.x + a.z * b.w,
           a.w * b.w - a.x * b.x - a.y * b.y - a.z * b.z)
  }

  function Conjugate(q: Versor): Versor { Versor(-q.x, -q.y, -q.z, q.w) }

  /** The reciprocal of a versor, which is its conjugate. */
  function Reciprocal(q: Versor): Versor { Conjugate(q) }

  function SquaredNorm(q: Versor): real { q.x * q.x + q.y * q.y + q.z * q.z + q.w * q.w }

  ghost predicate IsUnit(q: Versor) { SquaredNorm(q) == 1.0 }

  /** A 3x3 matrix given by its rows. */
  datatype Matrix3 = Matrix3(row0: Vec3, row1: Vec3, row2: Vec3)

  /** The rotation matrix of q. */
  function RotationMatrix(q: Versor): Matrix3
  {
    var xx, yy, zz := q.x * q.x, q.y * q.y, q.z * q.z;
    var xy, xz, yz := q.x * q.y, q.x * q.z, q.y * q.z;
    var xw, yw, zw := q.x * q.w, q.y * q.w, q.z * q.w;
    Matrix3(Vec3(1.0 - 2.0 * (yy + zz), 2.0 * (xy - zw), 2.0 * (xz + yw)),
            Vec3(2.0 * (xy + zw), 1.0 - 2.0 * (xx + zz), 2.0 * (yz - xw)),
            Vec3(2.0 * (xz - yw), 2.0 * (yz + xw), 1.0 - 2.0 * (xx + yy)))
  }

  function Dot(a: Vec3, v: Vec3): real { a.x * v.x + a.y * v.y + a.z * v.z }

  /** The product of a matrix and a column vector. */
  function Apply(m: Matrix3, v: Vec3): Vec3
  {
    Vec3(Dot(m.row0, v), Dot(m.row1, v), Dot(m.row2, v))
  }

  const UnitMatrix: Matrix3 := Matrix3(Vec3(1.0, 0.0, 0.0), Vec3(0.0, 1.0, 0.0), Vec3(0.0, 0.0, 1.0))

  /** The rotation of v by q, through the rotation matrix of q. */
  function Rotate(q: Versor, v: Vec3): Vec3
  {
    Apply(RotationMatrix(q), v)
  }

  lemma IdentityMatrix()
    ensures RotationMatrix(IdentityVersor) == UnitMatrix
  {
  }

  lemma ApplyUnit(v: Vec3)
    ensures Apply(UnitMatrix, v) == v
  {
  }

  /** The identity versor leaves every vector where it is. */
  lemma IdentityRotatesNothing(v: Vec3)
    ensures Rotate(IdentityVersor, v) == v
  {
    IdentityMatrix();
    ApplyUnit(v);
  }

  lemma ApplyZero(m: Matrix3)
    ensures Apply(m, ZeroVector) == ZeroVector
  {
  }

  /** No rotation moves the origin. */
  lemma RotateZero(q: Versor)
    ensures Rotate(q, ZeroVector) == ZeroVector
  {
    ApplyZero(RotationMatrix(q));
  }

  lemma DotNegate(a: Vec3, v: Vec3)
    ensures Dot(a, Negate(v)) == -Dot(a, v)
  {
    assert a.x * -v.x == -(a.x * v.x) && a.y * -v.y == -(a.y * v.y) && a.z * -v.z == -(a.z * v.z);
  }

  /** Rotation is linear: rotating the opposite vector gives the opposite
      of the rotated vector. */
  lemma RotateNegate(q: Versor, v: Vec3)
    ensures Rotate(q, Negate(v)) == Negate(Rotate(q, v))
  {
    var m := RotationMatrix(q);
    DotNegate(m.row0, v);
    DotNegate(m.row1, v);
    DotNegate(m.row2, v);
  }

  /** The identity versor is neutral on either side of a product. */
  lemma MultiplyIdentity(q: Versor)
    ensures Multiply(IdentityVersor, q) == q && Multiply(q, IdentityVersor) == q
  {
  }

  lemma ConjugateTimesUnit(q: Versor)
    requires IsUnit(q)
    ensures Multiply(Conjugate(q), q) == IdentityVersor
  {
  }

  // ------------------------------------------------------------- time stamps

  /** The stamp of a transform set at time `now` to expire after `ms`. */
  function StampFrom(now: real, ms: real): TimeStamp { TimeStamp(now, now + ms) }

  function Max(a: real, b: real): real { if a < b then b else a }

  function Min(a: real, b: real): real { if a < b then a else b }

  /** The period in which both stamps are valid. */
  function ComputeOverlap(a: TimeStamp, b: TimeStamp): TimeStamp
  {
    TimeStamp(Max(a.start, b.start), Min(a.expiration, b.expiration))
  }

  /** A stamp is valid from its start time up to, but not including, its
      expiration time. */
  predicate StampValidAt(s: TimeStamp, t: real) { s.start <= t < s.expiration }

  lemma OverlapValidIffBothValid(a: TimeStamp, b: TimeStamp, t: real)
    ensures StampValidAt(ComputeOverlap(a, b), t) <==> StampValidAt(a, t) && StampValidAt(b, t)
  {
  }

  // --------------------------------------------------------- transform values

  /** A default-constructed transform: the identity, never stamped, with the
      smallest positive error. */
  const DefaultTransform: TransformValue :=
    TransformValue(SmallestPositiveError, ZeroVector, IdentityVersor, NeverStamped)

  function StartTime(t: TransformValue): real { t.stamp.start }

  function ExpirationTime(t: TransformValue): real { t.stamp.expiration }

  predicate IsValidAtTime(t: TransformValue, time: real) { StampValidAt(t.stamp, time) }

  /** The transform that applies `right` first and then `left`. */
  function TransformCompose(left: TransformValue, right: TransformValue): (r: TransformValue)
    ensures r.rotation == Multiply(left.rotation, right.rotation)
    ensures r.translation == Add(Rotate(left.rotation, right.translation), left.translation)
    ensures r.error == left.error + right.error
    ensures forall time :: IsValidAtTime(r, time) <==> IsValidAtTime(left, time) && IsValidAtTime(right, time)
  {
    var rotation := Multiply(left.rotation, right.rotation);
    var translation := Add(Rotate(left.rotation, right.translation), left.translation);
    var r := TransformValue(left.error + right.error, translation, rotation, ComputeOverlap(left.stamp, right.stamp));
    assert forall time :: IsValidAtTime(r, time) <==> IsValidAtTime(left, time) && IsValidAtTime(right, time) by {
      forall time ensures IsValidAtTime(r, time) <==> IsValidAtTime(left, time) && IsValidAtTime(right, time) {
        OverlapValidIffBothValid(left.stamp, right.stamp, time);
      }
    }
    r
  }

  /** The inverse transform: the conjugate rotation, the translation rotated
      back and negated; error and time stamp are kept. */
  function GetInverse(t: TransformValue): (r: TransformValue)
    ensures r.error == t.error
    ensures forall time :: IsValidAtTime(r, time) <==> IsValidAtTime(t, time)
    ensures SquaredNorm(r.rotation) == SquaredNorm(t.rotation)
    ensures IsUnit(t.rotation) ==> IsUnit(r.rotation)
  {
    var conj := Conjugate(t.rotation);
    TransformValue(t.error, Rotate(conj, Negate(t.translation)), conj, t.stamp)
  }

  /** Composing the inverse of a transform with the transform leaves no
      translation; for a unit rotation it leaves no rotation either. */
  lemma {:induction false} InverseThenTransformIsIdentity(t: TransformValue)
    ensures TransformCompose(GetInverse(t), t).translation == ZeroVector
    ensures IsUnit(t.rotation) ==> TransformCompose(GetInverse(t), t).rotation == IdentityVersor
    ensures TransformCompose(GetInverse(t), t).error == 2.0 * t.error
    ensures TransformCompose(GetInverse(t), t).stamp == t.stamp
  {
    var conj := Conjugate(t.rotation);
    RotateNegate(conj, t.translation);
    if IsUnit(t.rotation) {
      ConjugateTimesUnit(t.rotation);
    }
  }

  lemma InverseInvolution(t: TransformValue)
    ensures GetInverse(GetInverse(t)).rotation == t.rotation
    ensures GetInverse(GetInverse(t)).error == t.error
    ensures GetInverse(GetInverse(t)).stamp == t.stamp
  {
  }

  /** The identity transform with error `e` and stamp `s`. */
  function IdentityTransform(e: real, s: TimeStamp): TransformValue
  {
    TransformValue(e, ZeroVector, IdentityVersor, s)
  }

  lemma ComposeWithIdentityOnLeft(t: TransformValue, e: real, s: TimeStamp)
    ensures TransformCompose(IdentityTransform(e, s), t).rotation == t.rotation
    ensures TransformCompose(IdentityTransform(e, s), t).translation == t.translation
  {
    IdentityRotatesNothing(t.translation);
    MultiplyIdentity(t.rotation);
  }

  lemma ComposeWithIdentityOnRight(t: TransformValue, e: real, s: TimeStamp)
    ensures TransformCompose(t, IdentityTransform(e, s)).rotation == t.rotation
    ensures TransformCompose(t, IdentityTransform(e, s)).translation == t.translation
  {
    RotateZero(t.rotation);
    MultiplyIdentity(t.rotation);
  }

  /** Composing with an identity transform, whatever its error and stamp,
      on either side, keeps the other transform's rotation and translation. */
  lemma ComposeWithIdentity(t: TransformValue, e: real, s: TimeStamp)
    ensures var id := IdentityTransform(e, s);
      TransformCompose(id, t).rotation == t.rotation && TransformCompose(id, t).translation == t.translation &&
      TransformCompose(t, id).rotation == t.rotation && TransformCompose(t, id).translation == t.translation
  {
    ComposeWithIdentityOnLeft(t, e, s);
    ComposeWithIdentityOnRight(t, e, s);
  }

  /** Whether two transforms agree within `tol`: the squared scalar part of
      the rotation ratio must be within `tol` of one, and every translation
      component within `tol`. */
  predicate NumericallyEquivalent(a: TransformValue, b: TransformValue, tol: real)
  {
    RotationError(a, b) <= tol &&
    forall i :: 0 <= i < 3 ==> Abs(Component(a.translation, i) - Component(b.translation, i)) <= tol
  }

  /** How far the rotation of `a` relative to `b` is from no rotation: one
      minus the square of the scalar part of their ratio. */
  function RotationError(a: TransformValue, b: TransformValue): real
  {
    var ratio := Multiply(a.rotation, Reciprocal(b.rotation));
    Abs(1.0 - ratio.w * ratio.w)
  }

  /** The `i`-th component of a vector. */
  function Component(v: Vec3, i: nat): real
    requires i < 3
  {
    if i == 0 then v.x else if i == 1 then v.y else v.z
  }

  lemma {:induction false} NumericallyEquivalentToItself(t: TransformValue, tol: real)
    requires IsUnit(t.rotation) && tol >= 0.0
    ensures NumericallyEquivalent(t, t, tol)
  {
    var q := t.rotation;
    var ratio := Multiply(q, Reciprocal(q));
    assert ratio.w == SquaredNorm(q);
    assert RotationError(t, t) == 0.0;
  }

  lemma RotationApartIsNotEquivalent(a: TransformValue, b: TransformValue, tol: real)
    requires RotationError(a, b) > tol
    ensures !NumericallyEquivalent(a, b, tol)
  {
  }

  lemma TranslationApartIsNotEquivalent(a: TransformValue, b: TransformValue, tol: real)
    requires Abs(a.translation.x - b.translation.x) > tol ||
             Abs(a.translation.y - b.translation.y) > tol ||
             Abs(a.translation.z - b.translation.z) > tol
    ensures !NumericallyEquivalent(a, b, tol)
  {
    if Abs(a.translation.x - b.translation.x) > tol {
      assert Abs(Component(a.translation, 0) - Component(b.translation, 0)) > tol;
    } else if Abs(a.translation.y - b.translation.y) > tol {
      assert Abs(Component(a.translation, 1) - Component(b.translation, 1)) > tol;
    } else {
      assert Abs(Component(a.translation, 2) - Component(b.translation, 2)) > tol;
    }
  }

  /** Otherwise the two are equivalent: rotations and every translation
      component within the tolerance. */
  lemma CloseTransformsAreEquivalent(a: TransformValue, b: TransformValue, tol: real)
    requires RotationError(a, b) <= tol
    requires Abs(a.translation.x - b.translation.x) <= tol
    requires Abs(a.translation.y - b.translation.y) <= tol
    requires Abs(a.translation.z - b.translation.z) <= tol
    ensures NumericallyEquivalent(a, b, tol)
  {
  }

  /** A transform object whose fields the setters overwrite in place. */
  class Transform {
    var error: real
    var translation: Vec3
    var rotation: Versor
    var stamp: TimeStamp

    function Value(): TransformValue
      reads this
    {
      TransformValue(error, translation, rotation, stamp)
    }

    constructor ()
      ensures Value() == DefaultTransform
      ensures error > 0.0
    {
      SmallestPositiveErrorIsPositive();
      error := SmallestPositiveError;
      translation := ZeroVector;
      rotation := IdentityVersor;
      stamp := NeverStamped;
    }

    constructor Copy(other: Transform)
      ensures Value() == other.Value()
    {
      error := other.error;
      translation := other.translation;
      rotation := other.rotation;
      stamp := other.stamp;
    }

    /** Assignment: copies the four fields of `other`. */
    method Assign(other: Transform)
      modifies this
      ensures Value() == old(other.Value())
    {
      translation := other.translation;
      rotation := other.rotation;
      error := other.error;
      stamp := other.stamp;
    }

    method SetTranslationAndRotation(t: Vec3, r: Versor, errorValue: real, ms: real, now: real)
      modifies this
      ensures Value() == TransformValue(errorValue, t, r, StampFrom(now, ms))
      ensures forall time :: IsValidAtTime(Value(), time) <==> now <= time < now + ms
      ensures IsValidAtTime(Value(), now) <==> ms > 0.0
    {
      stamp := StampFrom(now, ms);
      translation := t;
      rotation := r;
      error := errorValue;
    }

    /** Sets the translation; the rotation becomes the identity. */
    method SetTranslation(t: Vec3, errorValue: real, ms: real, now: real)
      modifies this
      ensures Value() == TransformValue(errorValue, t, IdentityVersor, StampFrom(now, ms))
      ensures forall v :: Rotate(rotation, v) == v
    {
      stamp := StampFrom(now, ms);
      translation := t;
      error := errorValue;
      rotation := IdentityVersor;
      forall v ensures Rotate(rotation, v) == v {
        IdentityRotatesNothing(v);
      }
    }

    /** Sets the rotation; the translation becomes zero. */
    method SetRotation(r: Versor, errorValue: real, ms: real, now: real)
      modifies this
      ensures Value() == TransformValue(errorValue, ZeroVector, r, StampFrom(now, ms))
    {
      stamp := StampFrom(now, ms);
      rotation := r;
      error := errorValue;
      translation := ZeroVector;
    }

    method SetToIdentity(ms: real, now: real)
      modifies this
      ensures Value() == DefaultTransform.(stamp := StampFrom(now, ms))
      ensures error > 0.0
    {
      SmallestPositiveErrorIsPositive();
      stamp := StampFrom(now, ms);
      translation := ZeroVector;
      rotation := IdentityVersor;
      error := SmallestPositiveError;
    }

    /** Compares the rotations first, then the translation component by
        component, and gives up at the first difference over `tol`. */
    method IsNumericallyEquivalent(other: Transform, tol: real) returns (b: bool)
      ensures b == NumericallyEquivalent(Value(), other.Value(), tol)
    {
      var versorError := RotationError(Value(), other.Value());
      if versorError > tol {
        return false;
      }
      var i := 0;
      while i < 3
        invariant 0 <= i <= 3
        invariant forall k :: 0 <= k < i ==> Abs(Component(translation, k) - Component(other.translation, k)) <= tol
      {
        if Abs(Component(translation, i) - Component(other.translation, i)) > tol {
          return false;
        }
        i := i + 1;
      }
      return true;
    }

    /** Two transforms are equal only when they are the same object. */
    method Equals(other: Transform) returns (b: bool)
      ensures b <==> this == other
    {
      b := this == other;
    }

    method NotEquals(other: Transform) returns (b: bool)
      ensures b <==> this != other
    {
      var same := Equals(other);
      b := !same;
    }
  }
}

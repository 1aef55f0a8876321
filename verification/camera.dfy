/** The camera: an eye position and a left/up/forward basis in world
    coordinates, an orientation quaternion, a lazily rebuilt view matrix,
    and a counter that renormalises the basis every 1001st rotation. */
module Cameras {
  import opened Geometry
  import opened Frustums
  import opened CInt

  /** `c_rotation_hit_count_max`. */
  const RotationHitCountMax: int := 1000

  /** The threshold below which `look_at` accepts forward . up as zero. */
  const OrthogonalityTolerance: real := 0.0000001

  /** The counter after one more rotation. */
  function NextHitCount(count: int): int
  {
    if count + 1 > RotationHitCountMax then 0 else count + 1
  }

  /** Whether the rotation that finds the counter at `count` renormalises. */
  predicate Renormalises(count: int)
  {
    count + 1 > RotationHitCountMax
  }

  /** The counter after k rotations of a new camera. */
  function HitCountAfter(k: nat): int
  {
    if k == 0 then 0 else NextHitCount(HitCountAfter(k - 1))
  }

  /** The counter runs through 0..1000 and starts over, so that exactly
      the rotations numbered 1001, 2002, ... renormalise. */
  lemma {:induction false} HitCountCycle(k: nat)
    ensures HitCountAfter(k) == k % (RotationHitCountMax + 1)
    ensures Renormalises(HitCountAfter(k)) <==> (k + 1) % (RotationHitCountMax + 1) == 0
  {
    var n := RotationHitCountMax + 1;
    if k > 0 {
      HitCountCycle(k - 1);
      ModSucc(k - 1, n);
    }
    ModSucc(k, n);
  }

  /** The counter never leaves 0..1000. */
  lemma HitCountBounded(count: int)
    requires 0 <= count <= RotationHitCountMax
    ensures 0 <= NextHitCount(count) <= RotationHitCountMax
    ensures NextHitCount(count) == 0 <==> Renormalises(count)
  {
  }

  datatype Basis = Basis(left: Vec3, up: Vec3, forward: Vec3)

  ghost predicate Orthogonal(b: Basis)
  {
    Dot(b.left, b.up) == 0.0 && Dot(b.left, b.forward) == 0.0 && Dot(b.up, b.forward) == 0.0
  }

  /** `init_local_coordinate_system`: looking down -z with +y up. */
  const DefaultBasis: Basis := Basis(Vec3(-1.0, 0.0, 0.0), Vec3(0.0, 1.0, 0.0), Vec3(0.0, 0.0, -1.0))

  lemma DefaultBasisOrthogonal()
    ensures Orthogonal(DefaultBasis)
  {
  }

  /** `normalize_camera` on the basis: forward is kept (normalised), left
      and up are rebuilt from it by cross products. The normalised left is
      overwritten at once, so it does not appear. */
  function Renormalised(maths: Maths, b: Basis): (r: Basis)
    ensures Orthogonal(r)
    ensures r.forward == maths.normalize(b.forward)
  {
    var up := maths.normalize(b.up);
    var forward := maths.normalize(b.forward);
    var left := Cross(up, forward);
    CrossOrthogonal(up, forward);
    CrossOrthogonal(forward, left);
    Basis(left, Cross(forward, left), forward)
  }

  /** The view matrix for an orientation and an eye: the inverse rotation
      (the conjugate quaternion) followed by the translation by -eye. */
  function ViewOf(orientation: Quat, eye: Vec3): Mat4
  {
    PostTranslate(RotationOf(Conjugate(orientation)), Neg(eye))
  }

  /** The basis `look_at(center)` builds: forward towards the centre, the
      old up projected onto the plane normal to it, left = up x forward,
      and up rebuilt as forward x left when forward . up exceeds the
      tolerance. */
  function LookAtBasis(maths: Maths, eye: Vec3, up: Vec3, center: Vec3): (r: Basis)
    ensures r.forward == maths.normalize(Sub(center, eye))
    ensures Dot(r.left, r.up) == 0.0 && Dot(r.left, r.forward) == 0.0
    ensures Dot(r.forward, r.up) <= OrthogonalityTolerance
  {
    var forward := maths.normalize(Sub(center, eye));
    var onPlane := Add(Add(eye, up), Scale(-1.0 * Dot(forward, up), forward));
    var projected := maths.normalize(Sub(onPlane, eye));
    var left := Cross(projected, forward);
    CrossOrthogonal(projected, forward);
    CrossOrthogonal(forward, left);
    var newUp := if Dot(forward, projected) > OrthogonalityTolerance then Cross(forward, left) else projected;
    Basis(left, newUp, forward)
  }

  /** The basis `look_at(eye, center, up)` builds: forward towards the
      centre, left = normalize(up x forward), up = forward x left. */
  function LookAtFromBasis(maths: Maths, eye: Vec3, center: Vec3, upHint: Vec3): Basis
  {
    var forward := maths.normalize(Sub(center, eye));
    var left := maths.normalize(Cross(upHint, forward));
    Basis(left, Cross(forward, left), forward)
  }

  /** The basis `look_at(eye, center, up)` builds looks at the centre, and
      its up is orthogonal to forward and left whatever the up hint. */
  lemma LookAtFromOrthogonal(maths: Maths, eye: Vec3, center: Vec3, upHint: Vec3)
    ensures var r := LookAtFromBasis(maths, eye, center, upHint);
      r.forward == maths.normalize(Sub(center, eye)) && r.left == maths.normalize(Cross(upHint, r.forward)) &&
      Dot(r.up, r.forward) == 0.0 && Dot(r.up, r.left) == 0.0
  {
    var r := LookAtFromBasis(maths, eye, center, upHint);
    CrossOrthogonal(r.forward, r.left);
  }

  /** `quat_cast` of the matrix whose columns are -left, up and -forward. */
  function OrientationOf(b: Basis): Quat
  {
    FromBasis(Scale(-1.0, b.left), b.up, Scale(-1.0, b.forward))
  }

  /** The displacement `translate_local(l, u, f)` adds to the eye. */
  function LocalDisplacement(b: Basis, l: real, u: real, f: real): Vec3
  {
    Add(Add(Scale(l, b.left), Scale(u, b.up)), Scale(f, b.forward))
  }

  /** Along an orthogonal basis, each local amount moves the eye along its
      own axis only. */
  lemma LocalDisplacementComponents(b: Basis, l: real, u: real, f: real)
    requires Orthogonal(b)
    ensures Dot(LocalDisplacement(b, l, u, f), b.left) == l * Dot(b.left, b.left)
    ensures Dot(LocalDisplacement(b, l, u, f), b.up) == u * Dot(b.up, b.up)
    ensures Dot(LocalDisplacement(b, l, u, f), b.forward) == f * Dot(b.forward, b.forward)
  {
    var d := LocalDisplacement(b, l, u, f);
    DotLinear(Scale(l, b.left), Scale(u, b.up), Scale(f, b.forward), b.left);
    DotLinear(Scale(l, b.left), Scale(u, b.up), Scale(f, b.forward), b.up);
    DotLinear(Scale(l, b.left), Scale(u, b.up), Scale(f, b.forward), b.forward);
    DotScale(l, b.left, b.left);
    DotScale(u, b.up, b.left);
    DotScale(f, b.forward, b.left);
    DotScale(l, b.left, b.up);
    DotScale(u, b.up, b.up);
    DotScale(f, b.forward, b.up);
    DotScale(l, b.left, b.forward);
    DotScale(u, b.up, b.forward);
    DotScale(f, b.forward, b.forward);
    DotSymmetric(b.up, b.left);
    DotSymmetric(b.forward, b.left);
    DotSymmetric(b.forward, b.up);
  }

  lemma DotLinear(a: Vec3, b: Vec3, c: Vec3, v: Vec3)
    ensures Dot(Add(Add(a, b), c), v) == Dot(a, v) + Dot(b, v) + Dot(c, v)
  {
  }

  lemma DotScale(s: real, a: Vec3, v: Vec3)
    ensures Dot(Scale(s, a), v) == s * Dot(a, v)
  {
  }

  lemma DotSymmetric(a: Vec3, b: Vec3)
    ensures Dot(a, b) == Dot(b, a)
  {
  }

  class Camera {
    const frustum: Frustum
    const maths: Maths
    var eyePosition: Vec3
    var orientation: Quat
    var left: Vec3
    var up: Vec3
    var forward: Vec3
    /** Raised by every mutator; the view matrix is rebuilt on the next read. */
    var recalcViewMatrix: bool
    var viewMatrix: Mat4
    /** `unsigned short`; it never leaves 0..1000, so it never wraps. */
    var rotationHitCount: int

    ghost predicate Valid()
      reads this
    {
      0 <= rotationHitCount <= RotationHitCountMax
    }

    function BasisOf(): Basis
      reads this
    {
      Basis(left, up, forward)
    }

    /** The cache holds the view of the current orientation and eye
        whenever it is not due for a rebuild. */
    ghost predicate Coherent()
      reads this
    {
      !recalcViewMatrix ==> viewMatrix == ViewOf(orientation, eyePosition)
    }

    /** The matrix `get_view_matrix` answers in the current state. */
    function CurrentView(): (m: Mat4)
      reads this
      ensures Coherent() ==> m == ViewOf(orientation, eyePosition)
    {
      if recalcViewMatrix then ViewOf(orientation, eyePosition) else viewMatrix
    }

    /** The state after a rotation that found the counter at `count` and
        left the basis `b` and orientation `q`: the counter has moved on,
        and on a renormalising rotation `normalize_camera` has run. */
    ghost predicate Registered(count: int, b: Basis, q: Quat)
      reads this
    {
      rotationHitCount == NextHitCount(count) &&
      if Renormalises(count) then BasisOf() == Renormalised(maths, b) && orientation == Normalized(q)
      else BasisOf() == b && orientation == q
    }

    /** The default camera: a default frustum, the default basis at the
        origin, a default orientation, and a view due for a rebuild. */
    constructor (maths: Maths)
      ensures fresh(frustum) && this.maths == maths && Valid() && Coherent()
      ensures BasisOf() == DefaultBasis && eyePosition == Zero3 && orientation == IdentityQuat
      ensures rotationHitCount == 0 && recalcViewMatrix
    {
      frustum := new Frustum();
      this.maths := maths;
      left, up, forward := DefaultBasis.left, DefaultBasis.up, DefaultBasis.forward;
      eyePosition, orientation := Zero3, IdentityQuat;
      recalcViewMatrix, viewMatrix, rotationHitCount := true, IdentityMat4, 0;
    }

    /** An orthographic camera. This constructor does not initialise the
        view flag, so its value is a parameter. */
    constructor Orthographic(maths: Maths, left: real, right: real, bottom: real, top: real,
                             zNear: real, zFar: real, indeterminateFlag: bool)
      ensures fresh(frustum) && !frustum.isPerspective && this.maths == maths && Valid()
      ensures frustum.projectionMatrix == Ortho(left, right, bottom, top, zNear, zFar)
      ensures BasisOf() == DefaultBasis && eyePosition == Zero3 && orientation == IdentityQuat
      ensures rotationHitCount == 0 && recalcViewMatrix == indeterminateFlag && viewMatrix == IdentityMat4
    {
      frustum := new Frustum.Orthographic(maths, left, right, bottom, top, zNear, zFar);
      this.maths := maths;
      this.left, this.up, this.forward := DefaultBasis.left, DefaultBasis.up, DefaultBasis.forward;
      eyePosition, orientation := Zero3, IdentityQuat;
      recalcViewMatrix, viewMatrix, rotationHitCount := indeterminateFlag, IdentityMat4, 0;
    }

    /** A perspective camera. */
    constructor PerspectiveView(maths: Maths, fovy: real, aspectRatio: real, zNear: real, zFar: real)
      ensures fresh(frustum) && frustum.isPerspective && this.maths == maths && Valid() && Coherent()
      ensures frustum.fovy == fovy && frustum.aspectRatio == aspectRatio
      ensures frustum.zNear == zNear && frustum.zFar == zFar
      ensures BasisOf() == DefaultBasis && eyePosition == Zero3 && orientation == IdentityQuat
      ensures rotationHitCount == 0 && recalcViewMatrix
    {
      frustum := new Frustum.PerspectiveView(fovy, aspectRatio, zNear, zFar);
      this.maths := maths;
      left, up, forward := DefaultBasis.left, DefaultBasis.up, DefaultBasis.forward;
      eyePosition, orientation := Zero3, IdentityQuat;
      recalcViewMatrix, viewMatrix, rotationHitCount := true, IdentityMat4, 0;
    }

    method SetPosition(v: Vec3)
      modifies this
      ensures eyePosition == v && recalcViewMatrix && Coherent()
      ensures BasisOf() == old(BasisOf()) && orientation == old(orientation)
      ensures rotationHitCount == old(rotationHitCount)
    {
      eyePosition := v;
      recalcViewMatrix := true;
    }

    method Translate(v: Vec3)
      modifies this
      ensures eyePosition == Add(old(eyePosition), v) && recalcViewMatrix && Coherent()
      ensures BasisOf() == old(BasisOf()) && orientation == old(orientation)
      ensures rotationHitCount == old(rotationHitCount)
    {
      eyePosition := Add(eyePosition, v);
      recalcViewMatrix := true;
    }

    /** Moves the eye by amounts along its own left, up and forward axes. */
    method TranslateLocal(l: real, u: real, f: real)
      modifies this
      ensures eyePosition == Add(old(eyePosition), LocalDisplacement(old(BasisOf()), l, u, f))
      ensures recalcViewMatrix && Coherent()
      ensures BasisOf() == old(BasisOf()) && orientation == old(orientation)
      ensures rotationHitCount == old(rotationHitCount)
    {
      eyePosition := Add(eyePosition, Scale(l, left));
      eyePosition := Add(eyePosition, Scale(u, up));
      eyePosition := Add(eyePosition, Scale(f, forward));
      recalcViewMatrix := true;
    }

    /** Answers the current view and caches it. */
    method GetViewMatrix() returns (m: Mat4)
      modifies this
      ensures m == old(CurrentView()) && CurrentView() == m
      ensures old(Coherent()) ==> m == ViewOf(orientation, eyePosition)
      ensures !recalcViewMatrix && viewMatrix == m
      ensures eyePosition == old(eyePosition) && orientation == old(orientation)
      ensures BasisOf() == old(BasisOf()) && rotationHitCount == old(rotationHitCount)
    {
      if recalcViewMatrix {
        viewMatrix := PostTranslate(RotationOf(Conjugate(orientation)), Neg(eyePosition));
        recalcViewMatrix := false;
      }
      m := viewMatrix;
    }

    method NormalizeCamera()
      modifies this
      ensures BasisOf() == Renormalised(maths, old(BasisOf())) && Orthogonal(BasisOf())
      ensures orientation == Normalized(old(orientation))
      ensures eyePosition == old(eyePosition) && rotationHitCount == old(rotationHitCount)
      ensures recalcViewMatrix == old(recalcViewMatrix) && viewMatrix == old(viewMatrix)
    {
      var b := Renormalised(maths, BasisOf());
      left, up, forward := b.left, b.up, b.forward;
      orientation := Normalized(orientation);
    }

    method RegisterRotation()
      requires Valid()
      modifies this
      ensures Valid() && Registered(old(rotationHitCount), old(BasisOf()), old(orientation))
      ensures eyePosition == old(eyePosition)
      ensures recalcViewMatrix == old(recalcViewMatrix) && viewMatrix == old(viewMatrix)
    {
      rotationHitCount := rotationHitCount + 1;
      if rotationHitCount > RotationHitCountMax {
        rotationHitCount := 0;
        NormalizeCamera();
      }
    }

    /** Rotates about the forward axis: forward stays. */
    method Roll(angle: real)
      requires Valid()
      modifies this
      ensures Valid() && recalcViewMatrix && Coherent() && eyePosition == old(eyePosition)
      ensures var q := AngleAxis(angle, old(forward));
        Registered(old(rotationHitCount),
                   Basis(maths.rotate(q, old(left)), maths.rotate(q, old(up)), old(forward)),
                   Product(q, old(orientation)))
      ensures !Renormalises(old(rotationHitCount)) ==> forward == old(forward)
    {
      var q := AngleAxis(angle, forward);
      up := maths.rotate(q, up);
      left := maths.rotate(q, left);
      orientation := Product(q, orientation);
      RegisterRotation();
      recalcViewMatrix := true;
    }

    /** Rotates about the right axis (-left): left stays. */
    method Pitch(angle: real)
      requires Valid()
      modifies this
      ensures Valid() && recalcViewMatrix && Coherent() && eyePosition == old(eyePosition)
      ensures var q := AngleAxis(angle, Neg(old(left)));
        Registered(old(rotationHitCount),
                   Basis(old(left), maths.rotate(q, old(up)), maths.rotate(q, old(forward))),
                   Product(q, old(orientation)))
      ensures !Renormalises(old(rotationHitCount)) ==> left == old(left)
    {
      var q := AngleAxis(angle, Neg(left));
      up := maths.rotate(q, up);
      forward := maths.rotate(q, forward);
      orientation := Product(q, orientation);
      RegisterRotation();
      recalcViewMatrix := true;
    }

    /** Rotates about the up axis: up stays. */
    method Yaw(angle: real)
      requires Valid()
      modifies this
      ensures Valid() && recalcViewMatrix && Coherent() && eyePosition == old(eyePosition)
      ensures var q := AngleAxis(angle, old(up));
        Registered(old(rotationHitCount),
                   Basis(maths.rotate(q, old(left)), old(up), maths.rotate(q, old(forward))),
                   Product(q, old(orientation)))
      ensures !Renormalises(old(rotationHitCount)) ==> up == old(up)
    {
      var q := AngleAxis(angle, up);
      left := maths.rotate(q, left);
      forward := maths.rotate(q, forward);
      orientation := Product(q, orientation);
      RegisterRotation();
      recalcViewMatrix := true;
    }

    /** Rotates all three axes about the normalised axis. */
    method Rotate(angle: real, axis: Vec3)
      requires Valid()
      modifies this
      ensures Valid() && recalcViewMatrix && Coherent() && eyePosition == old(eyePosition)
      ensures var q := AngleAxis(angle, maths.normalize(axis));
        Registered(old(rotationHitCount),
                   Basis(maths.rotate(q, old(left)), maths.rotate(q, old(up)), maths.rotate(q, old(forward))),
                   Product(q, old(orientation)))
    {
      var n := maths.normalize(axis);
      var q := AngleAxis(angle, n);
      left := maths.rotate(q, left);
      up := maths.rotate(q, up);
      forward := maths.rotate(q, forward);
      orientation := Product(q, orientation);
      RegisterRotation();
      recalcViewMatrix := true;
    }

    /** Turns the camera towards `center` from where it stands. Left is
        orthogonal to up and forward afterwards, and forward . up is at
        most the tolerance. */
    method LookAt(center: Vec3)
      requires Valid()
      modifies this
      ensures Valid() && recalcViewMatrix && Coherent() && eyePosition == old(eyePosition)
      ensures var b := LookAtBasis(maths, old(eyePosition), old(up), center);
        Registered(old(rotationHitCount), b, OrientationOf(b))
      ensures Dot(left, up) == 0.0 && Dot(left, forward) == 0.0 && Dot(forward, up) <= OrthogonalityTolerance
    {
      forward := maths.normalize(Sub(center, eyePosition));
      left := Add(eyePosition, up);
      var t := -1.0 * Dot(forward, up);
      left := Add(left, Scale(t, forward));
      up := maths.normalize(Sub(left, eyePosition));
      left := Cross(up, forward);
      if Dot(forward, up) > OrthogonalityTolerance {
        up := Cross(forward, left);
      }
      assert BasisOf() == LookAtBasis(maths, old(eyePosition), old(up), center);
      orientation := OrientationOf(BasisOf());
      RegisterRotation();
      recalcViewMatrix := true;
    }

    /** Places the eye and turns the camera towards `center`, with `upHint`
        fixing the roll; up is orthogonal to forward and left afterwards. */
    method LookAtFrom(eye: Vec3, center: Vec3, upHint: Vec3)
      requires Valid()
      modifies this
      ensures Valid() && recalcViewMatrix && Coherent() && eyePosition == eye
      ensures var b := LookAtFromBasis(maths, eye, center, upHint);
        Registered(old(rotationHitCount), b, OrientationOf(b))
      ensures Dot(up, forward) == 0.0 && Dot(up, left) == 0.0
    {
      eyePosition := eye;
      forward := maths.normalize(Sub(center, eye));
      left := maths.normalize(Cross(upHint, forward));
      up := Cross(forward, left);
      orientation := OrientationOf(BasisOf());
      RegisterRotation();
      recalcViewMatrix := true;
      LookAtFromOrthogonal(maths, eye, center, upHint);
    }
  }
}

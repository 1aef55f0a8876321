/** The view frustum: field of view, aspect ratio and clipping distances,
    and a projection matrix that is recomputed lazily after a setter. */
module Frustums {
  import opened Geometry

  /** The degrees-to-radians factor `get_projection_matrix` applies. */
  const DegreesToRadians: real := 0.0174532925

  class Frustum {
    var fovy: real
    var aspectRatio: real
    var zNear: real
    var zFar: real
    var isPerspective: bool
    /** Raised by every setter; the matrix is rebuilt on the next read. */
    var recalcPerspectiveMatrix: bool
    var projectionMatrix: Mat4

    /** The matrix `get_projection_matrix` answers in the current state:
        a perspective matrix rebuilt from the parameters, fovy taken in
        degrees, when the flag is raised, and the cached one otherwise. */
    function CurrentProjection(): Mat4
      reads this
    {
      if recalcPerspectiveMatrix then Perspective(fovy * DegreesToRadians, aspectRatio, zNear, zFar)
      else projectionMatrix
    }

    /** The default frustum: all zero, orthographic, nothing to rebuild;
        the matrix keeps its default value. */
    constructor ()
      ensures fovy == 0.0 && aspectRatio == 0.0 && zNear == 0.0 && zFar == 0.0
      ensures !isPerspective && !recalcPerspectiveMatrix && projectionMatrix == IdentityMat4
    {
      fovy, aspectRatio, zNear, zFar := 0.0, 0.0, 0.0, 0.0;
      isPerspective, recalcPerspectiveMatrix := false, false;
      projectionMatrix := IdentityMat4;
    }

    /** An orthographic frustum: the aspect ratio is the width of the box
        over its height and the field of view is 0. */
    constructor Orthographic(maths: Maths, left: real, right: real, bottom: real, top: real, zNear: real, zFar: real)
      ensures fovy == 0.0 && aspectRatio == Quotient(maths, right - left, top - bottom)
      ensures this.zNear == zNear && this.zFar == zFar
      ensures !isPerspective && !recalcPerspectiveMatrix
      ensures projectionMatrix == Ortho(left, right, bottom, top, zNear, zFar)
    {
      fovy := 0.0;
      aspectRatio := Quotient(maths, right - left, top - bottom);
      this.zNear, this.zFar := zNear, zFar;
      isPerspective, recalcPerspectiveMatrix := false, false;
      projectionMatrix := Ortho(left, right, bottom, top, zNear, zFar);
    }

    /** A perspective frustum. The field of view goes into the matrix as
        given, without the degree conversion a rebuild applies. */
    constructor PerspectiveView(fovy: real, aspectRatio: real, zNear: real, zFar: real)
      ensures this.fovy == fovy && this.aspectRatio == aspectRatio && this.zNear == zNear && this.zFar == zFar
      ensures isPerspective && !recalcPerspectiveMatrix
      ensures projectionMatrix == Perspective(fovy, aspectRatio, zNear, zFar)
    {
      this.fovy, this.aspectRatio, this.zNear, this.zFar := fovy, aspectRatio, zNear, zFar;
      isPerspective, recalcPerspectiveMatrix := true, false;
      projectionMatrix := Perspective(fovy, aspectRatio, zNear, zFar);
    }

    /** Answers the current projection and caches it: a second call gives
        the same matrix. `isPerspective` is not consulted. */
    method GetProjectionMatrix() returns (m: Mat4)
      modifies this
      ensures m == old(CurrentProjection()) && CurrentProjection() == m
      ensures !recalcPerspectiveMatrix && projectionMatrix == m
      ensures fovy == old(fovy) && aspectRatio == old(aspectRatio) && zNear == old(zNear) && zFar == old(zFar)
      ensures isPerspective == old(isPerspective)
    {
      if recalcPerspectiveMatrix {
        projectionMatrix := Perspective(fovy * DegreesToRadians, aspectRatio, zNear, zFar);
        recalcPerspectiveMatrix := false;
      }
      m := projectionMatrix;
    }

    /** Stores the field of view clamped to [0, 180] degrees. */
    method SetFieldOfViewY(fieldOfViewY: real)
      modifies this
      ensures 0.0 <= fovy <= 180.0
      ensures 0.0 <= fieldOfViewY <= 180.0 ==> fovy == fieldOfViewY
      ensures fieldOfViewY < 0.0 ==> fovy == 0.0
      ensures fieldOfViewY > 180.0 ==> fovy == 180.0
      ensures recalcPerspectiveMatrix
      ensures aspectRatio == old(aspectRatio) && zNear == old(zNear) && zFar == old(zFar)
      ensures isPerspective == old(isPerspective) && projectionMatrix == old(projectionMatrix)
    {
      var v := fieldOfViewY;
      if v < 0.0 {
        v := 0.0;
      } else if v > 180.0 {
        v := 180.0;
      }
      fovy := v;
      recalcPerspectiveMatrix := true;
    }

    method SetAspectRatio(aspectRatio: real)
      modifies this
      ensures this.aspectRatio == aspectRatio && recalcPerspectiveMatrix
      ensures fovy == old(fovy) && zNear == old(zNear) && zFar == old(zFar)
      ensures isPerspective == old(isPerspective) && projectionMatrix == old(projectionMatrix)
    {
      this.aspectRatio := aspectRatio;
      recalcPerspectiveMatrix := true;
    }

    method SetNearZDistance(zNear: real)
      modifies this
      ensures this.zNear == zNear && recalcPerspectiveMatrix
      ensures fovy == old(fovy) && aspectRatio == old(aspectRatio) && zFar == old(zFar)
      ensures isPerspective == old(isPerspective) && projectionMatrix == old(projectionMatrix)
    {
      this.zNear := zNear;
      recalcPerspectiveMatrix := true;
    }

    method SetFarZDistance(zFar: real)
      modifies this
      ensures this.zFar == zFar && recalcPerspectiveMatrix
      ensures fovy == old(fovy) && aspectRatio == old(aspectRatio) && zNear == old(zNear)
      ensures isPerspective == old(isPerspective) && projectionMatrix == old(projectionMatrix)
    {
      this.zFar := zFar;
      recalcPerspectiveMatrix := true;
    }

    /** Overwrites the cached matrix; the flag is left alone, so a raised
        flag still discards the new matrix on the next read. */
    method SetProjectionMatrix(projectionMatrix: Mat4)
      modifies this
      ensures this.projectionMatrix == projectionMatrix
      ensures recalcPerspectiveMatrix == old(recalcPerspectiveMatrix)
      ensures fovy == old(fovy) && aspectRatio == old(aspectRatio) && zNear == old(zNear) && zFar == old(zFar)
      ensures isPerspective == old(isPerspective)
    {
      this.projectionMatrix := projectionMatrix;
    }

    function IsPerspective(): bool
      reads this
    {
      isPerspective
    }

    function IsOrthographic(): (r: bool)
      reads this
      ensures r != IsPerspective()
    {
      !isPerspective
    }
  }

  /** An orthographic frustum answers a perspective matrix as soon as any
      setter has run, while it still reports itself orthographic. */
  method OrthographicAfterSetter(maths: Maths, left: real, right: real, bottom: real, top: real,
                                 zNear: real, zFar: real, aspectRatio: real)
    returns (m: Mat4, orthographic: bool)
    ensures orthographic && m == Perspective(0.0, aspectRatio, zNear, zFar)
    ensures m != Ortho(left, right, bottom, top, zNear, zFar)
  {
    var f := new Frustum.Orthographic(maths, left, right, bottom, top, zNear, zFar);
    f.SetAspectRatio(aspectRatio);
    m := f.GetProjectionMatrix();
    orthographic := f.IsOrthographic();
  }

  /** The perspective constructor hands fovy to the matrix unconverted,
      while setting the same field of view afterwards converts it from
      degrees: the two matrices are built from different angles unless
      fovy is 0.  The matrices are compared as terms over the angle they
      are built from, not as numbers. */
  method PerspectiveUnits(fovy: real, aspectRatio: real, zNear: real, zFar: real)
    returns (constructed: Mat4, reset: Mat4)
    requires 0.0 <= fovy <= 180.0
    ensures constructed == Perspective(fovy, aspectRatio, zNear, zFar)
    ensures reset == Perspective(fovy * DegreesToRadians, aspectRatio, zNear, zFar)
    ensures constructed == reset <==> fovy == 0.0
  {
    var f := new Frustum.PerspectiveView(fovy, aspectRatio, zNear, zFar);
    constructed := f.GetProjectionMatrix();
    f.SetFieldOfViewY(fovy);
    reset := f.GetProjectionMatrix();
  }
}

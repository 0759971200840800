// The scene camera: projection parameters set through setters, and a
// projection matrix computed on demand and cached behind a dirty flag.
// Matrices are symbolic: a projection is the constructor applied to the
// parameters it is built from, so two projections are equal exactly when
// they were built the same way from equal parameters.
module Cameras {
  import opened MathUtil

  datatype ProjType = Ortho | Perspective

  /** A four-component vector (the background colour). */
  datatype Vector4f = Vector4f(x: real, y: real, z: real, w: real)

  /** Opaque blue, the default background colour. */
  const Blue: Vector4f := Vector4f(0.0, 0.0, 1.0, 1.0)

  /** A projection matrix, by how it was built. `Unset` is the cache's
      content before the first computation. */
  datatype Matrix4f =
    | Unset
    | OrthoProj(width: real, height: real, nearClipPlane: real, farClipPlane: real)
    | PerspectiveFovProj(fovYInRadians: real, aspectRatio: real, nearClipPlane: real, farClipPlane: real)

  /** The camera's dirty flags, one bit per cached value. */
  type DirtyFlags = bv8

  const ProjMatrixFlag: DirtyFlags := 1

  /** Everything the projection is built from. */
  datatype ProjParams = ProjParams(projType: ProjType, aspectRatio: real, fovYInRadians: real, sizeY: real,
                                   nearClipPlane: real, farClipPlane: real)

  /** The projection of the given parameters: an orthographic volume
      `aspectRatio * sizeY` wide and `sizeY` high, or a perspective frustum
      with the vertical field of view. */
  function Projection(p: ProjParams): Matrix4f
  {
    match p.projType
    case Ortho => OrthoProj(p.aspectRatio * p.sizeY, p.sizeY, p.nearClipPlane, p.farClipPlane)
    case Perspective => PerspectiveFovProj(p.fovYInRadians, p.aspectRatio, p.nearClipPlane, p.farClipPlane)
  }

  /** Two parameter sets give the same projection exactly when they agree on
      the type, the clip planes and the parameters that type uses (for an
      orthographic one, the width and the height). */
  lemma ProjectionDeterminesParameters(p: ProjParams, q: ProjParams)
    ensures Projection(p) == Projection(q) <==>
      p.projType == q.projType && p.nearClipPlane == q.nearClipPlane && p.farClipPlane == q.farClipPlane &&
      (p.projType == Ortho ==> p.aspectRatio * p.sizeY == q.aspectRatio * q.sizeY && p.sizeY == q.sizeY) &&
      (p.projType == Perspective ==> p.fovYInRadians == q.fovYInRadians && p.aspectRatio == q.aspectRatio)
  {
  }

  class Camera {
    var projType: ProjType
    var backgroundColor: Vector4f
    var nearClipPlane: real
    var farClipPlane: real
    var aspectRatio: real
    var fovYInRadians: real
    var sizeY: real
    var maxMoveSpeed: real
    var maxRotationSpeed: real
    var dirtyFlags: DirtyFlags
    var projMatrix: Matrix4f

    function Params(): ProjParams
      reads this
    {
      ProjParams(projType, aspectRatio, fovYInRadians, sizeY, nearClipPlane, farClipPlane)
    }

    predicate ProjDirty()
      reads this
    {
      dirtyFlags & ProjMatrixFlag != 0
    }

    /** The cache invariant: when the flag is clear, the cached matrix is the
        projection of the current parameters. */
    ghost predicate Valid()
      reads this
    {
      !ProjDirty() ==> projMatrix == Projection(Params())
    }

    /** A new camera: blue background, a quarter-turn field of view, a
        vertical size of 10, and the projection marked stale. */
    constructor(projType: ProjType, nearClipPlane: real, farClipPlane: real, aspectRatio: real,
                maxMoveSpeed: real, maxRotationSpeed: real)
      ensures Valid() && ProjDirty()
      ensures Params() == ProjParams(projType, aspectRatio, PiDivFour, 10.0, nearClipPlane, farClipPlane)
      ensures backgroundColor == Blue
      ensures this.maxMoveSpeed == maxMoveSpeed && this.maxRotationSpeed == maxRotationSpeed
      ensures dirtyFlags == ProjMatrixFlag
    {
      this.projType := projType;
      backgroundColor := Blue;
      this.nearClipPlane := nearClipPlane;
      this.farClipPlane := farClipPlane;
      this.aspectRatio := aspectRatio;
      fovYInRadians := PiDivFour;
      sizeY := 10.0;
      this.maxMoveSpeed := maxMoveSpeed;
      this.maxRotationSpeed := maxRotationSpeed;
      dirtyFlags := ProjMatrixFlag;
      projMatrix := Unset;
    }

    method SetAspectRatio(aspectRatio: real)
      modifies this`aspectRatio, this`dirtyFlags
      ensures Params() == old(Params()).(aspectRatio := aspectRatio)
      ensures dirtyFlags == old(dirtyFlags) | ProjMatrixFlag
      ensures ProjDirty() && Valid()
    {
      this.aspectRatio := aspectRatio;
      dirtyFlags := dirtyFlags | ProjMatrixFlag;
    }

    /** The field of view, readable on a perspective camera only. */
    function GetFovY(): (fovY: real)
      reads this
      requires projType == Perspective
      ensures fovY == Params().fovYInRadians
    {
      fovYInRadians
    }

    method SetFovY(fovYInRadians: real)
      requires projType == Perspective
      modifies this`fovYInRadians, this`dirtyFlags
      ensures Params() == old(Params()).(fovYInRadians := fovYInRadians)
      ensures dirtyFlags == old(dirtyFlags) | ProjMatrixFlag
      ensures ProjDirty() && Valid()
    {
      this.fovYInRadians := fovYInRadians;
      dirtyFlags := dirtyFlags | ProjMatrixFlag;
    }

    /** The vertical size, readable on an orthographic camera only. */
    function GetSizeY(): (sizeY: real)
      reads this
      requires projType == Ortho
      ensures sizeY == Params().sizeY
    {
      this.sizeY
    }

    method SetSizeY(sizeY: real)
      requires projType == Ortho
      modifies this`sizeY, this`dirtyFlags
      ensures Params() == old(Params()).(sizeY := sizeY)
      ensures dirtyFlags == old(dirtyFlags) | ProjMatrixFlag
      ensures ProjDirty() && Valid()
    {
      this.sizeY := sizeY;
      dirtyFlags := dirtyFlags | ProjMatrixFlag;
    }

    /** The speeds do not enter the projection: the flag is left alone. */
    method SetMaxMoveSpeed(maxMoveSpeed: real)
      requires Valid()
      modifies this`maxMoveSpeed
      ensures this.maxMoveSpeed == maxMoveSpeed
      ensures Valid()
    {
      this.maxMoveSpeed := maxMoveSpeed;
    }

    method SetMaxRotationSpeed(maxRotationSpeed: real)
      requires Valid()
      modifies this`maxRotationSpeed
      ensures this.maxRotationSpeed == maxRotationSpeed
      ensures Valid()
    {
      this.maxRotationSpeed := maxRotationSpeed;
    }

    method SetProjType(projType: ProjType)
      modifies this`projType, this`dirtyFlags
      ensures Params() == old(Params()).(projType := projType)
      ensures dirtyFlags == old(dirtyFlags) | ProjMatrixFlag
      ensures ProjDirty() && Valid()
    {
      this.projType := projType;
      dirtyFlags := dirtyFlags | ProjMatrixFlag;
    }

    /** Nor does the background colour. */
    method SetBackgroundColor(backgroundColor: Vector4f)
      requires Valid()
      modifies this`backgroundColor
      ensures this.backgroundColor == backgroundColor
      ensures Valid()
    {
      this.backgroundColor := backgroundColor;
    }

    method SetNearClipPlane(nearClipPlane: real)
      modifies this`nearClipPlane, this`dirtyFlags
      ensures Params() == old(Params()).(nearClipPlane := nearClipPlane)
      ensures dirtyFlags == old(dirtyFlags) | ProjMatrixFlag
      ensures ProjDirty() && Valid()
    {
      this.nearClipPlane := nearClipPlane;
      dirtyFlags := dirtyFlags | ProjMatrixFlag;
    }

    method SetFarClipPlane(farClipPlane: real)
      modifies this`farClipPlane, this`dirtyFlags
      ensures Params() == old(Params()).(farClipPlane := farClipPlane)
      ensures dirtyFlags == old(dirtyFlags) | ProjMatrixFlag
      ensures ProjDirty() && Valid()
    {
      this.farClipPlane := farClipPlane;
      dirtyFlags := dirtyFlags | ProjMatrixFlag;
    }

    /** The projection of the current parameters. It is rebuilt only when the
        flag is set, and the flag is then cleared; a clean cache is returned
        as it is. */
    method GetProjMatrix() returns (m: Matrix4f)
      requires Valid()
      modifies this`projMatrix, this`dirtyFlags
      ensures m == Projection(Params()) && m == projMatrix
      ensures !ProjDirty() && Valid()
      ensures dirtyFlags == old(dirtyFlags) & !ProjMatrixFlag
      ensures !old(ProjDirty()) ==> projMatrix == old(projMatrix)
    {
      if dirtyFlags & ProjMatrixFlag != 0 {
        match projType {
          case Ortho =>
            projMatrix := OrthoProj(aspectRatio * sizeY, sizeY, nearClipPlane, farClipPlane);
          case Perspective =>
            projMatrix := PerspectiveFovProj(fovYInRadians, aspectRatio, nearClipPlane, farClipPlane);
        }
        dirtyFlags := dirtyFlags & !ProjMatrixFlag;
      }
      m := projMatrix;
    }
  }
}

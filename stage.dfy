/**
 * The parts of three.js's PerspectiveCamera that the scenes read or write, and the
 * viewport size every scene derives from it. The camera object itself belongs to the
 * renderer; the scenes only see its numeric fields.
 */
module Stage {
  import opened Utils

  class Camera {
    var x: real
    var y: real
    var z: real
    /** Vertical field of view, in degrees. */
    var fov: real
    var aspect: real
    var far: real

    constructor (x: real, y: real, z: real, fov: real, aspect: real, far: real)
      ensures this.x == x && this.y == y && this.z == z
      ensures this.fov == fov && this.aspect == aspect && this.far == far
    {
      this.x, this.y, this.z := x, y, z;
      this.fov, this.aspect, this.far := fov, aspect, far;
    }
  }

  /**
   * Height of the view at `distance` in front of a camera with vertical field of view
   * `fovDegrees`: 2 tan(vFov / 2) distance. Math.tan is the uninterpreted `tan`.
   */
  function ViewportHeight(fovDegrees: real, distance: real, tan: real -> real): real {
    2.0 * tan((fovDegrees * Pi / 180.0) / 2.0) * distance
  }

  /** The width of a view `height` high at aspect ratio `aspect`. */
  function ViewWidth(height: real, aspect: real): real {
    height * aspect
  }
}

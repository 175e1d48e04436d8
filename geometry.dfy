/** Vectors, rays and hit records, as the material layer consumes them.
    Arithmetic is over `real`; the vector header's own helpers whose bodies
    are not part of this model (normalisation, mirror reflection, Snell
    refraction, the near-zero test) are passed in as a `VecOps` record. */
module Geometry {

  /** A real-valued 3-tuple: used for points, directions and colours. */
  datatype Vec3 = Vec3(x: real, y: real, z: real)

  type Point3 = Vec3
  type Color = Vec3

  const Black: Color := Vec3(0.0, 0.0, 0.0)
  const White: Color := Vec3(1.0, 1.0, 1.0)

  function Add(a: Vec3, b: Vec3): Vec3 {
    Vec3(a.x + b.x, a.y + b.y, a.z + b.z)
  }

  function Scale(s: real, a: Vec3): Vec3 {
    Vec3(s * a.x, s * a.y, s * a.z)
  }

  function Dot(a: Vec3, b: Vec3): real {
    a.x * b.x + a.y * b.y + a.z * b.z
  }

  /** A ray: origin, direction and the time stamp used for motion blur. */
  datatype Ray = Ray(origin: Point3, direction: Vec3, time: real)

  /** The fields of a hit record that a material reads. */
  datatype HitInfo = HitInfo(p: Point3, normal: Vec3, u: real, v: real, frontFace: bool)

  /** The vector helpers defined outside the material layer. */
  datatype VecOps = VecOps(
    normalize: Vec3 -> Vec3,
    reflect: (Vec3, Vec3) -> Vec3,
    refract: (Vec3, Vec3, real) -> Vec3,
    nearZero: Vec3 -> bool)
}

/** Texture sampling. A solid colour is assumed to return its colour
    everywhere (the texture header is not part of this model); every other
    texture is reached through a handle and an external sampler. */
module Textures {
  import opened Geometry

  /** `Texture::value` for the textures that are not solid colours. */
  type Sampler = (nat, real, real, Point3) -> Color

  datatype Texture = SolidColor(color: Color) | External(handle: nat)

  function Value(sample: Sampler, t: Texture, u: real, v: real, p: Point3): Color {
    match t
    case SolidColor(c) => c
    case External(h) => sample(h, u, v, p)
  }
}

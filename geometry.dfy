/** Vectors, angles and the trigonometric functions the layout code calls. */
module Geometry {

  datatype Vec3 = Vec3(x: real, y: real, z: real)

  function Add(a: Vec3, b: Vec3): Vec3 {
    Vec3(a.x + b.x, a.y + b.y, a.z + b.z)
  }

  function Sub(a: Vec3, b: Vec3): Vec3 {
    Vec3(a.x - b.x, a.y - b.y, a.z - b.z)
  }

  function NormSquared(v: Vec3): real {
    v.x * v.x + v.y * v.y + v.z * v.z
  }

  /** `math.pi` / `np.pi`, written as the shortest decimal that denotes the same double. */
  const Pi: real := 3.141592653589793

  /** `math.radians` and `np.deg2rad`: degrees times pi over 180. */
  function Radians(degrees: real): real {
    degrees * Pi / 180.0
  }

  /**
   * The floating-point library functions the source calls (`math.sin`, `np.cos`,
   * `math.atan2`, `math.sqrt`), left uninterpreted: every operation that uses them
   * receives them as this parameter.
   */
  datatype Trig = Trig(
    sin: real -> real,
    cos: real -> real,
    atan2: (real, real) -> real,
    sqrt: real -> real)

  /** The one fact about sine and cosine the proofs rely on. */
  ghost predicate Pythagorean(trig: Trig) {
    forall a: real :: trig.sin(a) * trig.sin(a) + trig.cos(a) * trig.cos(a) == 1.0
  }

  /**
   * Spherical to Cartesian coordinates in the physics convention used by the source:
   * polar angle `phi` from the +z axis, azimuth `theta` in the xy-plane.
   */
  function Spherical(trig: Trig, r: real, phi: real, theta: real): Vec3 {
    Vec3(
      r * trig.sin(phi) * trig.cos(theta),
      r * trig.sin(phi) * trig.sin(theta),
      r * trig.cos(phi))
  }

  /** A point produced by `Spherical` lies at distance |r| from the origin. */
  lemma SphericalNorm(trig: Trig, r: real, phi: real, theta: real)
    requires Pythagorean(trig)
    ensures NormSquared(Spherical(trig, r, phi, theta)) == r * r
  {
    var s, c := trig.sin(phi), trig.cos(phi);
    var st, ct := trig.sin(theta), trig.cos(theta);
    assert s * s + c * c == 1.0;
    assert st * st + ct * ct == 1.0;
    var p := Spherical(trig, r, phi, theta);
    calc {
      NormSquared(p);
      (r * s * ct) * (r * s * ct) + (r * s * st) * (r * s * st) + (r * c) * (r * c);
      r * r * (s * s) * (ct * ct + st * st) + r * r * (c * c);
      r * r * (s * s) + r * r * (c * c);
      r * r * (s * s + c * c);
    }
  }

  /** The same fact for a point placed around a centre. */
  lemma SphericalDistance(trig: Trig, center: Vec3, r: real, phi: real, theta: real)
    requires Pythagorean(trig)
    ensures NormSquared(Sub(Add(center, Spherical(trig, r, phi, theta)), center)) == r * r
  {
    var p := Spherical(trig, r, phi, theta);
    assert Sub(Add(center, p), center) == p;
    SphericalNorm(trig, r, phi, theta);
  }
}

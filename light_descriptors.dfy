/**
 * The three light kinds the lighting code creates. `add_point_light`,
 * `add_area_light` and `add_sun_light` build a light object field by field and
 * link it into the scene; here each becomes a constructor of a `Light` value and
 * the scene link is left to the caller.
 */
module LightDescriptors {
  import opened Wrappers
  import opened Geometry

  /** A colour as the three floats Blender's `light.color` holds. */
  datatype Rgb = Rgb(r: real, g: real, b: real)

  /** Blender's area-light shapes. */
  datatype AreaShape = Square | Rectangle | Disk | Ellipse

  /**
   * One light as created in the scene. For an area light `sizeY` is `None` when
   * the creator left Blender's `size_y` untouched (square and disk shapes).
   */
  datatype Light =
    | PointLight(location: Vec3, energy: real, color: Rgb, shadowSoftSize: real)
    | AreaLight(location: Vec3, rotation: Vec3, energy: real, color: Rgb,
                shape: AreaShape, sizeX: real, sizeY: Option<real>)
    | SunLight(rotation: Vec3, energy: real, color: Rgb, angle: real)

  // Default argument values of the creators that the lighting code relies on.
  const White := Rgb(1.0, 1.0, 1.0)
  const DefaultPointSize: real := 0.1
  const DefaultAreaRotation := Vec3(0.0, 0.0, 0.0)
  const DefaultAreaShape := Rectangle

  /** `add_point_light`: a point light whose shadow softness is `size`. */
  function AddPointLight(location: Vec3, energy: real, color: Rgb, size: real): (l: Light)
    ensures l.PointLight?
    ensures l.location == location && l.energy == energy && l.color == color
    ensures l.shadowSoftSize == size
  {
    PointLight(location, energy, color, size)
  }

  /**
   * `add_area_light`: the width is always `size.0`; the height `size.1` is only
   * written for the two shapes that have one.
   */
  function AddAreaLight(location: Vec3, rotation: Vec3, energy: real, color: Rgb,
                        size: (real, real), shape: AreaShape): (l: Light)
    ensures l.AreaLight?
    ensures l.location == location && l.rotation == rotation && l.energy == energy
    ensures l.color == color && l.shape == shape && l.sizeX == size.0
    ensures l.sizeY.Some? <==> shape == Rectangle || shape == Ellipse
    ensures l.sizeY.Some? ==> l.sizeY.value == size.1
  {
    var sizeY := if shape == Rectangle || shape == Ellipse then Some(size.1) else None;
    AreaLight(location, rotation, energy, color, shape, size.0, sizeY)
  }

  /** `add_sun_light`: a sun has a rotation but no location. */
  function AddSunLight(rotation: Vec3, energy: real, color: Rgb, angle: real): (l: Light)
    ensures l.SunLight?
    ensures l.rotation == rotation && l.energy == energy && l.color == color
    ensures l.angle == angle
  {
    SunLight(rotation, energy, color, angle)
  }
}

/**
 * The radial gradient of bouquet/gradients/radial.py: the uniform that the
 * radius is turned into, the ramp coordinate its fragment shader looks up,
 * and the widget's uniform map.
 */
module Radial {
  import opened Uniforms
  import GradientBases

  const GradientTextureKey: string := "gradientTexture"
  const GradientRadiusKey: string := "gradientRadius"
  const GradientCenterKey: string := "gradientCenter"

  /** Texture unit the 1-D gradient texture is bound to. */
  const GradientTextureUnit: int := 1

  const DefaultRadius: real := 1.0
  const DefaultCenterX: real := 0.5
  const DefaultCenterY: real := 0.5

  /** The `gradientRadius` uniform written in `__init__`, before any radius is set. */
  const InitialRadiusUniform: real := 2.0

  /**
   * `_update_gradient_radius`: the shader's distance scale for a radius.
   * A radius that is not positive switches the gradient off with 0.0;
   * otherwise the scale is the positive `r` with `r * radius == 2`, so the
   * ramp's end is reached at half the radius in texture coordinates.
   */
  function RadiusFactor(radius: real): (f: real)
    ensures radius <= 0.0 ==> f == 0.0
    ensures radius > 0.0 ==> f > 0.0 && f * radius == 2.0
  {
    if radius <= 0.0 then 0.0 else (1.0 / radius) * 2.0
  }

  /** The initial uniform is the scale of the default radius. */
  lemma InitialUniformMatchesDefaultRadius()
    ensures RadiusFactor(DefaultRadius) == InitialRadiusUniform
  {
  }

  /** A larger radius stretches the gradient: the scale strictly decreases. */
  lemma FactorDecreasing(r1: real, r2: real)
    requires 0.0 < r1 < r2
    ensures 0.0 < RadiusFactor(r2) < RadiusFactor(r1)
  {
  }

  /** GLSL `step(edge, x)`: 0.0 when `x < edge`, else 1.0 (GLSL ES 1.00, section 8.3). */
  function Step(edge: real, x: real): (s: real)
    ensures s == 0.0 || s == 1.0
    ensures s == 0.0 <==> x < edge
  {
    if x < edge then 0.0 else 1.0
  }

  /**
   * The fragment shader's ramp coordinate for a pixel at `distance` from the
   * centre: `distance * factor + step(factor, 0.0)`.
   */
  function LookupCoordinate(distance: real, factor: real): (t: real)
    requires distance >= 0.0
    ensures factor > 0.0 ==> t == distance * factor
    ensures factor <= 0.0 ==> t == distance * factor + 1.0
    ensures factor == 0.0 ==> t == 1.0
  {
    distance * factor + Step(factor, 0.0)
  }

  /** A radius that is not positive makes every pixel sample coordinate 1.0, the ramp's end. */
  lemma DegenerateRadiusSamplesEnd(radius: real, distance: real)
    requires radius <= 0.0 && distance >= 0.0
    ensures LookupCoordinate(distance, RadiusFactor(radius)) == 1.0
  {
  }

  /**
   * With a positive radius the coordinate is 0.0 at the centre, never
   * negative, grows with the distance and reaches 1.0 at half the radius.
   */
  lemma PositiveRadiusCoordinate(radius: real, d1: real, d2: real)
    requires radius > 0.0 && 0.0 <= d1 < d2
    ensures LookupCoordinate(0.0, RadiusFactor(radius)) == 0.0
    ensures 0.0 <= LookupCoordinate(d1, RadiusFactor(radius)) < LookupCoordinate(d2, RadiusFactor(radius))
    ensures LookupCoordinate(radius / 2.0, RadiusFactor(radius)) == 1.0
  {
    var f := RadiusFactor(radius);
    assert d1 * f < d2 * f;
    assert (radius / 2.0) * f == (f * radius) / 2.0;
  }

  /**
   * The radial gradient widget: its radius and centre properties and the
   * uniforms its render context holds. The colour-stop part it inherits is
   * the `GradientBase` object `stops`.
   */
  class RadialGradient {
    const stops: GradientBases.GradientBase
    var radius: real
    var centerX: real
    var centerY: real
    var canvas: UniformMap

    /** The uniforms agree with the properties. */
    ghost predicate Valid()
      reads this
    {
      canvas.Keys == {GradientTextureKey, GradientRadiusKey, GradientCenterKey} &&
      canvas[GradientTextureKey] == IntUniform(GradientTextureUnit) &&
      canvas[GradientRadiusKey] == FloatUniform(RadiusFactor(radius)) &&
      canvas[GradientCenterKey] == Vec2Uniform(centerX, centerY)
    }

    /** `__init__` with default properties. */
    constructor ()
      ensures Valid() && fresh(stops)
      ensures radius == DefaultRadius && centerX == DefaultCenterX && centerY == DefaultCenterY
      ensures canvas == map[GradientTextureKey := IntUniform(GradientTextureUnit),
                            GradientRadiusKey := FloatUniform(InitialRadiusUniform),
                            GradientCenterKey := Vec2Uniform(0.5, 0.5)]
      ensures stops.colorStops == [] && stops.texture == GradientBases.DefaultTexture
    {
      radius := DefaultRadius;
      centerX, centerY := DefaultCenterX, DefaultCenterY;
      stops := new GradientBases.GradientBase();
      canvas := map[];
      new;
      canvas := canvas[GradientTextureKey := IntUniform(GradientTextureUnit)];
      canvas := canvas[GradientRadiusKey := FloatUniform(InitialRadiusUniform)];
      canvas := canvas[GradientCenterKey := Vec2Uniform(0.5, 0.5)];
    }

    /** `_update_gradient_radius`: writes the scale of `value` and nothing else. */
    method UpdateGradientRadius(value: real)
      modifies this
      ensures canvas == old(canvas)[GradientRadiusKey := FloatUniform(RadiusFactor(value))]
      ensures radius == old(radius) && centerX == old(centerX) && centerY == old(centerY)
    {
      canvas := canvas[GradientRadiusKey := FloatUniform(RadiusFactor(value))];
    }

    /** `_update_gradient_center`: stores the pair unchanged and nothing else. */
    method UpdateGradientCenter(x: real, y: real)
      modifies this
      ensures canvas == old(canvas)[GradientCenterKey := Vec2Uniform(x, y)]
      ensures radius == old(radius) && centerX == old(centerX) && centerY == old(centerY)
    {
      canvas := canvas[GradientCenterKey := Vec2Uniform(x, y)];
    }

    /** Setting `radius`, which dispatches to `_update_gradient_radius`. */
    method SetRadius(value: real)
      requires Valid()
      modifies this
      ensures Valid() && radius == value
      ensures centerX == old(centerX) && centerY == old(centerY)
      ensures canvas[GradientCenterKey] == old(canvas)[GradientCenterKey]
    {
      radius := value;
      UpdateGradientRadius(value);
    }

    /** Setting `gradient_center_pos`, which dispatches to `_update_gradient_center`. */
    method SetCenterPos(x: real, y: real)
      requires Valid()
      modifies this
      ensures Valid() && centerX == x && centerY == y
      ensures radius == old(radius)
      ensures canvas[GradientRadiusKey] == old(canvas)[GradientRadiusKey]
    {
      centerX, centerY := x, y;
      UpdateGradientCenter(x, y);
    }

    /** Setting `gradient_center_x`; the reference list dispatches the whole pair. */
    method SetCenterX(x: real)
      requires Valid()
      modifies this
      ensures Valid() && centerX == x && centerY == old(centerY) && radius == old(radius)
    {
      SetCenterPos(x, centerY);
    }

    /** Setting `gradient_center_y`; the reference list dispatches the whole pair. */
    method SetCenterY(y: real)
      requires Valid()
      modifies this
      ensures Valid() && centerY == y && centerX == old(centerX) && radius == old(radius)
    {
      SetCenterPos(centerX, y);
    }
  }
}

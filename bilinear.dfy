/**
 * The bilinear gradient of bouquet/gradients/bilinear.py: the fragment
 * shader's corner interpolation and the widget's colour uniforms.
 */
module Bilinear {
  import opened Colors
  import opened Uniforms
  import opened Wrappers

  // ---------------------------------------------------------------------------
  // Shader

  /** GLSL `mix(x, y, a) = x * (1 - a) + y * a` (GLSL ES 1.00, section 8.3). */
  function Mix(x: real, y: real, a: real): (m: real)
    ensures a == 0.0 ==> m == x
    ensures a == 1.0 ==> m == y
  {
    x * (1.0 - a) + y * a
  }

  /** For a weight in [0, 1], `mix` lies between its two ends. */
  lemma MixOffset(x: real, y: real, a: real)
    ensures Mix(x, y, a) == x + (y - x) * a
  {
    assert x * (1.0 - a) == x - x * a;
    assert (y - x) * a == y * a - x * a;
  }

  lemma MixBetween(x: real, y: real, a: real)
    requires 0.0 <= a <= 1.0
    ensures Min(x, y) <= Mix(x, y, a) <= Max(x, y)
  {
    MixOffset(x, y, a);
    if x <= y {
      ScaleWithin(y - x, a);
    } else {
      ScaleWithin(x - y, a);
      Negate(x - y, a);
    }
  }

  lemma Negate(d: real, a: real)
    ensures (-d) * a == -(d * a)
  {
  }

  /** Scaling a non-negative `d` by a weight in [0, 1] stays within [0, d]. */
  lemma ScaleWithin(d: real, a: real)
    requires d >= 0.0 && 0.0 <= a <= 1.0
    ensures 0.0 <= d * a <= d
  {
    ProductNonNegative(d, a);
    ProductNonNegative(d, 1.0 - a);
    assert d * a + d * (1.0 - a) == d;
  }

  lemma ProductNonNegative(u: real, v: real)
    requires u >= 0.0 && v >= 0.0
    ensures u * v >= 0.0
  {
  }

  function Min(x: real, y: real): real {
    if x <= y then x else y
  }

  function Max(x: real, y: real): real {
    if x <= y then y else x
  }

  /** `mix` on `vec4`: every channel, alpha included, on its own. */
  function MixColor(c1: Color, c2: Color, a: real): (m: Color)
    ensures forall k :: 0 <= k < 4 ==> Channel(m, k) == Mix(Channel(c1, k), Channel(c2, k), a)
  {
    Color(Mix(c1.r, c2.r, a), Mix(c1.g, c2.g, a), Mix(c1.b, c2.b, a), Mix(c1.a, c2.a, a))
  }

  /** The four corner colours, as the shader's uniforms hold them. */
  datatype Corners = Corners(topLeft: Color, topRight: Color, bottomLeft: Color, bottomRight: Color)

  /**
   * The corner blend at texture coordinate `(x, y)`: first along x on the top
   * and on the bottom row, then from the top row (y = 0) to the bottom row
   * (y = 1).
   */
  function Blend(q: Corners, x: real, y: real): (c: Color)
    ensures x == 0.0 && y == 0.0 ==> c == q.topLeft
    ensures x == 1.0 && y == 0.0 ==> c == q.topRight
    ensures x == 0.0 && y == 1.0 ==> c == q.bottomLeft
    ensures x == 1.0 && y == 1.0 ==> c == q.bottomRight
  {
    MixColor(MixColor(q.topLeft, q.topRight, x), MixColor(q.bottomLeft, q.bottomRight, x), y)
  }

  /** `gl_FragColor`: the blend scaled by the canvas colour `fragColor`. */
  function Shade(fragColor: Color, q: Corners, x: real, y: real): (c: Color)
    ensures forall k :: 0 <= k < 4 ==> Channel(c, k) == Channel(fragColor, k) * Channel(Blend(q, x, y), k)
  {
    Modulate(fragColor, Blend(q, x, y))
  }

  /** The canvas colour instruction of the widget's rule: opaque white. */
  const CanvasColor: Color := White

  /** At the four corners of the texture the shader gives the corner colours. */
  lemma CornersExact(fragColor: Color, q: Corners)
    ensures Shade(fragColor, q, 0.0, 0.0) == Modulate(fragColor, q.topLeft)
    ensures Shade(fragColor, q, 1.0, 0.0) == Modulate(fragColor, q.topRight)
    ensures Shade(fragColor, q, 0.0, 1.0) == Modulate(fragColor, q.bottomLeft)
    ensures Shade(fragColor, q, 1.0, 1.0) == Modulate(fragColor, q.bottomRight)
  {
  }

  /** Under the widget's white canvas colour the output is the unscaled blend. */
  lemma WhiteCanvasUnscaled(q: Corners, x: real, y: real)
    ensures Shade(CanvasColor, q, x, y) == Blend(q, x, y)
  {
    ModulateByWhite(Blend(q, x, y));
  }

  /** At the centre of the texture the blend is the mean of the four corners. */
  lemma CentreIsMean(q: Corners)
    ensures forall k :: 0 <= k < 4 ==>
      Channel(Blend(q, 0.5, 0.5), k) ==
        (Channel(q.topLeft, k) + Channel(q.topRight, k) + Channel(q.bottomLeft, k) + Channel(q.bottomRight, k)) / 4.0
  {
  }

  function Min4(a: real, b: real, c: real, d: real): real {
    Min(Min(a, b), Min(c, d))
  }

  function Max4(a: real, b: real, c: real, d: real): real {
    Max(Max(a, b), Max(c, d))
  }

  /** Inside the texture, each channel of the blend lies within the corners' range. */
  lemma BlendWithinCorners(q: Corners, x: real, y: real, k: nat)
    requires 0.0 <= x <= 1.0 && 0.0 <= y <= 1.0 && k < 4
    ensures var tl, tr, bl, br := Channel(q.topLeft, k), Channel(q.topRight, k),
                                  Channel(q.bottomLeft, k), Channel(q.bottomRight, k);
      Min4(tl, tr, bl, br) <= Channel(Blend(q, x, y), k) <= Max4(tl, tr, bl, br)
  {
    var tl, tr, bl, br := Channel(q.topLeft, k), Channel(q.topRight, k),
                          Channel(q.bottomLeft, k), Channel(q.bottomRight, k);
    var top := Mix(tl, tr, x);
    var bottom := Mix(bl, br, x);
    MixBetween(tl, tr, x);
    MixBetween(bl, br, x);
    MixBetween(top, bottom, y);
    assert Channel(Blend(q, x, y), k) == Mix(top, bottom, y);
  }

  // ---------------------------------------------------------------------------
  // Widget

  const TopLeftKey: string := "topLeftColor"
  const TopRightKey: string := "topRightColor"
  const BottomLeftKey: string := "bottomLeftColor"
  const BottomRightKey: string := "bottomRightColor"

  /** The colour table values of the default colour names. */
  const Green: Color := Color(0.0, 128.0 / 255.0, 0.0, 1.0)
  const Yellow: Color := Color(1.0, 1.0, 0.0, 1.0)
  const Red: Color := Color(1.0, 0.0, 0.0, 1.0)

  const DefaultCorners: Corners := Corners(Green, Yellow, Black, Red)

  /**
   * The bilinear gradient widget: its four corner colour properties and the
   * uniforms its render context holds.
   */
  class BilinearGradient {
    var topLeftColor: Color
    var topRightColor: Color
    var bottomLeftColor: Color
    var bottomRightColor: Color
    var canvas: UniformMap

    /** The current corners, as the shader sees them when `Valid()`. */
    function Properties(): (q: Corners)
      reads this
    {
      Corners(topLeftColor, topRightColor, bottomLeftColor, bottomRightColor)
    }

    /** The four colour uniforms agree with the four properties. */
    ghost predicate Valid()
      reads this
    {
      TopLeftKey in canvas && canvas[TopLeftKey] == Vec4Uniform(topLeftColor) &&
      TopRightKey in canvas && canvas[TopRightKey] == Vec4Uniform(topRightColor) &&
      BottomLeftKey in canvas && canvas[BottomLeftKey] == Vec4Uniform(bottomLeftColor) &&
      BottomRightKey in canvas && canvas[BottomRightKey] == Vec4Uniform(bottomRightColor)
    }

    /** `__init__` with default properties: the uniforms are the property values. */
    constructor ()
      ensures Valid() && Properties() == DefaultCorners
      ensures canvas == map[TopLeftKey := Vec4Uniform(Green), TopRightKey := Vec4Uniform(Yellow),
                            BottomLeftKey := Vec4Uniform(Black), BottomRightKey := Vec4Uniform(Red)]
    {
      topLeftColor, topRightColor := Green, Yellow;
      bottomLeftColor, bottomRightColor := Black, Red;
      canvas := map[];
      new;
      canvas := canvas[TopLeftKey := Vec4Uniform(topLeftColor)];
      canvas := canvas[TopRightKey := Vec4Uniform(topRightColor)];
      canvas := canvas[BottomLeftKey := Vec4Uniform(bottomLeftColor)];
      canvas := canvas[BottomRightKey := Vec4Uniform(bottomRightColor)];
    }

    /**
     * `_set_color`: with a uniform name, writes that uniform and no other;
     * without one, changes nothing.
     */
    method SetColorUniform(value: Color, uniformName: Option<string>)
      modifies this
      ensures uniformName.None? ==> canvas == old(canvas)
      ensures uniformName.Some? ==> canvas == old(canvas)[uniformName.value := Vec4Uniform(value)]
      ensures Properties() == old(Properties())
    {
      if uniformName.Some? {
        canvas := canvas[uniformName.value := Vec4Uniform(value)];
      }
    }

    method SetTopLeftColor(c: Color)
      requires Valid()
      modifies this
      ensures Valid() && Properties() == old(Properties()).(topLeft := c)
      ensures canvas == old(canvas)[TopLeftKey := Vec4Uniform(c)]
    {
      topLeftColor := c;
      SetColorUniform(c, Some(TopLeftKey));
    }

    method SetTopRightColor(c: Color)
      requires Valid()
      modifies this
      ensures Valid() && Properties() == old(Properties()).(topRight := c)
      ensures canvas == old(canvas)[TopRightKey := Vec4Uniform(c)]
    {
      topRightColor := c;
      SetColorUniform(c, Some(TopRightKey));
    }

    method SetBottomLeftColor(c: Color)
      requires Valid()
      modifies this
      ensures Valid() && Properties() == old(Properties()).(bottomLeft := c)
      ensures canvas == old(canvas)[BottomLeftKey := Vec4Uniform(c)]
    {
      bottomLeftColor := c;
      SetColorUniform(c, Some(BottomLeftKey));
    }

    method SetBottomRightColor(c: Color)
      requires Valid()
      modifies this
      ensures Valid() && Properties() == old(Properties()).(bottomRight := c)
      ensures canvas == old(canvas)[BottomRightKey := Vec4Uniform(c)]
    {
      bottomRightColor := c;
      SetColorUniform(c, Some(BottomRightKey));
    }
  }
}

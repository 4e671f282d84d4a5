# bouquet gradients: a Dafny model

This project models the logic of the `bouquet` gradient widgets that is not
framework glue:

- **Colour stops and the gradient texture** (`bouquet/gradients/base.py`).
  - A `ColorStop` clamps its position into [0, 1] and exposes `_data`, its
    position followed by its four colour channels.
  - Assigning a `GradientBase` widget's `color_stops` list checks it: more
    than 1024 elements raise `ValueError`, and any element that is not a
    colour stop raises `TypeError`.
  - Otherwise `_update_mesh` stable-sorts the stops by position. It adds a
    stop at 0.0 and/or 1.0 carrying the nearest end stop's colour, then
    flattens the stops into a five-float-per-vertex mesh. That mesh and the
    index list `0 .. k-1` are what the 1024x1 gradient texture is drawn from.
  - An empty list leaves the 1x1 opaque white default texture.
- **The radial gradient** (`bouquet/gradients/radial.py`).
  - The radius becomes the `gradientRadius` uniform: 0.0 for a radius ≤ 0,
    otherwise 2 / radius.
  - The fragment shader looks up the ramp at
    `distance * gradientRadius + step(gradientRadius, 0.0)`.
  - The centre and radius properties are kept in step with the widget's
    uniform map.
- **The bilinear gradient** (`bouquet/gradients/bilinear.py`).
  - The fragment shader blends four corner colours with GLSL `mix`. `mix` and
    `step` are defined in section 8.3 of the OpenGL ES Shading Language 1.00
    specification.
  - The four colour properties are copied into named uniforms.

Modules:

- `Colors`: RGBA colours.
- `ColorStops`: the `ColorStop` class and the pure stop-list preparation.
- `GradientBases`: the `GradientBase` widget state and its validation.
- `Uniforms`: uniform values.
- `Radial`: the radial gradient.
- `Bilinear`: the bilinear gradient.
- `Wrappers`: `Option`.

Numbers are `real`; GPU float rounding is not modelled.

Behaviour of the code worth knowing before reading the model:

- **Radius ≤ 0.** The radius uniform becomes 0.0, and the shader adds
  `step(0.0, 0.0) = 1.0` to the scaled distance. So every pixel samples
  ramp coordinate 1.0, the ramp's *last* colour
  (`Radial.DegenerateRadiusSamplesEnd`).
- **Bilinear row order.** The shader computes
  `mix(topColor, bottomColor, tex_coord0.y)`, so `tex_coord0.y = 0` gives the
  top row (`Bilinear.CornersExact`).
- **Rejected lists stay assigned.** A Kivy property stores the new value
  before it dispatches to the handler. So a list that the handler rejects
  stays assigned to `color_stops`, and the texture is left as it was
  (`GradientBase.SetColorStops`).
- **Redraw with a foreign element.** If a stop bound by an earlier assignment
  later changes, `_update_mesh` runs on whatever list is assigned. The model
  reports a non-stop element in that list as `AttributeError`
  (`GradientBase.UpdateMesh`); see "Left out" for which values this covers.

## Model

| member | source | states |
|---|---|---|
| `ColorStops.ClampPosition` | bouquet/gradients/base.py:64-66 | the stored position is in [0, 1]; a value in [0, 1] is kept, above 1.0 gives 1.0, below 0.0 gives 0.0 |
| `ColorStops.ClampIdempotent` | bouquet/gradients/base.py:64-66 | clamping an already stored position changes nothing |
| `ColorStops.Vertex` | bouquet/gradients/base.py:81-82 | `_data` has five floats: the position, then the colour's r, g, b, a |
| `ColorStops.VertexRoundTrip` | bouquet/gradients/base.py:166 | reading a vertex with the mesh format (1 position float, 4 colour floats) gives the stop back |
| `ColorStops.StopOfVertex` | bouquet/gradients/base.py:166 | reading five floats with the mesh format gives the stop whose `_data` is exactly those floats |
| `ColorStops.ColorStop.Default` | bouquet/gradients/base.py:56-66 | a fresh stop has position 0.0 and colour white |
| `ColorStops.ColorStop.constructor` | bouquet/gradients/base.py:64-66 | a stop built with a position stores the clamped position and the colour |
| `ColorStops.ColorStop.SetPosition` | bouquet/gradients/base.py:64-66 | assigning a position stores its clamp, keeps the colour and keeps the position in [0, 1] |
| `ColorStops.ColorStop.SetColor` | bouquet/gradients/base.py:56 | assigning a colour stores it and keeps the position |
| `ColorStops.ColorStop.Value` | bouquet/gradients/base.py:56-66 | the position and colour the stop currently holds; in [0, 1] whenever the stop keeps its bounded-property invariant |
| `ColorStops.ColorStop.Data` | bouquet/gradients/base.py:80-82 | `_data` has five floats and decodes to the stop's current position and colour |
| `ColorStops.Insert` | bouquet/gradients/base.py:140 | inserting one stop lengthens the list by one and adds exactly that stop to its multiset of stops |
| `ColorStops.InsertSorted` | bouquet/gradients/base.py:140 | inserting a stop into a list sorted by position keeps it sorted |
| `ColorStops.SortByPosition` | bouquet/gradients/base.py:140 | `sorted(..., key=position)` returns a permutation of the stops, non-decreasing in position |
| `ColorStops.SortStable` | bouquet/gradients/base.py:140 | the sort is stable: for every position, the stops at it keep their input order |
| `ColorStops.SortTwo` | bouquet/gradients/base.py:140 | two stops keep their order when the first position is not greater, and are swapped otherwise |
| `ColorStops.StableSortUnique` | bouquet/gradients/base.py:140 | any list sorted by position that keeps every position's stops in input order equals `SortByPosition`, so sortedness plus stability pin the result |
| `ColorStops.SortedEnds` | bouquet/gradients/base.py:146-152 | the first sorted stop is an input stop of least position; the last is an input stop of greatest position |
| `ColorStops.ExtendFront` | bouquet/gradients/base.py:146-148 | the list then starts at 0.0 with the first stop's colour; a stop is put in front exactly when the first position is not 0.0, and the original stops follow unchanged |
| `ColorStops.ExtendBack` | bouquet/gradients/base.py:150-152 | the list then ends at 1.0 with the last stop's colour; a stop is appended exactly when the last position is not 1.0, and the original stops come first unchanged |
| `ColorStops.ExtendFrontSorted` | bouquet/gradients/base.py:146-148 | putting the 0.0 stop in front keeps a sorted, in-range list sorted and in range |
| `ColorStops.ExtendBackSorted` | bouquet/gradients/base.py:150-152 | appending the 1.0 stop keeps a sorted, in-range list sorted and in range |
| `ColorStops.Extend` | bouquet/gradients/base.py:146-152 | the extended list starts at 0.0 and ends at 1.0; its ends carry the first and last sorted colours; its length is n + [first ≠ 0] + [last ≠ 1]; the sorted stops sit unchanged in the middle |
| `ColorStops.ExtendSorted` | bouquet/gradients/base.py:146-152 | extending a sorted list of in-range stops keeps it sorted and in range |
| `ColorStops.PreparedStops` | bouquet/gradients/base.py:140-152 | the stops `_update_mesh` draws for a non-empty list start at 0.0, end at 1.0, and are the n input stops plus at most two added ends |
| `ColorStops.PreparedStopsCover` | bouquet/gradients/base.py:140-152 | for in-range stops, the prepared list is sorted, stays in [0, 1] and goes from 0.0 to 1.0 |
| `ColorStops.PreparedFirstColor` | bouquet/gradients/base.py:140-148 | the prepared list's first colour is the colour of an input stop of least position |
| `ColorStops.PreparedLastColor` | bouquet/gradients/base.py:140-152 | the prepared list's last colour is the colour of an input stop of greatest position |
| `ColorStops.Flatten` | bouquet/gradients/base.py:154 | the mesh has 5·k floats for k stops |
| `ColorStops.FlattenAt` | bouquet/gradients/base.py:154 | stop j's `_data` occupies mesh indices 5j .. 5j+4 |
| `ColorStops.Unflatten` | bouquet/gradients/base.py:166 | reading a mesh vertex by vertex gives one stop per five floats, and flattening them again gives the same mesh back |
| `ColorStops.FlattenRoundTrip` | bouquet/gradients/base.py:162-166 | reading the mesh back vertex by vertex gives exactly the stops drawn |
| `ColorStops.Indices` | bouquet/gradients/base.py:164 | `range(n)` has n entries and entry i is i |
| `ColorStops.DataExample` | tests/test_gradients.py:21-28 | a red stop at 0.5 has `_data` (0.5, 1.0, 0.0, 0.0, 1.0) |
| `ColorStops.PreparedTwoInnerStops` | tests/test_gradients.py:73-91 | stops at 0.75 (transparent red) and 0.25 (opaque blue) are drawn as blue@0, blue@0.25, red@0.75, red@1 |
| `ColorStops.PreparedEndStops` | tests/test_gradients.py:55-71 | black at 0.0 and white at 1.0 are drawn as given, as the 10-float mesh 0,0,0,0,1, 1,1,1,1,1 |
| `Colors.Modulate` | bouquet/gradients/bilinear.py:43 | `frag_color * colour` multiplies channel by channel |
| `Colors.ModulateByWhite` | bouquet/gradients/bilinear.py:25 | scaling by opaque white changes nothing |
| `GradientBases.RenderTexture` | bouquet/gradients/base.py:158-167 | the texture is drawn from the given mesh with indices 0 .. len(mesh)/5 - 1 |
| `GradientBases.GradientTexture` | bouquet/gradients/base.py:139-156 | the texture is the default one exactly when there are no stops; it is 1x1 then and 1024x1 otherwise |
| `GradientBases.Texture.Pixels` | bouquet/gradients/base.py:120-121 | the default texture holds 4 bytes per pixel over its 1x1 size, all 0xff |
| `GradientBases.FirstOther` | bouquet/gradients/base.py:131-136 | the element the type check stops at is a non-stop, and every element before it is a stop |
| `GradientBases.Snapshot` | bouquet/gradients/base.py:140 | the values sorted are the current position and colour of each listed stop, in list order |
| `GradientBases.CheckStops` | bouquet/gradients/base.py:127-136 | more than 1024 elements give `ValueError` whatever they are; else the first non-stop gives `TypeError` with its class name; else the list passes |
| `GradientBases.GradientBase.constructor` | bouquet/gradients/base.py:118-123 | a new widget has no stops and the 1x1 default texture |
| `GradientBases.GradientBase.UpdateMesh` | bouquet/gradients/base.py:139-156 | the texture becomes the default one for no stops, else the one drawn from the prepared stops' mesh; `color_stops` is not changed |
| `GradientBases.GradientBase.OnColorStops` | bouquet/gradients/base.py:127-137 | the count check, then the type check, then the redraw; a rejection leaves the texture unchanged |
| `GradientBases.GradientBase.SetColorStops` | bouquet/gradients/base.py:102-116 | assigning `color_stops` stores the list, even a rejected one, and then validates and redraws as `OnColorStops` does |
| `GradientBases.EmptyStopsGiveDefault` | bouquet/gradients/base.py:121-123 | no stops give the 1x1 default texture, whose blitted bytes are all 0xff |
| `GradientBases.GradientTextureMesh` | bouquet/gradients/base.py:154-164 | for a non-empty list the texture is 1024x1; its mesh has 5·k floats and reads back vertex by vertex as the k prepared stops; its indices are 0 .. k-1 |
| `GradientBases.GradientTexturePositions` | bouquet/gradients/base.py:146-154 | for in-range stops, the vertices read back from the mesh are sorted by position, stay in [0, 1], and run from 0.0 to 1.0 |
| `Radial.RadiusFactor` | bouquet/gradients/radial.py:152 | a radius ≤ 0 gives 0.0; a positive radius gives a positive factor f with f · radius = 2 |
| `Radial.InitialUniformMatchesDefaultRadius` | bouquet/gradients/radial.py:140 | the initial uniform 2.0 is the factor of the default radius 1.0 |
| `Radial.FactorDecreasing` | bouquet/gradients/radial.py:95-98 | for positive radii the factor strictly decreases as the radius grows, so a larger radius stretches the gradient |
| `Radial.Step` | bouquet/gradients/radial.py:47 | GLSL `step` is 0.0 exactly when x < edge, else 1.0 |
| `Radial.LookupCoordinate` | bouquet/gradients/radial.py:45-47 | a positive scale gives distance · scale; a scale ≤ 0 adds 1.0, so scale 0 samples coordinate 1.0 at every distance |
| `Radial.DegenerateRadiusSamplesEnd` | bouquet/gradients/radial.py:45-47 | with a radius ≤ 0 every pixel samples coordinate 1.0, whatever its distance |
| `Radial.PositiveRadiusCoordinate` | bouquet/gradients/radial.py:45-47 | with a positive radius the coordinate is 0 at the centre, non-negative, strictly increasing in the distance, and 1.0 at half the radius |
| `Radial.RadialGradient.constructor` | bouquet/gradients/radial.py:130-146 | the defaults are radius 1.0 and centre (0.5, 0.5); the uniforms are texture unit 1, radius factor 2.0 and centre (0.5, 0.5), and they agree with the properties |
| `Radial.RadialGradient.UpdateGradientRadius` | bouquet/gradients/radial.py:151-153 | writes the radius factor into `gradientRadius` and no other uniform |
| `Radial.RadialGradient.UpdateGradientCenter` | bouquet/gradients/radial.py:148-149 | stores the pair unchanged in `gradientCenter` and no other uniform |
| `Radial.RadialGradient.SetRadius` | bouquet/gradients/radial.py:95 | setting the radius keeps the uniforms in step with the properties and leaves the centre alone |
| `Radial.RadialGradient.SetCenterPos` | bouquet/gradients/radial.py:84-86 | setting the centre keeps the uniforms in step and leaves the radius uniform alone |
| `Radial.RadialGradient.SetCenterX` | bouquet/gradients/radial.py:66 | setting the x coordinate updates the centre uniform with the whole pair |
| `Radial.RadialGradient.SetCenterY` | bouquet/gradients/radial.py:75 | setting the y coordinate updates the centre uniform with the whole pair |
| `Bilinear.Mix` | bouquet/gradients/bilinear.py:41-43 | `mix(a, b, 0) = a` and `mix(a, b, 1) = b` |
| `Bilinear.MixBetween` | bouquet/gradients/bilinear.py:41-43 | for a weight in [0, 1], `mix` lies between its two ends |
| `Bilinear.MixColor` | bouquet/gradients/bilinear.py:41-42 | `mix` on colours works channel by channel, alpha included |
| `Bilinear.Blend` | bouquet/gradients/bilinear.py:41-43 | the blend is the top-left colour at (0, 0), top-right at (1, 0), bottom-left at (0, 1) and bottom-right at (1, 1) |
| `Bilinear.Shade` | bouquet/gradients/bilinear.py:43 | `gl_FragColor` is the blend multiplied channel by channel by `frag_color` |
| `Bilinear.CornersExact` | bouquet/gradients/bilinear.py:41-43 | at (0,0), (1,0), (0,1), (1,1) the output is top-left, top-right, bottom-left, bottom-right, each scaled by `frag_color` |
| `Bilinear.WhiteCanvasUnscaled` | bouquet/gradients/bilinear.py:25 | under the rule's white canvas colour the output is the unscaled blend |
| `Bilinear.CentreIsMean` | bouquet/gradients/bilinear.py:41-43 | at (0.5, 0.5) each channel is the mean of the four corners |
| `Bilinear.BlendWithinCorners` | bouquet/gradients/bilinear.py:41-43 | for x, y in [0, 1] each channel lies between the least and greatest of the four corners' values |
| `Bilinear.BilinearGradient.constructor` | bouquet/gradients/bilinear.py:119-123 | the defaults are green, yellow, black and red, and the four uniforms equal these properties |
| `Bilinear.BilinearGradient.SetColorUniform` | bouquet/gradients/bilinear.py:134-136 | with a name, writes that uniform's colour and no other; with `None`, changes nothing |
| `Bilinear.BilinearGradient.SetTopLeftColor` | bouquet/gradients/bilinear.py:127 | setting the colour updates `topLeftColor`, writes the `topLeftColor` uniform and leaves every other uniform and property unchanged |
| `Bilinear.BilinearGradient.SetTopRightColor` | bouquet/gradients/bilinear.py:128 | setting the colour updates `topRightColor`, writes the `topRightColor` uniform and leaves every other uniform and property unchanged |
| `Bilinear.BilinearGradient.SetBottomLeftColor` | bouquet/gradients/bilinear.py:129 | setting the colour updates `bottomLeftColor`, writes the `bottomLeftColor` uniform and leaves every other uniform and property unchanged |
| `Bilinear.BilinearGradient.SetBottomRightColor` | bouquet/gradients/bilinear.py:130 | setting the colour updates `bottomRightColor`, writes the `bottomRightColor` uniform and leaves every other uniform and property unchanged |

## Left out

- **Ramp rasterisation.** The GPU draws the mesh as a line strip into a
  1024x1 framebuffer, with blend-state callbacks (base.py:158-174). No
  source code computes those pixels, so the texture is modelled as "drawn
  from mesh M with indices I", not as pixel values.
- **Texture sampling.** `texture2D` in the radial shader is not modelled;
  only its lookup coordinate is.
- **Distance.** The radial shader's `distance(tex_coord0, gradientCenter)` is
  a square root. It is taken as a non-negative input.
- **Framework glue.**
  - All `render_texture` static methods.
  - Fbo, RenderContext and Callback setup.
  - The KV rule strings, `Builder.load_string` and `Factory.register`.
- **Property binding.**
  - The model does not capture `s.bind(...)` at base.py:133. A change to a
    bound stop re-runs `_update_mesh`; in the model the caller calls
    `GradientBase.UpdateMesh` again.
  - Kivy skips dispatch when an assigned value equals the old one; the model
    does not.
  - Keyword arguments given to a constructor behave as setter calls made
    after the default construction.
- **Inheritance.** `RadialGradient` subclasses `GradientBase`. The model uses
  composition instead: `RadialGradient` holds the `GradientBase` object
  `stops`.
- **Colour parsing.** `ColorProperty` colour-name and hex parsing is left
  out, and so is its `ValueError` for `None`. The default corner colours are
  given by their colour-table values: green = #008000, black, yellow = #ffff00,
  red = #ff0000.
- **`__repr__`.** Float formatting is not modelled.
- **Other gradients.** `conical.py` (atan-based angular mapping) and
  `linear.py` (a shader that ignores its `angle` uniform) are not part of this
  model.
- **Foreign elements in a redraw.** `OtherItem` stands for a value without a
  `position` attribute, which makes `sorted` at base.py:140 fail. A value of
  another class that has `position` gets past `sorted` and fails later, at
  `.color` or `._data`, or not at all; the model does not cover such values.
- **Module loading.** bilinear.py:18 imports `enable_copy_blending` and
  `disable_copy_blending`, which base.py does not define. Only the shader
  arithmetic and the uniform setters are modelled.
- **Float precision.** Positions and channels are exact reals, so the
  comparisons `position != 0.0` and `!= 1.0` are exact.

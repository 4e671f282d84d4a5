/**
 * The colour-stop gradient widget of bouquet/gradients/base.py: the
 * validation of a new `color_stops` list and the state of the 1-D
 * gradient texture that the stops are drawn into.
 */
module GradientBases {
  import opened Colors
  import opened ColorStops

  /** Width of the 1-D texture the stop mesh is drawn into; its height is 1. */
  const RampWidth: nat := 1024

  /** One element of the `color_stops` list: a colour stop or a value of another class. */
  datatype Item = ColorStopItem(stop: ColorStop) | OtherItem(className: string)

  /** The exceptions the widget raises. */
  datatype Error =
    | ValueError          // more than 1024 colour stops
    | TypeError(className: string)       // an element that is not a colour stop
    | AttributeError(className: string)  // `sorted` asked a non-stop for its position

  datatype Outcome = Pass | Fail(error: Error)

  /**
   * The value of `_1d_gradient_texture`: the 1x1 default texture, or the
   * 1024x1 texture drawn from a mesh of vertices as a line strip through the
   * given indices.
   */
  datatype Texture = DefaultTexture | RampTexture(vertices: seq<real>, indices: seq<nat>)
  {
    function Width(): nat {
      if DefaultTexture? then 1 else RampWidth
    }

    function Height(): nat {
      1
    }

    /**
     * The RGBA bytes blitted into the default texture when the widget is
     * built: one opaque white pixel. A drawn ramp's pixels are not modelled.
     */
    function Pixels(): (p: seq<int>)
      requires DefaultTexture?
      ensures |p| == 4 * Width() * Height()
      ensures forall i :: 0 <= i < |p| ==> p[i] == 0xff
    {
      [0xff, 0xff, 0xff, 0xff]
    }
  }

  /** `_render_texture(mesh)`: one index per five-float vertex, in order. */
  function RenderTexture(mesh: seq<real>): (t: Texture)
    ensures t.RampTexture? && t.vertices == mesh
    ensures |t.indices| == |mesh| / VertexSize
    ensures forall i :: 0 <= i < |t.indices| ==> t.indices[i] == i
  {
    RampTexture(mesh, Indices(|mesh| / VertexSize))
  }

  /** The texture `_update_mesh` leaves for the given stop values. */
  function GradientTexture(values: seq<Stop>): (t: Texture)
    ensures values == [] <==> t == DefaultTexture
    ensures t.Width() == (if values == [] then 1 else RampWidth) && t.Height() == 1
  {
    if values == [] then DefaultTexture
    else RenderTexture(Flatten(PreparedStops(values)))
  }

  predicate AllColorStops(items: seq<Item>) {
    forall i :: 0 <= i < |items| ==> items[i].ColorStopItem?
  }

  /** The index of the first element that is not a colour stop. */
  function FirstOther(items: seq<Item>): (k: nat)
    requires !AllColorStops(items)
    ensures k < |items| && items[k].OtherItem?
    ensures forall j :: 0 <= j < k ==> items[j].ColorStopItem?
  {
    if items[0].OtherItem? then 0 else 1 + FirstOther(items[1..])
  }

  /** The stop objects held by `items`. */
  function StopObjects(items: seq<Item>): set<ColorStop> {
    set it | it in items && it.ColorStopItem? :: it.stop
  }

  /** The current values of the stops of a list that holds only colour stops. */
  function Snapshot(items: seq<Item>): (values: seq<Stop>)
    requires AllColorStops(items)
    reads StopObjects(items)
    ensures |values| == |items|
    ensures forall i :: 0 <= i < |items| ==> values[i] == items[i].stop.Value()
  {
    if items == [] then []
    else
      assert forall it :: it in items[1..] ==> it in items;
      [items[0].stop.Value()] + Snapshot(items[1..])
  }

  /**
   * The checks `_on_color_stops` makes before it redraws: the length cap
   * first, then one `isinstance` check per element in order.
   */
  method CheckStops(items: seq<Item>) returns (r: Outcome)
    ensures |items| > MaxColorStops ==> r == Fail(ValueError)
    ensures |items| <= MaxColorStops && AllColorStops(items) ==> r == Pass
    ensures |items| <= MaxColorStops && !AllColorStops(items) ==>
      r == Fail(TypeError(items[FirstOther(items)].className))
  {
    if |items| > MaxColorStops {
      return Fail(ValueError);
    }
    var i := 0;
    while i < |items|
      invariant 0 <= i <= |items|
      invariant forall j :: 0 <= j < i ==> items[j].ColorStopItem?
    {
      if items[i].OtherItem? {
        return Fail(TypeError(items[i].className));
      }
      i := i + 1;
    }
    return Pass;
  }

  /**
   * The widget state that base.py keeps: the `color_stops` property and the
   * texture the stops were last drawn into.
   */
  class GradientBase {
    var colorStops: seq<Item>
    var texture: Texture

    /** A new widget has no stops and shows the 1x1 white default texture. */
    constructor ()
      ensures colorStops == [] && texture == DefaultTexture
      ensures texture.Width() == 1 && texture.Height() == 1
    {
      colorStops := [];
      texture := DefaultTexture;
    }

    /**
     * `_update_mesh`: sort the stops by position, fall back to the default
     * texture when there are none, otherwise extend them to [0, 1] and draw
     * their flattened mesh. `color_stops` itself is left as it is.
     */
    method UpdateMesh() returns (r: Outcome)
      modifies this
      ensures colorStops == old(colorStops)
      ensures AllColorStops(colorStops) ==> r == Pass && texture == GradientTexture(Snapshot(colorStops))
      ensures !AllColorStops(colorStops) ==>
        r == Fail(AttributeError(colorStops[FirstOther(colorStops)].className)) && texture == old(texture)
    {
      if !AllColorStops(colorStops) {
        return Fail(AttributeError(colorStops[FirstOther(colorStops)].className));
      }
      var values := Snapshot(colorStops);
      var stops := SortByPosition(values);
      if stops == [] {
        texture := DefaultTexture;
        return Pass;
      }
      ghost var sorted := stops;
      var first := stops[0];
      if first.position != 0.0 {
        stops := [Stop(0.0, first.color)] + stops;
      }
      ghost var headed := stops;
      assert headed == ExtendFront(sorted);
      var last := stops[|stops| - 1];
      if last.position != 1.0 {
        stops := stops + [Stop(1.0, last.color)];
      }
      assert stops == ExtendBack(headed);
      assert stops == PreparedStops(values);
      var mesh := Flatten(stops);
      ghost var drawn := GradientTexture(values);
      texture := RenderTexture(mesh);
      assert texture == drawn;
      assert values == Snapshot(colorStops);
      return Pass;
    }

    /**
     * `_on_color_stops`, run with the new value of `color_stops`: reject
     * more than 1024 elements, then any element that is not a colour stop,
     * and otherwise redraw. A rejected list keeps the old texture.
     */
    method OnColorStops() returns (r: Outcome)
      modifies this
      ensures colorStops == old(colorStops)
      ensures |colorStops| > MaxColorStops ==> r == Fail(ValueError)
      ensures |colorStops| <= MaxColorStops && !AllColorStops(colorStops) ==>
        r == Fail(TypeError(colorStops[FirstOther(colorStops)].className))
      ensures r.Fail? ==> texture == old(texture)
      ensures |colorStops| <= MaxColorStops && AllColorStops(colorStops) ==>
        r == Pass && texture == GradientTexture(Snapshot(colorStops))
    {
      r := CheckStops(colorStops);
      if r.Pass? {
        r := UpdateMesh();
      }
    }

    /**
     * Assigning `color_stops`: the property takes the new list and then
     * dispatches to `_on_color_stops`, so a rejected list stays assigned.
     */
    method SetColorStops(items: seq<Item>) returns (r: Outcome)
      modifies this
      ensures colorStops == items
      ensures |items| > MaxColorStops ==> r == Fail(ValueError)
      ensures |items| <= MaxColorStops && !AllColorStops(items) ==>
        r == Fail(TypeError(items[FirstOther(items)].className))
      ensures r.Fail? ==> texture == old(texture)
      ensures |items| <= MaxColorStops && AllColorStops(items) ==>
        r == Pass && texture == GradientTexture(Snapshot(items))
    {
      colorStops := items;
      r := OnColorStops();
    }
  }

  // ---------------------------------------------------------------------------
  // Properties of the drawn texture

  /** No stops: the 1x1 opaque white default texture. */
  lemma EmptyStopsGiveDefault()
    ensures GradientTexture([]) == DefaultTexture
    ensures GradientTexture([]).Width() == 1 && GradientTexture([]).Height() == 1
    ensures forall i :: 0 <= i < |GradientTexture([]).Pixels()| ==> GradientTexture([]).Pixels()[i] == 255
  {
  }

  lemma VertexCount(k: nat)
    ensures (VertexSize * k) / VertexSize == k
  {
  }

  /**
   * For a non-empty stop list, the texture is 1024x1 and drawn from a mesh
   * that reads back as the prepared stops in order, with the index list
   * `0 .. k-1` for the `k` prepared stops.
   */
  lemma GradientTextureMesh(values: seq<Stop>)
    requires values != []
    ensures var t := GradientTexture(values);
      var prepared := PreparedStops(values);
      t.RampTexture? && t.Width() == RampWidth && t.Height() == 1 &&
      |t.vertices| == VertexSize * |prepared| &&
      |t.vertices| % VertexSize == 0 && Unflatten(t.vertices) == prepared &&
      t.indices == Indices(|prepared|)
  {
    var prepared := PreparedStops(values);
    FlattenRoundTrip(prepared);
    VertexCount(|prepared|);
  }

  /**
   * For in-range stops, the vertices of the mesh read back as stops sorted
   * by position, in [0, 1], from 0.0 to 1.0: the line strip covers the
   * texture once from end to end.
   */
  lemma GradientTexturePositions(values: seq<Stop>)
    requires values != [] && AllInRange(values)
    ensures var t := GradientTexture(values);
      t.RampTexture? && |t.vertices| % VertexSize == 0 &&
      var drawn := Unflatten(t.vertices);
      drawn != [] && SortedByPosition(drawn) && AllInRange(drawn) &&
      drawn[0].position == 0.0 && drawn[|drawn| - 1].position == 1.0
  {
    GradientTextureMesh(values);
    PreparedStopsCover(values);
  }
}

/**
 * Colour stops and the preparation of a stop list for the 1-D gradient
 * texture (bouquet/gradients/base.py): position clamping, the five-float
 * vertex of a stop, the stable sort by position, the edge extension to
 * [0, 1] and the flattening into a mesh.
 */
module ColorStops {
  import opened Colors

  /** Largest number of colour stops a gradient accepts. */
  const MaxColorStops: nat := 1024

  /** Floats per mesh vertex: one position, four colour channels. */
  const VertexSize: nat := 5

  /**
   * The value a bounded position property stores for `x`: values inside
   * [0, 1] are kept, anything above 1.0 becomes 1.0 and anything else 0.0.
   */
  function ClampPosition(x: real): (p: real)
    ensures 0.0 <= p <= 1.0
    ensures 0.0 <= x <= 1.0 ==> p == x
    ensures x > 1.0 ==> p == 1.0
    ensures x < 0.0 ==> p == 0.0
  {
    if 0.0 <= x <= 1.0 then x
    else if x > 1.0 then 1.0 else 0.0
  }

  lemma ClampIdempotent(x: real)
    ensures ClampPosition(ClampPosition(x)) == ClampPosition(x)
  {
  }

  /** The values of a colour stop at one moment: its position and colour. */
  datatype Stop = Stop(position: real, color: Color)

  predicate InRange(s: Stop) {
    0.0 <= s.position <= 1.0
  }

  predicate AllInRange(stops: seq<Stop>) {
    forall i :: 0 <= i < |stops| ==> InRange(stops[i])
  }

  /** The `_data` tuple of a stop: its position followed by its colour channels. */
  function Vertex(s: Stop): (v: seq<real>)
    ensures |v| == VertexSize
    ensures v[0] == s.position && v[1..] == Channels(s.color)
  {
    [s.position] + Channels(s.color)
  }

  /** How the mesh format `(vertexPos, 1), (vertexColor, 4)` reads one vertex. */
  function StopOfVertex(v: seq<real>): (s: Stop)
    requires |v| == VertexSize
    ensures Vertex(s) == v
  {
    Stop(v[0], FromChannels(v[1..]))
  }

  lemma VertexRoundTrip(s: Stop)
    ensures StopOfVertex(Vertex(s)) == s
  {
    assert Vertex(s)[1..] == Channels(s.color);
  }

  /**
   * A mutable colour stop. Its position is a bounded property: every
   * assignment goes through `ClampPosition`, so it always lies in [0, 1].
   */
  class ColorStop {
    var position: real
    var color: Color

    ghost predicate Valid()
      reads this
    {
      0.0 <= position <= 1.0
    }

    /** `ColorStop()`: position 0.0 and colour white. */
    constructor Default()
      ensures Valid() && position == 0.0 && color == White
    {
      position := 0.0;
      color := White;
    }

    /** `ColorStop(position=..., color=...)`: the position is clamped. */
    constructor (position: real, color: Color)
      ensures Valid()
      ensures this.position == ClampPosition(position) && this.color == color
    {
      this.position := ClampPosition(position);
      this.color := color;
    }

    method SetPosition(x: real)
      modifies this
      ensures Valid()
      ensures position == ClampPosition(x) && color == old(color)
    {
      position := ClampPosition(x);
    }

    method SetColor(c: Color)
      requires Valid()
      modifies this
      ensures Valid()
      ensures color == c && position == old(position)
    {
      color := c;
    }

    /** The stop's current position and colour. */
    function Value(): (s: Stop)
      reads this
      ensures Valid() ==> InRange(s)
    {
      Stop(position, color)
    }

    /** `_data`: the position followed by the four colour channels. */
    function Data(): (d: seq<real>)
      reads this
      ensures |d| == VertexSize && StopOfVertex(d) == Value()
    {
      VertexRoundTrip(Value());
      Vertex(Value())
    }
  }

  // ---------------------------------------------------------------------------
  // Stable sort by position (the builtin `sorted` with a position key)

  predicate SortedByPosition(s: seq<Stop>) {
    forall i, j :: 0 <= i < j < |s| ==> s[i].position <= s[j].position
  }

  lemma SortedCons(x: Stop, s: seq<Stop>)
    requires SortedByPosition(s)
    requires forall i :: 0 <= i < |s| ==> x.position <= s[i].position
    ensures SortedByPosition([x] + s)
  {
  }

  lemma SortedSnoc(s: seq<Stop>, x: Stop)
    requires SortedByPosition(s)
    requires forall i :: 0 <= i < |s| ==> s[i].position <= x.position
    ensures SortedByPosition(s + [x])
  {
  }

  lemma SortedTail(s: seq<Stop>)
    requires s != [] && SortedByPosition(s)
    ensures SortedByPosition(s[1..])
  {
    forall i, j | 0 <= i < j < |s| - 1 ensures s[1..][i].position <= s[1..][j].position {
      assert s[1..][i] == s[i + 1] && s[1..][j] == s[j + 1];
    }
  }

  /** A stop of a sorted list lies between its first and its last position. */
  lemma InSortedRange(r: seq<Stop>, x: Stop)
    requires SortedByPosition(r) && x in r
    ensures r[0].position <= x.position <= r[|r| - 1].position
  {
    var j :| 0 <= j < |r| && r[j] == x;
  }

  /** Inserts `x` before the first stop whose position is not smaller than its own. */
  function Insert(x: Stop, t: seq<Stop>): (r: seq<Stop>)
    ensures |r| == |t| + 1
    ensures multiset(r) == multiset(t) + multiset{x}
  {
    if t == [] || x.position <= t[0].position then [x] + t
    else
      assert t == [t[0]] + t[1..];
      [t[0]] + Insert(x, t[1..])
  }

  /** Inserting into a list sorted by position keeps it sorted. */
  lemma {:induction false} InsertSorted(x: Stop, t: seq<Stop>)
    requires SortedByPosition(t)
    ensures SortedByPosition(Insert(x, t))
  {
    if t == [] || x.position <= t[0].position {
      SortedCons(x, t);
    } else {
      var rest := Insert(x, t[1..]);
      SortedTail(t);
      InsertSorted(x, t[1..]);
      forall i | 0 <= i < |rest| ensures t[0].position <= rest[i].position {
        assert rest[i] in multiset(rest);
        if rest[i] != x {
          assert rest[i] in multiset(t[1..]);
          InSortedRange(t, rest[i]);
        }
      }
      SortedCons(t[0], rest);
    }
  }

  /**
   * `sorted(stops, key=position)`: a permutation of `s`, non-decreasing in
   * position (ties keep their input order, see `SortStable`).
   */
  function SortByPosition(s: seq<Stop>): (r: seq<Stop>)
    ensures |r| == |s|
    ensures multiset(r) == multiset(s)
    ensures SortedByPosition(r)
  {
    if s == [] then []
    else
      assert s == [s[0]] + s[1..];
      var rest := SortByPosition(s[1..]);
      InsertSorted(s[0], rest);
      Insert(s[0], rest)
  }

  /** The stops of `s` whose position is exactly `p`, in their order in `s`. */
  function AtPosition(s: seq<Stop>, p: real): seq<Stop> {
    if s == [] then []
    else (if s[0].position == p then [s[0]] else []) + AtPosition(s[1..], p)
  }

  lemma {:induction false} AtPositionCons(x: Stop, t: seq<Stop>, p: real)
    ensures AtPosition([x] + t, p) == (if x.position == p then [x] else []) + AtPosition(t, p)
  {
    assert ([x] + t)[1..] == t;
  }

  lemma {:induction false} InsertAtPosition(x: Stop, t: seq<Stop>, p: real)
    ensures AtPosition(Insert(x, t), p) == (if x.position == p then [x] else []) + AtPosition(t, p)
  {
    if t == [] || x.position <= t[0].position {
      AtPositionCons(x, t, p);
    } else {
      var rest := Insert(x, t[1..]);
      assert Insert(x, t) == [t[0]] + rest;
      InsertAtPosition(x, t[1..], p);
      AtPositionCons(t[0], rest, p);
      assert t == [t[0]] + t[1..];
      AtPositionCons(t[0], t[1..], p);
      if t[0].position == p {
        assert x.position != p;
      }
    }
  }

  /** Stability: for every position, the stops at it appear in input order. */
  lemma {:induction false} SortStable(s: seq<Stop>, p: real)
    ensures AtPosition(SortByPosition(s), p) == AtPosition(s, p)
  {
    if s != [] {
      SortStable(s[1..], p);
      InsertAtPosition(s[0], SortByPosition(s[1..]), p);
    }
  }

  /** A stop lies in `s` exactly when it lies in the stops of `s` at its own position. */
  lemma {:induction false} InAtPosition(s: seq<Stop>, x: Stop)
    ensures x in s <==> x in AtPosition(s, x.position)
  {
    if s != [] {
      InAtPosition(s[1..], x);
      assert s == [s[0]] + s[1..];
    }
  }

  /** A stop at `p` heads `AtPosition(s, p)` when it heads a sorted `s`. */
  lemma AtPositionHead(s: seq<Stop>)
    requires s != []
    ensures AtPosition(s, s[0].position) == [s[0]] + AtPosition(s[1..], s[0].position)
  {
  }

  /**
   * Uniqueness: a list sorted by position whose stops at every position come
   * in the same order as in `s` is the stable sort of `s`.
   */
  lemma {:induction false} StableSortUnique(r: seq<Stop>, s: seq<Stop>)
    requires SortedByPosition(r)
    requires forall p :: AtPosition(r, p) == AtPosition(s, p)
    ensures r == SortByPosition(s)
  {
    var t := SortByPosition(s);
    forall p ensures AtPosition(r, p) == AtPosition(t, p) {
      SortStable(s, p);
    }
    SortedSamePositions(r, t);
  }

  /** A stop of `r` is a stop of any `t` with the same stops at every position. */
  lemma SharedStop(r: seq<Stop>, t: seq<Stop>, x: Stop)
    requires x in r
    requires AtPosition(r, x.position) == AtPosition(t, x.position)
    ensures x in t
  {
    InAtPosition(r, x);
    InAtPosition(t, x);
  }

  /** Dropping an equal head keeps the stops at `p` equal. */
  lemma SameTailsAt(r: seq<Stop>, t: seq<Stop>, p: real)
    requires r != [] && t != [] && r[0] == t[0]
    requires AtPosition(r, p) == AtPosition(t, p)
    ensures AtPosition(r[1..], p) == AtPosition(t[1..], p)
  {
    var head := if r[0].position == p then [r[0]] else [];
    assert r == [r[0]] + r[1..];
    assert t == [t[0]] + t[1..];
    AtPositionCons(r[0], r[1..], p);
    AtPositionCons(t[0], t[1..], p);
    assert AtPosition(r[1..], p) == AtPosition(r, p)[|head|..];
    assert AtPosition(t[1..], p) == AtPosition(t, p)[|head|..];
  }

  /** Two sorted lists with the same stops at every position are equal. */
  lemma {:induction false} SortedSamePositions(r: seq<Stop>, t: seq<Stop>)
    requires SortedByPosition(r) && SortedByPosition(t)
    requires forall p :: AtPosition(r, p) == AtPosition(t, p)
    ensures r == t
  {
    if r != [] && t == [] {
      SharedStop(r, t, r[0]);
    } else if r == [] && t != [] {
      SharedStop(t, r, t[0]);
    } else if r != [] {
      SharedStop(r, t, r[0]);
      SharedStop(t, r, t[0]);
      InSortedRange(t, r[0]);
      InSortedRange(r, t[0]);
      var p0 := r[0].position;
      assert t[0].position == p0;
      AtPositionHead(r);
      AtPositionHead(t);
      assert r[0] == AtPosition(r, p0)[0] == AtPosition(t, p0)[0] == t[0];
      forall p ensures AtPosition(r[1..], p) == AtPosition(t[1..], p) {
        SameTailsAt(r, t, p);
      }
      SortedTail(r);
      SortedTail(t);
      SortedSamePositions(r[1..], t[1..]);
      assert r == [r[0]] + r[1..] && t == [t[0]] + t[1..];
    }
  }

  /** The first sorted stop has the least position of all, the last the greatest. */
  lemma SortedEnds(s: seq<Stop>)
    requires s != []
    ensures var r := SortByPosition(s);
      r[0] in s && r[|r| - 1] in s &&
      forall i :: 0 <= i < |s| ==> r[0].position <= s[i].position <= r[|r| - 1].position
  {
    var r := SortByPosition(s);
    assert r[0] in multiset(s) && r[|r| - 1] in multiset(s);
    forall i | 0 <= i < |s|
      ensures r[0].position <= s[i].position <= r[|r| - 1].position
    {
      assert s[i] in multiset(r);
      InSortedRange(r, s[i]);
    }
  }

  // ---------------------------------------------------------------------------
  // Edge extension and mesh

  /** `stops.insert(0, ...)`: a stop at 0.0 with the first colour, unless one is already there. */
  function ExtendFront(s: seq<Stop>): (h: seq<Stop>)
    requires s != []
    ensures h != [] && h[0].position == 0.0 && h[0].color == s[0].color
    ensures h[|h| - 1] == s[|s| - 1]
    ensures var front := if s[0].position != 0.0 then 1 else 0;
      |h| == |s| + front && h[front..] == s
  {
    var first := s[0];
    if first.position != 0.0 then [Stop(0.0, first.color)] + s else s
  }

  /** `stops.append(...)`: a stop at 1.0 with the last colour, unless one is already there. */
  function ExtendBack(h: seq<Stop>): (r: seq<Stop>)
    requires h != []
    ensures r != [] && r[|r| - 1].position == 1.0 && r[|r| - 1].color == h[|h| - 1].color
    ensures r[0] == h[0]
    ensures var back := if h[|h| - 1].position != 1.0 then 1 else 0;
      |r| == |h| + back && r[..|h|] == h
  {
    var last := h[|h| - 1];
    if last.position != 1.0 then h + [Stop(1.0, last.color)] else h
  }

  /**
   * Edge extension of a sorted non-empty stop list: a stop at 0.0 with the
   * first stop's colour is put in front unless the first stop is already at
   * 0.0; then a stop at 1.0 with the (then) last stop's colour is appended
   * unless the last stop is already at 1.0.
   */
  function Extend(s: seq<Stop>): (r: seq<Stop>)
    requires s != []
    ensures |r| >= |s|
    ensures r[0].position == 0.0 && r[|r| - 1].position == 1.0
    ensures r[0].color == s[0].color && r[|r| - 1].color == s[|s| - 1].color
    ensures var front := if s[0].position != 0.0 then 1 else 0;
      var back := if s[|s| - 1].position != 1.0 then 1 else 0;
      |r| == |s| + front + back && r[front..front + |s|] == s
  {
    var h := ExtendFront(s);
    var r := ExtendBack(h);
    ghost var front := if s[0].position != 0.0 then 1 else 0;
    assert r[front..front + |s|] == r[..|h|][front..] == h[front..];
    r
  }

  lemma ExtendFrontSorted(s: seq<Stop>)
    requires s != [] && SortedByPosition(s) && AllInRange(s)
    ensures SortedByPosition(ExtendFront(s)) && AllInRange(ExtendFront(s))
  {
    if s[0].position != 0.0 {
      SortedCons(Stop(0.0, s[0].color), s);
      assert ExtendFront(s) == [Stop(0.0, s[0].color)] + s;
    }
  }

  lemma ExtendBackSorted(h: seq<Stop>)
    requires h != [] && SortedByPosition(h) && AllInRange(h)
    ensures SortedByPosition(ExtendBack(h)) && AllInRange(ExtendBack(h))
  {
    var last := h[|h| - 1];
    if last.position != 1.0 {
      SortedSnoc(h, Stop(1.0, last.color));
      assert ExtendBack(h) == h + [Stop(1.0, last.color)];
    }
  }

  /** Extending a sorted list of in-range stops keeps it sorted and in range. */
  lemma ExtendSorted(s: seq<Stop>)
    requires s != [] && SortedByPosition(s) && AllInRange(s)
    ensures SortedByPosition(Extend(s)) && AllInRange(Extend(s))
  {
    ExtendFrontSorted(s);
    ExtendBackSorted(ExtendFront(s));
  }

  /** The stops `_update_mesh` draws for a non-empty `color_stops`. */
  function PreparedStops(values: seq<Stop>): (r: seq<Stop>)
    requires values != []
    ensures r != [] && r[0].position == 0.0 && r[|r| - 1].position == 1.0
    ensures |values| <= |r| <= |values| + 2
  {
    Extend(SortByPosition(values))
  }

  lemma InRangeMember(stops: seq<Stop>, x: Stop)
    requires AllInRange(stops) && x in stops
    ensures InRange(x)
  {
    var k :| 0 <= k < |stops| && stops[k] == x;
  }

  /** Sorting in-range stops keeps them in range. */
  lemma SortInRange(values: seq<Stop>)
    requires AllInRange(values)
    ensures AllInRange(SortByPosition(values))
  {
    var sorted := SortByPosition(values);
    forall i | 0 <= i < |sorted| ensures InRange(sorted[i]) {
      assert sorted[i] in multiset(values);
      InRangeMember(values, sorted[i]);
    }
  }

  /**
   * The prepared list of in-range stops is sorted, stays in range and
   * covers [0, 1] from end to end.
   */
  lemma PreparedStopsCover(values: seq<Stop>)
    requires values != [] && AllInRange(values)
    ensures var r := PreparedStops(values);
      SortedByPosition(r) && AllInRange(r) &&
      r[0].position == 0.0 && r[|r| - 1].position == 1.0
  {
    SortInRange(values);
    ExtendSorted(SortByPosition(values));
  }

  /** The index in `values` of the stop that the sort puts first. */
  lemma LeastIndex(values: seq<Stop>) returns (lo: nat)
    requires values != []
    ensures lo < |values| && values[lo] == SortByPosition(values)[0]
    ensures forall j :: 0 <= j < |values| ==> values[lo].position <= values[j].position
  {
    SortedEnds(values);
    var sorted := SortByPosition(values);
    lo :| 0 <= lo < |values| && values[lo] == sorted[0];
  }

  /** The index in `values` of the stop that the sort puts last. */
  lemma GreatestIndex(values: seq<Stop>) returns (hi: nat)
    requires values != []
    ensures hi < |values| && values[hi] == SortByPosition(values)[|values| - 1]
    ensures forall j :: 0 <= j < |values| ==> values[j].position <= values[hi].position
  {
    SortedEnds(values);
    var sorted := SortByPosition(values);
    hi :| 0 <= hi < |values| && values[hi] == sorted[|sorted| - 1];
  }

  /** The prepared list's first colour is that of a stop of least position. */
  lemma PreparedFirstColor(values: seq<Stop>)
    requires values != []
    ensures var r := PreparedStops(values);
      exists i :: 0 <= i < |values| && r[0].color == values[i].color &&
        forall j :: 0 <= j < |values| ==> values[i].position <= values[j].position
  {
    var lo := LeastIndex(values);
    assert PreparedStops(values)[0].color == values[lo].color;
  }

  /** The prepared list's last colour is that of a stop of greatest position. */
  lemma PreparedLastColor(values: seq<Stop>)
    requires values != []
    ensures var r := PreparedStops(values);
      exists i :: 0 <= i < |values| && r[|r| - 1].color == values[i].color &&
        forall j :: 0 <= j < |values| ==> values[j].position <= values[i].position
  {
    var hi := GreatestIndex(values);
    var r := PreparedStops(values);
    assert r[|r| - 1].color == values[hi].color;
  }

  /** `[i for stop in stops for i in stop._data]`. */
  function Flatten(stops: seq<Stop>): (mesh: seq<real>)
    ensures |mesh| == VertexSize * |stops|
  {
    if stops == [] then [] else Vertex(stops[0]) + Flatten(stops[1..])
  }

  /** Stop `j`'s `_data` occupies mesh indices `5j .. 5j+4`. */
  lemma {:induction false} FlattenAt(stops: seq<Stop>, j: nat)
    requires j < |stops|
    ensures Flatten(stops)[VertexSize * j .. VertexSize * j + VertexSize] == Vertex(stops[j])
  {
    if j > 0 {
      FlattenAt(stops[1..], j - 1);
      var head, tail := Vertex(stops[0]), Flatten(stops[1..]);
      assert Flatten(stops) == head + tail;
      var k := VertexSize * (j - 1);
      assert VertexSize * j == |head| + k;
      SliceAfter(head, tail, k, VertexSize);
    }
  }

  lemma SliceAfter(a: seq<real>, b: seq<real>, k: nat, m: nat)
    requires k + m <= |b|
    ensures (a + b)[|a| + k .. |a| + k + m] == b[k .. k + m]
  {
    var lhs, rhs := (a + b)[|a| + k .. |a| + k + m], b[k .. k + m];
    forall i | 0 <= i < m ensures lhs[i] == rhs[i] {
      assert lhs[i] == (a + b)[|a| + k + i];
    }
  }

  /** How the mesh is read back vertex by vertex. */
  function Unflatten(mesh: seq<real>): (stops: seq<Stop>)
    requires |mesh| % VertexSize == 0
    ensures |stops| == |mesh| / VertexSize
    ensures Flatten(stops) == mesh
  {
    if mesh == [] then []
    else [StopOfVertex(mesh[..VertexSize])] + Unflatten(mesh[VertexSize..])
  }

  /** Reading the mesh back with the declared vertex format gives the stops. */
  lemma {:induction false} FlattenRoundTrip(stops: seq<Stop>)
    ensures |Flatten(stops)| % VertexSize == 0
    ensures Unflatten(Flatten(stops)) == stops
  {
    if stops != [] {
      var mesh := Flatten(stops);
      assert mesh[..VertexSize] == Vertex(stops[0]);
      assert mesh[VertexSize..] == Flatten(stops[1..]);
      VertexRoundTrip(stops[0]);
      FlattenRoundTrip(stops[1..]);
      assert stops == [stops[0]] + stops[1..];
    }
  }

  /** `tuple(range(n))`. */
  function Indices(n: nat): (r: seq<nat>)
    ensures |r| == n && forall i :: 0 <= i < n ==> r[i] == i
  {
    if n == 0 then [] else Indices(n - 1) + [n - 1]
  }

  // ---------------------------------------------------------------------------
  // The stop lists of the widget's tests

  const OpaqueBlue: Color := Color(0.0, 0.0, 1.0, 1.0)
  const TransparentRed: Color := Color(1.0, 0.0, 0.0, 0.0)

  /** A red stop at 0.5 has the data `(0.5, 1.0, 0.0, 0.0, 1.0)`. */
  lemma DataExample()
    ensures Vertex(Stop(0.5, Color(1.0, 0.0, 0.0, 1.0))) == [0.5, 1.0, 0.0, 0.0, 1.0]
  {
  }

  /** Two stops at 0.75 and 0.25 are swapped, then extended at both ends. */
  lemma PreparedTwoInnerStops()
    ensures PreparedStops([Stop(0.75, TransparentRed), Stop(0.25, OpaqueBlue)])
         == [Stop(0.0, OpaqueBlue), Stop(0.25, OpaqueBlue), Stop(0.75, TransparentRed), Stop(1.0, TransparentRed)]
  {
    var a, b := Stop(0.75, TransparentRed), Stop(0.25, OpaqueBlue);
    SortTwo(a, b);
    var headed := ExtendFront([b, a]);
    assert headed == [Stop(0.0, OpaqueBlue), b, a];
    assert ExtendBack(headed) == headed + [Stop(1.0, TransparentRed)];
  }

  /** Sorting two stops swaps them exactly when the first lies further right. */
  lemma SortTwo(a: Stop, b: Stop)
    ensures SortByPosition([a, b]) == if a.position <= b.position then [a, b] else [b, a]
  {
    assert SortByPosition([b]) == Insert(b, []) == [b];
    assert [a, b][1..] == [b];
    assert SortByPosition([a, b]) == Insert(a, [b]);
  }

  /** Stops already at 0.0 and 1.0 are drawn as given. */
  lemma PreparedEndStops()
    ensures PreparedStops([Stop(0.0, Black), Stop(1.0, White)]) == [Stop(0.0, Black), Stop(1.0, White)]
    ensures Flatten([Stop(0.0, Black), Stop(1.0, White)]) == [0.0, 0.0, 0.0, 0.0, 1.0, 1.0, 1.0, 1.0, 1.0, 1.0]
  {
    var a, b := Stop(0.0, Black), Stop(1.0, White);
    SortTwo(a, b);
    assert ExtendFront([a, b]) == [a, b];
    assert ExtendBack([a, b]) == [a, b];
    assert Flatten([b]) == Vertex(b);
  }
}

/** The shapes of source/schediazo/shapes.py: each writes its geometry attributes, always and
    in a fixed order, then hands over to its mixin chain (`Elements.ShapeChain`), and creates
    one element under its parent. */
module Shapes {
  import opened Wrappers
  import opened Markup
  import opened Elements
  import A = Attributes
  import T = Transforms

  /** The geometry each shape class stores. */
  datatype Geometry =
    | Circle(cx: real, cy: real, r: real)
    | Ellipse(cx: real, cy: real, rx: real, ry: real)
    | Rect(x: real, y: real, w: real, h: real)
    | Polyline(xs: seq<real>, ys: seq<real>)
    | Polygon(xs: seq<real>, ys: seq<real>)

  datatype Shape = Shape(geometry: Geometry, style: Style)

  /** The tag `create_element` gives the new element (shapes.py:19, 42, 66, 88, 107). */
  function Tag(g: Geometry): string
  {
    match g
    case Circle(_, _, _) => "circle"
    case Ellipse(_, _, _, _) => "ellipse"
    case Rect(_, _, _, _) => "rect"
    case Polyline(_, _) => "polyline"
    case Polygon(_, _) => "polygon"
  }

  /** `''.join(['{},{} '.format(xi, yi) for xi, yi in zip(x, y)])`: one `x,y ` per pair,
      as many pairs as the shorter list has entries. */
  function Points(xs: seq<real>, ys: seq<real>, num: real -> string): string
  {
    if |xs| == 0 || |ys| == 0 then ""
    else num(xs[0]) + "," + num(ys[0]) + " " + Points(xs[1..], ys[1..], num)
  }

  function Min(a: nat, b: nat): nat
  {
    if a <= b then a else b
  }

  /** `zip` stops at the shorter list: the extra entries of the longer one are dropped. */
  lemma {:induction false} PointsTruncates(xs: seq<real>, ys: seq<real>, num: real -> string)
    ensures Points(xs, ys, num) == Points(xs[..Min(|xs|, |ys|)], ys[..Min(|xs|, |ys|)], num)
    decreases |xs|
  {
    var m := Min(|xs|, |ys|);
    if m > 0 {
      PointsTruncates(xs[1..], ys[1..], num);
      assert xs[..m][1..] == xs[1..][..m - 1];
      assert ys[..m][1..] == ys[1..][..m - 1];
    }
  }

  /** A further pair of equal-length lists adds its `x,y ` at the end. */
  lemma {:induction false} PointsAppend(xs: seq<real>, ys: seq<real>, x: real, y: real, num: real -> string)
    requires |xs| == |ys|
    ensures Points(xs + [x], ys + [y], num) == Points(xs, ys, num) + num(x) + "," + num(y) + " "
    decreases |xs|
  {
    if |xs| == 0 {
      assert xs + [x] == [x] && ys + [y] == [y];
      assert [x][1..] == [] && [y][1..] == [];
    } else {
      assert (xs + [x])[1..] == xs[1..] + [x] && (ys + [y])[1..] == ys[1..] + [y];
      PointsAppend(xs[1..], ys[1..], x, y, num);
    }
  }

  /** The geometry attributes `set_element_attributes` writes before the chain (shapes.py:25-27,
      48-51, 72-75, 94, 113). */
  function GeometryWrites(g: Geometry, num: real -> string): (w: seq<Attr>)
    ensures Distinct(Names(w)) && Elems(Names(w)) <= GeometryKeys()
  {
    match g
    case Circle(cx, cy, r) => [("cx", Str(num(cx))), ("cy", Str(num(cy))), ("r", Str(num(r)))]
    case Ellipse(cx, cy, rx, ry) =>
      [("cx", Str(num(cx))), ("cy", Str(num(cy))), ("rx", Str(num(rx))), ("ry", Str(num(ry)))]
    case Rect(x, y, w, h) => [("x", Str(num(x))), ("y", Str(num(y))), ("w", Str(num(w))), ("h", Str(num(h)))]
    case Polyline(xs, ys) => [("points", Str(Points(xs, ys, num)))]
    case Polygon(xs, ys) => [("points", Str(Points(xs, ys, num)))]
  }

  /** Every name a shape's geometry may be written under. */
  function GeometryKeys(): set<string>
  {
    {"cx", "cy", "r", "rx", "ry", "x", "y", "w", "h", "points"}
  }

  /** `set_element_attributes` of a shape, on the fresh element `create_element` made. */
  function Attributes(s: Shape, num: real -> string): seq<Attr>
  {
    SetAll([], GeometryWrites(s.geometry, num) + ChainWrites(ShapeChain(s.style), num))
  }

  /** A shape's attributes are its geometry, then its stroke, fill and transform, each name
      once. */
  lemma {:induction false} ShapeAttributes(s: Shape, num: real -> string)
    ensures Attributes(s, num) == GeometryWrites(s.geometry, num)
      + A.StrokeWrites(s.style.stroke, s.style.dashArray, s.style.width, num)
      + A.FillWrites(s.style.fill, s.style.fillOpacity) + A.TransformWrites(s.style.transform, num)
    ensures Distinct(Names(Attributes(s, num)))
  {
    var g := GeometryWrites(s.geometry, num);
    var c := ChainWrites(ShapeChain(s.style), num);
    ShapeChainWrites(s.style, num);
    ShapeChainNames(s.style, num);
    FreshShape(g, c);
    Regroup(g, A.StrokeWrites(s.style.stroke, s.style.dashArray, s.style.width, num),
      A.FillWrites(s.style.fill, s.style.fillOpacity), A.TransformWrites(s.style.transform, num));
  }

  lemma Regroup(g: seq<Attr>, st: seq<Attr>, fi: seq<Attr>, tr: seq<Attr>)
    ensures g + (st + fi + tr) == g + st + fi + tr
  {
  }

  /** A shape never writes a clip path, id, style or class, whatever it was given. */
  lemma {:induction false} ShapeOmits(s: Shape, num: real -> string)
    ensures Lookup(Attributes(s, num), "clip-path") == None && Lookup(Attributes(s, num), "id") == None
    ensures Lookup(Attributes(s, num), "style") == None && Lookup(Attributes(s, num), "class") == None
  {
    var g := GeometryWrites(s.geometry, num);
    var c := ChainWrites(ShapeChain(s.style), num);
    ShapeChainNames(s.style, num);
    FreshShape(g, c);
    OutsideGeometryKeys(g);
    OutsideShapeKeys(c);
    Omitted(g, c, "clip-path");
    Omitted(g, c, "id");
    Omitted(g, c, "style");
    Omitted(g, c, "class");
  }

  lemma FreshShape(g: seq<Attr>, c: seq<Attr>)
    requires Distinct(Names(g)) && Elems(Names(g)) <= GeometryKeys()
    requires Distinct(Names(c)) && Elems(Names(c)) <= ShapeChainKeys()
    ensures SetAll([], g + c) == g + c && Distinct(Names(g + c))
  {
    KeysDisjoint();
    SeparateConcat(g, c, GeometryKeys(), ShapeChainKeys());
    FreshAll(g + c);
  }

  lemma FreshAll(w: seq<Attr>)
    requires Distinct(Names(w))
    ensures SetAll([], w) == w
  {
    assert [] + w == w;
    SetAllFresh([], w);
  }

  lemma KeysDisjoint()
    ensures GeometryKeys() !! ShapeChainKeys()
  {
  }

  lemma OutsideGeometryKeys(g: seq<Attr>)
    requires Elems(Names(g)) <= GeometryKeys()
    ensures Lookup(g, "clip-path") == None && Lookup(g, "id") == None
    ensures Lookup(g, "style") == None && Lookup(g, "class") == None
  {
    Absent(g, GeometryKeys(), "clip-path");
    Absent(g, GeometryKeys(), "id");
    Absent(g, GeometryKeys(), "style");
    Absent(g, GeometryKeys(), "class");
  }

  lemma Omitted(g: seq<Attr>, c: seq<Attr>, n: string)
    requires Lookup(g, n) == None && Lookup(c, n) == None
    ensures Lookup(g + c, n) == None
  {
    LookupConcat(g, c, n);
  }

  /** The geometry is written unconditionally and read back as written, before anything the
      chain writes. */
  lemma {:induction false} GeometryWritten(s: Shape, num: real -> string)
    ensures forall n :: n in Names(GeometryWrites(s.geometry, num)) ==>
      Lookup(Attributes(s, num), n) == Lookup(GeometryWrites(s.geometry, num), n)
  {
    var g := GeometryWrites(s.geometry, num);
    var c := ChainWrites(ShapeChain(s.style), num);
    ShapeChainNames(s.style, num);
    FreshShape(g, c);
    GeometryFirst(g, c);
  }

  /** Names the geometry writes read as the geometry wrote them. */
  lemma GeometryFirst(g: seq<Attr>, rest: seq<Attr>)
    ensures forall n :: n in Names(g) ==> Lookup(g + rest, n) == Lookup(g, n)
  {
    forall n | n in Names(g) ensures Lookup(g + rest, n) == Lookup(g, n) {
      LookupConcat(g, rest, n);
    }
  }

  /** Which geometry attribute holds which stored value: a circle's centre and radius, an
      ellipse's centre and radii, a rectangle's corner and size, a poly-shape's points. */
  lemma {:induction false} GeometryValues(g: Geometry, num: real -> string)
    ensures g.Circle? ==>
      && Lookup(GeometryWrites(g, num), "cx") == Some(Str(num(g.cx)))
      && Lookup(GeometryWrites(g, num), "cy") == Some(Str(num(g.cy)))
      && Lookup(GeometryWrites(g, num), "r") == Some(Str(num(g.r)))
    ensures g.Ellipse? ==>
      && Lookup(GeometryWrites(g, num), "cx") == Some(Str(num(g.cx)))
      && Lookup(GeometryWrites(g, num), "cy") == Some(Str(num(g.cy)))
      && Lookup(GeometryWrites(g, num), "rx") == Some(Str(num(g.rx)))
      && Lookup(GeometryWrites(g, num), "ry") == Some(Str(num(g.ry)))
    ensures g.Rect? ==>
      && Lookup(GeometryWrites(g, num), "x") == Some(Str(num(g.x)))
      && Lookup(GeometryWrites(g, num), "y") == Some(Str(num(g.y)))
      && Lookup(GeometryWrites(g, num), "w") == Some(Str(num(g.w)))
      && Lookup(GeometryWrites(g, num), "h") == Some(Str(num(g.h)))
    ensures g.Polyline? || g.Polygon? ==>
      GeometryWrites(g, num) == [("points", Str(Points(g.xs, g.ys, num)))]
  {
    var w := GeometryWrites(g, num);
    LookupIndex(w);
    if !(g.Polyline? || g.Polygon?) {
      assert Lookup(w, w[0].0) == Some(w[0].1) && Lookup(w, w[1].0) == Some(w[1].1);
      assert Lookup(w, w[2].0) == Some(w[2].1);
      if !g.Circle? {
        assert Lookup(w, w[3].0) == Some(w[3].1);
      }
    }
  }

  /** Each geometry value reads back under its own name in the shape's attributes. */
  lemma ShapeLookups(s: Shape, num: real -> string)
    ensures var a := Attributes(s, num); var g := s.geometry;
      && (g.Circle? ==> Lookup(a, "cx") == Some(Str(num(g.cx))) && Lookup(a, "cy") == Some(Str(num(g.cy)))
                        && Lookup(a, "r") == Some(Str(num(g.r))))
      && (g.Ellipse? ==> Lookup(a, "cx") == Some(Str(num(g.cx))) && Lookup(a, "cy") == Some(Str(num(g.cy)))
                         && Lookup(a, "rx") == Some(Str(num(g.rx))) && Lookup(a, "ry") == Some(Str(num(g.ry))))
      && (g.Rect? ==> Lookup(a, "x") == Some(Str(num(g.x))) && Lookup(a, "y") == Some(Str(num(g.y)))
                      && Lookup(a, "w") == Some(Str(num(g.w))) && Lookup(a, "h") == Some(Str(num(g.h))))
      && (g.Polyline? || g.Polygon? ==> Lookup(a, "points") == Some(Str(Points(g.xs, g.ys, num))))
  {
    var w := GeometryWrites(s.geometry, num);
    GeometryWritten(s, num);
    GeometryValues(s.geometry, num);
    if !(s.geometry.Polyline? || s.geometry.Polygon?) {
      assert Names(w)[0] == w[0].0 && Names(w)[1] == w[1].0 && Names(w)[2] == w[2].0;
      if !s.geometry.Circle? {
        assert Names(w)[3] == w[3].0;
      }
    } else {
      assert Names(w)[0] == "points";
    }
  }

  /** `create_element` (shapes.py:18-22 and the like): one new child of `root` with the
      shape's tag and no children of its own. It carries the geometry, then stroke, fill and
      transform, each name once; each geometry value under its own name; and never a clip
      path, id, style or class. */
  function CreateElement(root: Element, s: Shape, num: real -> string): (r: (Element, Element))
    ensures r.0.tag == root.tag && r.0.attrs == root.attrs && r.0.text == root.text
    ensures r.0.children == root.children + [r.1]
    ensures r.1.tag == Tag(s.geometry) && r.1.children == [] && r.1.text == None
    ensures r.1.attrs == GeometryWrites(s.geometry, num)
      + A.StrokeWrites(s.style.stroke, s.style.dashArray, s.style.width, num)
      + A.FillWrites(s.style.fill, s.style.fillOpacity) + A.TransformWrites(s.style.transform, num)
    ensures Distinct(Names(r.1.attrs))
    ensures s.geometry.Circle? ==>
      && Lookup(r.1.attrs, "cx") == Some(Str(num(s.geometry.cx)))
      && Lookup(r.1.attrs, "cy") == Some(Str(num(s.geometry.cy)))
      && Lookup(r.1.attrs, "r") == Some(Str(num(s.geometry.r)))
    ensures s.geometry.Ellipse? ==>
      && Lookup(r.1.attrs, "cx") == Some(Str(num(s.geometry.cx)))
      && Lookup(r.1.attrs, "cy") == Some(Str(num(s.geometry.cy)))
      && Lookup(r.1.attrs, "rx") == Some(Str(num(s.geometry.rx)))
      && Lookup(r.1.attrs, "ry") == Some(Str(num(s.geometry.ry)))
    ensures s.geometry.Rect? ==>
      && Lookup(r.1.attrs, "x") == Some(Str(num(s.geometry.x)))
      && Lookup(r.1.attrs, "y") == Some(Str(num(s.geometry.y)))
      && Lookup(r.1.attrs, "w") == Some(Str(num(s.geometry.w)))
      && Lookup(r.1.attrs, "h") == Some(Str(num(s.geometry.h)))
    ensures s.geometry.Polyline? || s.geometry.Polygon? ==>
      Lookup(r.1.attrs, "points") == Some(Str(Points(s.geometry.xs, s.geometry.ys, num)))
    ensures Lookup(r.1.attrs, "clip-path") == None && Lookup(r.1.attrs, "id") == None
    ensures Lookup(r.1.attrs, "style") == None && Lookup(r.1.attrs, "class") == None
  {
    ShapeAttributes(s, num);
    ShapeOmits(s, num);
    ShapeLookups(s, num);
    var (root1, e) := Create(root, Tag(s.geometry), Attributes(s, num));
    (root1, CreateChildElements(e, [], (c: Element) => c))
  }

  // ---------------------------------------------------------------------------
  // EquilateralTriangle
  // ---------------------------------------------------------------------------

  /** The vertex lists `EquilateralTriangle(x0, y0, side)` hands to `Polygon`
      (shapes.py:124-128), with `c` the value of cos 30°: x offsets 0, 1/2, -1/2, 0 and y
      offsets -c/2, c/2, c/2, -c/2 times the side, shifted up by 1/(2c). */
  function TriangleVertices(x0: real, y0: real, side: real, c: real): (r: (seq<real>, seq<real>))
    requires c != 0.0
    ensures |r.0| == 4 && |r.1| == 4
    ensures r.0[0] == r.0[3] && r.1[0] == r.1[3]
  {
    var hh := 0.5 * c;
    var yorigin := 0.5 / c;
    ([x0 + 0.0 * side, x0 + 0.5 * side, x0 + -0.5 * side, x0 + 0.0 * side],
     [-yorigin + y0 + -hh * side, -yorigin + y0 + hh * side, -yorigin + y0 + hh * side, -yorigin + y0 + -hh * side])
  }

  /** `EquilateralTriangle` is a `Polygon` over those vertices. */
  function EquilateralTriangle(x0: real, y0: real, side: real, t: T.Trig, style: Style): (s: Shape)
    requires t.cos(30.0) != 0.0
    ensures s.geometry.Polygon? && Tag(s.geometry) == "polygon"
    ensures |s.geometry.xs| == 4 && |s.geometry.ys| == 4
    ensures s.geometry.xs[0] == s.geometry.xs[3] && s.geometry.ys[0] == s.geometry.ys[3]
  {
    var v := TriangleVertices(x0, y0, side, t.cos(30.0));
    Shape(Polygon(v.0, v.1), style)
  }

  function Dist2(x1: real, y1: real, x2: real, y2: real): real
  {
    (x2 - x1) * (x2 - x1) + (y2 - y1) * (y2 - y1)
  }

  /** With `c` the positive root of c² = 3/4, all three edges have length `side`. */
  lemma {:induction false} TriangleEquilateral(x0: real, y0: real, side: real, c: real)
    requires c > 0.0 && c * c == 0.75
    ensures var (xs, ys) := TriangleVertices(x0, y0, side, c);
      && Dist2(xs[0], ys[0], xs[1], ys[1]) == side * side
      && Dist2(xs[1], ys[1], xs[2], ys[2]) == side * side
      && Dist2(xs[2], ys[2], xs[3], ys[3]) == side * side
  {
    var (xs, ys) := TriangleVertices(x0, y0, side, c);
    assert xs[1] - xs[0] == 0.5 * side && ys[1] - ys[0] == c * side;
    assert xs[3] - xs[2] == 0.5 * side && ys[3] - ys[2] == -(c * side);
    assert xs[2] - xs[1] == -side && ys[2] - ys[1] == 0.0;
    SlantedEdge(side, c);
  }

  lemma SlantedEdge(side: real, c: real)
    requires c * c == 0.75
    ensures (0.5 * side) * (0.5 * side) + (c * side) * (c * side) == side * side
    ensures (0.5 * side) * (0.5 * side) + (-(c * side)) * (-(c * side)) == side * side
  {
    assert (c * side) * (c * side) == (c * c) * (side * side);
    assert (-(c * side)) * (-(c * side)) == (c * c) * (side * side);
  }

  /** The triangle is symmetric about x = x0, its apex on that line and its base horizontal,
      `side` wide, below the apex for a positive side. */
  lemma {:induction false} TriangleSymmetric(x0: real, y0: real, side: real, c: real)
    requires c > 0.0
    ensures var (xs, ys) := TriangleVertices(x0, y0, side, c);
      && xs[0] == x0 && xs[1] - x0 == x0 - xs[2]
      && ys[1] == ys[2] && xs[1] - xs[2] == side
      && (side > 0.0 ==> ys[0] < ys[1])
  {
    var (xs, ys) := TriangleVertices(x0, y0, side, c);
    assert ys[1] - ys[0] == c * side;
    if side > 0.0 {
      assert c * side > 0.0;
    }
  }

  /** The offset 1/(2c) does not scale with the side: the apex sits at y0 - 1/(2c) - (c/2) side,
      and the middle of the triangle's height at y0 - 1/(2c) for every side. */
  lemma {:induction false} TriangleOffset(x0: real, y0: real, side: real, c: real)
    requires c != 0.0
    ensures var (xs, ys) := TriangleVertices(x0, y0, side, c);
      && ys[0] == y0 - 0.5 / c - (c / 2.0) * side
      && (ys[0] + ys[1]) / 2.0 == y0 - 0.5 / c
  {
  }
}

/** The element mixins of source/schediazo/elements.py, used by the shapes and by `Path`.

    They write the same attributes as the mixins of attributes.py, plus the id in `Core`, but
    `Core` and `Transform` end their `set_element_attributes` without calling `super()`. A
    chain therefore stops at the first of them; `AttributeMixinBase`, at its end, writes
    nothing. */
module Elements {
  import opened Wrappers
  import opened Markup
  import A = Attributes
  import T = Transforms

  /** One mixin instance with the fields its constructor stored. */
  datatype Mixin =
    | Core(id: Option<string>, style: Option<string>, cssclass: Option<string>)
    | Transform(transform: Option<T.Affine>)
    | Stroke(stroke: Option<string>, dashArray: Option<seq<real>>, width: Option<real>)
    | Fill(fill: Option<string>, fillOpacity: Option<real>)
    | Clip(clipPath: Option<string>)

  /** `Core.set_element_attributes` (elements.py:42-48). */
  function CoreWrites(id: Option<string>, style: Option<string>, cssclass: Option<string>): (w: seq<Attr>)
    ensures Lookup(w, "id") == A.AsStr(id)
    ensures Lookup(w, "style") == A.AsStr(style) && Lookup(w, "class") == A.AsStr(cssclass)
    ensures Distinct(Names(w)) && Elems(Names(w)) <= {"id", "style", "class"}
  {
    var c := [("id", A.AsStr(id)), ("style", A.AsStr(style)), ("class", A.AsStr(cssclass))];
    A.WrittenSpec(c);
    assert Lookup(A.Written(c), c[2].0) == c[2].1;
    A.Written(c)
  }

  /** The names a mixin may write. */
  function Keys(m: Mixin): set<string>
  {
    match m
    case Core(_, _, _) => {"id", "style", "class"}
    case Transform(_) => {"transform"}
    case Stroke(_, _, _) => {"stroke", "stroke-dash-array", "stroke-width"}
    case Fill(_, _) => {"fill", "fill-opacity"}
    case Clip(_) => {"clip-path"}
  }

  /** What one mixin sets itself (elements.py:42-48, 56-58, 70-76, 90-94, 104-106). */
  function Own(m: Mixin, num: real -> string): (w: seq<Attr>)
    ensures Distinct(Names(w)) && Elems(Names(w)) <= Keys(m)
  {
    match m
    case Core(id, style, cssclass) => CoreWrites(id, style, cssclass)
    case Transform(transform) => A.TransformWrites(transform, num)
    case Stroke(stroke, dashArray, width) => A.StrokeWrites(stroke, dashArray, width, num)
    case Fill(fill, fillOpacity) => A.FillWrites(fill, fillOpacity)
    case Clip(clipPath) => A.ClipWrites(clipPath)
  }

  /** Whether the mixin calls `super().set_element_attributes` after its own writes. */
  predicate Delegates(m: Mixin)
  {
    m.Stroke? || m.Fill? || m.Clip?
  }

  /** `set_element_attributes` down a chain of mixins in method resolution order. */
  function ChainWrites(ms: seq<Mixin>, num: real -> string): seq<Attr>
  {
    if |ms| == 0 then []
    else Own(ms[0], num) + (if Delegates(ms[0]) then ChainWrites(ms[1..], num) else [])
  }

  /** Every mixin's own writes, as if all of them delegated. */
  function OwnAll(ms: seq<Mixin>, num: real -> string): seq<Attr>
  {
    if |ms| == 0 then [] else Own(ms[0], num) + OwnAll(ms[1..], num)
  }

  /** A chain writes what its mixins up to and including the first one that does not
      delegate write, and nothing of the mixins after it. */
  lemma {:induction false} ChainStops(ms: seq<Mixin>, k: nat, num: real -> string)
    requires k < |ms| && !Delegates(ms[k]) && forall i :: 0 <= i < k ==> Delegates(ms[i])
    ensures ChainWrites(ms, num) == OwnAll(ms[..k + 1], num)
    decreases k
  {
    if k == 0 {
      assert ms[..1][1..] == [];
    } else {
      assert ms[..k + 1][1..] == ms[1..][..k];
      assert forall i :: 0 <= i < k - 1 ==> ms[1..][i] == ms[i + 1];
      ChainStops(ms[1..], k - 1, num);
    }
  }

  /** A chain of delegating mixins writes all of them, followed by what the rest writes. */
  lemma {:induction false} ChainDelegates(ms: seq<Mixin>, rest: seq<Mixin>, num: real -> string)
    requires forall i :: 0 <= i < |ms| ==> Delegates(ms[i])
    ensures ChainWrites(ms + rest, num) == OwnAll(ms, num) + ChainWrites(rest, num)
    decreases |ms|
  {
    if |ms| == 0 {
      assert ms + rest == rest;
    } else {
      assert (ms + rest)[0] == ms[0] && (ms + rest)[1..] == ms[1..] + rest;
      ChainDelegates(ms[1..], rest, num);
    }
  }

  /** The styling options every shape and `Path` accept, one per constructor argument of the
      mixins. */
  datatype Style = Style(stroke: Option<string>, dashArray: Option<seq<real>>, width: Option<real>,
                         fill: Option<string>, fillOpacity: Option<real>,
                         transform: Option<T.Affine>, clipPath: Option<string>,
                         id: Option<string>, style: Option<string>, cssclass: Option<string>)

  /** The mixins of the shapes and of `Path`, in method resolution order (shapes.py:10,
      paths.py:7). */
  function ShapeChain(s: Style): seq<Mixin>
  {
    [Stroke(s.stroke, s.dashArray, s.width), Fill(s.fill, s.fillOpacity), Transform(s.transform),
     Clip(s.clipPath), Core(s.id, s.style, s.cssclass)]
  }

  /** The chain stops at `Transform`: stroke, fill and transform are written in that order,
      and the clip path, id, style and class never are. */
  lemma {:induction false} ShapeChainWrites(s: Style, num: real -> string)
    ensures ChainWrites(ShapeChain(s), num)
      == A.StrokeWrites(s.stroke, s.dashArray, s.width, num) + A.FillWrites(s.fill, s.fillOpacity)
         + A.TransformWrites(s.transform, num)
  {
    var ms := ShapeChain(s);
    ChainStops(ms, 2, num);
    assert ms[..3] == [ms[0], ms[1], ms[2]];
    OwnAllThree(ms[0], ms[1], ms[2], num);
  }

  lemma OwnAllThree(a: Mixin, b: Mixin, c: Mixin, num: real -> string)
    ensures OwnAll([a, b, c], num) == Own(a, num) + Own(b, num) + Own(c, num)
  {
    assert [a, b, c][1..] == [b, c] && [b, c][1..] == [c] && [c][1..] == [];
    assert OwnAll([c], num) == Own(c, num) + [];
    assert OwnAll([b, c], num) == Own(b, num) + OwnAll([c], num);
  }

  /** What the shapes' chain writes names each attribute once, all of them stroke, fill or
      transform attributes. */
  lemma {:induction false} ShapeChainNames(s: Style, num: real -> string)
    ensures Distinct(Names(ChainWrites(ShapeChain(s), num)))
    ensures Elems(Names(ChainWrites(ShapeChain(s), num))) <= ShapeChainKeys()
  {
    ShapeChainWrites(s, num);
    ThreeSeparate(A.StrokeWrites(s.stroke, s.dashArray, s.width, num), A.FillWrites(s.fill, s.fillOpacity),
                  A.TransformWrites(s.transform, num));
  }

  lemma ThreeSeparate(st: seq<Attr>, fi: seq<Attr>, tr: seq<Attr>)
    requires Distinct(Names(st)) && Elems(Names(st)) <= {"stroke", "stroke-dash-array", "stroke-width"}
    requires Distinct(Names(fi)) && Elems(Names(fi)) <= {"fill", "fill-opacity"}
    requires Distinct(Names(tr)) && Elems(Names(tr)) <= {"transform"}
    ensures Distinct(Names(st + fi + tr)) && Elems(Names(st + fi + tr)) <= ShapeChainKeys()
  {
    var k1, k2, k3 := {"stroke", "stroke-dash-array", "stroke-width"}, {"fill", "fill-opacity"}, {"transform"};
    SeparateConcat(st, fi, k1, k2);
    SeparateConcat(st + fi, tr, k1 + k2, k3);
  }

  /** The names the shapes' chain may write. */
  function ShapeChainKeys(): set<string>
  {
    {"stroke", "stroke-dash-array", "stroke-width", "fill", "fill-opacity", "transform"}
  }

  /** The shapes never write a clip path, id, style or class. */
  lemma {:induction false} ShapeChainOmits(s: Style, num: real -> string)
    ensures Lookup(ChainWrites(ShapeChain(s), num), "clip-path") == None
    ensures Lookup(ChainWrites(ShapeChain(s), num), "id") == None
    ensures Lookup(ChainWrites(ShapeChain(s), num), "style") == None
    ensures Lookup(ChainWrites(ShapeChain(s), num), "class") == None
  {
    ShapeChainNames(s, num);
    OutsideShapeKeys(ChainWrites(ShapeChain(s), num));
  }

  lemma OutsideShapeKeys(w: seq<Attr>)
    requires Elems(Names(w)) <= ShapeChainKeys()
    ensures Lookup(w, "clip-path") == None && Lookup(w, "id") == None
    ensures Lookup(w, "style") == None && Lookup(w, "class") == None
  {
    Absent(w, ShapeChainKeys(), "clip-path");
    Absent(w, ShapeChainKeys(), "id");
    Absent(w, ShapeChainKeys(), "style");
    Absent(w, ShapeChainKeys(), "class");
  }

  /** `create_child_elements` (elements.py:14-17): each child, in list order, creates its
      element under `root`; `make` is the element a child creates. */
  function CreateChildElements<C>(root: Element, children: seq<C>, make: C -> Element): (r: Element)
    ensures r.tag == root.tag && r.attrs == root.attrs && r.text == root.text
    ensures |r.children| == |root.children| + |children|
    ensures r.children[..|root.children|] == root.children
    ensures forall i :: 0 <= i < |children| ==> r.children[|root.children| + i] == make(children[i])
    decreases |children|
  {
    if |children| == 0 then root
    else
      var r := CreateChildElements(root.(children := root.children + [make(children[0])]), children[1..], make);
      assert forall i :: 1 <= i < |children| ==> children[i] == children[1..][i - 1];
      r
  }

  /** A fresh `Element` has no children (elements.py:7-8), so its `create_child_elements`
      leaves the new element as it is. */
  lemma NoChildren<C>(root: Element, make: C -> Element)
    ensures CreateChildElements(root, [], make) == root
  {
  }

  /** `ET.SubElement(root, tag)` followed by setting the attributes on it: the new element is
      the last child of `root`. */
  function Create(root: Element, tag: string, attrs: seq<Attr>): (r: (Element, Element))
    ensures r.1.tag == tag && r.1.attrs == attrs && r.1.children == [] && r.1.text == None
    ensures r.0.tag == root.tag && r.0.attrs == root.attrs && r.0.text == root.text
    ensures r.0.children == root.children + [r.1]
  {
    var e := Element(tag, attrs, [], None);
    (root.(children := root.children + [e]), e)
  }
}

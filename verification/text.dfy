/** `Text` and `TextPath` (source/schediazo/text.py). Each sets its element's text and its own
    attributes first, then hands over to its mixin chain, which ends in `PartBase` writing the
    id. `TextRendering`, `Font` and `RawPath` are not part of this model: what the first two
    write is given, and a path arrives already rendered. */
module Texts {
  import opened Wrappers
  import opened Markup
  import A = Attributes
  import C = Chains
  import T = Transforms
  import P = Part

  /** The options the mixins of `Text` and `TextPath` take. */
  datatype Style = Style(
    rendering: seq<Attr>,
    stroke: Option<string>, dashArray: Option<seq<real>>, dashOffset: Option<real>,
    linecap: Option<A.LineCap>, linejoin: Option<A.LineJoin>, miterlimit: Option<real>,
    strokeOpacity: Option<real>, width: Option<real>,
    fill: Option<string>, fillOpacity: Option<real>,
    transform: Option<T.Affine>, clipPath: Option<string>,
    style: Option<string>, cssclass: Option<string>,
    font: seq<Attr>)

  /** The mixins of `TextPath` in method resolution order (text.py:65). */
  function TextPathChain(s: Style): seq<A.Mixin>
  {
    [A.Foreign(s.rendering),
     A.Stroke(s.stroke, s.dashArray, s.dashOffset, s.linecap, s.linejoin, s.miterlimit, s.strokeOpacity, s.width),
     A.Fill(s.fill, s.fillOpacity), A.Transformed(s.transform), A.Clip(s.clipPath), A.Styling(s.style, s.cssclass)]
  }

  /** The mixins of `Text`: those of `TextPath` and then `Font` (text.py:11). */
  function TextChain(s: Style): seq<A.Mixin>
  {
    TextPathChain(s) + [A.Foreign(s.font)]
  }

  /** Own attributes written first keep the front of the attribute list, and keep their
      values unless the chain names them too. */
  lemma {:induction false} OwnFirst(own: seq<Attr>, chain: seq<Attr>, n: string)
    requires Distinct(Names(own))
    ensures var a := SetAll([], own + chain);
      |a| >= |own| && Names(a)[..|own|] == Names(own)
    ensures n !in Names(chain) ==> Lookup(SetAll([], own + chain), n) == Lookup(own, n)
  {
    SetAllConcat([], own, chain);
    assert [] + own == own;
    SetAllFresh([], own);
    SetAllKeepsNames(own, chain);
    if n !in Names(chain) {
      SetAllOther(own, chain, n);
    }
  }

  // ---------------------------------------------------------------------------
  // Text
  // ---------------------------------------------------------------------------

  datatype Text = Text(text: string, x: Option<real>, y: Option<real>, dx: Option<real>, dy: Option<real>,
                       rotate: Option<seq<real>>, style: Style, id: string)

  /** The names `Text` writes itself. */
  function TextKeys(): set<string>
  {
    {"x", "y", "dx", "dy", "rotate"}
  }

  /** What `Text.set_element_attributes` sets before its chain (text.py:51-60): each
      coordinate and shift iff set, and the rotations each followed by one space. */
  function TextOwn(t: Text, num: real -> string): (w: seq<Attr>)
    ensures Lookup(w, "x") == A.AsText(t.x, num) && Lookup(w, "y") == A.AsText(t.y, num)
    ensures Lookup(w, "dx") == A.AsText(t.dx, num) && Lookup(w, "dy") == A.AsText(t.dy, num)
    ensures Lookup(w, "rotate") == if t.rotate.Some? then Some(Str(A.Spaced(t.rotate.value, num))) else None
    ensures Distinct(Names(w)) && Elems(Names(w)) <= TextKeys()
  {
    var c := [("x", A.AsText(t.x, num)), ("y", A.AsText(t.y, num)), ("dx", A.AsText(t.dx, num)),
              ("dy", A.AsText(t.dy, num)),
              ("rotate", if t.rotate.Some? then Some(Str(A.Spaced(t.rotate.value, num))) else None)];
    A.WrittenSpec(c);
    assert Lookup(A.Written(c), c[2].0) == c[2].1 && Lookup(A.Written(c), c[3].0) == c[3].1;
    assert Lookup(A.Written(c), c[4].0) == c[4].1;
    A.Written(c)
  }

  /** What the chain after `Text`'s own writes sets, ending in the id. */
  function TextChainWrites(t: Text, num: real -> string): seq<Attr>
  {
    C.ChainWrites(TextChain(t.style), P.IdAttribute(t.id), num)
  }

  /** The attributes of the `text` element. */
  function TextAttributes(t: Text, num: real -> string): seq<Attr>
  {
    SetAll([], TextOwn(t, num) + TextChainWrites(t, num))
  }

  /** Neither the given `TextRendering` nor the given `Font` writes name `n`. */
  predicate Unclaimed(s: Style, n: string)
  {
    n !in Names(s.rendering) && n !in Names(s.font)
  }

  /** `PartBase.create_element` (part.py:48-63) for a `Text` (tag `text`, text.py:40): one
      new child of `root`, holding the string as its text, with `Text`'s own attributes in
      front and the id written last. Each coordinate, shift and the rotations read as given
      unless `TextRendering` or `Font` writes the same name. */
  function CreateText(root: Element, t: Text, num: real -> string): (r: (Element, Element))
    ensures r.0.tag == root.tag && r.0.attrs == root.attrs && r.0.text == root.text
    ensures r.0.children == root.children + [r.1]
    ensures r.1.tag == "text" && r.1.text == Some(t.text) && r.1.children == []
    ensures |r.1.attrs| >= |TextOwn(t, num)| && Names(r.1.attrs)[..|TextOwn(t, num)|] == Names(TextOwn(t, num))
    ensures Unclaimed(t.style, "x") ==> Lookup(r.1.attrs, "x") == if t.x.Some? then Some(Str(num(t.x.value))) else None
    ensures Unclaimed(t.style, "y") ==> Lookup(r.1.attrs, "y") == if t.y.Some? then Some(Str(num(t.y.value))) else None
    ensures Unclaimed(t.style, "dx") ==> Lookup(r.1.attrs, "dx") == if t.dx.Some? then Some(Str(num(t.dx.value))) else None
    ensures Unclaimed(t.style, "dy") ==> Lookup(r.1.attrs, "dy") == if t.dy.Some? then Some(Str(num(t.dy.value))) else None
    ensures Unclaimed(t.style, "rotate") ==>
      Lookup(r.1.attrs, "rotate") == if t.rotate.Some? then Some(Str(A.Spaced(t.rotate.value, num))) else None
    ensures Lookup(r.1.attrs, "id") == Some(Str(t.id))
  {
    TextOwnWritten(t, num, "x");
    TextOwnWritten(t, num, "y");
    TextOwnWritten(t, num, "dx");
    TextOwnWritten(t, num, "dy");
    TextOwnWritten(t, num, "rotate");
    IdLast(TextOwn(t, num), TextChain(t.style), t.id, num);
    var e := Element("text", TextAttributes(t, num), [], Some(t.text));
    (root.(children := root.children + [e]), e)
  }

  /** The id is the last write, so it reads as the part's id whatever the given attribute
      lists hold. */
  lemma IdLast(own: seq<Attr>, ms: seq<A.Mixin>, id: string, num: real -> string)
    ensures Lookup(SetAll([], own + C.ChainWrites(ms, P.IdAttribute(id), num)), "id") == Some(Str(id))
  {
    C.ChainEndsWithBase(ms, P.IdAttribute(id), num);
    var pre := own + C.ChainWrites(ms, [], num);
    assert own + C.ChainWrites(ms, P.IdAttribute(id), num) == pre + [("id", Str(id))];
    SetAllLast([], pre, ("id", Str(id)));
  }

  /** Only the given `TextRendering` and `Font` writes could name one of `Text`'s own
      attributes: the library's mixins and the id never do. */
  lemma {:induction false} TextChainAvoids(t: Text, num: real -> string, n: string)
    requires n in TextKeys() && n !in Names(t.style.rendering) && n !in Names(t.style.font)
    ensures n !in Names(TextChainWrites(t, num))
  {
    var ms := TextChain(t.style);
    assert ms[6] == A.Foreign(t.style.font);
    LibraryKeysAvoid(TextPathChain(t.style), n);
    C.ChainAvoids(ms, P.IdAttribute(t.id), num, n);
  }

  /** The library's own mixins of a text chain never write a name of `Text` or `TextPath`. */
  lemma LibraryKeysAvoid(ms: seq<A.Mixin>, n: string)
    requires |ms| == 6 && ms[0].Foreign? && n !in Names(ms[0].writes)
    requires ms[1].Stroke? && ms[2].Fill? && ms[3].Transformed? && ms[4].Clip? && ms[5].Styling?
    requires n in TextKeys() + TextPathKeys()
    ensures forall i :: 0 <= i < 6 ==> n !in A.Keys(ms[i])
  {
  }

  /** `Text` writes its own attributes first, in the order x, y, dx, dy, rotate, and each of
      them reads as `Text` set it unless `TextRendering` or `Font` writes the same name. */
  lemma {:induction false} TextOwnWritten(t: Text, num: real -> string, n: string)
    ensures var a := TextAttributes(t, num);
      |a| >= |TextOwn(t, num)| && Names(a)[..|TextOwn(t, num)|] == Names(TextOwn(t, num))
    ensures n in TextKeys() && n !in Names(t.style.rendering) && n !in Names(t.style.font) ==>
      Lookup(TextAttributes(t, num), n) == Lookup(TextOwn(t, num), n)
  {
    if n in TextKeys() && n !in Names(t.style.rendering) && n !in Names(t.style.font) {
      TextChainAvoids(t, num, n);
    }
    OwnFirst(TextOwn(t, num), TextChainWrites(t, num), n);
  }

  // ---------------------------------------------------------------------------
  // TextPath
  // ---------------------------------------------------------------------------

  /** `path` is the string of the `RawPath`. */
  datatype TextPath = TextPath(text: string, href: Option<string>, side: Option<string>,
                               startOffset: Option<string>, path: Option<string>, style: Style, id: string)

  function TextPathKeys(): set<string>
  {
    {"href", "side", "startOffset", "path"}
  }

  /** What `TextPath.set_element_attributes` sets before its chain (text.py:121-128): each
      field iff set. */
  function TextPathOwn(tp: TextPath): (w: seq<Attr>)
    ensures Lookup(w, "href") == A.AsStr(tp.href) && Lookup(w, "side") == A.AsStr(tp.side)
    ensures Lookup(w, "startOffset") == A.AsStr(tp.startOffset) && Lookup(w, "path") == A.AsStr(tp.path)
    ensures Distinct(Names(w)) && Elems(Names(w)) <= TextPathKeys()
  {
    var c := [("href", A.AsStr(tp.href)), ("side", A.AsStr(tp.side)), ("startOffset", A.AsStr(tp.startOffset)),
              ("path", A.AsStr(tp.path))];
    A.WrittenSpec(c);
    assert Lookup(A.Written(c), c[2].0) == c[2].1 && Lookup(A.Written(c), c[3].0) == c[3].1;
    A.Written(c)
  }

  function TextPathChainWrites(tp: TextPath, num: real -> string): seq<Attr>
  {
    C.ChainWrites(TextPathChain(tp.style), P.IdAttribute(tp.id), num)
  }

  function TextPathAttributes(tp: TextPath, num: real -> string): seq<Attr>
  {
    SetAll([], TextPathOwn(tp) + TextPathChainWrites(tp, num))
  }

  /** `TextPath.create_element` (text.py:106-109): a `text` element under `root`, holding a
      single `textPath` element (tag from text.py:90) that carries the string and every
      attribute; the `text` element gets none. The inner element is the one returned. Its own
      attributes come first, each reading as given unless `TextRendering` writes the same
      name, and the id is written last. */
  function CreateTextPath(root: Element, tp: TextPath, num: real -> string): (r: (Element, Element))
    ensures r.0.tag == root.tag && r.0.attrs == root.attrs && r.0.text == root.text
    ensures r.0.children == root.children + [Element("text", [], [r.1], None)]
    ensures r.1.tag == "textPath" && r.1.text == Some(tp.text) && r.1.children == []
    ensures |r.1.attrs| >= |TextPathOwn(tp)| && Names(r.1.attrs)[..|TextPathOwn(tp)|] == Names(TextPathOwn(tp))
    ensures "href" !in Names(tp.style.rendering) ==> Lookup(r.1.attrs, "href") == A.AsStr(tp.href)
    ensures "side" !in Names(tp.style.rendering) ==> Lookup(r.1.attrs, "side") == A.AsStr(tp.side)
    ensures "startOffset" !in Names(tp.style.rendering) ==>
      Lookup(r.1.attrs, "startOffset") == A.AsStr(tp.startOffset)
    ensures "path" !in Names(tp.style.rendering) ==> Lookup(r.1.attrs, "path") == A.AsStr(tp.path)
    ensures Lookup(r.1.attrs, "id") == Some(Str(tp.id))
  {
    TextPathOwnWritten(tp, num, "href");
    TextPathOwnWritten(tp, num, "side");
    TextPathOwnWritten(tp, num, "startOffset");
    TextPathOwnWritten(tp, num, "path");
    IdLast(TextPathOwn(tp), TextPathChain(tp.style), tp.id, num);
    var inner := Element("textPath", TextPathAttributes(tp, num), [], Some(tp.text));
    var outer := Element("text", [], [inner], None);
    (root.(children := root.children + [outer]), inner)
  }

  lemma {:induction false} TextPathChainAvoids(tp: TextPath, num: real -> string, n: string)
    requires n in TextPathKeys() && n !in Names(tp.style.rendering)
    ensures n !in Names(TextPathChainWrites(tp, num))
  {
    LibraryKeysAvoid(TextPathChain(tp.style), n);
    C.ChainAvoids(TextPathChain(tp.style), P.IdAttribute(tp.id), num, n);
  }

  /** `TextPath` writes href, side, startOffset and path first, and each reads as set unless
      `TextRendering` writes the same name. */
  lemma {:induction false} TextPathOwnWritten(tp: TextPath, num: real -> string, n: string)
    ensures var a := TextPathAttributes(tp, num);
      |a| >= |TextPathOwn(tp)| && Names(a)[..|TextPathOwn(tp)|] == Names(TextPathOwn(tp))
    ensures n in TextPathKeys() && n !in Names(tp.style.rendering) ==>
      Lookup(TextPathAttributes(tp, num), n) == Lookup(TextPathOwn(tp), n)
  {
    if n in TextPathKeys() && n !in Names(tp.style.rendering) {
      TextPathChainAvoids(tp, num, n);
    }
    OwnFirst(TextPathOwn(tp), TextPathChainWrites(tp, num), n);
  }
}

/** The attribute mixins of source/schediazo/attributes.py, as used by `Text`, `TextPath` and
    `Group`.

    A class lists its mixins before its base. Each mixin's `set_element_attributes` sets its
    own attributes on the element, only those whose field is not `None`, and then calls the
    next class in the method resolution order through `super()`. The call ends at
    `AttributeBase`, which passes it on to the base class: `PartBase` and `PartDict` write the
    id. Here the chain is explicit: a class's writes are its mixins' writes in order followed
    by the base's, and `element.set` is applied to each in turn.

    Numbers reach the markup through `str()` or `'{}'.format()`, which render a float the same
    way; `num` stands for that rendering. */
module Attributes {
  import opened Wrappers
  import opened Markup
  import opened Transforms

  /** `LineCap` (attributes.py:101-117). */
  datatype LineCap = Butt | SquareCap | RoundCap

  /** `LineJoin` (attributes.py:121-141). */
  datatype LineJoin = Arc | Bevel | Miter | MiterClip | RoundJoin

  /** One mixin instance with the fields its constructor stored, unchecked and unchanged. */
  datatype Mixin =
    | Styling(style: Option<string>, cssclass: Option<string>)
    | Transformed(transform: Option<Affine>)
    | Stroke(stroke: Option<string>, dashArray: Option<seq<real>>, dashOffset: Option<real>,
             linecap: Option<LineCap>, linejoin: Option<LineJoin>, miterlimit: Option<real>,
             opacity: Option<real>, width: Option<real>)
    | Fill(fill: Option<string>, fillOpacity: Option<real>)
    | Clip(clipPath: Option<string>)
      /** A mixin whose class is not part of this model (`Font`, `TextRendering`): what it
          writes is given. */
    | Foreign(writes: seq<Attr>)

  /** `''.join(['{} '.format(x) for x in xs])`: each number followed by one space. */
  function Spaced(xs: seq<real>, num: real -> string): string
  {
    if |xs| == 0 then "" else num(xs[0]) + " " + Spaced(xs[1..], num)
  }

  /** Rendering a longer list adds the new entries' text at the end. */
  lemma {:induction false} SpacedConcat(xs: seq<real>, ys: seq<real>, num: real -> string)
    ensures Spaced(xs + ys, num) == Spaced(xs, num) + Spaced(ys, num)
    decreases |xs|
  {
    if |xs| == 0 {
      assert xs + ys == ys;
    } else {
      assert (xs + ys)[0] == xs[0] && (xs + ys)[1..] == xs[1..] + ys;
      SpacedConcat(xs[1..], ys, num);
    }
  }

  /** One number renders as itself and a space. */
  lemma SpacedOne(x: real, num: real -> string)
    ensures Spaced([x], num) == num(x) + " "
  {
    assert [x][1..] == [];
  }

  /** Candidate attributes in the order the code tests them; `None` marks a field that is not
      set. */
  type Candidates = seq<(string, Option<Value>)>

  function CandidateNames(c: Candidates): (r: seq<string>)
    ensures |r| == |c| && forall i :: 0 <= i < |c| ==> r[i] == c[i].0
  {
    seq(|c|, i requires 0 <= i < |c| => c[i].0)
  }

  /** `if self._x is not None: element.set(name, ...)` for each candidate in turn. */
  function Written(c: Candidates): seq<Attr>
  {
    if |c| == 0 then []
    else if c[0].1.Some? then [(c[0].0, c[0].1.value)] + Written(c[1..])
    else Written(c[1..])
  }

  /** `[name]` when the field is set, else nothing. */
  function NameIf(isSet: bool, name: string): seq<string>
  {
    if isSet then [name] else []
  }

  /** The names of the set candidates, in the order the code tests them. */
  function SetNames(c: Candidates): seq<string>
  {
    if |c| == 0 then [] else NameIf(c[0].1.Some?, c[0].0) + SetNames(c[1..])
  }

  lemma SetNamesTwo(a: (string, Option<Value>), b: (string, Option<Value>))
    ensures SetNames([a, b]) == NameIf(a.1.Some?, a.0) + NameIf(b.1.Some?, b.0)
  {
    assert [a, b][1..] == [b] && [b][1..] == [];
    assert SetNames([b]) == NameIf(b.1.Some?, b.0) + [];
    assert NameIf(b.1.Some?, b.0) + [] == NameIf(b.1.Some?, b.0);
  }

  lemma SetNamesThree(a: (string, Option<Value>), b: (string, Option<Value>), x: (string, Option<Value>))
    ensures SetNames([a, b, x]) == NameIf(a.1.Some?, a.0) + NameIf(b.1.Some?, b.0) + NameIf(x.1.Some?, x.0)
  {
    assert [a, b, x][1..] == [b, x];
    SetNamesTwo(b, x);
  }

  /** Every candidate reads back from `w` as its value: present when set, absent when not. */
  predicate ReadsBack(w: seq<Attr>, c: Candidates)
  {
    forall i :: 0 <= i < |c| ==> Lookup(w, c[i].0) == c[i].1
  }

  /** The set candidates are written in the order the code tests them, and nothing else; each
      name once when the candidates' names are distinct, and then each candidate reads back as
      its value: written when set, absent when not. */
  lemma {:induction false} WrittenSpec(c: Candidates)
    ensures Names(Written(c)) == SetNames(c)
    ensures Elems(Names(Written(c))) <= Elems(CandidateNames(c))
    ensures Distinct(CandidateNames(c)) ==> Distinct(Names(Written(c)))
    ensures Distinct(CandidateNames(c)) ==> ReadsBack(Written(c), c)
  {
    if |c| > 0 {
      var rest := Written(c[1..]);
      WrittenSpec(c[1..]);
      var cn, rn := CandidateNames(c), CandidateNames(c[1..]);
      assert cn == [c[0].0] + rn;
      ElemsConcat([c[0].0], rn);
      if Distinct(cn) {
        DistinctTail(cn);
        assert cn[1..] == rn;
      }
      if c[0].1.Some? {
        var x := (c[0].0, c[0].1.value);
        assert Written(c) == [x] + rest;
        NamesConcat([x], rest);
        ElemsConcat([x.0], Names(rest));
        if Distinct(cn) {
          DistinctConcat([x.0], Names(rest));
          LookupFirst(x, rest);
          WrittenTail(c);
        }
      } else {
        assert Written(c) == rest;
        if Distinct(cn) {
          LookupFound(rest, c[0].0);
          WrittenTail(c);
        }
      }
    }
  }

  lemma DistinctTail<T>(s: seq<T>)
    requires Distinct(s) && |s| > 0
    ensures Distinct(s[1..]) && s[0] !in Elems(s[1..])
  {
    assert forall j :: 0 <= j < |s| - 1 ==> s[1..][j] == s[j + 1];
  }

  /** The step of `WrittenSpec`: when the first candidate reads as its value and the rest
      read back in their own writes, every candidate reads back in the writes of all. */
  lemma WrittenTail(c: Candidates)
    requires |c| > 0 && Distinct(CandidateNames(c))
    requires Lookup(Written(c), c[0].0) == c[0].1
    requires ReadsBack(Written(c[1..]), c[1..])
    ensures ReadsBack(Written(c), c)
  {
    if c[0].1.Some? {
      var x := (c[0].0, c[0].1.value);
      assert Written(c) == [x] + Written(c[1..]);
      LookupFirst(x, Written(c[1..]));
    }
    forall i | 0 < i < |c| ensures Lookup(Written(c), c[i].0) == c[i].1 {
      assert c[i] == c[1..][i - 1];
      assert CandidateNames(c)[i] != CandidateNames(c)[0];
    }
  }

  /** A string field, as handed to `element.set`. */
  function AsStr(v: Option<string>): Option<Value>
  {
    if v.Some? then Some(Str(v.value)) else None
  }

  /** A number field passed through `str()`. */
  function AsText(v: Option<real>, num: real -> string): Option<Value>
  {
    if v.Some? then Some(Str(num(v.value))) else None
  }

  /** `Styling.set_element_attributes` (attributes.py:62-65). */
  function StylingWrites(style: Option<string>, cssclass: Option<string>): (w: seq<Attr>)
    ensures Lookup(w, "style") == AsStr(style) && Lookup(w, "class") == AsStr(cssclass)
    ensures Names(w) == NameIf(style.Some?, "style") + NameIf(cssclass.Some?, "class")
    ensures Distinct(Names(w)) && Elems(Names(w)) <= {"style", "class"}
  {
    var c := [("style", AsStr(style)), ("class", AsStr(cssclass))];
    WrittenSpec(c);
    SetNamesTwo(c[0], c[1]);
    Written(c)
  }

  /** `Transform.set_element_attributes` (attributes.py:96-97): the string of the affine
      transform, which lists its operations last-called first. */
  function TransformWrites(transform: Option<Affine>, num: real -> string): (w: seq<Attr>)
    ensures Lookup(w, "transform") ==
      if transform.Some? then Some(Str(AffineStr(transform.value.ops, num))) else None
    ensures Names(w) == NameIf(transform.Some?, "transform")
    ensures Distinct(Names(w)) && Elems(Names(w)) <= {"transform"}
  {
    var c := [("transform", if transform.Some? then Some(Str(AffineStr(transform.value.ops, num))) else None)];
    WrittenSpec(c);
    Written(c)
  }

  /** `Stroke.set_element_attributes` (attributes.py:202-207): colour, dash lengths each
      followed by a space, and width. */
  function StrokeWrites(stroke: Option<string>, dashArray: Option<seq<real>>, width: Option<real>,
                        num: real -> string): (w: seq<Attr>)
    ensures Lookup(w, "stroke") == AsStr(stroke)
    ensures Lookup(w, "stroke-dash-array") ==
      if dashArray.Some? then Some(Str(Spaced(dashArray.value, num))) else None
    ensures Lookup(w, "stroke-width") == AsText(width, num)
    ensures Names(w) == NameIf(stroke.Some?, "stroke") + NameIf(dashArray.Some?, "stroke-dash-array")
      + NameIf(width.Some?, "stroke-width")
    ensures Distinct(Names(w)) && Elems(Names(w)) <= {"stroke", "stroke-dash-array", "stroke-width"}
  {
    var c := [("stroke", AsStr(stroke)),
              ("stroke-dash-array", if dashArray.Some? then Some(Str(Spaced(dashArray.value, num))) else None),
              ("stroke-width", AsText(width, num))];
    WrittenSpec(c);
    SetNamesThree(c[0], c[1], c[2]);
    assert Lookup(Written(c), c[2].0) == c[2].1;
    Written(c)
  }

  /** `Fill.set_element_attributes` (attributes.py:241-244). The opacity is handed to
      `element.set` as the number itself, not as a string. */
  function FillWrites(fill: Option<string>, fillOpacity: Option<real>): (w: seq<Attr>)
    ensures Lookup(w, "fill") == AsStr(fill)
    ensures Lookup(w, "fill-opacity") == if fillOpacity.Some? then Some(Num(fillOpacity.value)) else None
    ensures Names(w) == NameIf(fill.Some?, "fill") + NameIf(fillOpacity.Some?, "fill-opacity")
    ensures Distinct(Names(w)) && Elems(Names(w)) <= {"fill", "fill-opacity"}
  {
    var c := [("fill", AsStr(fill)), ("fill-opacity", if fillOpacity.Some? then Some(Num(fillOpacity.value)) else None)];
    WrittenSpec(c);
    SetNamesTwo(c[0], c[1]);
    Written(c)
  }

  /** `Clip.set_element_attributes` (attributes.py:274-275): a reference to the clip path's id. */
  function ClipWrites(clipPath: Option<string>): (w: seq<Attr>)
    ensures Lookup(w, "clip-path") ==
      if clipPath.Some? then Some(Str("url(#" + clipPath.value + ")")) else None
    ensures Names(w) == NameIf(clipPath.Some?, "clip-path")
    ensures Distinct(Names(w)) && Elems(Names(w)) <= {"clip-path"}
  {
    var c := [("clip-path", if clipPath.Some? then Some(Str("url(#" + clipPath.value + ")")) else None)];
    WrittenSpec(c);
    Written(c)
  }

  /** The names a mixin may write. */
  function Keys(m: Mixin): set<string>
  {
    match m
    case Styling(_, _) => {"style", "class"}
    case Transformed(_) => {"transform"}
    case Stroke(_, _, _, _, _, _, _, _) => {"stroke", "stroke-dash-array", "stroke-width"}
    case Fill(_, _) => {"fill", "fill-opacity"}
    case Clip(_) => {"clip-path"}
    case Foreign(ws) => Elems(Names(ws))
  }

  /** What one mixin sets before delegating. */
  function Writes(m: Mixin, num: real -> string): (w: seq<Attr>)
    ensures Elems(Names(w)) <= Keys(m)
    ensures !m.Foreign? ==> Distinct(Names(w))
  {
    match m
    case Styling(style, cssclass) => StylingWrites(style, cssclass)
    case Transformed(transform) => TransformWrites(transform, num)
    case Stroke(stroke, dashArray, _, _, _, _, _, width) => StrokeWrites(stroke, dashArray, width, num)
    case Fill(fill, fillOpacity) => FillWrites(fill, fillOpacity)
    case Clip(clipPath) => ClipWrites(clipPath)
    case Foreign(ws) => ws
  }

  /** The stroke's offset, line cap, line join, mitre limit and opacity are stored but never
      written: two strokes that agree on colour, dashes and width write the same. */
  lemma StrokeWritesThree(m: Mixin, n: Mixin, num: real -> string)
    requires m.Stroke? && n.Stroke?
    requires m.stroke == n.stroke && m.dashArray == n.dashArray && m.width == n.width
    ensures Writes(m, num) == Writes(n, num)
    ensures Writes(m, num) == StrokeWrites(m.stroke, m.dashArray, m.width, num)
  {
  }
}

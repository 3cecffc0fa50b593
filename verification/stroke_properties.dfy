/** The `Stroke` mixin against the stroke properties of SVG 1.1 (section 11.4) that its
    docstring (source/schediazo/attributes.py:193-195) and tests/test_attributes.py:93-109 expect
    it to write: the writer as written, and the writer as documented. */
module StrokeProperties {
  import opened Wrappers
  import opened Markup
  import opened Attributes

  /** With every stroke field set, as with the input of tests/test_attributes.py:93-100, the
      code writes three attributes, not the eight the test reads back: neither the dash
      pattern under the SVG name `stroke-dasharray` nor the offset, cap, join, mitre limit or
      opacity. */
  lemma {:induction false} StrokeAllSetWritesThree(m: Mixin, num: real -> string)
    requires m.Stroke? && m.stroke.Some? && m.dashArray.Some? && m.dashOffset.Some? && m.linecap.Some?
    requires m.linejoin.Some? && m.miterlimit.Some? && m.opacity.Some? && m.width.Some?
    ensures |Writes(m, num)| == 3
    ensures Lookup(Writes(m, num), "stroke-dasharray") == None && Lookup(Writes(m, num), "stroke-dashoffset") == None
    ensures Lookup(Writes(m, num), "stroke-linecap") == None && Lookup(Writes(m, num), "stroke-linejoin") == None
    ensures Lookup(Writes(m, num), "stroke-miterlimit") == None && Lookup(Writes(m, num), "stroke-opacity") == None
  {
    var w := Writes(m, num);
    var c := [("stroke", AsStr(m.stroke)),
              ("stroke-dash-array", if m.dashArray.Some? then Some(Str(Spaced(m.dashArray.value, num))) else None),
              ("stroke-width", AsText(m.width, num))];
    assert w == Written(c);
    WrittenAllSet(c);
    Absent(w, {"stroke", "stroke-dash-array", "stroke-width"}, "stroke-dasharray");
    Absent(w, {"stroke", "stroke-dash-array", "stroke-width"}, "stroke-dashoffset");
    Absent(w, {"stroke", "stroke-dash-array", "stroke-width"}, "stroke-linecap");
    Absent(w, {"stroke", "stroke-dash-array", "stroke-width"}, "stroke-linejoin");
    Absent(w, {"stroke", "stroke-dash-array", "stroke-width"}, "stroke-miterlimit");
    Absent(w, {"stroke", "stroke-dash-array", "stroke-width"}, "stroke-opacity");
  }

  /** The keyword of a line cap (section 11.4 of SVG 1.1). */
  function CapKeyword(c: LineCap): string
  {
    match c
    case Butt => "butt"
    case SquareCap => "square"
    case RoundCap => "round"
  }

  /** The keyword of a line join (section 11.4 of SVG 1.1; `arcs` and `miter-clip` come from
      SVG 2). */
  function JoinKeyword(j: LineJoin): string
  {
    match j
    case Arc => "arcs"
    case Bevel => "bevel"
    case Miter => "miter"
    case MiterClip => "miter-clip"
    case RoundJoin => "round"
  }

  /** The stroke names the `set_element_attributes` docstring (attributes.py:193-195) and
      tests/test_attributes.py:101-109 expect, spelt as SVG does. */
  function IntendedStrokeKeys(): set<string>
  {
    {"stroke", "stroke-dasharray", "stroke-dashoffset", "stroke-linecap", "stroke-linejoin",
     "stroke-miterlimit", "stroke-opacity", "stroke-width"}
  }

  /** The eight SVG stroke properties in the order the constructor stores them, each with the
      value of its field when set. */
  function StrokeCandidates(m: Mixin, num: real -> string): Candidates
    requires m.Stroke?
  {
    [("stroke", AsStr(m.stroke)),
     ("stroke-dasharray", if m.dashArray.Some? then Some(Str(Spaced(m.dashArray.value, num))) else None),
     ("stroke-dashoffset", AsText(m.dashOffset, num)),
     ("stroke-linecap", if m.linecap.Some? then Some(Str(CapKeyword(m.linecap.value))) else None),
     ("stroke-linejoin", if m.linejoin.Some? then Some(Str(JoinKeyword(m.linejoin.value))) else None),
     ("stroke-miterlimit", AsText(m.miterlimit, num)),
     ("stroke-opacity", AsText(m.opacity, num)),
     ("stroke-width", AsText(m.width, num))]
  }

  /** `Stroke.set_element_attributes` writing every stored field, as documented: each of the
      eight SVG stroke properties exactly when its field is set, each name once. */
  function StrokeWritesIntended(m: Mixin, num: real -> string): (w: seq<Attr>)
    requires m.Stroke?
    ensures Lookup(w, "stroke") == AsStr(m.stroke)
    ensures Lookup(w, "stroke-dasharray") == if m.dashArray.Some? then Some(Str(Spaced(m.dashArray.value, num))) else None
    ensures Lookup(w, "stroke-dashoffset") == AsText(m.dashOffset, num)
    ensures Lookup(w, "stroke-linecap") == if m.linecap.Some? then Some(Str(CapKeyword(m.linecap.value))) else None
    ensures Lookup(w, "stroke-linejoin") == if m.linejoin.Some? then Some(Str(JoinKeyword(m.linejoin.value))) else None
    ensures Lookup(w, "stroke-miterlimit") == AsText(m.miterlimit, num)
    ensures Lookup(w, "stroke-opacity") == AsText(m.opacity, num)
    ensures Lookup(w, "stroke-width") == AsText(m.width, num)
    ensures Distinct(Names(w)) && Elems(Names(w)) <= IntendedStrokeKeys()
  {
    var c := StrokeCandidates(m, num);
    WrittenSpec(c);
    assert Lookup(Written(c), c[2].0) == c[2].1 && Lookup(Written(c), c[3].0) == c[3].1;
    assert Lookup(Written(c), c[4].0) == c[4].1 && Lookup(Written(c), c[5].0) == c[5].1;
    assert Lookup(Written(c), c[6].0) == c[6].1 && Lookup(Written(c), c[7].0) == c[7].1;
    Written(c)
  }

  /** With every field set, the intended writer writes all eight attributes. */
  lemma {:induction false} StrokeAllSetWritesEight(m: Mixin, num: real -> string)
    requires m.Stroke? && m.stroke.Some? && m.dashArray.Some? && m.dashOffset.Some? && m.linecap.Some?
    requires m.linejoin.Some? && m.miterlimit.Some? && m.opacity.Some? && m.width.Some?
    ensures |StrokeWritesIntended(m, num)| == 8
  {
    var c := StrokeCandidates(m, num);
    assert StrokeWritesIntended(m, num) == Written(c);
    WrittenAllSet(c);
  }

  /** When every candidate is set, each one is written. */
  lemma {:induction false} WrittenAllSet(c: Candidates)
    requires forall i :: 0 <= i < |c| ==> c[i].1.Some?
    ensures |Written(c)| == |c|
  {
    if |c| > 0 {
      assert forall i :: 0 <= i < |c| - 1 ==> c[1..][i] == c[i + 1];
      WrittenAllSet(c[1..]);
    }
  }
}

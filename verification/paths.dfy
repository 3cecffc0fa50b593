/** `Path` and its commands (source/schediazo/paths.py). A path is a list of commands, each
    rendered as a token of SVG path data (section 8.3 of SVG 1.1: an upper-case letter is an
    absolute command, a lower-case one a relative command), and styled by the same mixin
    chain as the shapes. */
module Paths {
  import opened Wrappers
  import opened Markup
  import opened Elements

  /** A command object. `relative` is the truthiness of what the constructor stored in
      `_relative`. */
  datatype Command =
    | MoveTo(x: real, y: real, relative: bool)
    | LineTo(x: real, y: real, relative: bool)
    | HorizontalLine(x: real, relative: bool)
    | VerticalLine(y: real, relative: bool)
    | CurveTo(x1: real, y1: real, x2: real, y2: real, x3: real, y3: real)

  datatype Kind = Move | Line | Horizontal | Vertical | Curve

  function KindOf(c: Command): Kind
  {
    match c
    case MoveTo(_, _, _) => Move
    case LineTo(_, _, _) => Line
    case HorizontalLine(_, _) => Horizontal
    case VerticalLine(_, _) => Vertical
    case CurveTo(_, _, _, _, _, _) => Curve
  }

  /** Whether the command is drawn relative to the current point; `CurveTo` never is. */
  predicate IsRelative(c: Command)
  {
    !c.CurveTo? && c.relative
  }

  /** The command letter of the token. */
  function Letter(c: Command): char
  {
    match c
    case MoveTo(_, _, r) => if r then 'm' else 'M'
    case LineTo(_, _, r) => if r then 'l' else 'L'
    case HorizontalLine(_, r) => if r then 'h' else 'H'
    case VerticalLine(_, r) => if r then 'v' else 'V'
    case CurveTo(_, _, _, _, _, _) => 'C'
  }

  /** `__str__` of each command class (paths.py:67-71, 80-84, 91-95, 103-107, 119-120).
      `CurveTo` alone starts with a space. */
  function CommandStr(c: Command, num: real -> string): (r: string)
    ensures |r| >= 2 && r[LetterAt(c)] == Letter(c)
    ensures c.CurveTo? <==> r[0] == ' '
  {
    match c
    case MoveTo(x, y, _) => [Letter(c)] + " " + num(x) + " " + num(y)
    case LineTo(x, y, _) => [Letter(c)] + " " + num(x) + " " + num(y)
    case HorizontalLine(x, _) => [Letter(c)] + " " + num(x)
    case VerticalLine(y, _) => [Letter(c)] + " " + num(y)
    case CurveTo(x1, y1, x2, y2, x3, y3) =>
      " C " + num(x1) + " " + num(y1) + " " + num(x2) + " " + num(y2) + " " + num(x3) + " " + num(y3)
  }

  /** Where the letter sits in the token. */
  function LetterAt(c: Command): nat
  {
    if c.CurveTo? then 1 else 0
  }

  /** Reading a command letter as SVG path data does: the command kind, and whether the
      command is relative. */
  function ReadLetter(ch: char): Option<(Kind, bool)>
  {
    match ch
    case 'M' => Some((Move, false))
    case 'm' => Some((Move, true))
    case 'L' => Some((Line, false))
    case 'l' => Some((Line, true))
    case 'H' => Some((Horizontal, false))
    case 'h' => Some((Horizontal, true))
    case 'V' => Some((Vertical, false))
    case 'v' => Some((Vertical, true))
    case 'C' => Some((Curve, false))
    case _ => None
  }

  /** A rendered token reads back as the command's kind and its relative flag. */
  lemma TokenReadsBack(c: Command, num: real -> string)
    ensures ReadLetter(CommandStr(c, num)[LetterAt(c)]) == Some((KindOf(c), IsRelative(c)))
  {
  }

  // ---------------------------------------------------------------------------
  // The constructors as written
  // ---------------------------------------------------------------------------

  /** `MoveTo(x, y, relative)`, `LineTo(x, y, relative)`, `HorizontalLine(x, relative)` and
      `VerticalLine(y, relative)` (paths.py:62-65, 75-78, 87-89, 99-101) store the type `bool`
      itself in `_relative`, and a type is always truthy: the `relative` argument is dropped
      and the command is relative. */
  function NewMoveTo(x: real, y: real, relative: bool): (c: Command)
    ensures c.MoveTo? && c.x == x && c.y == y && IsRelative(c)
  {
    MoveTo(x, y, true)
  }

  function NewLineTo(x: real, y: real, relative: bool): (c: Command)
    ensures c.LineTo? && c.x == x && c.y == y && IsRelative(c)
  {
    LineTo(x, y, true)
  }

  function NewHorizontalLine(x: real, relative: bool): (c: Command)
    ensures c.HorizontalLine? && c.x == x && IsRelative(c)
  {
    HorizontalLine(x, true)
  }

  function NewVerticalLine(y: real, relative: bool): (c: Command)
    ensures c.VerticalLine? && c.y == y && IsRelative(c)
  {
    VerticalLine(y, true)
  }

  /** Whatever `relative` was passed, every constructed command renders with a lower-case
      letter: `MoveTo(1, 2)` reads as a relative move. */
  lemma {:induction false} AlwaysRelative(x: real, y: real, relative: bool, num: real -> string)
    ensures ReadLetter(CommandStr(NewMoveTo(x, y, relative), num)[0]) == Some((Move, true))
    ensures ReadLetter(CommandStr(NewLineTo(x, y, relative), num)[0]) == Some((Line, true))
    ensures ReadLetter(CommandStr(NewHorizontalLine(x, relative), num)[0]) == Some((Horizontal, true))
    ensures ReadLetter(CommandStr(NewVerticalLine(y, relative), num)[0]) == Some((Vertical, true))
  {
    TokenReadsBack(NewMoveTo(x, y, relative), num);
    TokenReadsBack(NewLineTo(x, y, relative), num);
    TokenReadsBack(NewHorizontalLine(x, relative), num);
    TokenReadsBack(NewVerticalLine(y, relative), num);
  }

  // ---------------------------------------------------------------------------
  // Path and its helpers
  // ---------------------------------------------------------------------------

  datatype Path = Path(commands: seq<Command>, style: Style)

  /** `add` (paths.py:19-20). */
  function Add(p: Path, c: Command): (r: Path)
    ensures |r.commands| == |p.commands| + 1 && r.commands[|p.commands|] == c
    ensures r.commands[..|p.commands|] == p.commands && r.style == p.style
  {
    p.(commands := p.commands + [c])
  }

  /** A call of one of the helper methods (paths.py:22-47), with its arguments. */
  datatype Helper =
    | MoveToCall(x: real, y: real)
    | MoveRelativeCall(x: real, y: real)
    | LineToCall(x: real, y: real)
    | LineRelativeCall(x: real, y: real)
    | HorizontalLineCall(x: real, y: real)
    | HorizontalLineRelativeCall(x: real, y: real)
    | VerticalLineCall(x: real, y: real)
    | VerticalLineRelativeCall(x: real, y: real)
    | PathToCall(x1: real, y1: real, x2: real, y2: real, x3: real, y3: real)

  /** The kind of command the helper's name promises. */
  function HelperKind(h: Helper): Kind
  {
    match h
    case MoveToCall(_, _) => Move
    case MoveRelativeCall(_, _) => Move
    case LineToCall(_, _) => Line
    case LineRelativeCall(_, _) => Line
    case HorizontalLineCall(_, _) => Horizontal
    case HorizontalLineRelativeCall(_, _) => Horizontal
    case VerticalLineCall(_, _) => Vertical
    case VerticalLineRelativeCall(_, _) => Vertical
    case PathToCall(_, _, _, _, _, _) => Curve
  }

  /** Whether the helper's name promises a relative command. */
  predicate HelperRelative(h: Helper)
  {
    h.MoveRelativeCall? || h.LineRelativeCall? || h.HorizontalLineRelativeCall? || h.VerticalLineRelativeCall?
  }

  /** The command each helper builds, as written. `horizontal_line(x, y)` and
      `vertical_line(x, y)` pass `y` as the `relative` argument, so the vertical line takes
      `x` as its coordinate; the two relative variants pass `relative` both by position and
      by keyword, which Python rejects with a TypeError. */
  function HelperCommand(h: Helper): (r: Result<Command>)
    ensures r.Err? <==> h.HorizontalLineRelativeCall? || h.VerticalLineRelativeCall?
    ensures r.Err? ==> r.error == TypeError
    ensures r.Ok? ==> KindOf(r.value) == HelperKind(h)
  {
    match h
    case MoveToCall(x, y) => Ok(NewMoveTo(x, y, false))
    case MoveRelativeCall(x, y) => Ok(NewMoveTo(x, y, true))
    case LineToCall(x, y) => Ok(NewLineTo(x, y, false))
    case LineRelativeCall(x, y) => Ok(NewLineTo(x, y, true))
    case HorizontalLineCall(x, y) => Ok(NewHorizontalLine(x, y != 0.0))
    case HorizontalLineRelativeCall(_, _) => Err(TypeError)
    case VerticalLineCall(x, y) => Ok(NewVerticalLine(x, y != 0.0))
    case VerticalLineRelativeCall(_, _) => Err(TypeError)
    case PathToCall(x1, y1, x2, y2, x3, y3) => Ok(CurveTo(x1, y1, x2, y2, x3, y3))
  }

  /** Calling a helper on a path: one command of the helper's kind appended at the end, or a
      TypeError before anything is appended. */
  function CallHelper(p: Path, h: Helper): (r: Result<Path>)
    ensures r.Err? <==> h.HorizontalLineRelativeCall? || h.VerticalLineRelativeCall?
    ensures r.Ok? ==> |r.value.commands| == |p.commands| + 1 && r.value.commands[..|p.commands|] == p.commands
    ensures r.Ok? ==> KindOf(r.value.commands[|p.commands|]) == HelperKind(h)
  {
    var c :- HelperCommand(h);
    Ok(Add(p, c))
  }

  /** Every command a helper appends is relative, and `vertical_line(x, y)` draws to `x`. */
  lemma {:induction false} HelpersAsWritten(p: Path, h: Helper)
    ensures CallHelper(p, h).Ok? && !h.PathToCall? ==> IsRelative(CallHelper(p, h).value.commands[|p.commands|])
    ensures h.VerticalLineCall? ==> CallHelper(p, h) == Ok(Add(p, VerticalLine(h.x, true)))
  {
  }

  /** What the helpers evidently mean to build: absolute commands from the plain helpers,
      relative ones from the `_relative` helpers, a horizontal line to `x` and a vertical line
      to `y`. */
  function FixedCommand(h: Helper): (c: Command)
    ensures KindOf(c) == HelperKind(h) && IsRelative(c) == HelperRelative(h)
  {
    match h
    case MoveToCall(x, y) => MoveTo(x, y, false)
    case MoveRelativeCall(x, y) => MoveTo(x, y, true)
    case LineToCall(x, y) => LineTo(x, y, false)
    case LineRelativeCall(x, y) => LineTo(x, y, true)
    case HorizontalLineCall(x, _) => HorizontalLine(x, false)
    case HorizontalLineRelativeCall(x, _) => HorizontalLine(x, true)
    case VerticalLineCall(_, y) => VerticalLine(y, false)
    case VerticalLineRelativeCall(_, y) => VerticalLine(y, true)
    case PathToCall(x1, y1, x2, y2, x3, y3) => CurveTo(x1, y1, x2, y2, x3, y3)
  }

  function CallHelperFixed(p: Path, h: Helper): (r: Path)
    ensures |r.commands| == |p.commands| + 1 && r.commands[..|p.commands|] == p.commands
  {
    Add(p, FixedCommand(h))
  }

  /** With the corrected constructors and helpers, every helper succeeds, and the token of
      the command it appends reads as the kind its name says, relative exactly for the
      `_relative` helpers; the coordinates are the ones the name promises. */
  lemma {:induction false} HelpersFixed(p: Path, h: Helper, num: real -> string)
    ensures var c := CallHelperFixed(p, h).commands[|p.commands|];
      ReadLetter(CommandStr(c, num)[LetterAt(c)]) == Some((HelperKind(h), HelperRelative(h)))
    ensures h.HorizontalLineCall? || h.HorizontalLineRelativeCall? ==>
      CallHelperFixed(p, h).commands[|p.commands|].x == h.x
    ensures h.VerticalLineCall? || h.VerticalLineRelativeCall? ==>
      CallHelperFixed(p, h).commands[|p.commands|].y == h.y
  {
    TokenReadsBack(FixedCommand(h), num);
  }

  // ---------------------------------------------------------------------------
  // Indexing
  // ---------------------------------------------------------------------------

  /** Python's list indexing: a negative index counts from the end; anything outside
      `-n <= index < n` has no position. */
  function Position(n: nat, index: int): (r: Option<nat>)
    ensures r.Some? <==> -(n as int) <= index < n
    ensures r.Some? ==> r.value < n && r.value % n == index % n
  {
    if 0 <= index < n then Some(index)
    else if -(n as int) <= index < 0 then
      ShiftMod(index, n);
      Some(index + n)
    else None
  }

  /** Shifting by the modulus keeps the remainder. */
  lemma ShiftMod(i: int, n: int)
    requires n > 0
    ensures (i + n) % n == i % n
  {
    var q, r := i / n, i % n;
    assert i == q * n + r && 0 <= r < n;
    assert i + n == (q + 1) * n + r;
    UniqueMod(i + n, n, q + 1, r);
  }

  /** The remainder is the `r` of any `x == q * n + r` with `0 <= r < n`. */
  lemma UniqueMod(x: int, n: int, q: int, r: int)
    requires n > 0 && x == q * n + r && 0 <= r < n
    ensures x % n == r
  {
    var q', r' := x / n, x % n;
    var d := q - q';
    assert d * n == r' - r by {
      assert x == q' * n + r';
      assert q * n - q' * n == d * n;
    }
    if d >= 1 {
      MulAtLeast(d, n);
    } else if d <= -1 {
      assert (-d) * n == -(d * n);
      MulAtLeast(-d, n);
    }
  }

  lemma {:induction false} MulAtLeast(k: int, n: int)
    requires k >= 1 && n > 0
    ensures k * n >= n
    decreases k
  {
    if k > 1 {
      MulAtLeast(k - 1, n);
      assert k * n == (k - 1) * n + n;
    }
  }

  /** `__getitem__` (paths.py:13-14). */
  function GetItem(p: Path, index: int): (r: Result<Command>)
    ensures r.Err? <==> Position(|p.commands|, index).None?
    ensures r.Err? ==> r.error == IndexError
    ensures r.Ok? ==> r.value in p.commands
  {
    match Position(|p.commands|, index)
    case None => Err(IndexError)
    case Some(i) => Ok(p.commands[i])
  }

  /** `__setitem__` (paths.py:16-17). */
  function SetItem(p: Path, index: int, c: Command): (r: Result<Path>)
    ensures r.Err? <==> Position(|p.commands|, index).None?
    ensures r.Err? ==> r.error == IndexError
    ensures r.Ok? ==> |r.value.commands| == |p.commands| && r.value.style == p.style
  {
    match Position(|p.commands|, index)
    case None => Err(IndexError)
    case Some(i) => Ok(p.(commands := p.commands[i := c]))
  }

  /** A stored command reads back at its index, and at every other index of the same
      position; the other positions keep their commands. */
  lemma {:induction false} SetThenGet(p: Path, index: int, c: Command, other: int)
    requires SetItem(p, index, c).Ok?
    ensures GetItem(SetItem(p, index, c).value, index) == Ok(c)
    ensures Position(|p.commands|, other) == Position(|p.commands|, index) ==>
      GetItem(SetItem(p, index, c).value, other) == Ok(c)
    ensures Position(|p.commands|, other) != Position(|p.commands|, index) ==>
      GetItem(SetItem(p, index, c).value, other) == GetItem(p, other)
  {
  }

  /** Storing what an index already holds changes nothing. */
  lemma {:induction false} GetThenSet(p: Path, index: int)
    requires GetItem(p, index).Ok?
    ensures SetItem(p, index, GetItem(p, index).value) == Ok(p)
  {
    var i := Position(|p.commands|, index).value;
    assert p.commands[i := p.commands[i]] == p.commands;
  }

  /** Index `i` and index `i - n` name the same command. */
  lemma {:induction false} NegativeIndex(p: Path, i: int)
    requires 0 <= i < |p.commands|
    ensures GetItem(p, i - |p.commands|) == GetItem(p, i) == Ok(p.commands[i])
  {
  }

  // ---------------------------------------------------------------------------
  // The element
  // ---------------------------------------------------------------------------

  /** `Path.create_element` (paths.py:49-53). `ET.SubElement` attaches an empty `path`
      element to `root`; `set_element_attributes` (paths.py:55-57) then evaluates
      `[...] + ' Z'`, a list plus a string, which raises a TypeError before `d` or anything
      of the chain is set. The attached element stays. */
  function CreateElement(root: Element, p: Path): (r: Step<Element>)
    ensures r.raised == Some(TypeError)
    ensures r.state.children == root.children + [Element("path", [], [], None)]
  {
    var (root1, _) := Create(root, "path", []);
    Step(root1, Some(TypeError))
  }

  /** The path data the join evidently means to build: each command's token followed by
      `, `, then ` Z`. */
  function Joined(cs: seq<Command>, num: real -> string): string
  {
    if |cs| == 0 then "" else Token(cs[0], num) + Joined(cs[1..], num)
  }

  function Token(c: Command, num: real -> string): string
  {
    CommandStr(c, num) + ", "
  }

  function PathData(cs: seq<Command>, num: real -> string): string
  {
    Joined(cs, num) + " Z"
  }

  /** Joining distributes over concatenation: the data of a longer list starts with the
      data of each prefix. */
  lemma {:induction false} JoinedConcat(a: seq<Command>, b: seq<Command>, num: real -> string)
    ensures Joined(a + b, num) == Joined(a, num) + Joined(b, num)
    decreases |a|
  {
    if |a| == 0 {
      assert a + b == b;
    } else {
      assert (a + b)[0] == a[0] && (a + b)[1..] == a[1..] + b;
      JoinedConcat(a[1..], b, num);
    }
  }

  /** `add` then rendering puts the new token, with its `, `, just before ` Z`; an empty path is ` Z`. */
  lemma {:induction false} PathDataAdd(p: Path, c: Command, num: real -> string)
    ensures PathData(Add(p, c).commands, num) == Joined(p.commands, num) + Token(c, num) + " Z"
    ensures PathData([], num) == " Z"
  {
    JoinedConcat(p.commands, [c], num);
    JoinedOne(c, num);
  }

  lemma JoinedOne(c: Command, num: real -> string)
    ensures Joined([c], num) == Token(c, num)
  {
    assert [c][1..] == [];
  }

  /** The path's attributes with `d` built: the data first, then the shapes' chain. */
  function FixedAttributes(p: Path, num: real -> string): seq<Attr>
  {
    SetAll([], [("d", Str(PathData(p.commands, num)))] + ChainWrites(ShapeChain(p.style), num))
  }

  /** With the data joined as evidently intended, the path element carries `d` and then
      exactly the stroke, fill and transform attributes, each name once. */
  lemma {:induction false} FixedAttributesSpec(p: Path, num: real -> string)
    ensures FixedAttributes(p, num) == [("d", Str(PathData(p.commands, num)))] + ChainWrites(ShapeChain(p.style), num)
    ensures Lookup(FixedAttributes(p, num), "d") == Some(Str(PathData(p.commands, num)))
    ensures Distinct(Names(FixedAttributes(p, num)))
  {
    var d := ("d", Str(PathData(p.commands, num)));
    var c := ChainWrites(ShapeChain(p.style), num);
    ShapeChainNames(p.style, num);
    DataFirst(d, c);
  }

  lemma DataFirst(d: Attr, c: seq<Attr>)
    requires d.0 == "d" && Distinct(Names(c)) && Elems(Names(c)) <= ShapeChainKeys()
    ensures SetAll([], [d] + c) == [d] + c && Distinct(Names([d] + c)) && Lookup([d] + c, "d") == Some(d.1)
  {
    SeparateConcat([d], c, {"d"}, ShapeChainKeys());
    assert [] + ([d] + c) == [d] + c;
    SetAllFresh([], [d] + c);
  }

  /** `create_element` with the data joined as intended: a `path` child with no children,
      whose first attribute is `d` holding each command's token and then ` Z`, followed by
      exactly the stroke, fill and transform writes, each name once; never a clip path, id,
      style or class. */
  function CreateElementFixed(root: Element, p: Path, num: real -> string): (r: (Element, Element))
    ensures r.0.tag == root.tag && r.0.attrs == root.attrs && r.0.text == root.text
    ensures r.0.children == root.children + [r.1]
    ensures r.1.tag == "path" && r.1.children == [] && r.1.text == None
    ensures |r.1.attrs| > 0 && r.1.attrs[0] == ("d", Str(Joined(p.commands, num) + " Z"))
    ensures r.1.attrs[1..] == ChainWrites(ShapeChain(p.style), num)
    ensures Distinct(Names(r.1.attrs))
    ensures Lookup(r.1.attrs, "clip-path") == None && Lookup(r.1.attrs, "id") == None
    ensures Lookup(r.1.attrs, "style") == None && Lookup(r.1.attrs, "class") == None
  {
    FixedAttributesSpec(p, num);
    ShapeChainOmits(p.style, num);
    var a := FixedAttributes(p, num);
    assert a[1..] == ChainWrites(ShapeChain(p.style), num);
    Create(root, "path", a)
  }
}

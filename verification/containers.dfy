/** `Group` and `ClipPath` (source/schediazo/containers.py): containers of parts whose
    element holds one child per part, in the container's iteration order. */
module Containers {
  import opened Wrappers
  import opened Markup
  import opened Part
  import A = Attributes
  import C = Chains
  import PartOrder
  import LinkedList
  import Texts

  /** A `Group`: the `Clip` mixin's field and the container. */
  datatype Group<P> = Group(clipPath: Option<string>, dict: PartDict<P>)

  /** A `ClipPath`: its units and the container. */
  datatype ClipPath<P> = ClipPath(units: Option<string>, dict: PartDict<P>)

  /** `Group.set_element_attributes` (containers.py:16-24): `Clip` first, then the base
      `PartDict` writes the id. */
  function GroupAttributes<P>(g: Group<P>, num: real -> string): seq<Attr>
  {
    C.SetAttributes([], [A.Clip(g.clipPath)], IdAttribute(g.dict.id), num)
  }

  /** A group carries its clip reference, when it has one, and then its id. */
  lemma {:induction false} GroupAttributesSpec<P>(g: Group<P>, num: real -> string)
    ensures GroupAttributes(g, num) == A.ClipWrites(g.clipPath) + IdAttribute(g.dict.id)
    ensures Lookup(GroupAttributes(g, num), "clip-path") ==
      if g.clipPath.Some? then Some(Str("url(#" + g.clipPath.value + ")")) else None
    ensures Lookup(GroupAttributes(g, num), "id") == Some(Str(g.dict.id))
  {
    var ms := [A.Clip(g.clipPath)];
    var base := IdAttribute(g.dict.id);
    assert C.Separate(ms, base) by {
      assert ms[1..] == [];
      assert Elems(Names(base)) == {"id"};
    }
    C.ChainFresh(ms, base, num);
    assert ms[1..] == [];
    assert C.ChainWrites(ms, base, num) == A.ClipWrites(g.clipPath) + base;
    C.ChainLookup(ms, base, num, 0, "clip-path");
    C.ChainBase(ms, base, num, "id");
  }

  /** `ClipPath.set_element_attributes` (containers.py:51-53): the units iff set, then the
      id. */
  function ClipPathAttributes<P>(c: ClipPath<P>): seq<Attr>
  {
    SetAll([], A.Written([("clipPathUnits", A.AsStr(c.units))]) + IdAttribute(c.dict.id))
  }

  /** A clip path carries `clipPathUnits` exactly when units were given, and then its id. */
  lemma {:induction false} ClipPathAttributesSpec<P>(c: ClipPath<P>)
    ensures c.units.Some? ==>
      ClipPathAttributes(c) == [("clipPathUnits", Str(c.units.value)), ("id", Str(c.dict.id))]
    ensures c.units.None? ==> ClipPathAttributes(c) == [("id", Str(c.dict.id))]
  {
    var w := [("clipPathUnits", A.AsStr(c.units))];
    assert w[1..] == [];
    if c.units.Some? {
      assert A.Written(w) == [("clipPathUnits", Str(c.units.value))];
      var all := [("clipPathUnits", Str(c.units.value)), ("id", Str(c.dict.id))];
      assert A.Written(w) + IdAttribute(c.dict.id) == all;
      assert Names(all) == ["clipPathUnits", "id"];
      assert [] + all == all;
      SetAllFresh([], all);
    } else {
      assert A.Written(w) == [];
      var all := [("id", Str(c.dict.id))];
      assert A.Written(w) + IdAttribute(c.dict.id) == all;
      assert [] + all == all;
      SetAllFresh([], all);
    }
  }

  /** `PartDict.create_element(root)` (part.py:139-156) for a group, tag `g` (containers.py:14):
      the `g` element is attached to `root` with the group's clip reference and id whether or
      not a part then raises. */
  function CreateGroup<P>(root: Element, g: Group<P>, render: P -> Step<Element>, num: real -> string): (r: Step<Element>)
    requires !Keys(g.dict).Endless?
    ensures r.state.tag == root.tag && r.state.attrs == root.attrs && r.state.text == root.text
    ensures |r.state.children| == |root.children| + 1 && r.state.children[..|root.children|] == root.children
    ensures var e := r.state.children[|root.children|];
      && e.tag == "g" && e.text == None
      && Lookup(e.attrs, "id") == Some(Str(g.dict.id))
      && Lookup(e.attrs, "clip-path") == if g.clipPath.Some? then Some(Str("url(#" + g.clipPath.value + ")")) else None
  {
    GroupAttributesSpec(g, num);
    Emit(root, "g", GroupAttributes(g, num), g.dict, render)
  }

  /** `PartDict.create_element(root)` for a clip path, tag `clipPath` (containers.py:41): the
      element is attached with `clipPathUnits` exactly when units were given, and its id,
      whether or not a part then raises. */
  function CreateClipPath<P>(root: Element, c: ClipPath<P>, render: P -> Step<Element>): (r: Step<Element>)
    requires !Keys(c.dict).Endless?
    ensures r.state.tag == root.tag && r.state.attrs == root.attrs && r.state.text == root.text
    ensures |r.state.children| == |root.children| + 1 && r.state.children[..|root.children|] == root.children
    ensures var e := r.state.children[|root.children|];
      && e.tag == "clipPath" && e.text == None
      && Lookup(e.attrs, "id") == Some(Str(c.dict.id))
      && Lookup(e.attrs, "clipPathUnits") == if c.units.Some? then Some(Str(c.units.value)) else None
  {
    ClipPathAttributesSpec(c);
    Emit(root, "clipPath", ClipPathAttributes(c), c.dict, render)
  }

  /** The children a container over a consistent order `s` attaches: its parts' subtrees in
      that order. It raises exactly when some part raises; then the loop stopped at the first
      part that raised, whose partial subtree is the last child kept. */
  predicate AttachedInOrder<P>(e: Element, entries: map<string, P>, s: seq<string>, render: P -> Step<Element>, raised: Option<PyError>)
    requires Elems(s) <= entries.Keys
  {
    && |e.children| <= |s|
    && (forall i :: 0 <= i < |e.children| ==> e.children[i] == render(entries[s[i]]).state)
    && (raised.None? <==> forall i :: 0 <= i < |s| ==> render(entries[s[i]]).raised.None?)
    && (raised.None? ==> |e.children| == |s|)
    && (raised.Some? ==>
          && 0 < |e.children|
          && render(entries[s[|e.children| - 1]]).raised == raised
          && forall i :: 0 <= i < |e.children| - 1 ==> render(entries[s[i]]).raised.None?)
  }

  /** Over a consistent container, the group's children follow the container's order and the
      group raises exactly when one of its parts does, keeping the parts attached up to it. */
  lemma {:induction false} GroupChildren<P>(root: Element, g: Group<P>, s: seq<string>, render: P -> Step<Element>, num: real -> string)
    requires Consistent(g.dict, s)
    ensures !Keys(g.dict).Endless?
    ensures var r := CreateGroup(root, g, render, num);
      AttachedInOrder(r.state.children[|root.children|], g.dict.entries, s, render, r.raised)
  {
    PartOrder.Iteration(g.dict, s);
    InOrder(root, "g", GroupAttributes(g, num), g.dict, s, render);
  }

  /** The same for a clip path. */
  lemma {:induction false} ClipPathChildren<P>(root: Element, c: ClipPath<P>, s: seq<string>, render: P -> Step<Element>)
    requires Consistent(c.dict, s)
    ensures !Keys(c.dict).Endless?
    ensures var r := CreateClipPath(root, c, render);
      AttachedInOrder(r.state.children[|root.children|], c.dict.entries, s, render, r.raised)
  {
    PartOrder.Iteration(c.dict, s);
    InOrder(root, "clipPath", ClipPathAttributes(c), c.dict, s, render);
  }

  lemma InOrder<P>(root: Element, tag: string, attrs: seq<Attr>, d: PartDict<P>, s: seq<string>, render: P -> Step<Element>)
    requires Consistent(d, s) && Keys(d) == LinkedList.Complete(s)
    ensures Elems(s) <= d.entries.Keys
    ensures var r := Emit(root, tag, attrs, d, render);
      AttachedInOrder(r.state.children[|root.children|], d.entries, s, render, r.raised)
  {
    assert Keys(d).keys == s;
    var r := Emit(root, tag, attrs, d, render);
    var e := r.state.children[|root.children|];
    assert e.children == AttachAll(d.entries, s, render).state;
    assert r.raised == AttachAll(d.entries, s, render).raised;
    AllInOrder(e, d.entries, s, render, r.raised);
  }

  /** All keys present: `AttachAll`'s children and exception are in drawing order. */
  lemma AllInOrder<P>(e: Element, entries: map<string, P>, s: seq<string>, render: P -> Step<Element>,
                      raised: Option<PyError>)
    requires Elems(s) <= entries.Keys
    requires e.children == AttachAll(entries, s, render).state && raised == AttachAll(entries, s, render).raised
    ensures AttachedInOrder(e, entries, s, render, raised)
  {
    assert forall i :: 0 <= i < |s| ==> s[i] in entries;
  }

  // ---------------------------------------------------------------------------
  // The parts a container holds
  // ---------------------------------------------------------------------------

  /** The leaf parts of the library a container may hold: `Text` and `TextPath` derive from
      `PartBase` (text.py:11, 65). Shapes and paths derive from `elements.Element` instead
      (shapes.py:10, paths.py:7), so `__setitem__` rejects them with `TypeError`
      (part.py:183-184) and no container ever holds one. A nested container is a part too; it
      fits `render` through `Part.EmitAttachesOne`. */
  datatype Leaf = TextPart(text: Texts.Text) | TextPathPart(textPath: Texts.TextPath)

  /** The subtree a leaf part's `create_element` attaches, and what it raises: a text's
      `text` element, or a text path's outer `text` element (text.py:106-108); neither
      raises. */
  function AttachLeaf(leaf: Leaf, num: real -> string): Step<Element>
  {
    var bare := SubElement("");
    match leaf
    case TextPart(t) => Step(Texts.CreateText(bare, t, num).1, None)
    case TextPathPart(tp) => Step(Texts.CreateTextPath(bare, tp, num).0.children[0], None)
  }

  /** Under any parent, each leaf's `create_element` appends exactly the subtree
      `AttachLeaf` names and raises nothing: `AttachLeaf` is a `render` in the sense of
      `Part.AttachAll`. */
  lemma {:induction false} LeafAttaches(root: Element, leaf: Leaf, num: real -> string)
    ensures AttachLeaf(leaf, num).raised == None
    ensures leaf.TextPart? ==>
      Texts.CreateText(root, leaf.text, num).0.children == root.children + [AttachLeaf(leaf, num).state]
    ensures leaf.TextPathPart? ==>
      Texts.CreateTextPath(root, leaf.textPath, num).0.children == root.children + [AttachLeaf(leaf, num).state]
  {
  }

  /** A group whose sole part was deleted (`del g[k]`, part.py:384-389 leaving a stale head)
      still appends its `g` element under `root`, with no children, and raises `KeyError`:
      the walk yields `k`, which the dict no longer holds, whatever the parts render. */
  lemma {:induction false} GroupAfterSoleDelRaises<P>(root: Element, g: Group<P>, k: string,
                                                      render: P -> Step<Element>, num: real -> string)
    requires Consistent(g.dict, [k])
    ensures var h := g.(dict := DelItem(g.dict, k).state);
      && DelItem(g.dict, k).raised == None
      && !Keys(h.dict).Endless?
      && var r := CreateGroup(root, h, render, num);
         var e := r.state.children[|root.children|];
         r.raised == Some(KeyError) && e.tag == "g" && e.children == []
  {
    assert k in g.dict.entries;
    PartOrder.DelItemSole(g.dict, k, k, g.dict.entries[k]);
    var h := g.(dict := DelItem(g.dict, k).state);
    assert Keys(h.dict).keys == [k] && k !in h.dict.entries;
    var r := CreateGroup(root, h, render, num);
    var e := r.state.children[|root.children|];
    assert |e.children| == 0;
  }
}

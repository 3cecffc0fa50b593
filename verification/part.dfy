/** `PartBase` and `PartDict` (source/schediazo/part.py): the dictionary of parts whose
    iteration order is the doubly linked list of `LinkedList`.

    A `PartDict` is the Python dict itself (`entries`, keyed by part id) plus the list. The
    two are updated separately: `__setitem__` links a new key before storing it, `__delitem__`
    deletes from the dict before unlinking. Ids are supplied by the caller (`generate_id` draws
    random bytes). */
module Part {
  import opened Wrappers
  import opened LinkedList
  import opened Markup

  /** A value handed to `__setitem__`: an instance of `PartBase`/`PartDict`, or anything else. */
  datatype Item<P> = Part(part: P) | NotAPart

  datatype PartDict<P> = PartDict(id: string, entries: map<string, P>, links: Links<string>)

  /** `PartDict(id)` (part.py:107-123). */
  function New<P>(id: string): PartDict<P>
  {
    PartDict(id, map[], Empty())
  }

  /** The dict holds exactly the keys of the list, whose order is `s`. */
  predicate Consistent<P>(d: PartDict<P>, s: seq<string>)
  {
    Valid(d.links, s) && d.entries.Keys == Elems(s)
  }

  /** `__iter__` (part.py:191-202). */
  function Keys<P>(d: PartDict<P>): Walk<string>
  {
    Forward(d.links)
  }

  /** `__reversed__` (part.py:204-215). */
  function ReversedKeys<P>(d: PartDict<P>): Walk<string>
  {
    Backward(d.links)
  }

  /** `__setitem__` (part.py:168-189): rejects a non-part with `TypeError`; a new key is linked
      at the tail before the value is stored; an existing key only has its value replaced. */
  function SetItem<P>(d: PartDict<P>, key: string, v: Item<P>): Step<PartDict<P>>
  {
    if v.NotAPart? then Step(d, Some(TypeError))
    else if key in d.entries then Step(d.(entries := d.entries[key := v.part]), None)
    else
      var r := InsertTail(d.links, key);
      if r.raised.Some? then Step(d.(links := r.state), r.raised)
      else Step(PartDict(d.id, d.entries[key := v.part], r.state), None)
  }

  /** `__delitem__` (part.py:217-226): the dict deletion raises `KeyError` for an absent key
      before the list is touched; otherwise the key is unlinked afterwards. */
  function DelItem<P>(d: PartDict<P>, key: string): Step<PartDict<P>>
  {
    if key !in d.entries then Step(d, Some(KeyError))
    else
      var d1 := d.(entries := d.entries - {key});
      var r := Remove(d1.links, key);
      Step(d1.(links := r.state), r.raised)
  }

  /** `clear` (part.py:228-234). */
  function Clear<P>(d: PartDict<P>): (r: PartDict<P>)
    ensures Consistent(r, [])
    ensures Keys(r) == Complete([]) && ReversedKeys(r) == Complete([])
    ensures r.id == d.id
  {
    PartDict(d.id, map[], Empty())
  }

  /** Shared shape of the four `move*` methods: `KeyError` unless the key is linked. */
  function Moved<P>(d: PartDict<P>, key: string, r: Step<Links<string>>): Step<PartDict<P>>
  {
    if key !in d.links.nodes then Step(d, Some(KeyError)) else Step(d.(links := r.state), r.raised)
  }

  /** `movetofront` (part.py:236-253): to the tail, drawn last. */
  function MoveToFront<P>(d: PartDict<P>, key: string): Step<PartDict<P>>
  {
    Moved(d, key, MoveToTail(d.links, key))
  }

  /** `movetoback` (part.py:255-271): to the head, drawn first. */
  function MoveToBack<P>(d: PartDict<P>, key: string): Step<PartDict<P>>
  {
    Moved(d, key, MoveToHead(d.links, key))
  }

  /** `moveforward` (part.py:273-289): one step toward the tail. */
  function MoveForward<P>(d: PartDict<P>, key: string): Step<PartDict<P>>
  {
    Moved(d, key, MoveTowardsTail(d.links, key))
  }

  /** `movebackward` (part.py:291-307): one step toward the head. */
  function MoveBackward<P>(d: PartDict<P>, key: string): Step<PartDict<P>>
  {
    Moved(d, key, MoveTowardsHead(d.links, key))
  }

  /** `add` (part.py:129-137): the part is stored under its own id; `idOf` reads a part's
      `id` property. */
  function AddPart<P>(d: PartDict<P>, p: P, idOf: P -> string): Step<PartDict<P>>
  {
    SetItem(d, idOf(p), Part(p))
  }

  /** `PartBase.set_element_attributes` and `PartDict.set_element_attributes`
      (part.py:65-73, 158-166): the part's id. */
  function IdAttribute(id: string): (r: seq<Attr>)
    ensures Names(r) == ["id"] && Lookup(r, "id") == Some(Str(id))
  {
    [("id", Str(id))]
  }

  /** `render` is a part's `create_element(parent)` as the container calling it sees it:
      every part first attaches one element to the parent it is handed (`ET.SubElement`) and
      then may raise. `state` is the subtree attached, as it stands when the call ends
      (partial if the call raised); `raised` is the exception, if any.

      The loop `for child in self: self[child].create_element(element)` (part.py:154-155)
      over the keys `ks`: each key's part attaches its subtree in turn. A key missing from the
      dict raises `KeyError` before anything is attached for it; the first raise ends the loop
      and keeps what was attached so far, the failing part's partial subtree included. */
  function AttachAll<P>(entries: map<string, P>, ks: seq<string>, render: P -> Step<Element>): (r: Step<seq<Element>>)
    ensures |r.state| <= |ks|
    ensures forall i :: 0 <= i < |r.state| ==> ks[i] in entries && r.state[i] == render(entries[ks[i]]).state
    ensures forall i :: 0 <= i < |r.state| - 1 ==> ks[i] in entries && render(entries[ks[i]]).raised.None?
    ensures r.raised.None? <==> forall i :: 0 <= i < |ks| ==> ks[i] in entries && render(entries[ks[i]]).raised.None?
    ensures r.raised.None? ==> |r.state| == |ks|
    ensures r.raised.Some? ==>
      || (|r.state| < |ks| && ks[|r.state|] !in entries && r.raised == Some(KeyError)
          && forall i :: 0 <= i < |r.state| ==> render(entries[ks[i]]).raised.None?)
      || (|r.state| > 0 && ks[|r.state| - 1] in entries && render(entries[ks[|r.state| - 1]]).raised == r.raised)
  {
    if |ks| == 0 then Step([], None)
    else if ks[0] !in entries then Step([], Some(KeyError))
    else
      var first := render(entries[ks[0]]);
      if first.raised.Some? then Step([first.state], first.raised)
      else
        var rest := AttachAll(entries, ks[1..], render);
        assert forall i :: 1 <= i < |ks| ==> ks[i] == ks[1..][i - 1];
        Step([first.state] + rest.state, rest.raised)
  }

  /** `PartDict.create_element(root)` (part.py:139-156) for a container with tag `tag` whose
      own attributes are `attrs`. The container's element is attached to `root` and given its
      attributes before the loop runs, so it stays under `root`, with whatever children were
      attached, when the loop raises. An iteration that stops with a `KeyError` of its own (a
      stale head, see `LinkedList.Walk`) raises once every key it yielded is done. A walk that
      never ends has no result, so it is excluded. */
  function Emit<P>(root: Element, tag: string, attrs: seq<Attr>, d: PartDict<P>, render: P -> Step<Element>): (r: Step<Element>)
    requires !Keys(d).Endless?
    ensures r.state.tag == root.tag && r.state.attrs == root.attrs && r.state.text == root.text
    ensures |r.state.children| == |root.children| + 1 && r.state.children[..|root.children|] == root.children
    ensures var e := r.state.children[|root.children|];
      && e.tag == tag && e.attrs == attrs && e.text == None
      && |e.children| <= |Keys(d).keys|
      && (forall i :: 0 <= i < |e.children| ==>
            Keys(d).keys[i] in d.entries && e.children[i] == render(d.entries[Keys(d).keys[i]]).state)
      && (forall i :: 0 <= i < |e.children| - 1 ==> render(d.entries[Keys(d).keys[i]]).raised.None?)
      && (r.raised.None? ==> |e.children| == |Keys(d).keys|)
    ensures r.raised.None? <==> (Keys(d).Complete? &&
      forall i :: 0 <= i < |Keys(d).keys| ==> Keys(d).keys[i] in d.entries && render(d.entries[Keys(d).keys[i]]).raised.None?)
    ensures var e := r.state.children[|root.children|];
      var ks, n := Keys(d).keys, |e.children|;
      r.raised.Some? ==>
        if n > 0 && render(d.entries[ks[n - 1]]).raised.Some?
        then r.raised == render(d.entries[ks[n - 1]]).raised
        else r.raised == Some(KeyError) && (n == |ks| || ks[n] !in d.entries)
  {
    var a := AttachAll(d.entries, Keys(d).keys, render);
    var e := Element(tag, attrs, a.state, None);
    var raised := if a.raised.Some? then a.raised else if Keys(d).KeyErrorAfter? then Some(KeyError) else None;
    Step(root.(children := root.children + [e]), raised)
  }

  /** Whatever `root` already holds, a container attaches the same subtree and raises the same
      exception, so a container nested in another is itself a `render` of the kind the outer
      one expects. */
  lemma {:induction false} EmitAttachesOne<P>(root: Element, tag: string, attrs: seq<Attr>, d: PartDict<P>, render: P -> Step<Element>)
    requires !Keys(d).Endless?
    ensures var bare := Emit(SubElement(""), tag, attrs, d, render);
      Emit(root, tag, attrs, d, render) == Step(root.(children := root.children + bare.state.children), bare.raised)
  {
  }
}

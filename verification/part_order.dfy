/** What the public operations of `PartDict` (source/schediazo/part.py) do to its keys and
    their order, proved from the `ListOrder` facts about the linked list underneath. */
module PartOrder {
  import opened Wrappers
  import opened LinkedList
  import opened ListOrder
  import opened Part

  /** A fresh container is empty and iterates nothing. */
  lemma NewEmpty<P>(id: string)
    ensures Consistent(New<P>(id), [])
    ensures Keys(New<P>(id)) == Complete([]) && ReversedKeys(New<P>(id)) == Complete([])
  {
    IterationOrder(New<P>(id).links, []);
  }

  /** `__iter__` yields every key once in list order and `__reversed__` the same keys
      backwards. */
  lemma Iteration<P>(d: PartDict<P>, s: seq<string>)
    requires Consistent(d, s)
    ensures Keys(d) == Complete(s) && ReversedKeys(d) == Complete(Reverse(s))
    ensures Distinct(s) && d.entries.Keys == Elems(s)
  {
    IterationOrder(d.links, s);
  }

  /** `__setitem__`: a non-part raises `TypeError` and changes nothing; an existing key gets
      its new value in place; a new key is appended to the order. */
  lemma {:induction false} SetItemSpec<P>(d: PartDict<P>, s: seq<string>, key: string, v: Item<P>)
    requires Consistent(d, s)
    ensures v.NotAPart? ==> SetItem(d, key, v) == Step(d, Some(TypeError))
    ensures v.Part? && key in s ==>
      var r := SetItem(d, key, v);
      r.raised == None && r.state.links == d.links && r.state.entries == d.entries[key := v.part]
      && Consistent(r.state, s)
    ensures v.Part? && key !in s ==>
      var r := SetItem(d, key, v);
      r.raised == None && r.state.entries == d.entries[key := v.part] && r.state.id == d.id
      && Consistent(r.state, s + [key])
  {
    if v.Part? && key !in s {
      InsertTailValid(d.links, s, key);
      assert Elems(s + [key]) == Elems(s) + {key};
    }
  }

  /** `add` never raises: the part is stored under its id, which joins the order at the tail
      unless it was already there. */
  lemma {:induction false} AddPartSpec<P>(d: PartDict<P>, s: seq<string>, p: P, idOf: P -> string)
    requires Consistent(d, s)
    ensures var r := AddPart(d, p, idOf);
      && r.raised == None && r.state.entries == d.entries[idOf(p) := p]
      && Consistent(r.state, if idOf(p) in s then s else s + [idOf(p)])
  {
    SetItemSpec(d, s, idOf(p), Part(p));
  }

  /** `__delitem__` of a key that is not there raises `KeyError` before anything changes. */
  lemma {:induction false} DelItemAbsent<P>(d: PartDict<P>, s: seq<string>, key: string)
    requires Consistent(d, s) && key !in s
    ensures DelItem(d, key) == Step(d, Some(KeyError))
  {
  }

  /** `__delitem__` of one of two or more keys removes it from the dict and the order and keeps
      the other keys in their order. */
  lemma {:induction false} DelItemValid<P>(d: PartDict<P>, s: seq<string>, key: string)
    requires Consistent(d, s) && key in s && |s| >= 2
    ensures DelItem(d, key).raised == None
    ensures DelItem(d, key).state.entries == d.entries - {key}
    ensures Consistent(DelItem(d, key).state, Without(s, key))
  {
    RemoveValid(d.links, s, key);
    ElemsWithout(s, key);
  }

  /** `__delitem__` of the only key empties the dict but leaves the list's ends naming the
      deleted key: iteration yields it and then raises `KeyError`, and so does every later
      assignment of a new key, until `clear`. */
  lemma {:induction false} DelItemSole<P>(d: PartDict<P>, key: string, other: string, p: P)
    requires Consistent(d, [key])
    ensures DelItem(d, key).raised == None
    ensures DelItem(d, key).state.entries == map[]
    ensures Keys(DelItem(d, key).state) == KeyErrorAfter([key])
    ensures ReversedKeys(DelItem(d, key).state) == KeyErrorAfter([key])
    ensures SetItem(DelItem(d, key).state, other, Part(p)) == Step(DelItem(d, key).state, Some(KeyError))
    ensures Consistent(Clear(DelItem(d, key).state), [])
  {
    RemoveSoleLeavesStale(d.links, key);
    assert d.entries.Keys == {key};
    StaleAfterSoleRemoval(key, other);
  }

  /** The four `move*` methods raise `KeyError` for an absent key and change nothing. */
  lemma {:induction false} MoveAbsentKey<P>(d: PartDict<P>, s: seq<string>, key: string)
    requires Consistent(d, s) && key !in s
    ensures MoveToFront(d, key) == Step(d, Some(KeyError))
    ensures MoveToBack(d, key) == Step(d, Some(KeyError))
    ensures MoveForward(d, key) == Step(d, Some(KeyError))
    ensures MoveBackward(d, key) == Step(d, Some(KeyError))
  {
  }

  /** `movetofront` puts the key last (drawn on top); the others keep their order and the
      dict is untouched. */
  lemma {:induction false} MoveToFrontValid<P>(d: PartDict<P>, s: seq<string>, key: string)
    requires Consistent(d, s) && key in s
    ensures MoveToFront(d, key).raised == None && MoveToFront(d, key).state.entries == d.entries
    ensures Consistent(MoveToFront(d, key).state, Without(s, key) + [key])
  {
    MoveToTailValid(d.links, s, key);
    ElemsWithout(s, key);
    assert Elems(Without(s, key) + [key]) == Elems(Without(s, key)) + {key};
  }

  /** `movetoback` puts the key first (drawn underneath); the others keep their order and the
      dict is untouched. */
  lemma {:induction false} MoveToBackValid<P>(d: PartDict<P>, s: seq<string>, key: string)
    requires Consistent(d, s) && key in s
    ensures MoveToBack(d, key).raised == None && MoveToBack(d, key).state.entries == d.entries
    ensures Consistent(MoveToBack(d, key).state, [key] + Without(s, key))
  {
    MoveToHeadValid(d.links, s, key);
    ElemsWithout(s, key);
    assert Elems([key] + Without(s, key)) == Elems(Without(s, key)) + {key};
  }

  /** `movetofront` and `movetoback` are idempotent. */
  lemma {:induction false} MoveToEndsIdempotent<P>(d: PartDict<P>, s: seq<string>, key: string)
    requires Consistent(d, s) && key in s
    ensures MoveToFront(MoveToFront(d, key).state, key) == Step(MoveToFront(d, key).state, None)
    ensures MoveToBack(MoveToBack(d, key).state, key) == Step(MoveToBack(d, key).state, None)
  {
    MoveToTailIdempotent(d.links, s, key);
    MoveToHeadIdempotent(d.links, s, key);
    MoveToTailValid(d.links, s, key);
    MoveToHeadValid(d.links, s, key);
  }

  /** `moveforward` exchanges the key with the next one, or leaves a last key in place, when the
      container holds at least three keys (or the key is already last). */
  lemma {:induction false} MoveForwardSwaps<P>(d: PartDict<P>, s: seq<string>, key: string)
    requires Consistent(d, s) && key in s && (|s| >= 3 || s[|s| - 1] == key)
    ensures MoveForward(d, key).raised == None && MoveForward(d, key).state.entries == d.entries
    ensures Consistent(MoveForward(d, key).state,
                       if IndexOf(s, key) == |s| - 1 then s else SwapWithNext(s, IndexOf(s, key)))
  {
    MoveTowardsTailValid(d.links, s, key);
    var r := MoveTowardsTail(d.links, key);
    assert key in d.links.nodes;
    assert MoveForward(d, key) == Step(d.(links := r.state), r.raised);
    var i := IndexOf(s, key);
    var t := if i == |s| - 1 then s else SwapWithNext(s, i);
    assert Valid(r.state, t);
    if i < |s| - 1 {
      SwapElems(s, i);
    }
    assert Elems(t) == Elems(s);
  }

  /** `movebackward` exchanges the key with the previous one, or leaves a first key in place,
      when the container holds at least three keys (or the key is already first). */
  lemma {:induction false} MoveBackwardSwaps<P>(d: PartDict<P>, s: seq<string>, key: string)
    requires Consistent(d, s) && key in s && (|s| >= 3 || s[0] == key)
    ensures MoveBackward(d, key).raised == None && MoveBackward(d, key).state.entries == d.entries
    ensures Consistent(MoveBackward(d, key).state,
                       if IndexOf(s, key) == 0 then s else SwapWithNext(s, IndexOf(s, key) - 1))
  {
    var i := IndexOf(s, key);
    if i == 0 {
      assert d.links.head == Some(key);
      assert MoveBackward(d, key) == Step(d, None);
    } else {
      MoveBackwardInside(d, s, key, i);
    }
  }

  lemma {:induction false} MoveBackwardInside<P>(d: PartDict<P>, s: seq<string>, key: string, i: nat)
    requires Consistent(d, s) && |s| >= 3 && 0 < i < |s| && s[i] == key
    ensures MoveBackward(d, key).raised == None && MoveBackward(d, key).state.entries == d.entries
    ensures Consistent(MoveBackward(d, key).state, SwapWithNext(s, i - 1))
  {
    assert IndexOf(s, key) == i;
    MoveTowardsHeadValid(d.links, s, key);
    var r := MoveTowardsHead(d.links, key);
    assert key in d.links.nodes;
    assert MoveBackward(d, key) == Step(d.(links := r.state), r.raised);
    SwapElems(s, i - 1);
    Relink(d, s, r.state, SwapWithNext(s, i - 1));
  }

  /** With exactly two keys, `moveforward` of the first key drops it from the iteration order
      while it stays in the dict; a later `del` of it empties it from the dict and then raises
      `KeyError` from the list. */
  lemma {:induction false} MoveForwardOfTwoLosesKey<P>(d: PartDict<P>, a: string, b: string)
    requires Consistent(d, [a, b])
    ensures MoveForward(d, a).raised == None
    ensures MoveForward(d, a).state.entries == d.entries && a in d.entries
    ensures Keys(MoveForward(d, a).state) == Complete([b])
    ensures DelItem(MoveForward(d, a).state, a).raised == Some(KeyError)
    ensures Consistent(DelItem(MoveForward(d, a).state, a).state, [b])
  {
    MoveTowardsTailOfTwoDropsKey(d.links, a, b);
    var l1 := MoveForward(d, a).state.links;
    IterationOrder(l1, [b]);
    RemoveAbsent(l1, [b], a);
  }

  /** The same loss for `movebackward` of the second of two keys. */
  lemma {:induction false} MoveBackwardOfTwoLosesKey<P>(d: PartDict<P>, a: string, b: string)
    requires Consistent(d, [a, b])
    ensures MoveBackward(d, b).raised == None
    ensures MoveBackward(d, b).state.entries == d.entries && b in d.entries
    ensures Keys(MoveBackward(d, b).state) == Complete([a])
    ensures DelItem(MoveBackward(d, b).state, b).raised == Some(KeyError)
    ensures Consistent(DelItem(MoveBackward(d, b).state, b).state, [a])
  {
    MoveTowardsHeadOfTwoDropsKey(d.links, a, b);
    var l1 := MoveBackward(d, b).state.links;
    IterationOrder(l1, [a]);
    RemoveAbsent(l1, [a], b);
  }

  // ---------------------------------------------------------------------------
  // Helpers
  // ---------------------------------------------------------------------------

  /** Replacing the list by one over the same keys keeps the container consistent. */
  lemma Relink<P>(d: PartDict<P>, s: seq<string>, l: Links<string>, t: seq<string>)
    requires Consistent(d, s) && Valid(l, t) && Elems(t) == Elems(s)
    ensures Consistent(d.(links := l), t)
  {
  }

  lemma SwapElems<K>(s: seq<K>, i: nat)
    requires i + 1 < |s|
    ensures Elems(SwapWithNext(s, i)) == Elems(s)
  {
    assert s == s[..i] + [s[i], s[i + 1]] + s[i + 2..];
  }
}

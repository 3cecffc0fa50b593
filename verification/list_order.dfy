/** Proofs that the `_list_*` helpers of `PartDict` (source/schediazo/part.py) perform the
    sequence edits their comments describe, on links that are `Valid`, and what they do at the
    two places where they do not. */
module ListOrder {
  import opened Wrappers
  import opened LinkedList

  // ---------------------------------------------------------------------------
  // Sequence facts
  // ---------------------------------------------------------------------------

  /** The node map holds one node per key of the sequence. */
  lemma {:induction false} ValidCard<K>(l: Links<K>, s: seq<K>)
    requires Valid(l, s)
    ensures |l.nodes| == |s|
  {
    DistinctCard(s);
    assert |l.nodes| == |l.nodes.Keys|;
  }

  lemma {:induction false} WithoutIndex<K>(s: seq<K>, k: K)
    requires k in s
    ensures |Without(s, k)| == |s| - 1
    ensures forall j :: 0 <= j < |s| - 1 ==>
      Without(s, k)[j] == if j < IndexOf(s, k) then s[j] else s[j + 1]
  {
    var i := IndexOf(s, k);
    var w := s[..i] + s[i + 1..];
    assert Without(s, k) == w;
    forall j | 0 <= j < |s| - 1
      ensures w[j] == if j < i then s[j] else s[j + 1]
    {
      if j < i {
        assert w[j] == s[..i][j];
      } else {
        assert w[j] == s[i + 1..][j - i];
      }
    }
  }

  lemma {:induction false} InsertAtIndex<K>(s: seq<K>, p: nat, k: K)
    requires p <= |s|
    ensures |InsertAt(s, p, k)| == |s| + 1
    ensures forall j :: 0 <= j <= |s| ==>
      InsertAt(s, p, k)[j] == if j < p then s[j] else if j == p then k else s[j - 1]
  {
  }

  // ---------------------------------------------------------------------------
  // Insertion at either end
  // ---------------------------------------------------------------------------

  /** `_list_insert_tail` appends a new key to the order. */
  lemma {:induction false} InsertTailValid<K>(l: Links<K>, s: seq<K>, key: K)
    requires Valid(l, s)
    requires key !in s
    ensures InsertTail(l, key).raised == None
    ensures Valid(InsertTail(l, key).state, s + [key])
  {
    var s' := s + [key];
    var r := InsertTail(l, key).state;
    if |s| == 0 {
      assert s' == [key];
      assert Linked(r.nodes, s', 0);
    } else {
      var n := |s|;
      var t := s[n - 1];
      assert Linked(l.nodes, s, n - 1);
      var m := SetNext(l.nodes, t, Some(key))[key := Node(Some(t), None)];
      assert r == Links(m, l.head, Some(key));
      forall i | 0 <= i < |s'|
        ensures Linked(m, s', i)
      {
        if i < n - 1 {
          assert Linked(l.nodes, s, i);
          assert s'[i] == s[i] && s[i] != t && s[i] != key;
        } else if i == n - 1 {
          assert s'[i] == t;
        } else {
          assert s'[i] == key;
        }
      }
      assert m.Keys == Elems(s');
      assert Distinct(s');
    }
  }

  /** `_list_insert_head` prepends a new key to the order. */
  lemma {:induction false} InsertHeadValid<K>(l: Links<K>, s: seq<K>, key: K)
    requires Valid(l, s)
    requires key !in s
    ensures InsertHead(l, key).raised == None
    ensures Valid(InsertHead(l, key).state, [key] + s)
  {
    var s' := [key] + s;
    var r := InsertHead(l, key).state;
    if |s| == 0 {
      assert s' == [key];
      assert Linked(r.nodes, s', 0);
    } else {
      var h := s[0];
      assert Linked(l.nodes, s, 0);
      var m := SetPrev(l.nodes, h, Some(key))[key := Node(None, Some(h))];
      assert r == Links(m, Some(key), l.tail);
      forall i | 0 <= i < |s'|
        ensures Linked(m, s', i)
      {
        if i > 1 {
          assert Linked(l.nodes, s, i - 1);
          assert s'[i] == s[i - 1] && s[i - 1] != h && s[i - 1] != key;
        } else if i == 1 {
          assert s'[i] == h;
        } else {
          assert s'[i] == key;
        }
      }
      assert m.Keys == Elems(s');
      assert Distinct(s');
    }
  }

  // ---------------------------------------------------------------------------
  // Removal
  // ---------------------------------------------------------------------------

  /** `_list_remove` of a key from a list of two or more keys splices it out and keeps the
      other keys in their relative order. */
  lemma {:induction false} RemoveValid<K>(l: Links<K>, s: seq<K>, key: K)
    requires Valid(l, s)
    requires key in s && |s| >= 2
    ensures Remove(l, key).raised == None
    ensures Valid(Remove(l, key).state, Without(s, key))
  {
    ValidCard(l, s);
    var i := IndexOf(s, key);
    assert Remove(l, key) == Unlink(l, key);
    if i == 0 {
      UnlinkHead(l, s, key);
    } else if i == |s| - 1 {
      UnlinkTail(l, s, key);
    } else {
      UnlinkMiddle(l, s, key);
    }
  }

  lemma {:induction false} UnlinkHead<K>(l: Links<K>, s: seq<K>, key: K)
    requires Valid(l, s)
    requires |s| >= 2 && s[0] == key
    ensures Unlink(l, key).raised == None
    ensures Valid(Unlink(l, key).state, Without(s, key))
  {
    var w := Without(s, key);
    WithoutIndex(s, key);
    assert Linked(l.nodes, s, 0);
    assert Linked(l.nodes, s, 1);
    var m := SetPrev(l.nodes, s[1], None) - {key};
    assert Unlink(l, key) == Step(Links(m, Some(s[1]), l.tail), None);
    forall j | 0 <= j < |w|
      ensures Linked(m, w, j)
    {
      assert w[j] == s[j + 1];
      assert Linked(l.nodes, s, j + 1);
    }
    assert m.Keys == Elems(w);
  }

  lemma {:induction false} UnlinkTail<K>(l: Links<K>, s: seq<K>, key: K)
    requires Valid(l, s)
    requires |s| >= 2 && s[|s| - 1] == key
    ensures Unlink(l, key).raised == None
    ensures Valid(Unlink(l, key).state, Without(s, key))
  {
    var n := |s|;
    var w := Without(s, key);
    WithoutIndex(s, key);
    assert IndexOf(s, key) == n - 1;
    assert l.head != Some(key);
    assert Linked(l.nodes, s, n - 1);
    assert Linked(l.nodes, s, n - 2);
    var m := SetNext(l.nodes, s[n - 2], None) - {key};
    assert Unlink(l, key) == Step(Links(m, l.head, Some(s[n - 2])), None);
    forall j | 0 <= j < |w|
      ensures Linked(m, w, j)
    {
      assert w[j] == s[j];
      assert Linked(l.nodes, s, j);
    }
    assert m.Keys == Elems(w);
  }

  lemma {:induction false} UnlinkMiddle<K>(l: Links<K>, s: seq<K>, key: K)
    requires Valid(l, s)
    requires key in s && 0 < IndexOf(s, key) < |s| - 1
    ensures Unlink(l, key).raised == None
    ensures Valid(Unlink(l, key).state, Without(s, key))
  {
    var i := IndexOf(s, key);
    assert s[0] != key && s[|s| - 1] != key;
    assert Linked(l.nodes, s, i);
    assert Linked(l.nodes, s, i - 1);
    assert Linked(l.nodes, s, i + 1);
    var m1 := SetPrev(l.nodes, s[i + 1], Some(s[i - 1]));
    var m := SetNext(m1, s[i - 1], Some(s[i + 1])) - {key};
    assert Unlink(l, key) == Step(l.(nodes := m), None);
    SplicedOut(l, s, i, m);
  }

  /** The node map after a middle key's neighbours have been linked to each other. */
  lemma {:induction false} SplicedOut<K>(l: Links<K>, s: seq<K>, i: nat, m: map<K, Node<K>>)
    requires Valid(l, s)
    requires 0 < i < |s| - 1
    requires m == SetNext(SetPrev(l.nodes, s[i + 1], Some(s[i - 1])), s[i - 1], Some(s[i + 1])) - {s[i]}
    ensures Valid(l.(nodes := m), Without(s, s[i]))
  {
    var key := s[i];
    assert IndexOf(s, key) == i;
    var w := Without(s, key);
    WithoutIndex(s, key);
    forall j | 0 <= j < |w|
      ensures Linked(m, w, j)
    {
      SplicedOutLink(l, s, i, m, j);
    }
    assert m.Keys == Elems(w);
  }

  /** One node of the spliced map names its neighbours in the shortened order. */
  lemma {:induction false} SplicedOutLink<K>(l: Links<K>, s: seq<K>, i: nat, m: map<K, Node<K>>, j: nat)
    requires Valid(l, s)
    requires 0 < i < |s| - 1 && j < |s| - 1
    requires m == SetNext(SetPrev(l.nodes, s[i + 1], Some(s[i - 1])), s[i - 1], Some(s[i + 1])) - {s[i]}
    ensures Linked(m, Without(s, s[i]), j)
  {
    var key := s[i];
    assert IndexOf(s, key) == i;
    var w := Without(s, key);
    WithoutIndex(s, key);
    if j < i - 1 {
      assert w[j] == s[j] && w[j + 1] == s[j + 1];
      assert Linked(l.nodes, s, j);
    } else if j == i - 1 {
      assert w[j] == s[j] && w[j + 1] == s[i + 1];
      assert Linked(l.nodes, s, j);
    } else if j == i {
      assert w[j] == s[i + 1] && w[j - 1] == s[i - 1];
      assert Linked(l.nodes, s, i + 1);
    } else {
      assert w[j] == s[j + 1] && w[j - 1] == s[j];
      assert Linked(l.nodes, s, j + 1);
    }
  }

  /** Removing the only key empties the node map but leaves head and tail naming the removed
      key: the defect of part.py:384-389. */
  lemma {:induction false} RemoveSoleLeavesStale<K>(l: Links<K>, key: K)
    requires Valid(l, [key])
    ensures Remove(l, key) == Step(Links(map[], Some(key), Some(key)), None)
  {
    assert l.nodes.Keys == {key};
    assert l.nodes - {key} == map[];
  }

  /** A key that is not in the list raises `KeyError` and changes nothing. */
  lemma {:induction false} RemoveAbsent<K>(l: Links<K>, s: seq<K>, key: K)
    requires Valid(l, s)
    requires key !in s
    ensures Remove(l, key) == Step(l, Some(KeyError))
  {
  }

  // ---------------------------------------------------------------------------
  // Insertion next to an anchor
  // ---------------------------------------------------------------------------

  /** The node map after a new key has been linked in between positions `p - 1` and `p`. */
  lemma {:induction false} SplicedIn<K>(l: Links<K>, s: seq<K>, p: nat, key: K, m: map<K, Node<K>>)
    requires Valid(l, s)
    requires 0 < p < |s| && key !in s
    requires m == SetPrev(SetNext(l.nodes, s[p - 1], Some(key)), s[p], Some(key))[key := Node(Some(s[p - 1]), Some(s[p]))]
    ensures Valid(l.(nodes := m), InsertAt(s, p, key))
  {
    var w := InsertAt(s, p, key);
    InsertAtIndex(s, p, key);
    forall j | 0 <= j < |w|
      ensures Linked(m, w, j)
    {
      if j < p - 1 {
        assert w[j] == s[j] && w[j + 1] == s[j + 1];
        assert Linked(l.nodes, s, j);
      } else if j == p - 1 {
        assert w[j] == s[j] && w[j + 1] == key;
        assert Linked(l.nodes, s, j);
      } else if j == p {
        assert w[j] == key;
      } else if j == p + 1 {
        assert w[j] == s[p] && w[j - 1] == key;
        assert Linked(l.nodes, s, p);
      } else {
        assert w[j] == s[j - 1] && w[j - 1] == s[j - 2];
        assert Linked(l.nodes, s, j - 1);
      }
    }
    assert m.Keys == Elems(w);
    assert Distinct(w);
  }

  /** The body of `_list_insert_after` puts the key immediately after the anchor; at the
      tail this is `_list_insert_tail`. */
  lemma {:induction false} SpliceAfterValid<K>(l: Links<K>, s: seq<K>, key: K, anchor: K)
    requires Valid(l, s)
    requires anchor in s && key !in s
    ensures anchor in l.nodes
    ensures SpliceAfter(l, key, anchor).raised == None
    ensures Valid(SpliceAfter(l, key, anchor).state, InsertAt(s, IndexOf(s, anchor) + 1, key))
  {
    var a := IndexOf(s, anchor);
    assert Linked(l.nodes, s, a);
    if a == |s| - 1 {
      assert InsertAt(s, a + 1, key) == s + [key];
      InsertTailValid(l, s, key);
    } else {
      assert l.tail != Some(anchor);
      assert Linked(l.nodes, s, a + 1);
      var m := SetPrev(SetNext(l.nodes, s[a], Some(key)), s[a + 1], Some(key))[key := Node(Some(s[a]), Some(s[a + 1]))];
      assert SpliceAfter(l, key, anchor) == Step(l.(nodes := m), None);
      SplicedIn(l, s, a + 1, key, m);
    }
  }

  /** With two or more keys, `_list_insert_after` puts the key immediately after the anchor. */
  lemma {:induction false} InsertAfterValid<K>(l: Links<K>, s: seq<K>, key: K, anchor: K)
    requires Valid(l, s)
    requires anchor in s && key !in s && |s| >= 2
    ensures InsertAfter(l, key, anchor).raised == None
    ensures Valid(InsertAfter(l, key, anchor).state, InsertAt(s, IndexOf(s, anchor) + 1, key))
  {
    ValidCard(l, s);
    SpliceAfterValid(l, s, key, anchor);
  }

  /** The body of `_list_insert_before` puts the key immediately before the anchor; at the
      head this is `_list_insert_head`. */
  lemma {:induction false} SpliceBeforeValid<K>(l: Links<K>, s: seq<K>, key: K, anchor: K)
    requires Valid(l, s)
    requires anchor in s && key !in s
    ensures anchor in l.nodes
    ensures SpliceBefore(l, key, anchor).raised == None
    ensures Valid(SpliceBefore(l, key, anchor).state, InsertAt(s, IndexOf(s, anchor), key))
  {
    var a := IndexOf(s, anchor);
    assert Linked(l.nodes, s, a);
    if a == 0 {
      assert InsertAt(s, 0, key) == [key] + s;
      InsertHeadValid(l, s, key);
    } else {
      assert l.head != Some(anchor);
      assert Linked(l.nodes, s, a - 1);
      var m := SetPrev(SetNext(l.nodes, s[a - 1], Some(key)), s[a], Some(key))[key := Node(Some(s[a - 1]), Some(s[a]))];
      assert SpliceBefore(l, key, anchor) == Step(l.(nodes := m), None);
      SplicedIn(l, s, a, key, m);
    }
  }

  /** With two or more keys, `_list_insert_before` puts the key immediately before the anchor. */
  lemma {:induction false} InsertBeforeValid<K>(l: Links<K>, s: seq<K>, key: K, anchor: K)
    requires Valid(l, s)
    requires anchor in s && key !in s && |s| >= 2
    ensures InsertBefore(l, key, anchor).raised == None
    ensures Valid(InsertBefore(l, key, anchor).state, InsertAt(s, IndexOf(s, anchor), key))
  {
    ValidCard(l, s);
    SpliceBeforeValid(l, s, key, anchor);
  }

  /** With exactly one key, `_list_insert_after` and `_list_insert_before` return without
      inserting anything (the `len(self.__map)>1` guards at part.py:435 and 472). */
  lemma {:induction false} InsertNextToSoleIsNoOp<K>(l: Links<K>, anchor: K, key: K)
    requires Valid(l, [anchor])
    ensures InsertAfter(l, key, anchor) == Step(l, None)
    ensures InsertBefore(l, key, anchor) == Step(l, None)
  {
    ValidCard(l, [anchor]);
  }

  /** An absent anchor raises `KeyError` before anything changes. */
  lemma {:induction false} InsertNextToAbsent<K>(l: Links<K>, s: seq<K>, key: K, anchor: K)
    requires Valid(l, s)
    requires anchor !in s
    ensures InsertAfter(l, key, anchor) == Step(l, Some(KeyError))
    ensures InsertBefore(l, key, anchor) == Step(l, Some(KeyError))
  {
  }

  // ---------------------------------------------------------------------------
  // Moves
  // ---------------------------------------------------------------------------

  lemma {:induction false} WithoutDrops<K>(s: seq<K>, k: K)
    requires Distinct(s) && k in s
    ensures k !in Without(s, k)
  {
    WithoutIndex(s, k);
    var i := IndexOf(s, k);
    forall j | 0 <= j < |Without(s, k)|
      ensures Without(s, k)[j] != k
    {
      if j < i { assert s[j] != s[i]; } else { assert s[j + 1] != s[i]; }
    }
  }

  /** `movetoback`'s helper `_list_movetohead` puts the key first and keeps the others in order;
      a key already at the head, or the only key, stays put. */
  lemma {:induction false} MoveToHeadValid<K>(l: Links<K>, s: seq<K>, key: K)
    requires Valid(l, s)
    requires key in s
    ensures MoveToHead(l, key).raised == None
    ensures Valid(MoveToHead(l, key).state, [key] + Without(s, key))
  {
    ValidCard(l, s);
    if |s| == 1 || s[0] == key {
      assert IndexOf(s, key) == 0;
      assert [key] + Without(s, key) == s;
    } else {
      MoveToHeadMoves(l, s, key);
    }
  }

  lemma {:induction false} MoveToHeadMoves<K>(l: Links<K>, s: seq<K>, key: K)
    requires Valid(l, s) && key in s && |s| >= 2 && s[0] != key
    ensures MoveToHead(l, key).raised == None
    ensures Valid(MoveToHead(l, key).state, [key] + Without(s, key))
  {
    ValidCard(l, s);
    RemoveValid(l, s, key);
    var r := Remove(l, key);
    assert MoveToHead(l, key) == InsertHead(r.state, key);
    WithoutDrops(s, key);
    InsertHeadValid(r.state, Without(s, key), key);
  }

  /** `movetofront`'s helper `_list_movetotail` puts the key last and keeps the others in order;
      a key already at the tail, or the only key, stays put. */
  lemma {:induction false} MoveToTailValid<K>(l: Links<K>, s: seq<K>, key: K)
    requires Valid(l, s)
    requires key in s
    ensures MoveToTail(l, key).raised == None
    ensures Valid(MoveToTail(l, key).state, Without(s, key) + [key])
  {
    ValidCard(l, s);
    if |s| == 1 || s[|s| - 1] == key {
      assert IndexOf(s, key) == |s| - 1;
      assert Without(s, key) + [key] == s;
    } else {
      MoveToTailMoves(l, s, key);
    }
  }

  lemma {:induction false} MoveToTailMoves<K>(l: Links<K>, s: seq<K>, key: K)
    requires Valid(l, s) && key in s && |s| >= 2 && s[|s| - 1] != key
    ensures MoveToTail(l, key).raised == None
    ensures Valid(MoveToTail(l, key).state, Without(s, key) + [key])
  {
    ValidCard(l, s);
    RemoveValid(l, s, key);
    var r := Remove(l, key);
    assert MoveToTail(l, key) == InsertTail(r.state, key);
    WithoutDrops(s, key);
    InsertTailValid(r.state, Without(s, key), key);
  }

  /** A second `_list_movetotail` of the same key finds it at the tail and does nothing. */
  lemma {:induction false} MoveToTailIdempotent<K>(l: Links<K>, s: seq<K>, key: K)
    requires Valid(l, s)
    requires key in s
    ensures MoveToTail(MoveToTail(l, key).state, key) == Step(MoveToTail(l, key).state, None)
  {
    MoveToTailValid(l, s, key);
    assert Last(Without(s, key) + [key]) == Some(key);
  }

  /** A second `_list_movetohead` of the same key finds it at the head and does nothing. */
  lemma {:induction false} MoveToHeadIdempotent<K>(l: Links<K>, s: seq<K>, key: K)
    requires Valid(l, s)
    requires key in s
    ensures MoveToHead(MoveToHead(l, key).state, key) == Step(MoveToHead(l, key).state, None)
  {
    MoveToHeadValid(l, s, key);
    assert First([key] + Without(s, key)) == Some(key);
  }

  /** Splicing a key out removes exactly that key from the set of keys. */
  lemma {:induction false} ElemsWithout<K>(s: seq<K>, k: K)
    requires Distinct(s) && k in s
    ensures Elems(Without(s, k)) == Elems(s) - {k}
  {
    var i := IndexOf(s, k);
    var a, b := s[..i], s[i + 1..];
    WithoutDrops(s, k);
    assert Without(s, k) == a + b;
    assert s == (a + [k]) + b;
    ElemsConcat(a + [k], b);
    ElemsConcat(a, [k]);
    ElemsConcat(a, b);
    assert Elems([k]) == {k};
    assert k !in Elems(a) && k !in Elems(b);
  }

  /** Moving a key that is not in the list raises `KeyError` and changes nothing. */
  lemma {:induction false} MoveAbsent<K>(l: Links<K>, s: seq<K>, key: K)
    requires Valid(l, s)
    requires key !in s
    ensures MoveToHead(l, key) == Step(l, Some(KeyError))
    ensures MoveToTail(l, key) == Step(l, Some(KeyError))
    ensures MoveTowardsHead(l, key) == Step(l, Some(KeyError))
    ensures MoveTowardsTail(l, key) == Step(l, Some(KeyError))
  {
  }

  /** A key one step from the tail, re-inserted after its old neighbour, lands one step later. */
  lemma {:induction false} SwapAfter<K>(s: seq<K>, i: nat)
    requires Distinct(s) && i + 1 < |s|
    ensures |Without(s, s[i])| == |s| - 1
    ensures s[i + 1] in Without(s, s[i])
    ensures s[i] !in Without(s, s[i])
    ensures InsertAt(Without(s, s[i]), IndexOf(Without(s, s[i]), s[i + 1]) + 1, s[i]) == SwapWithNext(s, i)
  {
    SwapAfterPositions(s, i);
    WithoutDrops(s, s[i]);
  }

  lemma {:induction false} SwapAfterPositions<K>(s: seq<K>, i: nat)
    requires Distinct(s) && i + 1 < |s|
    ensures |Without(s, s[i])| == |s| - 1
    ensures s[i + 1] in Without(s, s[i])
    ensures IndexOf(Without(s, s[i]), s[i + 1]) == i
    ensures InsertAt(Without(s, s[i]), i + 1, s[i]) == SwapWithNext(s, i)
  {
    var w := Without(s, s[i]);
    assert IndexOf(s, s[i]) == i;
    WithoutIndex(s, s[i]);
    assert w[i] == s[i + 1];
    assert forall j :: 0 <= j < i ==> w[j] == s[j] && s[j] != s[i + 1];
    InsertAtIndex(w, i + 1, s[i]);
  }

  /** A key re-inserted before its old head-ward neighbour lands one step earlier. */
  lemma {:induction false} SwapBefore<K>(s: seq<K>, i: nat)
    requires Distinct(s) && 0 < i < |s|
    ensures |Without(s, s[i])| == |s| - 1
    ensures s[i - 1] in Without(s, s[i])
    ensures s[i] !in Without(s, s[i])
    ensures InsertAt(Without(s, s[i]), IndexOf(Without(s, s[i]), s[i - 1]), s[i]) == SwapWithNext(s, i - 1)
  {
    SwapBeforePositions(s, i);
    WithoutDrops(s, s[i]);
  }

  lemma {:induction false} SwapBeforePositions<K>(s: seq<K>, i: nat)
    requires Distinct(s) && 0 < i < |s|
    ensures |Without(s, s[i])| == |s| - 1
    ensures s[i - 1] in Without(s, s[i])
    ensures IndexOf(Without(s, s[i]), s[i - 1]) == i - 1
    ensures InsertAt(Without(s, s[i]), i - 1, s[i]) == SwapWithNext(s, i - 1)
  {
    var w := Without(s, s[i]);
    assert IndexOf(s, s[i]) == i;
    WithoutIndex(s, s[i]);
    assert w[i - 1] == s[i - 1];
    assert forall j :: 0 <= j < i - 1 ==> w[j] == s[j] && s[j] != s[i - 1];
    InsertAtIndex(w, i - 1, s[i]);
  }

  /** With three or more keys, `_list_movetowardstail` exchanges the key with its tail-ward
      neighbour; at the tail it does nothing. */
  lemma {:induction false} MoveTowardsTailValid<K>(l: Links<K>, s: seq<K>, key: K)
    requires Valid(l, s)
    requires key in s && (|s| >= 3 || s[|s| - 1] == key)
    ensures MoveTowardsTail(l, key).raised == None
    ensures Valid(MoveTowardsTail(l, key).state,
                  if IndexOf(s, key) == |s| - 1 then s else SwapWithNext(s, IndexOf(s, key)))
  {
    var i := IndexOf(s, key);
    if i < |s| - 1 {
      MoveTowardsTailStep(l, s, i);
    } else {
      AtTail(l, s);
    }
  }

  /** A step toward the tail leaves the last key, and a step toward the head the first key,
      where it is. */
  lemma {:induction false} AtTail<K>(l: Links<K>, s: seq<K>)
    requires Valid(l, s) && |s| > 0
    ensures MoveTowardsTail(l, s[|s| - 1]) == Step(l, None)
    ensures MoveTowardsTailFixed(l, s[|s| - 1]) == Step(l, None)
  {
    assert l.tail == Some(s[|s| - 1]);
  }

  lemma {:induction false} AtHead<K>(l: Links<K>, s: seq<K>)
    requires Valid(l, s) && |s| > 0
    ensures MoveTowardsHead(l, s[0]) == Step(l, None)
    ensures MoveTowardsHeadFixed(l, s[0]) == Step(l, None)
  {
    assert l.head == Some(s[0]);
  }

  /** The step is a removal followed by a re-insertion next to the old neighbour. */
  lemma {:induction false} MoveTowardsTailAsReinsertion<K>(l: Links<K>, s: seq<K>, i: nat)
    requires Valid(l, s) && i + 1 < |s|
    ensures MoveTowardsTail(l, s[i]) == InsertAfter(Remove(l, s[i]).state, s[i], s[i + 1])
  {
    ValidCard(l, s);
    assert Linked(l.nodes, s, i);
    assert l.nodes[s[i]].next == Some(s[i + 1]);
    assert l.tail != Some(s[i]);
  }

  lemma {:induction false} MoveTowardsTailStep<K>(l: Links<K>, s: seq<K>, i: nat)
    requires Valid(l, s) && i + 1 < |s| && |s| >= 3
    ensures MoveTowardsTail(l, s[i]).raised == None
    ensures Valid(MoveTowardsTail(l, s[i]).state, SwapWithNext(s, i))
  {
    MoveTowardsTailAsReinsertion(l, s, i);
    RemoveValid(l, s, s[i]);
    MoveTowardsTailReinsert(Remove(l, s[i]).state, s, i);
  }

  /** Re-inserting the removed key next to its old neighbour exchanges the two. */
  lemma {:induction false} MoveTowardsTailReinsert<K>(l: Links<K>, s: seq<K>, i: nat)
    requires Distinct(s) && i + 1 < |s| && |s| >= 3 && Valid(l, Without(s, s[i]))
    ensures InsertAfter(l, s[i], s[i + 1]).raised == None
    ensures Valid(InsertAfter(l, s[i], s[i + 1]).state, SwapWithNext(s, i))
  {
    SwapAfter(s, i);
    InsertAfterValid(l, Without(s, s[i]), s[i], s[i + 1]);
  }

  /** With three or more keys, `_list_movetowardshead` exchanges the key with its head-ward
      neighbour; at the head it does nothing. */
  lemma {:induction false} MoveTowardsHeadValid<K>(l: Links<K>, s: seq<K>, key: K)
    requires Valid(l, s)
    requires key in s && (|s| >= 3 || s[0] == key)
    ensures MoveTowardsHead(l, key).raised == None
    ensures Valid(MoveTowardsHead(l, key).state,
                  if IndexOf(s, key) == 0 then s else SwapWithNext(s, IndexOf(s, key) - 1))
  {
    var i := IndexOf(s, key);
    if i > 0 {
      MoveTowardsHeadStep(l, s, i);
    } else {
      AtHead(l, s);
    }
  }

  /** The step is a removal followed by a re-insertion next to the old neighbour. */
  lemma {:induction false} MoveTowardsHeadAsReinsertion<K>(l: Links<K>, s: seq<K>, i: nat)
    requires Valid(l, s) && 0 < i < |s|
    ensures MoveTowardsHead(l, s[i]) == InsertBefore(Remove(l, s[i]).state, s[i], s[i - 1])
  {
    ValidCard(l, s);
    assert Linked(l.nodes, s, i);
    assert l.nodes[s[i]].prev == Some(s[i - 1]);
    assert l.head != Some(s[i]);
  }

  lemma {:induction false} MoveTowardsHeadStep<K>(l: Links<K>, s: seq<K>, i: nat)
    requires Valid(l, s) && 0 < i < |s| && |s| >= 3
    ensures MoveTowardsHead(l, s[i]).raised == None
    ensures Valid(MoveTowardsHead(l, s[i]).state, SwapWithNext(s, i - 1))
  {
    MoveTowardsHeadAsReinsertion(l, s, i);
    RemoveValid(l, s, s[i]);
    MoveTowardsHeadReinsert(Remove(l, s[i]).state, s, i);
  }

  /** Re-inserting the removed key next to its old neighbour exchanges the two. */
  lemma {:induction false} MoveTowardsHeadReinsert<K>(l: Links<K>, s: seq<K>, i: nat)
    requires Distinct(s) && 0 < i < |s| && |s| >= 3 && Valid(l, Without(s, s[i]))
    ensures InsertBefore(l, s[i], s[i - 1]).raised == None
    ensures Valid(InsertBefore(l, s[i], s[i - 1]).state, SwapWithNext(s, i - 1))
  {
    SwapBefore(s, i);
    InsertBeforeValid(l, Without(s, s[i]), s[i], s[i - 1]);
  }

  /** With exactly two keys, moving the head one step toward the tail drops it from the list:
      the removal leaves one node and the insertion after it is skipped (part.py:553-558, 435). */
  lemma {:induction false} MoveTowardsTailOfTwoDropsKey<K>(l: Links<K>, a: K, b: K)
    requires Valid(l, [a, b])
    ensures MoveTowardsTail(l, a).raised == None
    ensures Valid(MoveTowardsTail(l, a).state, [b])
  {
    ValidCard(l, [a, b]);
    assert Linked(l.nodes, [a, b], 0);
    RemoveValid(l, [a, b], a);
    assert Without([a, b], a) == [b];
    InsertNextToSoleIsNoOp(Remove(l, a).state, b, a);
  }

  /** With exactly two keys, moving the tail one step toward the head drops it from the list
      (part.py:579-584, 472). */
  lemma {:induction false} MoveTowardsHeadOfTwoDropsKey<K>(l: Links<K>, a: K, b: K)
    requires Valid(l, [a, b])
    ensures MoveTowardsHead(l, b).raised == None
    ensures Valid(MoveTowardsHead(l, b).state, [a])
  {
    ValidCard(l, [a, b]);
    assert Linked(l.nodes, [a, b], 1);
    assert IndexOf([a, b], b) == 1;
    RemoveValid(l, [a, b], b);
    assert Without([a, b], b) == [a];
    InsertNextToSoleIsNoOp(Remove(l, b).state, a, b);
  }

  // ---------------------------------------------------------------------------
  // Iteration
  // ---------------------------------------------------------------------------

  function At<K>(s: seq<K>, i: nat): Option<K>
  {
    if i < |s| then Some(s[i]) else None
  }

  lemma {:induction false} WalkForward<K>(l: Links<K>, s: seq<K>, i: nat)
    requires Valid(l, s) && i <= |s|
    ensures WalkFrom(l.nodes, At(s, i), true, Elems(s[..i])) == Complete(s[i..])
    decreases |s| - i
  {
    if i < |s| {
      assert Linked(l.nodes, s, i);
      assert s[i] !in Elems(s[..i]);
      assert s[..i + 1] == s[..i] + [s[i]];
      assert Elems(s[..i]) + {s[i]} == Elems(s[..i + 1]);
      assert Succ(l.nodes[s[i]], true) == At(s, i + 1);
      WalkForward(l, s, i + 1);
      assert s[i..] == [s[i]] + s[i + 1..];
    }
  }

  lemma {:induction false} WalkBackward<K>(l: Links<K>, s: seq<K>, c: nat)
    requires Valid(l, s) && c <= |s|
    ensures WalkFrom(l.nodes, if c > 0 then Some(s[c - 1]) else None, false, Elems(s[c..]))
         == Complete(Reverse(s[..c]))
  {
    if c > 0 {
      assert Linked(l.nodes, s, c - 1);
      assert s[c - 1] !in Elems(s[c..]);
      assert s[c - 1..] == [s[c - 1]] + s[c..];
      assert Elems(s[c..]) + {s[c - 1]} == Elems(s[c - 1..]);
      WalkBackward(l, s, c - 1);
      assert [s[c - 1]] + Reverse(s[..c - 1]) == Reverse(s[..c]);
    }
  }

  /** `__iter__` yields the keys head first and `__reversed__` yields exactly the reverse,
      each key once. */
  lemma {:induction false} IterationOrder<K>(l: Links<K>, s: seq<K>)
    requires Valid(l, s)
    ensures Forward(l) == Complete(s)
    ensures Backward(l) == Complete(Reverse(s))
    ensures Distinct(s)
  {
    IterationForward(l, s);
    IterationBackward(l, s);
  }

  lemma {:induction false} IterationForward<K>(l: Links<K>, s: seq<K>)
    requires Valid(l, s)
    ensures Forward(l) == Complete(s)
  {
    WalkForward(l, s, 0);
    assert l.head == At(s, 0);
    assert s[..0] == [] && s[0..] == s;
    assert Elems(s[..0]) == {};
  }

  lemma {:induction false} IterationBackward<K>(l: Links<K>, s: seq<K>)
    requires Valid(l, s)
    ensures Backward(l) == Complete(Reverse(s))
  {
    WalkBackward(l, s, |s|);
    assert l.tail == if |s| > 0 then Some(s[|s| - 1]) else None;
    assert s[|s|..] == [] && s[..|s|] == s;
    assert Elems(s[|s|..]) == {};
  }

  /** After the only key has been removed, iteration yields that key and then raises
      `KeyError`, and any further insertion raises `KeyError` without changing anything. */
  lemma {:induction false} StaleAfterSoleRemoval<K>(k: K, key: K)
    ensures Forward(Links(map[], Some(k), Some(k))) == KeyErrorAfter([k])
    ensures Backward(Links(map[], Some(k), Some(k))) == KeyErrorAfter([k])
    ensures InsertTail(Links(map[], Some(k), Some(k)), key) == Step(Links(map[], Some(k), Some(k)), Some(KeyError))
    ensures InsertHead(Links(map[], Some(k), Some(k)), key) == Step(Links(map[], Some(k), Some(k)), Some(KeyError))
  {
  }

  // ---------------------------------------------------------------------------
  // Insertion order
  // ---------------------------------------------------------------------------

  /** `_list_insert_tail` applied to each key in turn. */
  function TailInserts<K>(l: Links<K>, ks: seq<K>): Step<Links<K>>
    decreases |ks|
  {
    if |ks| == 0 then Step(l, None)
    else
      var r := InsertTail(l, ks[0]);
      if r.raised.Some? then r else TailInserts(r.state, ks[1..])
  }

  /** `_list_insert_head` applied to each key in turn. */
  function HeadInserts<K>(l: Links<K>, ks: seq<K>): Step<Links<K>>
    decreases |ks|
  {
    if |ks| == 0 then Step(l, None)
    else
      var r := InsertHead(l, ks[0]);
      if r.raised.Some? then r else HeadInserts(r.state, ks[1..])
  }

  lemma {:induction false} TailInsertsValid<K>(l: Links<K>, s: seq<K>, ks: seq<K>)
    requires Valid(l, s) && Distinct(s + ks)
    ensures TailInserts(l, ks).raised == None
    ensures Valid(TailInserts(l, ks).state, s + ks)
    decreases |ks|
  {
    if |ks| == 0 {
      assert s + ks == s;
    } else {
      forall j | 0 <= j < |s|
        ensures s[j] != ks[0]
      {
        assert (s + ks)[j] == s[j] && (s + ks)[|s|] == ks[0];
      }
      InsertTailValid(l, s, ks[0]);
      assert (s + [ks[0]]) + ks[1..] == s + ks;
      TailInsertsValid(InsertTail(l, ks[0]).state, s + [ks[0]], ks[1..]);
    }
  }

  lemma {:induction false} HeadInsertsValid<K>(l: Links<K>, s: seq<K>, ks: seq<K>)
    requires Valid(l, s) && Distinct(Reverse(ks) + s)
    ensures HeadInserts(l, ks).raised == None
    ensures Valid(HeadInserts(l, ks).state, Reverse(ks) + s)
    decreases |ks|
  {
    if |ks| == 0 {
      assert Reverse(ks) + s == s;
    } else {
      var n := |ks|;
      forall j | 0 <= j < |s|
        ensures s[j] != ks[0]
      {
        assert (Reverse(ks) + s)[n + j] == s[j] && (Reverse(ks) + s)[n - 1] == ks[0];
      }
      InsertHeadValid(l, s, ks[0]);
      assert Reverse(ks[1..]) + ([ks[0]] + s) == Reverse(ks) + s;
      HeadInsertsValid(InsertHead(l, ks[0]).state, [ks[0]] + s, ks[1..]);
    }
  }

  /** Keys inserted one by one at the tail iterate in insertion order; inserted at the head,
      they iterate in reverse insertion order. */
  lemma {:induction false} InsertionOrder<K>(ks: seq<K>)
    requires Distinct(ks)
    ensures Forward(TailInserts(Empty(), ks).state) == Complete(ks)
    ensures Forward(HeadInserts(Empty(), ks).state) == Complete(Reverse(ks))
  {
    assert Valid(Empty<K>(), []);
    assert [] + ks == ks && Reverse(ks) + [] == Reverse(ks);
    forall i, j | 0 <= i < j < |ks|
      ensures Reverse(ks)[i] != Reverse(ks)[j]
    {
      assert ks[|ks| - 1 - j] != ks[|ks| - 1 - i];
    }
    TailInsertsValid(Empty(), [], ks);
    HeadInsertsValid(Empty(), [], ks);
    IterationOrder(TailInserts(Empty(), ks).state, ks);
    assert Reverse(ks) + [] == Reverse(ks);
    IterationOrder(HeadInserts(Empty(), ks).state, Reverse(ks));
  }

  // ---------------------------------------------------------------------------
  // The corrected helpers keep the list valid in every case
  // ---------------------------------------------------------------------------

  /** Corrected removal splices the key out for every list length, including one. */
  lemma {:induction false} RemoveFixedValid<K>(l: Links<K>, s: seq<K>, key: K)
    requires Valid(l, s)
    requires key in s
    ensures RemoveFixed(l, key).raised == None
    ensures Valid(RemoveFixed(l, key).state, Without(s, key))
  {
    ValidCard(l, s);
    if |s| == 1 {
      assert s == [key];
      assert Without(s, key) == [];
      assert (l.nodes - {key}).Keys == {};
    } else {
      RemoveValid(l, s, key);
    }
  }

  /** Corrected step toward the tail exchanges the key with its neighbour for every list
      length, including two. */
  lemma {:induction false} MoveTowardsTailFixedValid<K>(l: Links<K>, s: seq<K>, key: K)
    requires Valid(l, s)
    requires key in s
    ensures MoveTowardsTailFixed(l, key).raised == None
    ensures Valid(MoveTowardsTailFixed(l, key).state,
                  if IndexOf(s, key) == |s| - 1 then s else SwapWithNext(s, IndexOf(s, key)))
  {
    var i := IndexOf(s, key);
    if i < |s| - 1 {
      MoveTowardsTailFixedStep(l, s, i);
    } else {
      AtTail(l, s);
    }
  }

  /** The step is a removal followed by a re-insertion next to the old neighbour. */
  lemma {:induction false} MoveTowardsTailFixedAsReinsertion<K>(l: Links<K>, s: seq<K>, i: nat)
    requires Valid(l, s) && i + 1 < |s|
    ensures MoveTowardsTailFixed(l, s[i]) == InsertAfterFixed(Remove(l, s[i]).state, s[i], s[i + 1])
  {
    ValidCard(l, s);
    assert Linked(l.nodes, s, i);
    assert l.nodes[s[i]].next == Some(s[i + 1]);
    assert l.tail != Some(s[i]);
  }

  lemma {:induction false} MoveTowardsTailFixedStep<K>(l: Links<K>, s: seq<K>, i: nat)
    requires Valid(l, s) && i + 1 < |s|
    ensures MoveTowardsTailFixed(l, s[i]).raised == None
    ensures Valid(MoveTowardsTailFixed(l, s[i]).state, SwapWithNext(s, i))
  {
    MoveTowardsTailFixedAsReinsertion(l, s, i);
    RemoveValid(l, s, s[i]);
    MoveTowardsTailFixedReinsert(Remove(l, s[i]).state, s, i);
  }

  /** Re-inserting the removed key next to its old neighbour exchanges the two. */
  lemma {:induction false} MoveTowardsTailFixedReinsert<K>(l: Links<K>, s: seq<K>, i: nat)
    requires Distinct(s) && i + 1 < |s| && Valid(l, Without(s, s[i]))
    ensures InsertAfterFixed(l, s[i], s[i + 1]).raised == None
    ensures Valid(InsertAfterFixed(l, s[i], s[i + 1]).state, SwapWithNext(s, i))
  {
    SwapAfter(s, i);
    assert s[i + 1] in l.nodes;
    SpliceAfterValid(l, Without(s, s[i]), s[i], s[i + 1]);
  }

  /** Corrected step toward the head exchanges the key with its neighbour for every list
      length, including two. */
  lemma {:induction false} MoveTowardsHeadFixedValid<K>(l: Links<K>, s: seq<K>, key: K)
    requires Valid(l, s)
    requires key in s
    ensures MoveTowardsHeadFixed(l, key).raised == None
    ensures Valid(MoveTowardsHeadFixed(l, key).state,
                  if IndexOf(s, key) == 0 then s else SwapWithNext(s, IndexOf(s, key) - 1))
  {
    var i := IndexOf(s, key);
    if i > 0 {
      MoveTowardsHeadFixedStep(l, s, i);
    } else {
      AtHead(l, s);
    }
  }

  /** The step is a removal followed by a re-insertion next to the old neighbour. */
  lemma {:induction false} MoveTowardsHeadFixedAsReinsertion<K>(l: Links<K>, s: seq<K>, i: nat)
    requires Valid(l, s) && 0 < i < |s|
    ensures MoveTowardsHeadFixed(l, s[i]) == InsertBeforeFixed(Remove(l, s[i]).state, s[i], s[i - 1])
  {
    ValidCard(l, s);
    assert Linked(l.nodes, s, i);
    assert l.nodes[s[i]].prev == Some(s[i - 1]);
    assert l.head != Some(s[i]);
  }

  lemma {:induction false} MoveTowardsHeadFixedStep<K>(l: Links<K>, s: seq<K>, i: nat)
    requires Valid(l, s) && 0 < i < |s|
    ensures MoveTowardsHeadFixed(l, s[i]).raised == None
    ensures Valid(MoveTowardsHeadFixed(l, s[i]).state, SwapWithNext(s, i - 1))
  {
    MoveTowardsHeadFixedAsReinsertion(l, s, i);
    RemoveValid(l, s, s[i]);
    MoveTowardsHeadFixedReinsert(Remove(l, s[i]).state, s, i);
  }

  /** Re-inserting the removed key next to its old neighbour exchanges the two. */
  lemma {:induction false} MoveTowardsHeadFixedReinsert<K>(l: Links<K>, s: seq<K>, i: nat)
    requires Distinct(s) && 0 < i < |s| && Valid(l, Without(s, s[i]))
    ensures InsertBeforeFixed(l, s[i], s[i - 1]).raised == None
    ensures Valid(InsertBeforeFixed(l, s[i], s[i - 1]).state, SwapWithNext(s, i - 1))
  {
    SwapBefore(s, i);
    assert s[i - 1] in l.nodes;
    SpliceBeforeValid(l, Without(s, s[i]), s[i], s[i - 1]);
  }
}

/** The doubly linked list that keeps the iteration order of a part container
    (source/schediazo/part.py, `_DoublyLinkedListNode` and the `_list_*` helpers of `PartDict`).

    The list is a map from each key to its node (the keys of its neighbours) plus the keys of
    the head and the tail. `Valid(l, s)` says that the links spell out the sequence `s`: every
    operation is then stated as an edit of `s`. The helpers are written step by step after the
    source, including what they do on links that are not `Valid`: a lookup of a key that is not
    in the map raises `KeyError` and keeps the mutations made before it. */
module LinkedList {
  import opened Wrappers

  datatype Node<K> = Node(prev: Option<K>, next: Option<K>)

  datatype Links<K> = Links(nodes: map<K, Node<K>>, head: Option<K>, tail: Option<K>)

  /** What a fresh container holds. */
  function Empty<K(==)>(): Links<K>
  {
    Links(map[], None, None)
  }

  // ---------------------------------------------------------------------------
  // Abstraction: the sequence of keys the links describe
  // ---------------------------------------------------------------------------

  function First<K(==)>(s: seq<K>): Option<K>
  {
    if |s| == 0 then None else Some(s[0])
  }

  function Last<K(==)>(s: seq<K>): Option<K>
  {
    if |s| == 0 then None else Some(s[|s| - 1])
  }

  /** The neighbour of `s[i]` toward the head. */
  function PrevIn<K(==)>(s: seq<K>, i: int): Option<K>
    requires 0 <= i < |s|
  {
    if i == 0 then None else Some(s[i - 1])
  }

  /** The neighbour of `s[i]` toward the tail. */
  function NextIn<K(==)>(s: seq<K>, i: int): Option<K>
    requires 0 <= i < |s|
  {
    if i == |s| - 1 then None else Some(s[i + 1])
  }

  /** The links describe exactly the sequence `s`, head first. */
  predicate Valid<K(==)>(l: Links<K>, s: seq<K>)
  {
    && Distinct(s)
    && l.nodes.Keys == Elems(s)
    && l.head == First(s)
    && l.tail == Last(s)
    && forall i :: 0 <= i < |s| ==> Linked(l.nodes, s, i)
  }

  /** The node of `s[i]` is present and names its two neighbours in `s`. */
  predicate Linked<K(==)>(m: map<K, Node<K>>, s: seq<K>, i: int)
    requires 0 <= i < |s|
  {
    s[i] in m && m[s[i]] == Node(PrevIn(s, i), NextIn(s, i))
  }

  /** The position of a key in a sequence (its first occurrence). */
  function IndexOf<K(==)>(s: seq<K>, k: K): (i: nat)
    requires k in s
    ensures i < |s| && s[i] == k
    ensures forall j :: 0 <= j < i ==> s[j] != k
  {
    if s[0] == k then 0 else 1 + IndexOf(s[1..], k)
  }

  /** `s` with key `k` spliced out. */
  function Without<K(==)>(s: seq<K>, k: K): seq<K>
  {
    if k in s then s[..IndexOf(s, k)] + s[IndexOf(s, k) + 1..] else s
  }

  /** `s` with `k` placed at position `p`. */
  function InsertAt<K(==)>(s: seq<K>, p: nat, k: K): seq<K>
    requires p <= |s|
  {
    s[..p] + [k] + s[p..]
  }

  /** `s` with the key at position `i` and its tail-ward neighbour exchanged. */
  function SwapWithNext<K(==)>(s: seq<K>, i: nat): seq<K>
    requires i + 1 < |s|
  {
    s[..i] + [s[i + 1], s[i]] + s[i + 2..]
  }

  // ---------------------------------------------------------------------------
  // Map surgery
  // ---------------------------------------------------------------------------

  function SetNext<K(==)>(m: map<K, Node<K>>, k: K, v: Option<K>): map<K, Node<K>>
    requires k in m
  {
    m[k := m[k].(next := v)]
  }

  function SetPrev<K(==)>(m: map<K, Node<K>>, k: K, v: Option<K>): map<K, Node<K>>
    requires k in m
  {
    m[k := m[k].(prev := v)]
  }

  /** True when looking `k` up in the node map would raise `KeyError`
      (Python's `None` is never a key). */
  predicate Missing<K(==)>(m: map<K, Node<K>>, k: Option<K>)
  {
    k.None? || k.value !in m
  }

  // ---------------------------------------------------------------------------
  // The `_list_*` helpers, as written
  // ---------------------------------------------------------------------------

  /** `_list_insert_tail` (part.py:309-336). The key is not checked against the map. */
  function InsertTail<K(==)>(l: Links<K>, key: K): Step<Links<K>>
  {
    if l.head.None? && l.tail.None? then
      Step(Links(l.nodes[key := Node(None, None)], Some(key), Some(key)), None)
    else if Missing(l.nodes, l.tail) then
      Step(l, Some(KeyError))
    else
      var t := l.tail.value;
      Step(Links(SetNext(l.nodes, t, Some(key))[key := Node(Some(t), None)], l.head, Some(key)), None)
  }

  /** `_list_insert_head` (part.py:338-365). */
  function InsertHead<K(==)>(l: Links<K>, key: K): Step<Links<K>>
  {
    if l.head.None? && l.tail.None? then
      Step(Links(l.nodes[key := Node(None, None)], Some(key), Some(key)), None)
    else if Missing(l.nodes, l.head) then
      Step(l, Some(KeyError))
    else
      var h := l.head.value;
      Step(Links(SetPrev(l.nodes, h, Some(key))[key := Node(None, Some(h))], Some(key), l.tail), None)
  }

  /** The multi-node branch of `_list_remove` (part.py:391-414). */
  function Unlink<K(==)>(l: Links<K>, key: K): Step<Links<K>>
    requires key in l.nodes
  {
    if l.head == Some(key) then
      var h := l.nodes[key].next;
      var l1 := l.(head := h);
      if Missing(l1.nodes, h) then Step(l1, Some(KeyError))
      else Step(l1.(nodes := SetPrev(l1.nodes, h.value, None) - {key}), None)
    else if l.tail == Some(key) then
      var t := l.nodes[key].prev;
      var l1 := l.(tail := t);
      if Missing(l1.nodes, t) then Step(l1, Some(KeyError))
      else Step(l1.(nodes := SetNext(l1.nodes, t.value, None) - {key}), None)
    else
      var before := l.nodes[key].prev;
      var after := l.nodes[key].next;
      if Missing(l.nodes, after) then Step(l, Some(KeyError))
      else
        var m1 := SetPrev(l.nodes, after.value, before);
        if Missing(m1, before) then Step(l.(nodes := m1), Some(KeyError))
        else Step(l.(nodes := SetNext(m1, before.value, after) - {key}), None)
  }

  /** `_list_remove` (part.py:367-414). Removing the only node pops it from the map but
      assigns the unused attributes `__back`/`__front`, so head and tail keep naming it. */
  function Remove<K(==)>(l: Links<K>, key: K): Step<Links<K>>
  {
    if key !in l.nodes then Step(l, Some(KeyError))
    else if l.head.None? || l.tail.None? then Step(l, None)
    else if |l.nodes| == 1 then Step(l.(nodes := l.nodes - {key}), None)
    else Unlink(l, key)
  }

  /** The guarded body of `_list_insert_after` (part.py:437-451). */
  function SpliceAfter<K(==)>(l: Links<K>, key: K, anchor: K): Step<Links<K>>
    requires anchor in l.nodes
  {
    if l.tail == Some(anchor) then InsertTail(l, key)
    else
      var tailward := l.nodes[anchor].next;
      var m1 := SetNext(l.nodes, anchor, Some(key));
      if Missing(m1, tailward) then Step(l.(nodes := m1), Some(KeyError))
      else
        var m2 := SetPrev(m1, tailward.value, Some(key));
        Step(l.(nodes := m2[key := Node(Some(anchor), tailward)]), None)
  }

  /** `_list_insert_after` (part.py:416-451): does nothing unless the map holds more than one node. */
  function InsertAfter<K(==)>(l: Links<K>, key: K, anchor: K): Step<Links<K>>
  {
    if anchor !in l.nodes then Step(l, Some(KeyError))
    else if |l.nodes| > 1 then SpliceAfter(l, key, anchor)
    else Step(l, None)
  }

  /** The guarded body of `_list_insert_before` (part.py:474-488). */
  function SpliceBefore<K(==)>(l: Links<K>, key: K, anchor: K): Step<Links<K>>
    requires anchor in l.nodes
  {
    if l.head == Some(anchor) then InsertHead(l, key)
    else
      var headward := l.nodes[anchor].prev;
      if Missing(l.nodes, headward) then Step(l, Some(KeyError))
      else
        var m1 := SetNext(l.nodes, headward.value, Some(key));
        var m2 := SetPrev(m1, anchor, Some(key));
        Step(l.(nodes := m2[key := Node(headward, Some(anchor))]), None)
  }

  /** `_list_insert_before` (part.py:453-488): does nothing unless the map holds more than one node. */
  function InsertBefore<K(==)>(l: Links<K>, key: K, anchor: K): Step<Links<K>>
  {
    if anchor !in l.nodes then Step(l, Some(KeyError))
    else if |l.nodes| > 1 then SpliceBefore(l, key, anchor)
    else Step(l, None)
  }

  /** `_list_movetohead` (part.py:490-510). */
  function MoveToHead<K(==)>(l: Links<K>, key: K): Step<Links<K>>
  {
    if key !in l.nodes then Step(l, Some(KeyError))
    else if |l.nodes| > 1 && l.head != Some(key) then
      var r := Remove(l, key);
      if r.raised.Some? then r else InsertHead(r.state, key)
    else Step(l, None)
  }

  /** `_list_movetotail` (part.py:512-532). */
  function MoveToTail<K(==)>(l: Links<K>, key: K): Step<Links<K>>
  {
    if key !in l.nodes then Step(l, Some(KeyError))
    else if |l.nodes| > 1 && l.tail != Some(key) then
      var r := Remove(l, key);
      if r.raised.Some? then r else InsertTail(r.state, key)
    else Step(l, None)
  }

  /** `_list_movetowardstail` (part.py:534-558): remove the key, then insert it after its old
      tail-ward neighbour. */
  function MoveTowardsTail<K(==)>(l: Links<K>, key: K): Step<Links<K>>
  {
    if key !in l.nodes then Step(l, Some(KeyError))
    else if |l.nodes| > 1 && l.tail != Some(key) then
      var after := l.nodes[key].next;
      var r := Remove(l, key);
      if r.raised.Some? then r
      else if after.None? then Step(r.state, Some(KeyError))
      else InsertAfter(r.state, key, after.value)
    else Step(l, None)
  }

  /** `_list_movetowardshead` (part.py:560-584): remove the key, then insert it before its old
      head-ward neighbour. */
  function MoveTowardsHead<K(==)>(l: Links<K>, key: K): Step<Links<K>>
  {
    if key !in l.nodes then Step(l, Some(KeyError))
    else if |l.nodes| > 1 && l.head != Some(key) then
      var before := l.nodes[key].prev;
      var r := Remove(l, key);
      if r.raised.Some? then r
      else if before.None? then Step(r.state, Some(KeyError))
      else InsertBefore(r.state, key, before.value)
    else Step(l, None)
  }

  // ---------------------------------------------------------------------------
  // Corrected helpers: what the two defective branches evidently intend
  // ---------------------------------------------------------------------------

  /** `_list_remove` with the single-node branch clearing head and tail. */
  function RemoveFixed<K(==)>(l: Links<K>, key: K): Step<Links<K>>
  {
    if key in l.nodes && l.head.Some? && l.tail.Some? && |l.nodes| == 1 then
      Step(Links(l.nodes - {key}, None, None), None)
    else Remove(l, key)
  }

  /** `_list_insert_after` without the `len(self.__map)>1` guard. */
  function InsertAfterFixed<K(==)>(l: Links<K>, key: K, anchor: K): Step<Links<K>>
  {
    if anchor !in l.nodes then Step(l, Some(KeyError)) else SpliceAfter(l, key, anchor)
  }

  /** `_list_insert_before` without the `len(self.__map)>1` guard. */
  function InsertBeforeFixed<K(==)>(l: Links<K>, key: K, anchor: K): Step<Links<K>>
  {
    if anchor !in l.nodes then Step(l, Some(KeyError)) else SpliceBefore(l, key, anchor)
  }

  /** `_list_movetowardstail` re-inserting through the unguarded insertion. */
  function MoveTowardsTailFixed<K(==)>(l: Links<K>, key: K): Step<Links<K>>
  {
    if key !in l.nodes then Step(l, Some(KeyError))
    else if |l.nodes| > 1 && l.tail != Some(key) then
      var after := l.nodes[key].next;
      var r := Remove(l, key);
      if r.raised.Some? then r
      else if after.None? then Step(r.state, Some(KeyError))
      else InsertAfterFixed(r.state, key, after.value)
    else Step(l, None)
  }

  /** `_list_movetowardshead` re-inserting through the unguarded insertion. */
  function MoveTowardsHeadFixed<K(==)>(l: Links<K>, key: K): Step<Links<K>>
  {
    if key !in l.nodes then Step(l, Some(KeyError))
    else if |l.nodes| > 1 && l.head != Some(key) then
      var before := l.nodes[key].prev;
      var r := Remove(l, key);
      if r.raised.Some? then r
      else if before.None? then Step(r.state, Some(KeyError))
      else InsertBeforeFixed(r.state, key, before.value)
    else Step(l, None)
  }

  // ---------------------------------------------------------------------------
  // Iteration (`__iter__` and `__reversed__`)
  // ---------------------------------------------------------------------------

  /** What a complete iteration produces: every key yielded until the walk ends, a key was
      yielded whose node is missing (the next lookup raises `KeyError`), or a key came round
      again (the generator never ends). */
  datatype Walk<K> = Complete(keys: seq<K>) | KeyErrorAfter(keys: seq<K>) | Endless(keys: seq<K>)

  function Prepend<K(==)>(k: K, w: Walk<K>): Walk<K>
  {
    match w
    case Complete(ks) => Complete([k] + ks)
    case KeyErrorAfter(ks) => KeyErrorAfter([k] + ks)
    case Endless(ks) => Endless([k] + ks)
  }

  function Succ<K(==)>(n: Node<K>, forward: bool): Option<K>
  {
    if forward then n.next else n.prev
  }

  /** Follow `next` (or `prev`) links from `cur`; `seen` holds the keys already yielded. */
  function WalkFrom<K(==)>(m: map<K, Node<K>>, cur: Option<K>, forward: bool, seen: set<K>): Walk<K>
    decreases m.Keys - seen
  {
    if cur.None? then Complete([])
    else if cur.value !in m then KeyErrorAfter([cur.value])
    else if cur.value in seen then Endless([])
    else Prepend(cur.value, WalkFrom(m, Succ(m[cur.value], forward), forward, seen + {cur.value}))
  }

  /** `__iter__` (part.py:191-202): from the head along `next`. */
  function Forward<K(==)>(l: Links<K>): Walk<K>
  {
    WalkFrom(l.nodes, l.head, true, {})
  }

  /** `__reversed__` (part.py:204-215): from the tail along `prev`. */
  function Backward<K(==)>(l: Links<K>): Walk<K>
  {
    WalkFrom(l.nodes, l.tail, false, {})
  }
}

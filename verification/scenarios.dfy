/** The call sequences of tests/test_part.py, replayed on the model. A script of calls runs
    until the first call that raises, as a Python test body does. A `Script` value lists each
    call together with the position it acts at and the order it should leave; the soundness
    lemmas show that the calls really leave those orders. */
module Scenarios {
  import opened Wrappers
  import opened LinkedList
  import opened ListOrder
  import opened Part
  import opened PartOrder

  // ---------------------------------------------------------------------------
  // Order edits, stated by position
  // ---------------------------------------------------------------------------

  /** The calls of the linked-list helpers and of the public `PartDict` methods. */
  datatype Call<K, P> =
    | ToHead(key: K) | ToTail(key: K) | After(key: K, anchor: K) | Before(key: K, anchor: K)
    | Drop(key: K) | HeadMost(key: K) | TailMost(key: K) | Headward(key: K) | Tailward(key: K)
    | Assign(key: K, part: P) | Delete(key: K) | Front(key: K) | Back(key: K)
    | Forward1(key: K) | Backward1(key: K)

  /** Call `c`, acting at position `i` of the order `s` (the key it moves or the anchor it
      inserts next to), leaves the order `t`. Only cases covered by the `ListOrder` and
      `PartOrder` lemmas are described. */
  predicate Edits<K(==), P>(c: Call<K, P>, i: nat, s: seq<K>, t: seq<K>)
  {
    match c
    case ToHead(k) => k !in s && t == [k] + s
    case ToTail(k) => k !in s && t == s + [k]
    case Assign(k, _) => k !in s && t == s + [k]
    case After(k, a) => i < |s| && s[i] == a && k !in s && |s| >= 2 && t == s[..i + 1] + [k] + s[i + 1..]
    case Before(k, a) => i < |s| && s[i] == a && k !in s && |s| >= 2 && t == s[..i] + [k] + s[i..]
    case Drop(k) => i < |s| && s[i] == k && |s| >= 2 && t == s[..i] + s[i + 1..]
    case Delete(k) => i < |s| && s[i] == k && |s| >= 2 && t == s[..i] + s[i + 1..]
    case HeadMost(k) => i < |s| && s[i] == k && t == [k] + s[..i] + s[i + 1..]
    case Back(k) => i < |s| && s[i] == k && t == [k] + s[..i] + s[i + 1..]
    case TailMost(k) => i < |s| && s[i] == k && t == s[..i] + s[i + 1..] + [k]
    case Front(k) => i < |s| && s[i] == k && t == s[..i] + s[i + 1..] + [k]
    case Headward(k) => 0 < i < |s| && s[i] == k && |s| >= 3 && t == s[..i - 1] + [k, s[i - 1]] + s[i + 1..]
    case Backward1(k) => 0 < i < |s| && s[i] == k && |s| >= 3 && t == s[..i - 1] + [k, s[i - 1]] + s[i + 1..]
    case Tailward(k) => i + 1 < |s| && s[i] == k && |s| >= 3 && t == s[..i] + [s[i + 1], k] + s[i + 2..]
    case Forward1(k) => i + 1 < |s| && s[i] == k && |s| >= 3 && t == s[..i] + [s[i + 1], k] + s[i + 2..]
  }

  /** In a sequence without repeats, the key at position `i` is first found there. */
  lemma IndexAt<K>(s: seq<K>, i: nat)
    requires Distinct(s) && i < |s|
    ensures IndexOf(s, s[i]) == i
  {
  }

  /** Splicing out the key at position `i`, then putting it at either end. */
  lemma {:induction false} WithoutAt<K>(s: seq<K>, i: nat)
    requires Distinct(s) && i < |s|
    ensures Without(s, s[i]) == s[..i] + s[i + 1..]
    ensures [s[i]] + Without(s, s[i]) == [s[i]] + s[..i] + s[i + 1..]
    ensures Without(s, s[i]) + [s[i]] == s[..i] + s[i + 1..] + [s[i]]
  {
    IndexAt(s, i);
  }

  // ---------------------------------------------------------------------------
  // Running the linked-list helpers
  // ---------------------------------------------------------------------------

  function ListApply<K(==), P>(l: Links<K>, c: Call<K, P>): Step<Links<K>>
  {
    match c
    case ToHead(k) => InsertHead(l, k)
    case ToTail(k) => InsertTail(l, k)
    case After(k, a) => InsertAfter(l, k, a)
    case Before(k, a) => InsertBefore(l, k, a)
    case Drop(k) => Remove(l, k)
    case HeadMost(k) => MoveToHead(l, k)
    case TailMost(k) => MoveToTail(l, k)
    case Headward(k) => MoveTowardsHead(l, k)
    case Tailward(k) => MoveTowardsTail(l, k)
    case _ => Step(l, None)
  }

  /** Run the calls in order, stopping at the first that raises. */
  function ListRun<K(==), P>(l: Links<K>, cs: seq<Call<K, P>>): Step<Links<K>>
    decreases |cs|
  {
    if |cs| == 0 then Step(l, None)
    else
      var r := ListApply(l, cs[0]);
      if r.raised.Some? then r else ListRun(r.state, cs[1..])
  }

  predicate IsListCall<K, P>(c: Call<K, P>)
  {
    !(c.Assign? || c.Delete? || c.Front? || c.Back? || c.Forward1? || c.Backward1?)
  }

  /** One list call, from links valid for `s`, returns and leaves links valid for `t`. */
  lemma {:induction false} ListStep<K, P>(l: Links<K>, c: Call<K, P>, i: nat, s: seq<K>, t: seq<K>)
    requires Valid(l, s) && IsListCall(c) && Edits(c, i, s, t)
    ensures ListApply(l, c).raised == None && Valid(ListApply(l, c).state, t)
  {
    if c.ToHead? || c.ToTail? || c.After? || c.Before? || c.Drop? {
      ListInsertStep(l, c, i, s, t);
    } else {
      ListMoveStep(l, c, i, s, t);
    }
  }

  lemma {:induction false} ListInsertStep<K, P>(l: Links<K>, c: Call<K, P>, i: nat, s: seq<K>, t: seq<K>)
    requires Valid(l, s) && Edits(c, i, s, t)
    requires c.ToHead? || c.ToTail? || c.After? || c.Before? || c.Drop?
    ensures ListApply(l, c).raised == None && Valid(ListApply(l, c).state, t)
  {
    match c
    case ToHead(k) => InsertHeadValid(l, s, k);
    case ToTail(k) => InsertTailValid(l, s, k);
    case After(k, a) =>
      IndexAt(s, i);
      InsertAfterValid(l, s, k, a);
    case Before(k, a) =>
      IndexAt(s, i);
      InsertBeforeValid(l, s, k, a);
    case Drop(k) =>
      IndexAt(s, i);
      RemoveValid(l, s, k);
  }

  lemma {:induction false} ListMoveStep<K, P>(l: Links<K>, c: Call<K, P>, i: nat, s: seq<K>, t: seq<K>)
    requires Valid(l, s) && Edits(c, i, s, t)
    requires c.HeadMost? || c.TailMost? || c.Headward? || c.Tailward?
    ensures ListApply(l, c).raised == None && Valid(ListApply(l, c).state, t)
  {
    if c.HeadMost? {
      ListHeadMostStep(l, c, i, s, t);
    } else if c.TailMost? {
      ListTailMostStep(l, c, i, s, t);
    } else if c.Headward? {
      ListHeadwardStep(l, c, i, s, t);
    } else {
      ListTailwardStep(l, c, i, s, t);
    }
  }

  lemma {:induction false} ListHeadMostStep<K, P>(l: Links<K>, c: Call<K, P>, i: nat, s: seq<K>, t: seq<K>)
    requires Valid(l, s) && c.HeadMost? && Edits(c, i, s, t)
    ensures ListApply(l, c).raised == None && Valid(ListApply(l, c).state, t)
  {
    IndexAt(s, i);
    assert ListApply(l, c) == MoveToHead(l, c.key);
    MoveToHeadValid(l, s, c.key);
    WithoutAt(s, i);
  }

  lemma {:induction false} ListTailMostStep<K, P>(l: Links<K>, c: Call<K, P>, i: nat, s: seq<K>, t: seq<K>)
    requires Valid(l, s) && c.TailMost? && Edits(c, i, s, t)
    ensures ListApply(l, c).raised == None && Valid(ListApply(l, c).state, t)
  {
    IndexAt(s, i);
    assert ListApply(l, c) == MoveToTail(l, c.key);
    MoveToTailValid(l, s, c.key);
    WithoutAt(s, i);
  }

  lemma {:induction false} ListHeadwardStep<K, P>(l: Links<K>, c: Call<K, P>, i: nat, s: seq<K>, t: seq<K>)
    requires Valid(l, s) && c.Headward? && Edits(c, i, s, t)
    ensures ListApply(l, c).raised == None && Valid(ListApply(l, c).state, t)
  {
    IndexAt(s, i);
    assert ListApply(l, c) == MoveTowardsHead(l, c.key);
    MoveTowardsHeadValid(l, s, c.key);
    assert SwapWithNext(s, i - 1) == t;
  }

  lemma {:induction false} ListTailwardStep<K, P>(l: Links<K>, c: Call<K, P>, i: nat, s: seq<K>, t: seq<K>)
    requires Valid(l, s) && c.Tailward? && Edits(c, i, s, t)
    ensures ListApply(l, c).raised == None && Valid(ListApply(l, c).state, t)
  {
    IndexAt(s, i);
    assert ListApply(l, c) == MoveTowardsTail(l, c.key);
    MoveTowardsTailValid(l, s, c.key);
    assert SwapWithNext(s, i) == t;
  }

  // ---------------------------------------------------------------------------
  // Running the public `PartDict` methods
  // ---------------------------------------------------------------------------

  function PartApply<P>(d: PartDict<P>, c: Call<string, P>): Step<PartDict<P>>
  {
    match c
    case Assign(k, p) => SetItem(d, k, Part(p))
    case Delete(k) => DelItem(d, k)
    case Front(k) => MoveToFront(d, k)
    case Back(k) => MoveToBack(d, k)
    case Forward1(k) => MoveForward(d, k)
    case Backward1(k) => MoveBackward(d, k)
    case _ => Step(d, None)
  }

  function PartRun<P>(d: PartDict<P>, cs: seq<Call<string, P>>): Step<PartDict<P>>
    decreases |cs|
  {
    if |cs| == 0 then Step(d, None)
    else
      var r := PartApply(d, cs[0]);
      if r.raised.Some? then r else PartRun(r.state, cs[1..])
  }

  /** One method call on a consistent container returns and leaves it consistent with `t`. */
  lemma {:induction false} PartStep<P>(d: PartDict<P>, c: Call<string, P>, i: nat, s: seq<string>, t: seq<string>)
    requires Consistent(d, s) && !IsListCall(c) && Edits(c, i, s, t)
    ensures PartApply(d, c).raised == None && Consistent(PartApply(d, c).state, t)
  {
    if c.Assign? {
      SetItemSpec(d, s, c.key, Part(c.part));
    } else if c.Delete? {
      PartDeleteStep(d, c, i, s, t);
    } else if c.Front? {
      PartFrontStep(d, c, i, s, t);
    } else if c.Back? {
      PartBackStep(d, c, i, s, t);
    } else if c.Forward1? {
      PartForward1Step(d, c, i, s, t);
    } else {
      PartBackward1Step(d, c, i, s, t);
    }
  }

  lemma {:induction false} PartDeleteStep<P>(d: PartDict<P>, c: Call<string, P>, i: nat, s: seq<string>, t: seq<string>)
    requires Consistent(d, s) && c.Delete? && Edits(c, i, s, t)
    ensures PartApply(d, c).raised == None && Consistent(PartApply(d, c).state, t)
  {
    IndexAt(s, i);
    assert PartApply(d, c) == DelItem(d, c.key);
    DelItemValid(d, s, c.key);
  }

  lemma {:induction false} PartFrontStep<P>(d: PartDict<P>, c: Call<string, P>, i: nat, s: seq<string>, t: seq<string>)
    requires Consistent(d, s) && c.Front? && Edits(c, i, s, t)
    ensures PartApply(d, c).raised == None && Consistent(PartApply(d, c).state, t)
  {
    IndexAt(s, i);
    assert PartApply(d, c) == MoveToFront(d, c.key);
    MoveToFrontValid(d, s, c.key);
    WithoutAt(s, i);
  }

  lemma {:induction false} PartBackStep<P>(d: PartDict<P>, c: Call<string, P>, i: nat, s: seq<string>, t: seq<string>)
    requires Consistent(d, s) && c.Back? && Edits(c, i, s, t)
    ensures PartApply(d, c).raised == None && Consistent(PartApply(d, c).state, t)
  {
    IndexAt(s, i);
    assert PartApply(d, c) == MoveToBack(d, c.key);
    MoveToBackValid(d, s, c.key);
    WithoutAt(s, i);
  }

  lemma {:induction false} PartForward1Step<P>(d: PartDict<P>, c: Call<string, P>, i: nat, s: seq<string>, t: seq<string>)
    requires Consistent(d, s) && c.Forward1? && Edits(c, i, s, t)
    ensures PartApply(d, c).raised == None && Consistent(PartApply(d, c).state, t)
  {
    IndexAt(s, i);
    assert PartApply(d, c) == MoveForward(d, c.key);
    MoveForwardSwaps(d, s, c.key);
    assert SwapWithNext(s, i) == t;
  }

  lemma {:induction false} PartBackward1Step<P>(d: PartDict<P>, c: Call<string, P>, i: nat, s: seq<string>, t: seq<string>)
    requires Consistent(d, s) && c.Backward1? && Edits(c, i, s, t)
    ensures PartApply(d, c).raised == None && Consistent(PartApply(d, c).state, t)
  {
    IndexAt(s, i);
    assert PartApply(d, c) == MoveBackward(d, c.key);
    MoveBackwardSwaps(d, s, c.key);
    assert SwapWithNext(s, i - 1) == t;
  }

  // ---------------------------------------------------------------------------
  // Scripts
  // ---------------------------------------------------------------------------

  /** Calls, each with the position it acts at and the order it leaves. */
  datatype Script<K, P> = Done | Then(call: Call<K, P>, at: nat, order: seq<K>, rest: Script<K, P>)

  function Calls<K, P>(sc: Script<K, P>): seq<Call<K, P>>
  {
    if sc.Done? then [] else [sc.call] + Calls(sc.rest)
  }

  /** The order the script promises at the end, starting from `s`. */
  function Final<K, P>(s: seq<K>, sc: Script<K, P>): seq<K>
    decreases sc
  {
    if sc.Done? then s else Final(sc.order, sc.rest)
  }

  /** Every call of the script, all list calls or all method calls, takes the order to the
      next one listed. */
  predicate Chain<K(==), P>(s: seq<K>, sc: Script<K, P>, lists: bool)
    decreases sc
  {
    sc.Done? ||
    (IsListCall(sc.call) == lists && Edits(sc.call, sc.at, s, sc.order) && Chain(sc.order, sc.rest, lists))
  }

  lemma {:induction false} ListScriptSound<K, P>(l: Links<K>, s: seq<K>, sc: Script<K, P>)
    requires Valid(l, s) && Chain(s, sc, true)
    ensures ListRun(l, Calls(sc)).raised == None && Valid(ListRun(l, Calls(sc)).state, Final(s, sc))
    decreases sc
  {
    if sc.Then? {
      ListStep(l, sc.call, sc.at, s, sc.order);
      assert Calls(sc)[0] == sc.call && Calls(sc)[1..] == Calls(sc.rest);
      assert ListRun(l, Calls(sc)) == ListRun(ListApply(l, sc.call).state, Calls(sc.rest));
      ListScriptSound(ListApply(l, sc.call).state, sc.order, sc.rest);
    }
  }

  lemma {:induction false} PartScriptSound<P>(d: PartDict<P>, s: seq<string>, sc: Script<string, P>)
    requires Consistent(d, s) && Chain(s, sc, false)
    ensures PartRun(d, Calls(sc)).raised == None && Consistent(PartRun(d, Calls(sc)).state, Final(s, sc))
    decreases sc
  {
    if sc.Then? {
      PartStep(d, sc.call, sc.at, s, sc.order);
      assert Calls(sc)[0] == sc.call && Calls(sc)[1..] == Calls(sc.rest);
      assert PartRun(d, Calls(sc)) == PartRun(PartApply(d, sc.call).state, Calls(sc.rest));
      PartScriptSound(PartApply(d, sc.call).state, sc.order, sc.rest);
    }
  }

  /** Running two scripts one after the other is running the joined script. */
  lemma {:induction false} ListRunAppend<K, P>(l: Links<K>, a: seq<Call<K, P>>, b: seq<Call<K, P>>)
    requires ListRun(l, a).raised == None
    ensures ListRun(l, a + b) == ListRun(ListRun(l, a).state, b)
    decreases |a|
  {
    if |a| == 0 {
      assert a + b == b;
    } else {
      assert (a + b)[0] == a[0] && (a + b)[1..] == a[1..] + b;
      ListRunAppend(ListApply(l, a[0]).state, a[1..], b);
    }
  }

  /** The calls `cs`, run from `l`, all return and leave links valid for `s`, which iterate
      as `s`. */
  predicate ListYields<K(==), P>(l: Links<K>, cs: seq<Call<K, P>>, s: seq<K>)
  {
    var r := ListRun(l, cs);
    r.raised == None && Valid(r.state, s) && Forward(r.state) == Complete(s)
  }

  /** The method calls `cs`, run on `d`, all return and leave it consistent with `s`, which
      it iterates as. */
  predicate PartYields<P>(d: PartDict<P>, cs: seq<Call<string, P>>, s: seq<string>)
  {
    var r := PartRun(d, cs);
    r.raised == None && Consistent(r.state, s) && Keys(r.state) == Complete(s)
  }

  /** After calls `cs` that returned and left the order `s`, running a script that keeps the
      list valid returns and leaves the order it promises. */
  lemma ListScriptAfter<K, P>(l: Links<K>, cs: seq<Call<K, P>>, s: seq<K>, sc: Script<K, P>)
    requires ListRun(l, cs).raised == None && Valid(ListRun(l, cs).state, s) && Chain(s, sc, true)
    ensures ListRun(l, cs + Calls(sc)).raised == None
    ensures Valid(ListRun(l, cs + Calls(sc)).state, Final(s, sc))
    ensures Forward(ListRun(l, cs + Calls(sc)).state) == Complete(Final(s, sc))
  {
    ListScriptSound(ListRun(l, cs).state, s, sc);
    ListRunAppend(l, cs, Calls(sc));
    IterationOrder(ListRun(l, cs + Calls(sc)).state, Final(s, sc));
  }

  lemma {:induction false} PartRunAppend<P>(d: PartDict<P>, a: seq<Call<string, P>>, b: seq<Call<string, P>>)
    requires PartRun(d, a).raised == None
    ensures PartRun(d, a + b) == PartRun(PartRun(d, a).state, b)
    decreases |a|
  {
    if |a| == 0 {
      assert a + b == b;
    } else {
      assert (a + b)[0] == a[0] && (a + b)[1..] == a[1..] + b;
      PartRunAppend(PartApply(d, a[0]).state, a[1..], b);
    }
  }

  /** The same for the public methods of a consistent container. */
  lemma PartScriptAfter<P>(d: PartDict<P>, cs: seq<Call<string, P>>, s: seq<string>, sc: Script<string, P>)
    requires PartRun(d, cs).raised == None && Consistent(PartRun(d, cs).state, s) && Chain(s, sc, false)
    ensures PartRun(d, cs + Calls(sc)).raised == None
    ensures Consistent(PartRun(d, cs + Calls(sc)).state, Final(s, sc))
    ensures Keys(PartRun(d, cs + Calls(sc)).state) == Complete(Final(s, sc))
  {
    PartScriptSound(PartRun(d, cs).state, s, sc);
    PartRunAppend(d, cs, Calls(sc));
    Iteration(PartRun(d, cs + Calls(sc)).state, Final(s, sc));
  }

  // ---------------------------------------------------------------------------
  // tests/test_part.py
  // ---------------------------------------------------------------------------

  const HeadHeadHead: Script<int, ()> :=
    Then(ToHead(1), 0, [1],
    Then(ToHead(2), 0, [2, 1],
    Then(ToHead(3), 0, [3, 2, 1],
    Done)))

  lemma HeadHeadHeadChains()
    ensures Chain([], HeadHeadHead, true)
  {
  }

  lemma HeadHeadHeadCalls()
    ensures Calls(HeadHeadHead) == [ToHead(1), ToHead(2), ToHead(3)]
    ensures Final([], HeadHeadHead) == [3, 2, 1]
  {
  }

  lemma HeadHeadHeadRuns(l: Links<int>)
    requires Valid(l, [])
    ensures ListYields<int, ()>(l, [ToHead(1), ToHead(2), ToHead(3)], [3, 2, 1])
  {
    HeadHeadHeadChains();
    HeadHeadHeadCalls();
    ListScriptAfter(l, [], [], HeadHeadHead);
    assert [] + Calls(HeadHeadHead) == Calls(HeadHeadHead);
  }

  /** tests/test_part.py:7-12: three head insertions iterate in reverse. */
  lemma ListInsertHeadsTest(l: Links<int>)
    requires Valid(l, [])
    ensures ListYields<int, ()>(l,
      [ToHead(1), ToHead(2), ToHead(3)],
      [3, 2, 1])
  {
    HeadHeadHeadRuns(l);
  }

  const TailTailTail: Script<int, ()> :=
    Then(ToTail(1), 0, [1],
    Then(ToTail(2), 0, [1, 2],
    Then(ToTail(3), 0, [1, 2, 3],
    Done)))

  lemma TailTailTailChains()
    ensures Chain([], TailTailTail, true)
  {
  }

  lemma TailTailTailCalls()
    ensures Calls(TailTailTail) == [ToTail(1), ToTail(2), ToTail(3)]
    ensures Final([], TailTailTail) == [1, 2, 3]
  {
  }

  lemma TailTailTailRuns(l: Links<int>)
    requires Valid(l, [])
    ensures ListYields<int, ()>(l, [ToTail(1), ToTail(2), ToTail(3)], [1, 2, 3])
  {
    TailTailTailChains();
    TailTailTailCalls();
    ListScriptAfter(l, [], [], TailTailTail);
    assert [] + Calls(TailTailTail) == Calls(TailTailTail);
  }

  /** tests/test_part.py:14-19: three tail insertions iterate in order. */
  lemma ListInsertTailsTest(l: Links<int>)
    requires Valid(l, [])
    ensures ListYields<int, ()>(l,
      [ToTail(1), ToTail(2), ToTail(3)],
      [1, 2, 3])
  {
    TailTailTailRuns(l);
  }

  const TailTailHead: Script<int, ()> :=
    Then(ToTail(1), 0, [1],
    Then(ToTail(2), 0, [1, 2],
    Then(ToHead(3), 0, [3, 1, 2],
    Done)))

  lemma TailTailHeadChains()
    ensures Chain([], TailTailHead, true)
  {
  }

  lemma TailTailHeadCalls()
    ensures Calls(TailTailHead) == [ToTail(1), ToTail(2), ToHead(3)]
    ensures Final([], TailTailHead) == [3, 1, 2]
  {
  }

  lemma TailTailHeadRuns(l: Links<int>)
    requires Valid(l, [])
    ensures ListYields<int, ()>(l, [ToTail(1), ToTail(2), ToHead(3)], [3, 1, 2])
  {
    TailTailHeadChains();
    TailTailHeadCalls();
    ListScriptAfter(l, [], [], TailTailHead);
    assert [] + Calls(TailTailHead) == Calls(TailTailHead);
  }

  /** tests/test_part.py:21-26: a head insertion after two tail insertions comes first. */
  lemma ListInsertTailsHeadTest(l: Links<int>)
    requires Valid(l, [])
    ensures ListYields<int, ()>(l,
      [ToTail(1), ToTail(2), ToHead(3)],
      [3, 1, 2])
  {
    TailTailHeadRuns(l);
  }

  const HeadHeadTail: Script<int, ()> :=
    Then(ToHead(1), 0, [1],
    Then(ToHead(2), 0, [2, 1],
    Then(ToTail(3), 0, [2, 1, 3],
    Done)))

  lemma HeadHeadTailChains()
    ensures Chain([], HeadHeadTail, true)
  {
  }

  lemma HeadHeadTailCalls()
    ensures Calls(HeadHeadTail) == [ToHead(1), ToHead(2), ToTail(3)]
    ensures Final([], HeadHeadTail) == [2, 1, 3]
  {
  }

  lemma HeadHeadTailRuns(l: Links<int>)
    requires Valid(l, [])
    ensures ListYields<int, ()>(l, [ToHead(1), ToHead(2), ToTail(3)], [2, 1, 3])
  {
    HeadHeadTailChains();
    HeadHeadTailCalls();
    ListScriptAfter(l, [], [], HeadHeadTail);
    assert [] + Calls(HeadHeadTail) == Calls(HeadHeadTail);
  }

  /** tests/test_part.py:28-33: a tail insertion after two head insertions comes last. */
  lemma ListInsertHeadsTailTest(l: Links<int>)
    requires Valid(l, [])
    ensures ListYields<int, ()>(l,
      [ToHead(1), ToHead(2), ToTail(3)],
      [2, 1, 3])
  {
    HeadHeadTailRuns(l);
  }

  const OneToThree: Script<int, ()> :=
    Then(ToTail(1), 0, [1],
    Then(ToTail(2), 0, [1, 2],
    Then(ToTail(3), 0, [1, 2, 3],
    Done)))

  lemma OneToThreeChains()
    ensures Chain([], OneToThree, true)
  {
  }

  lemma OneToThreeCalls()
    ensures Calls(OneToThree) == [ToTail(1), ToTail(2), ToTail(3)]
    ensures Final([], OneToThree) == [1, 2, 3]
  {
  }

  lemma OneToThreeRuns(l: Links<int>)
    requires Valid(l, [])
    ensures ListYields<int, ()>(l, [ToTail(1), ToTail(2), ToTail(3)], [1, 2, 3])
  {
    OneToThreeChains();
    OneToThreeCalls();
    ListScriptAfter(l, [], [], OneToThree);
    assert [] + Calls(OneToThree) == Calls(OneToThree);
  }

  const FourToSix: Script<int, ()> :=
    Then(ToTail(4), 0, [1, 2, 3, 4],
    Then(ToTail(5), 0, [1, 2, 3, 4, 5],
    Then(ToTail(6), 0, [1, 2, 3, 4, 5, 6],
    Done)))

  lemma FourToSixChains()
    ensures Chain([1, 2, 3], FourToSix, true)
  {
  }

  lemma FourToSixCalls()
    ensures Calls(FourToSix) == [ToTail(4), ToTail(5), ToTail(6)]
    ensures Final([1, 2, 3], FourToSix) == [1, 2, 3, 4, 5, 6]
  {
  }

  lemma FourToSixRuns(l: Links<int>, cs: seq<Call<int, ()>>)
    requires ListYields<int, ()>(l, cs, [1, 2, 3])
    ensures ListYields<int, ()>(l, cs + [
      ToTail(4), ToTail(5), ToTail(6)], [1, 2, 3, 4, 5, 6])
  {
    FourToSixChains();
    FourToSixCalls();
    ListScriptAfter(l, cs, [1, 2, 3], FourToSix);
  }

  const RemovalsPart1: Script<int, ()> :=
    Then(Drop(4), 3, [1, 2, 3, 5, 6],
    Then(Drop(6), 4, [1, 2, 3, 5],
    Done))

  lemma RemovalsPart1Chains()
    ensures Chain([1, 2, 3, 4, 5, 6], RemovalsPart1, true)
  {
  }

  lemma RemovalsPart1Calls()
    ensures Calls(RemovalsPart1) == [Drop(4), Drop(6)]
    ensures Final([1, 2, 3, 4, 5, 6], RemovalsPart1) == [1, 2, 3, 5]
  {
  }

  lemma RemovalsPart1Runs(l: Links<int>, cs: seq<Call<int, ()>>)
    requires ListYields<int, ()>(l, cs, [1, 2, 3, 4, 5, 6])
    ensures ListYields<int, ()>(l, cs + [
      Drop(4), Drop(6)], [1, 2, 3, 5])
  {
    RemovalsPart1Chains();
    RemovalsPart1Calls();
    ListScriptAfter(l, cs, [1, 2, 3, 4, 5, 6], RemovalsPart1);
  }

  const RemovalsPart2: Script<int, ()> :=
    Then(Drop(1), 0, [2, 3, 5],
    Then(Drop(3), 1, [2, 5],
    Done))

  lemma RemovalsPart2Chains()
    ensures Chain([1, 2, 3, 5], RemovalsPart2, true)
  {
  }

  lemma RemovalsPart2Calls()
    ensures Calls(RemovalsPart2) == [Drop(1), Drop(3)]
    ensures Final([1, 2, 3, 5], RemovalsPart2) == [2, 5]
  {
  }

  lemma RemovalsPart2Runs(l: Links<int>, cs: seq<Call<int, ()>>)
    requires ListYields<int, ()>(l, cs, [1, 2, 3, 5])
    ensures ListYields<int, ()>(l, cs + [
      Drop(1), Drop(3)], [2, 5])
  {
    RemovalsPart2Chains();
    RemovalsPart2Calls();
    ListScriptAfter(l, cs, [1, 2, 3, 5], RemovalsPart2);
  }

  /** tests/test_part.py:35-49: removal from the middle, the tail, the head and the middle. */
  lemma ListRemoveTest(l: Links<int>)
    requires Valid(l, [])
    ensures ListYields<int, ()>(l,
      [ToTail(1), ToTail(2), ToTail(3)] +
      [ToTail(4), ToTail(5), ToTail(6)] +
      [Drop(4), Drop(6)] +
      [Drop(1), Drop(3)],
      [2, 5])
  {
    OneToThreeRuns(l);
    FourToSixRuns(l, [ToTail(1), ToTail(2), ToTail(3)]);
    RemovalsPart1Runs(l, [ToTail(1), ToTail(2), ToTail(3)] +
        [ToTail(4), ToTail(5), ToTail(6)]);
    RemovalsPart2Runs(l, [ToTail(1), ToTail(2), ToTail(3)] +
        [ToTail(4), ToTail(5), ToTail(6)] +
        [Drop(4), Drop(6)]);
  }

  const TwoFivePart1: Script<int, ()> :=
    Then(ToTail(2), 0, [2],
    Then(ToTail(5), 0, [2, 5],
    Done))

  lemma TwoFivePart1Chains()
    ensures Chain([], TwoFivePart1, true)
  {
  }

  lemma TwoFivePart1Calls()
    ensures Calls(TwoFivePart1) == [ToTail(2), ToTail(5)]
    ensures Final([], TwoFivePart1) == [2, 5]
  {
  }

  lemma TwoFivePart1Runs(l: Links<int>)
    requires Valid(l, [])
    ensures ListYields<int, ()>(l, [ToTail(2), ToTail(5)], [2, 5])
  {
    TwoFivePart1Chains();
    TwoFivePart1Calls();
    ListScriptAfter(l, [], [], TwoFivePart1);
    assert [] + Calls(TwoFivePart1) == Calls(TwoFivePart1);
  }

  const TwoFivePart2: Script<int, ()> :=
    Then(After(6, 2), 0, [2, 6, 5],
    Done)

  lemma TwoFivePart2Chains()
    ensures Chain([2, 5], TwoFivePart2, true)
  {
  }

  lemma TwoFivePart2Calls()
    ensures Calls(TwoFivePart2) == [After(6, 2)]
    ensures Final([2, 5], TwoFivePart2) == [2, 6, 5]
  {
  }

  lemma TwoFivePart2Runs(l: Links<int>, cs: seq<Call<int, ()>>)
    requires ListYields<int, ()>(l, cs, [2, 5])
    ensures ListYields<int, ()>(l, cs + [
      After(6, 2)], [2, 6, 5])
  {
    TwoFivePart2Chains();
    TwoFivePart2Calls();
    ListScriptAfter(l, cs, [2, 5], TwoFivePart2);
  }

  const Afters: Script<int, ()> :=
    Then(After(7, 5), 2, [2, 6, 5, 7],
    Then(After(8, 6), 1, [2, 6, 8, 5, 7],
    Done))

  lemma AftersChains()
    ensures Chain([2, 6, 5], Afters, true)
  {
  }

  lemma AftersCalls()
    ensures Calls(Afters) == [After(7, 5), After(8, 6)]
    ensures Final([2, 6, 5], Afters) == [2, 6, 8, 5, 7]
  {
  }

  lemma AftersRuns(l: Links<int>, cs: seq<Call<int, ()>>)
    requires ListYields<int, ()>(l, cs, [2, 6, 5])
    ensures ListYields<int, ()>(l, cs + [
      After(7, 5), After(8, 6)], [2, 6, 8, 5, 7])
  {
    AftersChains();
    AftersCalls();
    ListScriptAfter(l, cs, [2, 6, 5], Afters);
  }

  const BeforesPart1: Script<int, ()> :=
    Then(Before(9, 2), 0, [9, 2, 6, 8, 5, 7],
    Then(Before(10, 2), 1, [9, 10, 2, 6, 8, 5, 7],
    Done))

  lemma BeforesPart1Chains()
    ensures Chain([2, 6, 8, 5, 7], BeforesPart1, true)
  {
  }

  lemma BeforesPart1Calls()
    ensures Calls(BeforesPart1) == [Before(9, 2), Before(10, 2)]
    ensures Final([2, 6, 8, 5, 7], BeforesPart1) == [9, 10, 2, 6, 8, 5, 7]
  {
  }

  lemma BeforesPart1Runs(l: Links<int>, cs: seq<Call<int, ()>>)
    requires ListYields<int, ()>(l, cs, [2, 6, 8, 5, 7])
    ensures ListYields<int, ()>(l, cs + [
      Before(9, 2), Before(10, 2)], [9, 10, 2, 6, 8, 5, 7])
  {
    BeforesPart1Chains();
    BeforesPart1Calls();
    ListScriptAfter(l, cs, [2, 6, 8, 5, 7], BeforesPart1);
  }

  const BeforesPart2: Script<int, ()> :=
    Then(Before(11, 7), 6, [9, 10, 2, 6, 8, 5, 11, 7],
    Done)

  lemma BeforesPart2Chains()
    ensures Chain([9, 10, 2, 6, 8, 5, 7], BeforesPart2, true)
  {
  }

  lemma BeforesPart2Calls()
    ensures Calls(BeforesPart2) == [Before(11, 7)]
    ensures Final([9, 10, 2, 6, 8, 5, 7], BeforesPart2) == [9, 10, 2, 6, 8, 5, 11, 7]
  {
  }

  lemma BeforesPart2Runs(l: Links<int>, cs: seq<Call<int, ()>>)
    requires ListYields<int, ()>(l, cs, [9, 10, 2, 6, 8, 5, 7])
    ensures ListYields<int, ()>(l, cs + [
      Before(11, 7)], [9, 10, 2, 6, 8, 5, 11, 7])
  {
    BeforesPart2Chains();
    BeforesPart2Calls();
    ListScriptAfter(l, cs, [9, 10, 2, 6, 8, 5, 7], BeforesPart2);
  }

  /** tests/test_part.py:51-60: insertion after an anchor, inside and at the tail. */
  lemma ListInsertAfterTest(l: Links<int>)
    requires Valid(l, [])
    ensures ListYields<int, ()>(l,
      [ToTail(2), ToTail(5)] +
      [After(6, 2)] +
      [After(7, 5), After(8, 6)],
      [2, 6, 8, 5, 7])
  {
    TwoFivePart1Runs(l);
    TwoFivePart2Runs(l, [ToTail(2), ToTail(5)]);
    AftersRuns(l, [ToTail(2), ToTail(5)] +
        [After(6, 2)]);
  }

  /** tests/test_part.py:62-66: then insertion before an anchor, at the head and inside. */
  lemma ListInsertBeforeTest(l: Links<int>)
    requires Valid(l, [])
    ensures ListYields<int, ()>(l,
      [ToTail(2), ToTail(5)] +
      [After(6, 2)] +
      [After(7, 5), After(8, 6)] +
      [Before(9, 2), Before(10, 2)] +
      [Before(11, 7)],
      [9, 10, 2, 6, 8, 5, 11, 7])
  {
    ListInsertAfterTest(l);
    BeforesPart1Runs(l, [ToTail(2), ToTail(5)] +
        [After(6, 2)] +
        [After(7, 5), After(8, 6)]);
    BeforesPart2Runs(l, [ToTail(2), ToTail(5)] +
        [After(6, 2)] +
        [After(7, 5), After(8, 6)] +
        [Before(9, 2), Before(10, 2)]);
  }

  const FillA: Script<int, ()> :=
    Then(ToTail(9), 0, [9],
    Then(ToTail(10), 0, [9, 10],
    Then(ToTail(2), 0, [9, 10, 2],
    Then(ToTail(6), 0, [9, 10, 2, 6],
    Done))))

  lemma FillAChains()
    ensures Chain([], FillA, true)
  {
  }

  lemma FillACalls()
    ensures Calls(FillA) == [ToTail(9), ToTail(10), ToTail(2), ToTail(6)]
    ensures Final([], FillA) == [9, 10, 2, 6]
  {
  }

  lemma FillARuns(l: Links<int>)
    requires Valid(l, [])
    ensures ListYields<int, ()>(l, [ToTail(9), ToTail(10), ToTail(2), ToTail(6)], [9, 10, 2, 6])
  {
    FillAChains();
    FillACalls();
    ListScriptAfter(l, [], [], FillA);
    assert [] + Calls(FillA) == Calls(FillA);
  }

  const FillB: Script<int, ()> :=
    Then(ToTail(8), 0, [9, 10, 2, 6, 8],
    Then(ToTail(5), 0, [9, 10, 2, 6, 8, 5],
    Then(ToTail(11), 0, [9, 10, 2, 6, 8, 5, 11],
    Then(ToTail(7), 0, [9, 10, 2, 6, 8, 5, 11, 7],
    Done))))

  lemma FillBChains()
    ensures Chain([9, 10, 2, 6], FillB, true)
  {
  }

  lemma FillBCalls()
    ensures Calls(FillB) == [ToTail(8), ToTail(5), ToTail(11), ToTail(7)]
    ensures Final([9, 10, 2, 6], FillB) == [9, 10, 2, 6, 8, 5, 11, 7]
  {
  }

  lemma FillBRuns(l: Links<int>, cs: seq<Call<int, ()>>)
    requires ListYields<int, ()>(l, cs, [9, 10, 2, 6])
    ensures ListYields<int, ()>(l, cs + [
      ToTail(8), ToTail(5), ToTail(11), ToTail(7)], [9, 10, 2, 6, 8, 5, 11, 7])
  {
    FillBChains();
    FillBCalls();
    ListScriptAfter(l, cs, [9, 10, 2, 6], FillB);
  }

  const ToHeads: Script<int, ()> :=
    Then(HeadMost(6), 3, [6, 9, 10, 2, 8, 5, 11, 7],
    Then(HeadMost(9), 1, [9, 6, 10, 2, 8, 5, 11, 7],
    Done))

  lemma ToHeadsChains()
    ensures Chain([9, 10, 2, 6, 8, 5, 11, 7], ToHeads, true)
  {
  }

  lemma ToHeadsCalls()
    ensures Calls(ToHeads) == [HeadMost(6), HeadMost(9)]
    ensures Final([9, 10, 2, 6, 8, 5, 11, 7], ToHeads) == [9, 6, 10, 2, 8, 5, 11, 7]
  {
  }

  lemma ToHeadsRuns(l: Links<int>, cs: seq<Call<int, ()>>)
    requires ListYields<int, ()>(l, cs, [9, 10, 2, 6, 8, 5, 11, 7])
    ensures ListYields<int, ()>(l, cs + [
      HeadMost(6), HeadMost(9)], [9, 6, 10, 2, 8, 5, 11, 7])
  {
    ToHeadsChains();
    ToHeadsCalls();
    ListScriptAfter(l, cs, [9, 10, 2, 6, 8, 5, 11, 7], ToHeads);
  }

  const ToTails: Script<int, ()> :=
    Then(TailMost(8), 4, [9, 6, 10, 2, 5, 11, 7, 8],
    Then(TailMost(7), 6, [9, 6, 10, 2, 5, 11, 8, 7],
    Done))

  lemma ToTailsChains()
    ensures Chain([9, 6, 10, 2, 8, 5, 11, 7], ToTails, true)
  {
  }

  lemma ToTailsCalls()
    ensures Calls(ToTails) == [TailMost(8), TailMost(7)]
    ensures Final([9, 6, 10, 2, 8, 5, 11, 7], ToTails) == [9, 6, 10, 2, 5, 11, 8, 7]
  {
  }

  lemma ToTailsRuns(l: Links<int>, cs: seq<Call<int, ()>>)
    requires ListYields<int, ()>(l, cs, [9, 6, 10, 2, 8, 5, 11, 7])
    ensures ListYields<int, ()>(l, cs + [
      TailMost(8), TailMost(7)], [9, 6, 10, 2, 5, 11, 8, 7])
  {
    ToTailsChains();
    ToTailsCalls();
    ListScriptAfter(l, cs, [9, 6, 10, 2, 8, 5, 11, 7], ToTails);
  }

  const StepsAPart1: Script<int, ()> :=
    Then(Headward(2), 3, [9, 6, 2, 10, 5, 11, 8, 7],
    Then(Headward(2), 2, [9, 2, 6, 10, 5, 11, 8, 7],
    Done))

  lemma StepsAPart1Chains()
    ensures Chain([9, 6, 10, 2, 5, 11, 8, 7], StepsAPart1, true)
  {
  }

  lemma StepsAPart1Calls()
    ensures Calls(StepsAPart1) == [Headward(2), Headward(2)]
    ensures Final([9, 6, 10, 2, 5, 11, 8, 7], StepsAPart1) == [9, 2, 6, 10, 5, 11, 8, 7]
  {
  }

  lemma StepsAPart1Runs(l: Links<int>, cs: seq<Call<int, ()>>)
    requires ListYields<int, ()>(l, cs, [9, 6, 10, 2, 5, 11, 8, 7])
    ensures ListYields<int, ()>(l, cs + [
      Headward(2), Headward(2)], [9, 2, 6, 10, 5, 11, 8, 7])
  {
    StepsAPart1Chains();
    StepsAPart1Calls();
    ListScriptAfter(l, cs, [9, 6, 10, 2, 5, 11, 8, 7], StepsAPart1);
  }

  const StepsAPart2: Script<int, ()> :=
    Then(Headward(2), 1, [2, 9, 6, 10, 5, 11, 8, 7],
    Done)

  lemma StepsAPart2Chains()
    ensures Chain([9, 2, 6, 10, 5, 11, 8, 7], StepsAPart2, true)
  {
  }

  lemma StepsAPart2Calls()
    ensures Calls(StepsAPart2) == [Headward(2)]
    ensures Final([9, 2, 6, 10, 5, 11, 8, 7], StepsAPart2) == [2, 9, 6, 10, 5, 11, 8, 7]
  {
  }

  lemma StepsAPart2Runs(l: Links<int>, cs: seq<Call<int, ()>>)
    requires ListYields<int, ()>(l, cs, [9, 2, 6, 10, 5, 11, 8, 7])
    ensures ListYields<int, ()>(l, cs + [
      Headward(2)], [2, 9, 6, 10, 5, 11, 8, 7])
  {
    StepsAPart2Chains();
    StepsAPart2Calls();
    ListScriptAfter(l, cs, [9, 2, 6, 10, 5, 11, 8, 7], StepsAPart2);
  }

  const StepsBPart1: Script<int, ()> :=
    Then(Headward(5), 4, [2, 9, 6, 5, 10, 11, 8, 7],
    Then(Headward(5), 3, [2, 9, 5, 6, 10, 11, 8, 7],
    Done))

  lemma StepsBPart1Chains()
    ensures Chain([2, 9, 6, 10, 5, 11, 8, 7], StepsBPart1, true)
  {
  }

  lemma StepsBPart1Calls()
    ensures Calls(StepsBPart1) == [Headward(5), Headward(5)]
    ensures Final([2, 9, 6, 10, 5, 11, 8, 7], StepsBPart1) == [2, 9, 5, 6, 10, 11, 8, 7]
  {
  }

  lemma StepsBPart1Runs(l: Links<int>, cs: seq<Call<int, ()>>)
    requires ListYields<int, ()>(l, cs, [2, 9, 6, 10, 5, 11, 8, 7])
    ensures ListYields<int, ()>(l, cs + [
      Headward(5), Headward(5)], [2, 9, 5, 6, 10, 11, 8, 7])
  {
    StepsBPart1Chains();
    StepsBPart1Calls();
    ListScriptAfter(l, cs, [2, 9, 6, 10, 5, 11, 8, 7], StepsBPart1);
  }

  const StepsBPart2: Script<int, ()> :=
    Then(Headward(5), 2, [2, 5, 9, 6, 10, 11, 8, 7],
    Then(Headward(6), 3, [2, 5, 6, 9, 10, 11, 8, 7],
    Done))

  lemma StepsBPart2Chains()
    ensures Chain([2, 9, 5, 6, 10, 11, 8, 7], StepsBPart2, true)
  {
  }

  lemma StepsBPart2Calls()
    ensures Calls(StepsBPart2) == [Headward(5), Headward(6)]
    ensures Final([2, 9, 5, 6, 10, 11, 8, 7], StepsBPart2) == [2, 5, 6, 9, 10, 11, 8, 7]
  {
  }

  lemma StepsBPart2Runs(l: Links<int>, cs: seq<Call<int, ()>>)
    requires ListYields<int, ()>(l, cs, [2, 9, 5, 6, 10, 11, 8, 7])
    ensures ListYields<int, ()>(l, cs + [
      Headward(5), Headward(6)], [2, 5, 6, 9, 10, 11, 8, 7])
  {
    StepsBPart2Chains();
    StepsBPart2Calls();
    ListScriptAfter(l, cs, [2, 9, 5, 6, 10, 11, 8, 7], StepsBPart2);
  }

  const StepsCPart1: Script<int, ()> :=
    Then(HeadMost(7), 7, [7, 2, 5, 6, 9, 10, 11, 8],
    Then(Tailward(7), 0, [2, 7, 5, 6, 9, 10, 11, 8],
    Done))

  lemma StepsCPart1Chains()
    ensures Chain([2, 5, 6, 9, 10, 11, 8, 7], StepsCPart1, true)
  {
  }

  lemma StepsCPart1Calls()
    ensures Calls(StepsCPart1) == [HeadMost(7), Tailward(7)]
    ensures Final([2, 5, 6, 9, 10, 11, 8, 7], StepsCPart1) == [2, 7, 5, 6, 9, 10, 11, 8]
  {
  }

  lemma StepsCPart1Runs(l: Links<int>, cs: seq<Call<int, ()>>)
    requires ListYields<int, ()>(l, cs, [2, 5, 6, 9, 10, 11, 8, 7])
    ensures ListYields<int, ()>(l, cs + [
      HeadMost(7), Tailward(7)], [2, 7, 5, 6, 9, 10, 11, 8])
  {
    StepsCPart1Chains();
    StepsCPart1Calls();
    ListScriptAfter(l, cs, [2, 5, 6, 9, 10, 11, 8, 7], StepsCPart1);
  }

  const StepsCPart2: Script<int, ()> :=
    Then(Tailward(7), 1, [2, 5, 7, 6, 9, 10, 11, 8],
    Then(Tailward(7), 2, [2, 5, 6, 7, 9, 10, 11, 8],
    Done))

  lemma StepsCPart2Chains()
    ensures Chain([2, 7, 5, 6, 9, 10, 11, 8], StepsCPart2, true)
  {
  }

  lemma StepsCPart2Calls()
    ensures Calls(StepsCPart2) == [Tailward(7), Tailward(7)]
    ensures Final([2, 7, 5, 6, 9, 10, 11, 8], StepsCPart2) == [2, 5, 6, 7, 9, 10, 11, 8]
  {
  }

  lemma StepsCPart2Runs(l: Links<int>, cs: seq<Call<int, ()>>)
    requires ListYields<int, ()>(l, cs, [2, 7, 5, 6, 9, 10, 11, 8])
    ensures ListYields<int, ()>(l, cs + [
      Tailward(7), Tailward(7)], [2, 5, 6, 7, 9, 10, 11, 8])
  {
    StepsCPart2Chains();
    StepsCPart2Calls();
    ListScriptAfter(l, cs, [2, 7, 5, 6, 9, 10, 11, 8], StepsCPart2);
  }

  const StepsDPart1: Script<int, ()> :=
    Then(Headward(8), 7, [2, 5, 6, 7, 9, 10, 8, 11],
    Then(Headward(8), 6, [2, 5, 6, 7, 9, 8, 10, 11],
    Done))

  lemma StepsDPart1Chains()
    ensures Chain([2, 5, 6, 7, 9, 10, 11, 8], StepsDPart1, true)
  {
  }

  lemma StepsDPart1Calls()
    ensures Calls(StepsDPart1) == [Headward(8), Headward(8)]
    ensures Final([2, 5, 6, 7, 9, 10, 11, 8], StepsDPart1) == [2, 5, 6, 7, 9, 8, 10, 11]
  {
  }

  lemma StepsDPart1Runs(l: Links<int>, cs: seq<Call<int, ()>>)
    requires ListYields<int, ()>(l, cs, [2, 5, 6, 7, 9, 10, 11, 8])
    ensures ListYields<int, ()>(l, cs + [
      Headward(8), Headward(8)], [2, 5, 6, 7, 9, 8, 10, 11])
  {
    StepsDPart1Chains();
    StepsDPart1Calls();
    ListScriptAfter(l, cs, [2, 5, 6, 7, 9, 10, 11, 8], StepsDPart1);
  }

  const StepsDPart2: Script<int, ()> :=
    Then(Headward(8), 5, [2, 5, 6, 7, 8, 9, 10, 11],
    Done)

  lemma StepsDPart2Chains()
    ensures Chain([2, 5, 6, 7, 9, 8, 10, 11], StepsDPart2, true)
  {
  }

  lemma StepsDPart2Calls()
    ensures Calls(StepsDPart2) == [Headward(8)]
    ensures Final([2, 5, 6, 7, 9, 8, 10, 11], StepsDPart2) == [2, 5, 6, 7, 8, 9, 10, 11]
  {
  }

  lemma StepsDPart2Runs(l: Links<int>, cs: seq<Call<int, ()>>)
    requires ListYields<int, ()>(l, cs, [2, 5, 6, 7, 9, 8, 10, 11])
    ensures ListYields<int, ()>(l, cs + [
      Headward(8)], [2, 5, 6, 7, 8, 9, 10, 11])
  {
    StepsDPart2Chains();
    StepsDPart2Calls();
    ListScriptAfter(l, cs, [2, 5, 6, 7, 9, 8, 10, 11], StepsDPart2);
  }

  /** tests/test_part.py:68-77: moves to the head and to the tail. */
  lemma ListMoveToEndsTest(l: Links<int>)
    requires Valid(l, [])
    ensures ListYields<int, ()>(l,
      [ToTail(9), ToTail(10), ToTail(2), ToTail(6)] +
      [ToTail(8), ToTail(5), ToTail(11), ToTail(7)] +
      [HeadMost(6), HeadMost(9)] +
      [TailMost(8), TailMost(7)],
      [9, 6, 10, 2, 5, 11, 8, 7])
  {
    FillARuns(l);
    FillBRuns(l, [ToTail(9), ToTail(10), ToTail(2), ToTail(6)]);
    ToHeadsRuns(l, [ToTail(9), ToTail(10), ToTail(2), ToTail(6)] +
        [ToTail(8), ToTail(5), ToTail(11), ToTail(7)]);
    ToTailsRuns(l, [ToTail(9), ToTail(10), ToTail(2), ToTail(6)] +
        [ToTail(8), ToTail(5), ToTail(11), ToTail(7)] +
        [HeadMost(6), HeadMost(9)]);
  }

  /** tests/test_part.py:80-82: three steps toward the head bring 2 to the head. */
  lemma ListMoveTwoTest(l: Links<int>)
    requires Valid(l, [])
    ensures ListYields<int, ()>(l,
      [ToTail(9), ToTail(10), ToTail(2), ToTail(6)] +
      [ToTail(8), ToTail(5), ToTail(11), ToTail(7)] +
      [HeadMost(6), HeadMost(9)] +
      [TailMost(8), TailMost(7)] +
      [Headward(2), Headward(2)] +
      [Headward(2)],
      [2, 9, 6, 10, 5, 11, 8, 7])
  {
    ListMoveToEndsTest(l);
    StepsAPart1Runs(l, [ToTail(9), ToTail(10), ToTail(2), ToTail(6)] +
        [ToTail(8), ToTail(5), ToTail(11), ToTail(7)] +
        [HeadMost(6), HeadMost(9)] +
        [TailMost(8), TailMost(7)]);
    StepsAPart2Runs(l, [ToTail(9), ToTail(10), ToTail(2), ToTail(6)] +
        [ToTail(8), ToTail(5), ToTail(11), ToTail(7)] +
        [HeadMost(6), HeadMost(9)] +
        [TailMost(8), TailMost(7)] +
        [Headward(2), Headward(2)]);
  }

  /** tests/test_part.py:83-86: then 5 and 6 step toward the head behind it. */
  lemma ListMoveFiveSixTest(l: Links<int>)
    requires Valid(l, [])
    ensures ListYields<int, ()>(l,
      [ToTail(9), ToTail(10), ToTail(2), ToTail(6)] +
      [ToTail(8), ToTail(5), ToTail(11), ToTail(7)] +
      [HeadMost(6), HeadMost(9)] +
      [TailMost(8), TailMost(7)] +
      [Headward(2), Headward(2)] +
      [Headward(2)] +
      [Headward(5), Headward(5)] +
      [Headward(5), Headward(6)],
      [2, 5, 6, 9, 10, 11, 8, 7])
  {
    ListMoveTwoTest(l);
    StepsBPart1Runs(l, [ToTail(9), ToTail(10), ToTail(2), ToTail(6)] +
        [ToTail(8), ToTail(5), ToTail(11), ToTail(7)] +
        [HeadMost(6), HeadMost(9)] +
        [TailMost(8), TailMost(7)] +
        [Headward(2), Headward(2)] +
        [Headward(2)]);
    StepsBPart2Runs(l, [ToTail(9), ToTail(10), ToTail(2), ToTail(6)] +
        [ToTail(8), ToTail(5), ToTail(11), ToTail(7)] +
        [HeadMost(6), HeadMost(9)] +
        [TailMost(8), TailMost(7)] +
        [Headward(2), Headward(2)] +
        [Headward(2)] +
        [Headward(5), Headward(5)]);
  }

  /** tests/test_part.py:87-90: then 7 goes to the head and steps back toward the tail. */
  lemma ListMoveSevenTest(l: Links<int>)
    requires Valid(l, [])
    ensures ListYields<int, ()>(l,
      [ToTail(9), ToTail(10), ToTail(2), ToTail(6)] +
      [ToTail(8), ToTail(5), ToTail(11), ToTail(7)] +
      [HeadMost(6), HeadMost(9)] +
      [TailMost(8), TailMost(7)] +
      [Headward(2), Headward(2)] +
      [Headward(2)] +
      [Headward(5), Headward(5)] +
      [Headward(5), Headward(6)] +
      [HeadMost(7), Tailward(7)] +
      [Tailward(7), Tailward(7)],
      [2, 5, 6, 7, 9, 10, 11, 8])
  {
    ListMoveFiveSixTest(l);
    StepsCPart1Runs(l, [ToTail(9), ToTail(10), ToTail(2), ToTail(6)] +
        [ToTail(8), ToTail(5), ToTail(11), ToTail(7)] +
        [HeadMost(6), HeadMost(9)] +
        [TailMost(8), TailMost(7)] +
        [Headward(2), Headward(2)] +
        [Headward(2)] +
        [Headward(5), Headward(5)] +
        [Headward(5), Headward(6)]);
    StepsCPart2Runs(l, [ToTail(9), ToTail(10), ToTail(2), ToTail(6)] +
        [ToTail(8), ToTail(5), ToTail(11), ToTail(7)] +
        [HeadMost(6), HeadMost(9)] +
        [TailMost(8), TailMost(7)] +
        [Headward(2), Headward(2)] +
        [Headward(2)] +
        [Headward(5), Headward(5)] +
        [Headward(5), Headward(6)] +
        [HeadMost(7), Tailward(7)]);
  }

  /** tests/test_part.py:91-94: then three steps of 8 toward the head sort the keys. */
  lemma ListMoveStepsTest(l: Links<int>)
    requires Valid(l, [])
    ensures ListYields<int, ()>(l,
      [ToTail(9), ToTail(10), ToTail(2), ToTail(6)] +
      [ToTail(8), ToTail(5), ToTail(11), ToTail(7)] +
      [HeadMost(6), HeadMost(9)] +
      [TailMost(8), TailMost(7)] +
      [Headward(2), Headward(2)] +
      [Headward(2)] +
      [Headward(5), Headward(5)] +
      [Headward(5), Headward(6)] +
      [HeadMost(7), Tailward(7)] +
      [Tailward(7), Tailward(7)] +
      [Headward(8), Headward(8)] +
      [Headward(8)],
      [2, 5, 6, 7, 8, 9, 10, 11])
  {
    ListMoveSevenTest(l);
    StepsDPart1Runs(l, [ToTail(9), ToTail(10), ToTail(2), ToTail(6)] +
        [ToTail(8), ToTail(5), ToTail(11), ToTail(7)] +
        [HeadMost(6), HeadMost(9)] +
        [TailMost(8), TailMost(7)] +
        [Headward(2), Headward(2)] +
        [Headward(2)] +
        [Headward(5), Headward(5)] +
        [Headward(5), Headward(6)] +
        [HeadMost(7), Tailward(7)] +
        [Tailward(7), Tailward(7)]);
    StepsDPart2Runs(l, [ToTail(9), ToTail(10), ToTail(2), ToTail(6)] +
        [ToTail(8), ToTail(5), ToTail(11), ToTail(7)] +
        [HeadMost(6), HeadMost(9)] +
        [TailMost(8), TailMost(7)] +
        [Headward(2), Headward(2)] +
        [Headward(2)] +
        [Headward(5), Headward(5)] +
        [Headward(5), Headward(6)] +
        [HeadMost(7), Tailward(7)] +
        [Tailward(7), Tailward(7)] +
        [Headward(8), Headward(8)]);
  }

  const Assigns: Script<string, int> :=
    Then(Assign("1", 1), 0, ["1"],
    Then(Assign("2", 2), 0, ["1", "2"],
    Then(Assign("3", 3), 0, ["1", "2", "3"],
    Then(Assign("4", 4), 0, ["1", "2", "3", "4"],
    Done))))

  lemma AssignsChains()
    ensures Chain([], Assigns, false)
  {
  }

  lemma AssignsCalls()
    ensures Calls(Assigns) == [Assign("1", 1), Assign("2", 2), Assign("3", 3), Assign("4", 4)]
    ensures Final([], Assigns) == ["1", "2", "3", "4"]
  {
  }

  lemma AssignsRuns(d: PartDict<int>)
    requires Consistent(d, [])
    ensures PartYields(d, [Assign("1", 1), Assign("2", 2), Assign("3", 3), Assign("4", 4)], ["1", "2", "3", "4"])
  {
    AssignsChains();
    AssignsCalls();
    PartScriptAfter(d, [], [], Assigns);
    assert [] + Calls(Assigns) == Calls(Assigns);
  }

  const DeleteThree: Script<string, int> :=
    Then(Delete("3"), 2, ["1", "2", "4"],
    Done)

  lemma DeleteThreeChains()
    ensures Chain(["1", "2", "3", "4"], DeleteThree, false)
  {
  }

  lemma DeleteThreeCalls()
    ensures Calls(DeleteThree) == [Delete("3")]
    ensures Final(["1", "2", "3", "4"], DeleteThree) == ["1", "2", "4"]
  {
  }

  lemma DeleteThreeRuns(d: PartDict<int>, cs: seq<Call<string, int>>)
    requires PartYields(d, cs, ["1", "2", "3", "4"])
    ensures PartYields(d, cs + [
      Delete("3")], ["1", "2", "4"])
  {
    DeleteThreeChains();
    DeleteThreeCalls();
    PartScriptAfter(d, cs, ["1", "2", "3", "4"], DeleteThree);
  }

  const AssignZero: Script<string, int> :=
    Then(Assign("0", 0), 0, ["1", "2", "4", "0"],
    Done)

  lemma AssignZeroChains()
    ensures Chain(["1", "2", "4"], AssignZero, false)
  {
  }

  lemma AssignZeroCalls()
    ensures Calls(AssignZero) == [Assign("0", 0)]
    ensures Final(["1", "2", "4"], AssignZero) == ["1", "2", "4", "0"]
  {
  }

  lemma AssignZeroRuns(d: PartDict<int>, cs: seq<Call<string, int>>)
    requires PartYields(d, cs, ["1", "2", "4"])
    ensures PartYields(d, cs + [
      Assign("0", 0)], ["1", "2", "4", "0"])
  {
    AssignZeroChains();
    AssignZeroCalls();
    PartScriptAfter(d, cs, ["1", "2", "4"], AssignZero);
  }

  const BackZero: Script<string, int> :=
    Then(Back("0"), 3, ["0", "1", "2", "4"],
    Done)

  lemma BackZeroChains()
    ensures Chain(["1", "2", "4", "0"], BackZero, false)
  {
  }

  lemma BackZeroCalls()
    ensures Calls(BackZero) == [Back("0")]
    ensures Final(["1", "2", "4", "0"], BackZero) == ["0", "1", "2", "4"]
  {
  }

  lemma BackZeroRuns(d: PartDict<int>, cs: seq<Call<string, int>>)
    requires PartYields(d, cs, ["1", "2", "4", "0"])
    ensures PartYields(d, cs + [
      Back("0")], ["0", "1", "2", "4"])
  {
    BackZeroChains();
    BackZeroCalls();
    PartScriptAfter(d, cs, ["1", "2", "4", "0"], BackZero);
  }

  const ForwardOne: Script<string, int> :=
    Then(Forward1("1"), 1, ["0", "2", "1", "4"],
    Done)

  lemma ForwardOneChains()
    ensures Chain(["0", "1", "2", "4"], ForwardOne, false)
  {
  }

  lemma ForwardOneCalls()
    ensures Calls(ForwardOne) == [Forward1("1")]
    ensures Final(["0", "1", "2", "4"], ForwardOne) == ["0", "2", "1", "4"]
  {
  }

  lemma ForwardOneRuns(d: PartDict<int>, cs: seq<Call<string, int>>)
    requires PartYields(d, cs, ["0", "1", "2", "4"])
    ensures PartYields(d, cs + [
      Forward1("1")], ["0", "2", "1", "4"])
  {
    ForwardOneChains();
    ForwardOneCalls();
    PartScriptAfter(d, cs, ["0", "1", "2", "4"], ForwardOne);
  }

  const BackwardFour: Script<string, int> :=
    Then(Backward1("4"), 3, ["0", "2", "4", "1"],
    Done)

  lemma BackwardFourChains()
    ensures Chain(["0", "2", "1", "4"], BackwardFour, false)
  {
  }

  lemma BackwardFourCalls()
    ensures Calls(BackwardFour) == [Backward1("4")]
    ensures Final(["0", "2", "1", "4"], BackwardFour) == ["0", "2", "4", "1"]
  {
  }

  lemma BackwardFourRuns(d: PartDict<int>, cs: seq<Call<string, int>>)
    requires PartYields(d, cs, ["0", "2", "1", "4"])
    ensures PartYields(d, cs + [
      Backward1("4")], ["0", "2", "4", "1"])
  {
    BackwardFourChains();
    BackwardFourCalls();
    PartScriptAfter(d, cs, ["0", "2", "1", "4"], BackwardFour);
  }

  const FrontsPart1: Script<string, int> :=
    Then(Front("2"), 1, ["0", "4", "1", "2"],
    Then(Front("1"), 2, ["0", "4", "2", "1"],
    Done))

  lemma FrontsPart1Chains()
    ensures Chain(["0", "2", "4", "1"], FrontsPart1, false)
  {
  }

  lemma FrontsPart1Calls()
    ensures Calls(FrontsPart1) == [Front("2"), Front("1")]
    ensures Final(["0", "2", "4", "1"], FrontsPart1) == ["0", "4", "2", "1"]
  {
  }

  lemma FrontsPart1Runs(d: PartDict<int>, cs: seq<Call<string, int>>)
    requires PartYields(d, cs, ["0", "2", "4", "1"])
    ensures PartYields(d, cs + [
      Front("2"), Front("1")], ["0", "4", "2", "1"])
  {
    FrontsPart1Chains();
    FrontsPart1Calls();
    PartScriptAfter(d, cs, ["0", "2", "4", "1"], FrontsPart1);
  }

  const FrontsPart2: Script<string, int> :=
    Then(Front("0"), 0, ["4", "2", "1", "0"],
    Done)

  lemma FrontsPart2Chains()
    ensures Chain(["0", "4", "2", "1"], FrontsPart2, false)
  {
  }

  lemma FrontsPart2Calls()
    ensures Calls(FrontsPart2) == [Front("0")]
    ensures Final(["0", "4", "2", "1"], FrontsPart2) == ["4", "2", "1", "0"]
  {
  }

  lemma FrontsPart2Runs(d: PartDict<int>, cs: seq<Call<string, int>>)
    requires PartYields(d, cs, ["0", "4", "2", "1"])
    ensures PartYields(d, cs + [
      Front("0")], ["4", "2", "1", "0"])
  {
    FrontsPart2Chains();
    FrontsPart2Calls();
    PartScriptAfter(d, cs, ["0", "4", "2", "1"], FrontsPart2);
  }

  /** tests/test_part.py:96-108: assignment of four parts (numbered by their ids) keeps their order. */
  lemma PartAssignTest(d: PartDict<int>)
    requires Consistent(d, [])
    ensures PartYields(d,
      [Assign("1", 1), Assign("2", 2), Assign("3", 3), Assign("4", 4)],
      ["1", "2", "3", "4"])
  {
    AssignsRuns(d);
  }

  /** tests/test_part.py:110-111: then `del` of an inner key. */
  lemma PartDeleteTest(d: PartDict<int>)
    requires Consistent(d, [])
    ensures PartYields(d,
      [Assign("1", 1), Assign("2", 2), Assign("3", 3), Assign("4", 4)] +
      [Delete("3")],
      ["1", "2", "4"])
  {
    PartAssignTest(d);
    DeleteThreeRuns(d, [Assign("1", 1), Assign("2", 2), Assign("3", 3), Assign("4", 4)]);
  }

  /** tests/test_part.py:113-115: then a new key goes last. */
  lemma PartAssignAgainTest(d: PartDict<int>)
    requires Consistent(d, [])
    ensures PartYields(d,
      [Assign("1", 1), Assign("2", 2), Assign("3", 3), Assign("4", 4)] +
      [Delete("3")] +
      [Assign("0", 0)],
      ["1", "2", "4", "0"])
  {
    PartDeleteTest(d);
    AssignZeroRuns(d, [Assign("1", 1), Assign("2", 2), Assign("3", 3), Assign("4", 4)] +
        [Delete("3")]);
  }

  /** tests/test_part.py:116-117: then `movetoback` puts it first. */
  lemma PartMoveToBackTest(d: PartDict<int>)
    requires Consistent(d, [])
    ensures PartYields(d,
      [Assign("1", 1), Assign("2", 2), Assign("3", 3), Assign("4", 4)] +
      [Delete("3")] +
      [Assign("0", 0)] +
      [Back("0")],
      ["0", "1", "2", "4"])
  {
    PartAssignAgainTest(d);
    BackZeroRuns(d, [Assign("1", 1), Assign("2", 2), Assign("3", 3), Assign("4", 4)] +
        [Delete("3")] +
        [Assign("0", 0)]);
  }

  /** tests/test_part.py:118-119: then `moveforward` swaps with the next key. */
  lemma PartMoveForwardTest(d: PartDict<int>)
    requires Consistent(d, [])
    ensures PartYields(d,
      [Assign("1", 1), Assign("2", 2), Assign("3", 3), Assign("4", 4)] +
      [Delete("3")] +
      [Assign("0", 0)] +
      [Back("0")] +
      [Forward1("1")],
      ["0", "2", "1", "4"])
  {
    PartMoveToBackTest(d);
    ForwardOneRuns(d, [Assign("1", 1), Assign("2", 2), Assign("3", 3), Assign("4", 4)] +
        [Delete("3")] +
        [Assign("0", 0)] +
        [Back("0")]);
  }

  /** tests/test_part.py:120-121: then `movebackward` swaps with the previous key. */
  lemma PartMoveBackwardTest(d: PartDict<int>)
    requires Consistent(d, [])
    ensures PartYields(d,
      [Assign("1", 1), Assign("2", 2), Assign("3", 3), Assign("4", 4)] +
      [Delete("3")] +
      [Assign("0", 0)] +
      [Back("0")] +
      [Forward1("1")] +
      [Backward1("4")],
      ["0", "2", "4", "1"])
  {
    PartMoveForwardTest(d);
    BackwardFourRuns(d, [Assign("1", 1), Assign("2", 2), Assign("3", 3), Assign("4", 4)] +
        [Delete("3")] +
        [Assign("0", 0)] +
        [Back("0")] +
        [Forward1("1")]);
  }

  /** tests/test_part.py:122-126: then three `movetofront` calls; `reversed` yields the reverse. */
  lemma PartMoveToFrontTest(d: PartDict<int>)
    requires Consistent(d, [])
    ensures PartYields(d,
      [Assign("1", 1), Assign("2", 2), Assign("3", 3), Assign("4", 4)] +
      [Delete("3")] +
      [Assign("0", 0)] +
      [Back("0")] +
      [Forward1("1")] +
      [Backward1("4")] +
      [Front("2"), Front("1")] +
      [Front("0")],
      ["4", "2", "1", "0"])
  {
    PartMoveBackwardTest(d);
    FrontsPart1Runs(d, [Assign("1", 1), Assign("2", 2), Assign("3", 3), Assign("4", 4)] +
        [Delete("3")] +
        [Assign("0", 0)] +
        [Back("0")] +
        [Forward1("1")] +
        [Backward1("4")]);
    FrontsPart2Runs(d, [Assign("1", 1), Assign("2", 2), Assign("3", 3), Assign("4", 4)] +
        [Delete("3")] +
        [Assign("0", 0)] +
        [Back("0")] +
        [Forward1("1")] +
        [Backward1("4")] +
        [Front("2"), Front("1")]);
  }

  /** tests/test_part.py:126: `reversed` then yields the keys in the opposite order. */
  lemma PartReversedTest(d: PartDict<int>)
    requires Consistent(d, [])
    ensures ReversedKeys(PartRun(d,
      [Assign("1", 1), Assign("2", 2), Assign("3", 3), Assign("4", 4)] +
      [Delete("3")] +
      [Assign("0", 0)] +
      [Back("0")] +
      [Forward1("1")] +
      [Backward1("4")] +
      [Front("2"), Front("1")] +
      [Front("0")]).state) == Complete(["0", "1", "2", "4"])
  {
    PartMoveToFrontTest(d);
    Iteration(PartRun(d,
      [Assign("1", 1), Assign("2", 2), Assign("3", 3), Assign("4", 4)] +
      [Delete("3")] +
      [Assign("0", 0)] +
      [Back("0")] +
      [Forward1("1")] +
      [Backward1("4")] +
      [Front("2"), Front("1")] +
      [Front("0")]).state, ["4", "2", "1", "0"]);
    assert Reverse(["4", "2", "1", "0"]) == ["0", "1", "2", "4"];
  }
}

/** Shared vocabulary: optional values, the Python exceptions the library raises,
    and the outcome of a call that mutates its receiver. */
module Wrappers {

  datatype Option<+T> = None | Some(value: T)

  /** The built-in exceptions raised by the modelled code. */
  datatype PyError = KeyError | TypeError | ValueError | IndexError

  /** The result of a call that returns a value or raises. */
  datatype Result<+T> = Ok(value: T) | Err(error: PyError) {
    predicate IsFailure() { Err? }
    function PropagateFailure<U>(): Result<U>
      requires Err?
    {
      Err(error)
    }
    function Extract(): T
      requires Ok?
    {
      value
    }
  }

  /** The result of a call that mutates its receiver: the receiver's state once the
      call has ended, and the exception it raised, if any. Python keeps every
      mutation performed before a raise, so `state` is meaningful in both cases. */
  datatype Step<+S> = Step(state: S, raised: Option<PyError>) {
    predicate Returned() { raised.None? }
  }

  /** Every element of a sequence, as a set. */
  function Elems<T>(s: seq<T>): set<T>
  {
    set x | x in s
  }

  /** No element occurs twice. */
  predicate Distinct<T(==)>(s: seq<T>)
  {
    forall i, j :: 0 <= i < j < |s| ==> s[i] != s[j]
  }

  /** The reverse of a sequence. */
  function Reverse<T>(s: seq<T>): (r: seq<T>)
    ensures |r| == |s|
    ensures forall i :: 0 <= i < |s| ==> r[i] == s[|s| - 1 - i]
  {
    seq(|s|, i requires 0 <= i < |s| => s[|s| - 1 - i])
  }

  /** The elements of a concatenation are those of its parts. */
  lemma {:induction false} ElemsConcat<T>(a: seq<T>, b: seq<T>)
    ensures Elems(a + b) == Elems(a) + Elems(b)
  {
    assert forall x :: x in a + b <==> x in a || x in b;
  }

  /** A duplicate-free sequence has as many distinct elements as entries. */
  lemma {:induction false} DistinctCard<T>(s: seq<T>)
    requires Distinct(s)
    ensures |Elems(s)| == |s|
  {
    if |s| > 0 {
      assert Distinct(s[1..]);
      DistinctCard(s[1..]);
      assert Elems(s) == {s[0]} + Elems(s[1..]);
      assert s[0] !in Elems(s[1..]);
    }
  }

  /** Two duplicate-free sequences with no common element concatenate without duplicates. */
  lemma {:induction false} DistinctConcat<T>(a: seq<T>, b: seq<T>)
    requires Distinct(a) && Distinct(b) && Elems(a) !! Elems(b)
    ensures Distinct(a + b)
  {
    forall i, j | 0 <= i < j < |a + b|
      ensures (a + b)[i] != (a + b)[j]
    {
      if j < |a| {
        assert (a + b)[i] == a[i] && (a + b)[j] == a[j];
      } else if i < |a| {
        assert (a + b)[i] == a[i] && a[i] in Elems(a);
        assert (a + b)[j] == b[j - |a|] && b[j - |a|] in Elems(b);
      } else {
        assert (a + b)[i] == b[i - |a|] && (a + b)[j] == b[j - |a|];
      }
    }
  }
}

/** Mixin chains (source/schediazo/attributes.py:16-29): a class's `set_element_attributes`
    runs its mixins' writes in method resolution order and ends with its base's. */
module Chains {
  import opened Wrappers
  import opened Markup
  import opened Attributes

  /** Every name the mixins of a chain may write. */
  function ChainKeys(ms: seq<Mixin>): (k: set<string>)
    ensures forall i :: 0 <= i < |ms| ==> Keys(ms[i]) <= k
  {
    if |ms| == 0 then {}
    else
      assert forall i :: 1 <= i < |ms| ==> ms[i] == ms[1..][i - 1];
      Keys(ms[0]) + ChainKeys(ms[1..])
  }

  /** `set_element_attributes` of a class whose mixins, in method resolution order, are `ms`,
      ending in a base that writes `base`. */
  function ChainWrites(ms: seq<Mixin>, base: seq<Attr>, num: real -> string): (w: seq<Attr>)
    ensures Elems(Names(w)) <= ChainKeys(ms) + Elems(Names(base))
  {
    if |ms| == 0 then base
    else
      var head := Writes(ms[0], num);
      var rest := ChainWrites(ms[1..], base, num);
      NamesConcat(head, rest);
      ElemsConcat(Names(head), Names(rest));
      assert ChainKeys(ms) == Keys(ms[0]) + ChainKeys(ms[1..]);
      head + rest
  }

  /** A name no mixin of the chain and not the base may write is not written. */
  lemma {:induction false} ChainAvoids(ms: seq<Mixin>, base: seq<Attr>, num: real -> string, n: string)
    requires forall i :: 0 <= i < |ms| ==> n !in Keys(ms[i])
    requires n !in Names(base)
    ensures n !in Names(ChainWrites(ms, base, num))
    decreases |ms|
  {
    if |ms| > 0 {
      var head := Writes(ms[0], num);
      var rest := ChainWrites(ms[1..], base, num);
      assert forall i :: 0 <= i < |ms| - 1 ==> ms[1..][i] == ms[i + 1];
      ChainAvoids(ms[1..], base, num, n);
      NamesConcat(head, rest);
      assert n !in Elems(Names(head));
    }
  }

  /** The base writes last, after everything the mixins write. */
  lemma {:induction false} ChainEndsWithBase(ms: seq<Mixin>, base: seq<Attr>, num: real -> string)
    ensures ChainWrites(ms, base, num) == ChainWrites(ms, [], num) + base
  {
    if |ms| > 0 {
      ChainEndsWithBase(ms[1..], base, num);
    }
  }

  /** The attributes of an element after the chain has set its writes on it. */
  function SetAttributes(a: seq<Attr>, ms: seq<Mixin>, base: seq<Attr>, num: real -> string): seq<Attr>
  {
    SetAll(a, ChainWrites(ms, base, num))
  }

  /** The mixins are the library's own, own pairwise disjoint names none of which the base
      writes, and the base writes each of its names once. */
  predicate Separate(ms: seq<Mixin>, base: seq<Attr>)
  {
    if |ms| == 0 then Distinct(Names(base))
    else !ms[0].Foreign? && Keys(ms[0]) !! (ChainKeys(ms[1..]) + Elems(Names(base))) && Separate(ms[1..], base)
  }

  /** Two different kinds of the library's own mixins never share a name. */
  lemma KindsSeparate(m: Mixin, n: Mixin)
    requires !m.Foreign? && !n.Foreign?
    requires m.Styling? != n.Styling? || m.Transformed? != n.Transformed? || m.Stroke? != n.Stroke?
             || m.Fill? != n.Fill? || m.Clip? != n.Clip?
    ensures Keys(m) !! Keys(n)
  {
  }

  /** No mixin of a separate chain overwrites another's attribute: on a fresh element the
      writes stay as written, each name once. */
  lemma {:induction false} ChainFresh(ms: seq<Mixin>, base: seq<Attr>, num: real -> string)
    requires Separate(ms, base)
    ensures Distinct(Names(ChainWrites(ms, base, num)))
    ensures SetAttributes([], ms, base, num) == ChainWrites(ms, base, num)
    decreases |ms|
  {
    var w := ChainWrites(ms, base, num);
    if |ms| > 0 {
      var head := Writes(ms[0], num);
      var rest := ChainWrites(ms[1..], base, num);
      ChainFresh(ms[1..], base, num);
      NamesConcat(head, rest);
      DistinctConcat(Names(head), Names(rest));
    }
    assert [] + w == w;
    SetAllFresh([], w);
  }

  /** In a separate chain, a name a mixin owns reads as that mixin wrote it. */
  lemma {:induction false} ChainLookup(ms: seq<Mixin>, base: seq<Attr>, num: real -> string, i: nat, n: string)
    requires Separate(ms, base) && i < |ms| && n in Keys(ms[i])
    ensures Lookup(ChainWrites(ms, base, num), n) == Lookup(Writes(ms[i], num), n)
    decreases |ms|
  {
    var head := Writes(ms[0], num);
    var rest := ChainWrites(ms[1..], base, num);
    LookupConcat(head, rest, n);
    if i == 0 {
      assert n !in Elems(Names(rest));
      LookupFound(rest, n);
      LookupFound(head, n);
    } else {
      assert ms[1..][i - 1] == ms[i];
      assert n in ChainKeys(ms[1..]);
      assert n !in Elems(Names(head));
      ChainLookup(ms[1..], base, num, i - 1, n);
    }
  }

  /** In a separate chain, the base's names read as the base wrote them. */
  lemma {:induction false} ChainBase(ms: seq<Mixin>, base: seq<Attr>, num: real -> string, n: string)
    requires Separate(ms, base) && n in Names(base)
    ensures Lookup(ChainWrites(ms, base, num), n) == Lookup(base, n)
    decreases |ms|
  {
    if |ms| > 0 {
      var head := Writes(ms[0], num);
      LookupConcat(head, ChainWrites(ms[1..], base, num), n);
      assert n in Elems(Names(base));
      assert n !in Elems(Names(head));
      ChainBase(ms[1..], base, num, n);
    }
  }

  // ---------------------------------------------------------------------------
  // tests/test_attributes.py
  // ---------------------------------------------------------------------------

  /** `TestStyling.test_element`: with nothing set the element keeps no attributes; setting
      both on the same element then gives exactly the two. */
  lemma {:induction false} StylingTest(num: real -> string)
    ensures SetAttributes([], [Styling(None, None)], [], num) == []
    ensures var a := SetAttributes([], [Styling(Some("font-size: 14px; fill: #43311a;"), Some("myclass"))], [], num);
      |a| == 2 && Lookup(a, "style") == Some(Str("font-size: 14px; fill: #43311a;"))
      && Lookup(a, "class") == Some(Str("myclass"))
  {
    var m := Styling(Some("font-size: 14px; fill: #43311a;"), Some("myclass"));
    assert Separate([m], []);
    ChainFresh([m], [], num);
    ChainLookup([m], [], num, 0, "style");
    ChainLookup([m], [], num, 0, "class");
    assert Separate([Styling(None, None)], []);
    ChainFresh([Styling(None, None)], [], num);
  }

  /** `TestClipping.test_element`: a clip path named `hello` is written as `url(#hello)`. */
  lemma {:induction false} ClipTest(num: real -> string)
    ensures Lookup(SetAttributes([], [Clip(Some("hello"))], [], num), "clip-path") == Some(Str("url(#hello)"))
  {
    assert Separate([Clip(Some("hello"))], []);
    ChainFresh([Clip(Some("hello"))], [], num);
    ChainLookup([Clip(Some("hello"))], [], num, 0, "clip-path");
    assert Lookup(Writes(Clip(Some("hello")), num), "clip-path") == Some(Str("url(#" + "hello" + ")"));
    assert "url(#" + "hello" + ")" == "url(#hello)";
  }
}

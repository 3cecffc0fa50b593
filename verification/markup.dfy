/** The slice of ElementTree the library writes into: an element has a tag, an ordered
    attribute map, children and an optional text. `element.set(name, value)` replaces the
    value of an existing name in place and appends a new name at the end. */
module Markup {
  import opened Wrappers

  /** What `element.set` was handed: a string, or a number passed without `str()`. */
  datatype Value = Str(s: string) | Num(x: real)

  type Attr = (string, Value)

  datatype Element = Element(tag: string, attrs: seq<Attr>, children: seq<Element>, text: Option<string>)

  function Names(a: seq<Attr>): (r: seq<string>)
    ensures |r| == |a|
    ensures forall i :: 0 <= i < |a| ==> r[i] == a[i].0
  {
    if |a| == 0 then [] else [a[0].0] + Names(a[1..])
  }

  /** The value stored under `name`, if any. */
  function Lookup(a: seq<Attr>, name: string): Option<Value>
  {
    if |a| == 0 then None
    else if a[0].0 == name then Some(a[0].1)
    else Lookup(a[1..], name)
  }

  /** `element.set(name, value)`. */
  function Set(a: seq<Attr>, name: string, v: Value): (r: seq<Attr>)
    ensures Lookup(r, name) == Some(v)
    ensures name !in Names(a) ==> r == a + [(name, v)]
    ensures name in Names(a) ==> Names(r) == Names(a)
    ensures forall n :: n != name ==> Lookup(r, n) == Lookup(a, n)
  {
    if |a| == 0 then [(name, v)]
    else if a[0].0 == name then [(name, v)] + a[1..]
    else
      assert Names(a) == [a[0].0] + Names(a[1..]);
      [a[0]] + Set(a[1..], name, v)
  }

  /** `element.set` for each pair in turn. */
  function SetAll(a: seq<Attr>, kvs: seq<Attr>): seq<Attr>
    decreases |kvs|
  {
    if |kvs| == 0 then a else SetAll(Set(a, kvs[0].0, kvs[0].1), kvs[1..])
  }

  /** Setting names that are all new, and distinct from each other, appends them in order. */
  lemma {:induction false} SetAllFresh(a: seq<Attr>, kvs: seq<Attr>)
    requires Distinct(Names(a + kvs))
    ensures SetAll(a, kvs) == a + kvs
    decreases |kvs|
  {
    if |kvs| > 0 {
      var k := kvs[0].0;
      var all := Names(a + kvs);
      assert all[|a|] == k;
      forall i | 0 <= i < |a|
        ensures Names(a)[i] != k
      {
        assert all[i] == Names(a)[i];
      }
      var a' := Set(a, k, kvs[0].1);
      assert a' == a + [kvs[0]];
      assert a' + kvs[1..] == a + kvs;
      SetAllFresh(a', kvs[1..]);
    }
  }

  /** The value under `name` in a concatenation comes from the first part when the first part
      has the name. */
  lemma {:induction false} LookupConcat(a: seq<Attr>, b: seq<Attr>, name: string)
    ensures Lookup(a + b, name) == if name in Names(a) then Lookup(a, name) else Lookup(b, name)
    decreases |a|
  {
    if |a| > 0 {
      assert (a + b)[0] == a[0] && (a + b)[1..] == a[1..] + b;
      assert Names(a) == [a[0].0] + Names(a[1..]);
      if a[0].0 != name {
        LookupConcat(a[1..], b, name);
      }
    } else {
      assert a + b == b;
    }
  }

  /** A name has a value exactly when it is one of the names. */
  lemma {:induction false} LookupFound(a: seq<Attr>, name: string)
    ensures Lookup(a, name).Some? <==> name in Names(a)
    decreases |a|
  {
    if |a| > 0 {
      assert Names(a) == [a[0].0] + Names(a[1..]);
      LookupFound(a[1..], name);
    }
  }

  /** With each name once, every pair reads back as stored. */
  lemma {:induction false} LookupIndex(a: seq<Attr>)
    requires Distinct(Names(a))
    ensures forall i :: 0 <= i < |a| ==> Lookup(a, a[i].0) == Some(a[i].1)
    decreases |a|
  {
    if |a| > 0 {
      LookupIndex(a[1..]);
      forall i | 1 <= i < |a| ensures Lookup(a, a[i].0) == Some(a[i].1) {
        assert Names(a)[0] != Names(a)[i];
        assert a[1..][i - 1] == a[i];
      }
    }
  }

  /** After setting each pair in turn, a name reads as the last pair that set it, or as before
      when no pair did: the pairs act like a list of overrides, newest first, in front of the
      old attributes. */
  lemma {:induction false} SetAllLookup(a: seq<Attr>, kvs: seq<Attr>, name: string)
    ensures Lookup(SetAll(a, kvs), name) == Lookup(Reverse(kvs) + a, name)
    decreases |kvs|
  {
    if |kvs| > 0 {
      var rest := kvs[1..];
      var a' := Set(a, kvs[0].0, kvs[0].1);
      var r := Reverse(rest);
      SetAllLookup(a', rest, name);
      ReverseFirst(kvs, a);
      LookupConcat(r, a', name);
      LookupConcat(r, [kvs[0]] + a, name);
      LookupFirst(kvs[0], a);
    } else {
      assert Reverse(kvs) + a == a;
    }
  }

  /** A pair in front answers for its own name and hides nothing else. */
  lemma LookupFirst(x: Attr, a: seq<Attr>)
    ensures forall name :: Lookup([x] + a, name) == if x.0 == name then Some(x.1) else Lookup(a, name)
  {
    assert ([x] + a)[0] == x && ([x] + a)[1..] == a;
  }

  lemma ReverseFirst<T>(s: seq<T>, t: seq<T>)
    requires |s| > 0
    ensures Reverse(s) + t == Reverse(s[1..]) + ([s[0]] + t)
  {
    assert Reverse(s) == Reverse(s[1..]) + [s[0]];
  }

  /** Concatenated names are the names of each part. */
  lemma {:induction false} NamesConcat(a: seq<Attr>, b: seq<Attr>)
    ensures Names(a + b) == Names(a) + Names(b)
  {
    var n := Names(a + b);
    assert forall i :: 0 <= i < |a| ==> n[i] == (a + b)[i].0 == a[i].0;
    assert forall i :: |a| <= i < |a| + |b| ==> n[i] == (a + b)[i].0 == b[i - |a|].0;
  }

  /** Writes that each name their attributes once, from disjoint sets of names, still name
      each attribute once when concatenated. */
  lemma {:induction false} SeparateConcat(a: seq<Attr>, b: seq<Attr>, ka: set<string>, kb: set<string>)
    requires Distinct(Names(a)) && Elems(Names(a)) <= ka
    requires Distinct(Names(b)) && Elems(Names(b)) <= kb
    requires ka !! kb
    ensures Distinct(Names(a + b)) && Elems(Names(a + b)) <= ka + kb
  {
    NamesConcat(a, b);
    ElemsConcat(Names(a), Names(b));
    DistinctConcat(Names(a), Names(b));
  }

  /** A name outside every name written reads as absent. */
  lemma Absent(a: seq<Attr>, k: set<string>, name: string)
    requires Elems(Names(a)) <= k && name !in k
    ensures Lookup(a, name) == None
  {
    LookupFound(a, name);
  }

  /** Setting the pairs of `x` and then those of `y` is setting the pairs of `x + y`. */
  lemma {:induction false} SetAllConcat(a: seq<Attr>, x: seq<Attr>, y: seq<Attr>)
    ensures SetAll(a, x + y) == SetAll(SetAll(a, x), y)
    decreases |x|
  {
    if |x| == 0 {
      assert x + y == y;
    } else {
      assert (x + y)[0] == x[0] && (x + y)[1..] == x[1..] + y;
      SetAllConcat(Set(a, x[0].0, x[0].1), x[1..], y);
    }
  }

  /** Setting never moves or drops a name: the names already there stay in front, in order. */
  lemma {:induction false} SetAllKeepsNames(a: seq<Attr>, kvs: seq<Attr>)
    ensures |SetAll(a, kvs)| >= |a| && Names(SetAll(a, kvs))[..|a|] == Names(a)
    decreases |kvs|
  {
    if |kvs| > 0 {
      var a' := Set(a, kvs[0].0, kvs[0].1);
      SetAllKeepsNames(a', kvs[1..]);
      if kvs[0].0 !in Names(a) {
        assert Names(a')[..|a|] == Names(a);
      }
      var r := Names(SetAll(a', kvs[1..]));
      assert r[..|a|] == r[..|a'|][..|a|];
    }
  }

  /** A name none of the pairs sets keeps its value. */
  lemma {:induction false} SetAllOther(a: seq<Attr>, kvs: seq<Attr>, name: string)
    requires name !in Names(kvs)
    ensures Lookup(SetAll(a, kvs), name) == Lookup(a, name)
    decreases |kvs|
  {
    if |kvs| > 0 {
      assert Names(kvs)[0] == kvs[0].0;
      assert forall i :: 0 <= i < |kvs| - 1 ==> Names(kvs[1..])[i] == Names(kvs)[i + 1];
      SetAllOther(Set(a, kvs[0].0, kvs[0].1), kvs[1..], name);
    }
  }

  /** The pair set last answers for its name, whatever was set before it. */
  lemma {:induction false} SetAllLast(a: seq<Attr>, kvs: seq<Attr>, x: Attr)
    ensures Lookup(SetAll(a, kvs + [x]), x.0) == Some(x.1)
  {
    SetAllConcat(a, kvs, [x]);
    assert [x][1..] == [];
  }

  /** A fresh element with no attributes, children or text yet. */
  function SubElement(tag: string): Element
  {
    Element(tag, [], [], None)
  }
}

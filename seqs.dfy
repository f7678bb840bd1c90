/** Element-wise operations on sequences: the `iter().map(..).collect()` and
    `map(..).flat()` shapes that the conversions and the frontend store use. */
module Seqs {

  import opened Wrappers

  /** `xs.into_iter().map(f).collect()`. */
  function MapSeq<A, B>(f: A -> B, xs: seq<A>): (r: seq<B>)
    ensures |r| == |xs|
    ensures forall i :: 0 <= i < |xs| ==> r[i] == f(xs[i])
  {
    if xs == [] then [] else [f(xs[0])] + MapSeq(f, xs[1..])
  }

  /** Composing two element-wise conversions is one element-wise conversion. */
  lemma {:induction false} MapSeqCompose<A, B, C>(f: A -> B, g: B -> C, h: A -> C, xs: seq<A>)
    requires forall x :: h(x) == g(f(x))
    ensures MapSeq(g, MapSeq(f, xs)) == MapSeq(h, xs)
  {
    if xs != [] {
      MapSeqCompose(f, g, h, xs[1..]);
      assert MapSeq(f, xs)[1..] == MapSeq(f, xs[1..]);
    }
  }

  /** `into_iter().flatten()` over options: the present values, in order. */
  function Flatten<T>(xs: seq<Option<T>>): seq<T>
    decreases |xs|
  {
    if xs == [] then []
    else
      var last := xs[|xs| - 1];
      Flatten(xs[..|xs| - 1]) + if last.Some? then [last.value] else []
  }

  /** The positions holding a value, in increasing order. */
  function Present<T>(xs: seq<Option<T>>): (idx: seq<nat>)
    decreases |xs|
    ensures forall k :: 0 <= k < |idx| ==> idx[k] < |xs| && xs[idx[k]].Some?
    ensures forall k, l :: 0 <= k < l < |idx| ==> idx[k] < idx[l]
    ensures forall i :: 0 <= i < |xs| && xs[i].Some? ==> i in idx
  {
    if xs == [] then []
    else
      var init := xs[..|xs| - 1];
      var rest := Present(init);
      assert forall i :: 0 <= i < |init| ==> init[i] == xs[i];
      rest + if xs[|xs| - 1].Some? then [|xs| - 1] else []
  }

  /** Flattening keeps exactly the present values, in their order. */
  lemma {:induction false} FlattenPresent<T>(xs: seq<Option<T>>)
    decreases |xs|
    ensures |Flatten(xs)| == |Present(xs)|
    ensures forall k :: 0 <= k < |Present(xs)| ==> Flatten(xs)[k] == xs[Present(xs)[k]].value
  {
    if xs != [] {
      var init := xs[..|xs| - 1];
      FlattenPresent(init);
      var f, p := Flatten(init), Present(init);
      var tail := if xs[|xs| - 1].Some? then [xs[|xs| - 1].value] else [];
      assert Flatten(xs) == f + tail;
      assert Present(xs) == p + if xs[|xs| - 1].Some? then [|xs| - 1] else [];
      forall k | 0 <= k < |p| ensures Flatten(xs)[k] == xs[Present(xs)[k]].value {
        assert Flatten(xs)[k] == f[k] && Present(xs)[k] == p[k];
        assert xs[p[k]] == init[p[k]];
      }
    }
  }

  /** The elements of a sequence are pairwise distinct. */
  ghost predicate Distinct<T>(xs: seq<T>)
  {
    forall i, j :: 0 <= i < j < |xs| ==> xs[i] != xs[j]
  }

  /** The elements of a sequence, as a set (`collect::<HashSet<_>>()`). */
  ghost function Elems<T>(xs: seq<T>): set<T>
  {
    set x | x in xs
  }

  /** A sequence without repetitions lists exactly as many elements as its set holds. */
  lemma {:induction false} DistinctCard<T>(xs: seq<T>)
    requires Distinct(xs)
    ensures |set x | x in xs| == |xs|
  {
    if xs != [] {
      DistinctCard(xs[1..]);
      var tail := set x | x in xs[1..];
      assert (set x | x in xs) == tail + {xs[0]};
      assert xs[0] !in tail;
    }
  }

  /** Lists the keys of a map once each, in an order the caller may not rely on
      (the order in which a driver or a hash set yields them). */
  method Enumerate<K(==)>(keys: set<K>) returns (ks: seq<K>)
    ensures Distinct(ks)
    ensures forall k :: k in ks <==> k in keys
    ensures |ks| == |keys|
  {
    ks := [];
    var rest := keys;
    while rest != {}
      invariant Distinct(ks)
      invariant forall k :: k in ks <==> k in keys && k !in rest
      invariant rest <= keys
      invariant |ks| + |rest| == |keys|
      decreases |rest|
    {
      var k :| k in rest;
      ks := ks + [k];
      rest := rest - {k};
    }
  }
}

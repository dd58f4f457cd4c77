/**
  Grouping of tagged values by tag, as the charts do with a dictionary keyed by day: the tags in
  order of first appearance (the insertion order `Object.keys` reports for non-numeric keys), and
  the values carrying each tag.
*/
module Grouping {

  predicate Distinct<K(==)>(ks: seq<K>) {
    forall i, j :: 0 <= i < j < |ks| ==> ks[i] != ks[j]
  }

  /** Each element of `ks` once, in the order it first occurs. */
  function FirstAppearance<K(==)>(ks: seq<K>): (r: seq<K>)
    ensures Distinct(r)
  {
    if ks == [] then []
    else
      var r0 := FirstAppearance(ks[..|ks| - 1]);
      assert ks == ks[..|ks| - 1] + [ks[|ks| - 1]];
      if ks[|ks| - 1] in r0 then r0 else r0 + [ks[|ks| - 1]]
  }

  /** Everything in `ks` appears in `FirstAppearance(ks)`. */
  lemma {:induction false} FirstAppearanceCovers<K>(ks: seq<K>, i: nat)
    requires i < |ks|
    ensures ks[i] in FirstAppearance(ks)
  {
    var init := ks[..|ks| - 1];
    if i < |init| {
      FirstAppearanceCovers(init, i);
    }
  }

  /** Nothing appears in `FirstAppearance(ks)` that is not in `ks`. */
  lemma {:induction false} FirstAppearanceWithin<K>(ks: seq<K>, i: nat)
    requires i < |FirstAppearance(ks)|
    ensures FirstAppearance(ks)[i] in ks
  {
    var init := ks[..|ks| - 1];
    var r0 := FirstAppearance(init);
    if i < |r0| {
      FirstAppearanceWithin(init, i);
      assert init[..] == ks[..|ks| - 1];
    }
  }

  /** Appending one element adds it at the end if it is new, and changes nothing otherwise. */
  lemma FirstAppearanceSnoc<K>(ks: seq<K>, k: K)
    ensures FirstAppearance(ks + [k]) == if k in FirstAppearance(ks) then FirstAppearance(ks) else FirstAppearance(ks) + [k]
  {
    assert (ks + [k])[..|ks|] == ks;
  }

  /** An element occurs in `FirstAppearance(ks)` exactly when it occurs in `ks`. */
  lemma FirstAppearanceSame<K>(ks: seq<K>, k: K)
    ensures k in FirstAppearance(ks) <==> k in ks
  {
    if k in ks {
      var i :| 0 <= i < |ks| && ks[i] == k;
      FirstAppearanceCovers(ks, i);
    }
    if k in FirstAppearance(ks) {
      var i :| 0 <= i < |FirstAppearance(ks)| && FirstAppearance(ks)[i] == k;
      FirstAppearanceWithin(ks, i);
    }
  }

  /**
    A dictionary whose keys are the tags seen so far, listed in `order` as they first appeared,
    stays so when one more tag is seen and its key is added.
  */
  lemma OrderStep<K, V>(m: map<K, V>, order: seq<K>, ts: seq<K>, k: K, m2: map<K, V>)
    requires order == FirstAppearance(ts)
    requires forall j :: j in m <==> j in order
    requires m2.Keys == m.Keys + {k}
    ensures (if k in m then order else order + [k]) == FirstAppearance(ts + [k])
    ensures forall j :: j in m2 <==> j in (if k in m then order else order + [k])
  {
    FirstAppearanceSnoc(ts, k);
    var order2 := if k in m then order else order + [k];
    forall j
      ensures j in m2 <==> j in order2
    {
      assert j in order2 <==> j in order || j == k;
    }
  }

  function TagsOf<K, V>(xs: seq<(K, V)>): (r: seq<K>)
    ensures |r| == |xs| && forall i :: 0 <= i < |xs| ==> r[i] == xs[i].0
  {
    seq(|xs|, i requires 0 <= i < |xs| => xs[i].0)
  }

  /** The values tagged `k`, in their order in `xs`. */
  function Members<K(==), V>(xs: seq<(K, V)>, k: K): seq<V> {
    if xs == [] then []
    else Members(xs[..|xs| - 1], k) + (if xs[|xs| - 1].0 == k then [xs[|xs| - 1].1] else [])
  }

  /** A tag has members exactly when it occurs. */
  lemma {:induction false} MembersNonEmpty<K, V>(xs: seq<(K, V)>, k: K)
    ensures Members(xs, k) != [] <==> k in TagsOf(xs)
  {
    if xs != [] {
      var init := xs[..|xs| - 1];
      MembersNonEmpty(init, k);
      assert TagsOf(xs) == TagsOf(init) + [xs[|xs| - 1].0];
    }
  }

  lemma {:induction false} MembersAppend<K, V>(a: seq<(K, V)>, b: seq<(K, V)>, k: K)
    ensures Members(a + b, k) == Members(a, k) + Members(b, k)
    decreases |b|
  {
    if b == [] {
      assert a + b == a;
    } else {
      var binit := b[..|b| - 1];
      assert (a + b)[..|a + b| - 1] == a + binit;
      MembersAppend(a, binit, k);
    }
  }

  /** The number of values under the tags `ks`, tag by tag. */
  function TotalSize<K(==), V>(xs: seq<(K, V)>, ks: seq<K>): nat {
    if ks == [] then 0 else |Members(xs, ks[0])| + TotalSize(xs, ks[1..])
  }

  lemma {:induction false} TotalSizeSnoc<K, V>(xs: seq<(K, V)>, ks: seq<K>, k: K)
    ensures TotalSize(xs, ks + [k]) == TotalSize(xs, ks) + |Members(xs, k)|
  {
    if ks != [] {
      assert (ks + [k])[1..] == ks[1..] + [k];
      TotalSizeSnoc(xs, ks[1..], k);
    }
  }

  /** One more value adds one to the total of its own tag and nothing to any other. */
  lemma {:induction false} TotalSizeStep<K, V>(xs: seq<(K, V)>, x: (K, V), ks: seq<K>)
    requires Distinct(ks)
    ensures TotalSize(xs + [x], ks) == TotalSize(xs, ks) + (if x.0 in ks then 1 else 0)
  {
    if ks != [] {
      assert (xs + [x])[..|xs + [x]| - 1] == xs;
      TotalSizeStep(xs, x, ks[1..]);
      assert x.0 in ks <==> x.0 == ks[0] || x.0 in ks[1..];
    }
  }

  /** Every value lands in exactly one group: the group sizes add up to the number of values. */
  lemma {:induction false} GroupsPartition<K, V>(xs: seq<(K, V)>)
    ensures TotalSize(xs, FirstAppearance(TagsOf(xs))) == |xs|
  {
    if xs != [] {
      var init, x := xs[..|xs| - 1], xs[|xs| - 1];
      assert xs == init + [x];
      GroupsPartition(init);
      var tags := TagsOf(init);
      assert TagsOf(xs) == tags + [x.0];
      assert TagsOf(xs)[..|xs| - 1] == tags;
      var fa := FirstAppearance(tags);
      TotalSizeStep(init, x, fa);
      FirstAppearanceSame(tags, x.0);
      if x.0 !in fa {
        TotalSizeSnoc(xs, fa, x.0);
        MembersNonEmpty(init, x.0);
        assert Members(xs, x.0) == Members(init, x.0) + [x.1];
      }
    }
  }
}

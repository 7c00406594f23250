/**
  Exactly when mergeBindings (server/proxy/bindings.go:16-38) is associative.

  Merging one forest and then another is merging their concatenation. So the question is when two
  forests do the same to every forest that they are merged into; it is answered by looking only at
  what they give when merged into nothing, level by level.
 */
module MergeEquivalence {
  import opened Bindings
  import opened MergeBindings

  /** All children that a forest has below roots of one key, in order. */
  function Under(s: seq<Binding>, k: Key): seq<Binding> {
    if s == [] then []
    else (if KeyOf(s[0]) == k then s[0].bindings else []) + Under(s[1..], k)
  }

  /** The number of nodes. */
  function Count(s: seq<Binding>): nat
    decreases s
  {
    if s == [] then 0 else 1 + Count(s[0].bindings) + Count(s[1..])
  }

  lemma {:induction false} CountConcat(s: seq<Binding>, t: seq<Binding>)
    ensures Count(s + t) == Count(s) + Count(t)
  {
    if s == [] {
      assert s + t == t;
    } else {
      assert (s + t)[1..] == s[1..] + t;
      CountConcat(s[1..], t);
    }
  }

  lemma {:induction false} FewerUnder(s: seq<Binding>, k: Key)
    ensures Count(Under(s, k)) <= Count(s)
    ensures Has(s, k) ==> Count(Under(s, k)) < Count(s)
  {
    if s != [] {
      FewerUnder(s[1..], k);
      HasTail(s, k);
      CountConcat(if KeyOf(s[0]) == k then s[0].bindings else [], Under(s[1..], k));
    }
  }

  /** Merged into nothing, the two forests give the same, and so do their children below each key. */
  predicate Agree(s: seq<Binding>, t: seq<Binding>)
    decreases Count(s)
  {
    && Merge([], s) == Merge([], t)
    && forall i :: 0 <= i < |s| ==>
      var k := KeyOf(s[i]);
      FewerUnder(s, k);
      Agree(Under(s, k), Under(t, k))
  }

  /** The two forests do the same to every forest. */
  ghost predicate Equivalent(s: seq<Binding>, t: seq<Binding>) {
    forall a :: Merge(a, s) == Merge(a, t)
  }

  // ---------------------------------------------------------------- concatenation

  lemma {:induction false} MergeConcat(a: seq<Binding>, s: seq<Binding>, t: seq<Binding>)
    ensures Merge(a, s + t) == Merge(Merge(a, s), t)
    decreases |s|
  {
    if s == [] {
      assert s + t == t;
    } else {
      assert (s + t)[1..] == s[1..] + t;
      MergeConcat(Absorb(a, s[0]), s[1..], t);
    }
  }

  lemma MergeSnoc(a: seq<Binding>, s: seq<Binding>)
    requires s != []
    ensures Merge(a, s) == Absorb(Merge(a, s[..|s| - 1]), s[|s| - 1])
  {
    assert s == s[..|s| - 1] + [s[|s| - 1]];
    MergeConcat(a, s[..|s| - 1], [s[|s| - 1]]);
    MergeOne(Merge(a, s[..|s| - 1]), s[|s| - 1]);
  }

  lemma {:induction false} UnderConcat(s: seq<Binding>, t: seq<Binding>, k: Key)
    ensures Under(s + t, k) == Under(s, k) + Under(t, k)
  {
    if s == [] {
      assert s + t == t;
    } else {
      assert (s + t)[1..] == s[1..] + t;
      UnderConcat(s[1..], t, k);
    }
  }

  lemma UnderSnoc(s: seq<Binding>, k: Key)
    requires s != []
    ensures var n := s[|s| - 1];
            Under(s, k) == Under(s[..|s| - 1], k) + if KeyOf(n) == k then n.bindings else []
  {
    var n := s[|s| - 1];
    assert s == s[..|s| - 1] + [n] && [n][1..] == [];
    UnderConcat(s[..|s| - 1], [n], k);
  }

  lemma {:induction false} NothingUnder(s: seq<Binding>, k: Key)
    requires !Has(s, k)
    ensures Under(s, k) == []
  {
    if s != [] {
      HasTail(s, k);
      NothingUnder(s[1..], k);
    }
  }

  // ---------------------------------------------------------------- what merging does to a node

  /** What becomes of a node that is there already. */
  ghost function NodeAfter(x: Binding, s: seq<Binding>): Binding {
    if !Has(s, KeyOf(x)) then x
    else
      HasMergeAny([], s, KeyOf(x));
      var o := At(Merge([], s), KeyOf(x));
      if x.bindings == [] then o else o.(bindings := Merge(x.bindings, Under(s, KeyOf(x))))
  }

  lemma HasSnoc(s: seq<Binding>, k: Key)
    requires s != []
    ensures Has(s, k) <==> Has(s[..|s| - 1], k) || KeyOf(s[|s| - 1]) == k
  {
    var r, n := s[..|s| - 1], s[|s| - 1];
    assert s == r + [n];
    HasConcat(r, [n], k);
    assert KeyOf([n][0]) == KeyOf(n);
  }

  /** In a forest of distinct roots, absorbing a node changes the root of its key, or adds it. */
  lemma AtAbsorb(e: seq<Binding>, n: Binding, k: Key)
    requires Distinct(e) && Distinct(Absorb(e, n)) && Has(Absorb(e, n), k)
    ensures At(Absorb(e, n), k) ==
            if k != KeyOf(n) then (HasAbsorb(e, n, k); At(e, k))
            else if Has(e, k) then MergeNode(At(e, k), n) else n
  {
    var r := Absorb(e, n);
    HasAbsorb(e, n, k);
    AbsorbKeepsKeys(e, n);
    if Has(e, k) {
      var i :| 0 <= i < |e| && KeyOf(e[i]) == k;
      AtUnique(e, i);
      AtUnique(r, i);
    } else {
      AtUnique(r, |e|);
    }
  }

  lemma NodeAfterSnoc(x: Binding, s: seq<Binding>)
    requires s != []
    ensures var r, n := NodeAfter(x, s[..|s| - 1]), s[|s| - 1];
            NodeAfter(x, s) == if KeyOf(n) == KeyOf(x) then MergeNode(r, n) else r
  {
    var front, n, k := s[..|s| - 1], s[|s| - 1], KeyOf(x);
    HasSnoc(s, k);
    UnderSnoc(s, k);
    MergeSnoc([], s);
    MergeKeepsDistinct([], front);
    MergeKeepsDistinct([], s);
    HasMergeAny([], s, k);
    HasMergeAny([], front, k);
    if Has(s, k) {
      AtAbsorb(Merge([], front), n, k);
    }
    if !Has(front, k) {
      NothingUnder(front, k);
    }
    assert [] + n.bindings == n.bindings && Under(front, k) + [] == Under(front, k);
    if x.bindings != [] {
      ChildrenAfterSnoc(x, front, n);
    }
  }

  /** The children's part of that. */
  lemma ChildrenAfterSnoc(x: Binding, front: seq<Binding>, n: Binding)
    requires x.bindings != []
    ensures Merge(x.bindings, Under(front, KeyOf(x))) != []
    ensures Merge(x.bindings, Under(front, KeyOf(x)) + n.bindings) ==
            Merge(Merge(x.bindings, Under(front, KeyOf(x))), n.bindings)
  {
    MergeLength(x.bindings, Under(front, KeyOf(x)));
    MergeConcat(x.bindings, Under(front, KeyOf(x)), n.bindings);
  }

  // ---------------------------------------------------------------- the closed form of any merge

  ghost function NodesAfter(a: seq<Binding>, s: seq<Binding>): (r: seq<Binding>)
    ensures |r| == |a|
  {
    seq(|a|, i requires 0 <= i < |a| => NodeAfter(a[i], s))
  }

  lemma {:induction false} MissingReplaced(e: seq<Binding>, n: Binding, a: seq<Binding>)
    ensures Missing(Replace(e, n), a) ==
            if Has(a, KeyOf(n)) then Missing(e, a) else Replace(Missing(e, a), n)
  {
    if e == [] {
      assert Replace(e, n) == [];
    } else {
      var head, rest := Replace([e[0]], n)[0], Replace(e[1..], n);
      ReplaceHead(e, n);
      if KeyOf(e[0]) == KeyOf(n) {
        NodeKeepsKey(e[0], n);
      }
      MissingReplaced(e[1..], n, a);
      assert ([head] + rest)[1..] == rest;
      if !Has(a, KeyOf(e[0])) {
        assert ([e[0]] + Missing(e[1..], a))[1..] == Missing(e[1..], a);
        ReplaceHead([e[0]] + Missing(e[1..], a), n);
      }
    }
  }

  lemma MissingAbsorbed(e: seq<Binding>, n: Binding, a: seq<Binding>)
    ensures Missing(Absorb(e, n), a) ==
            if Has(a, KeyOf(n)) then Missing(e, a) else Absorb(Missing(e, a), n)
  {
    HasMissing(e, a, KeyOf(n));
    if Has(e, KeyOf(n)) {
      MissingReplaced(e, n, a);
      AbsorbIsReplace(e, n);
      AbsorbIsReplace(Missing(e, a), n);
    } else {
      MissingConcat(e, [n], a);
      assert [n][1..] == [];
    }
  }

  lemma NothingReplaced(e: seq<Binding>, n: Binding)
    requires !Has(e, KeyOf(n))
    ensures Replace(e, n) == e
  {
  }

  lemma ReplaceConcat(u: seq<Binding>, m: seq<Binding>, n: Binding)
    ensures Replace(u + m, n) == Replace(u, n) + Replace(m, n)
  {
  }

  lemma AbsorbIsReplace(s: seq<Binding>, n: Binding)
    ensures Absorb(s, n) == if Has(s, KeyOf(n)) then Replace(s, n) else s + [n]
  {
  }

  /** Absorbing into two parts of which at most one has the key. */
  lemma AbsorbConcat(u: seq<Binding>, m: seq<Binding>, n: Binding)
    requires !(Has(u, KeyOf(n)) && Has(m, KeyOf(n)))
    ensures Absorb(u + m, n) == if Has(u, KeyOf(n)) then Replace(u, n) + m else u + Absorb(m, n)
  {
    HasConcat(u, m, KeyOf(n));
    AbsorbIsReplace(u + m, n);
    AbsorbIsReplace(m, n);
    ReplaceConcat(u, m, n);
    if Has(u, KeyOf(n)) {
      NothingReplaced(m, n);
    } else if Has(m, KeyOf(n)) {
      NothingReplaced(u, n);
    } else {
      assert u + m + [n] == u + (m + [n]);
    }
  }

  lemma NodesKeepKeys(a: seq<Binding>, s: seq<Binding>, k: Key)
    ensures forall i :: 0 <= i < |a| ==> KeyOf(NodesAfter(a, s)[i]) == KeyOf(a[i])
    ensures Has(NodesAfter(a, s), k) <==> Has(a, k)
  {
    forall i | 0 <= i < |a| ensures KeyOf(NodesAfter(a, s)[i]) == KeyOf(a[i]) {
      HasMergeAny([], s, KeyOf(a[i]));
    }
    if Has(a, k) {
      var i :| 0 <= i < |a| && KeyOf(a[i]) == k;
      assert KeyOf(NodesAfter(a, s)[i]) == k;
    }
  }

  lemma NodesAfterSnoc(a: seq<Binding>, s: seq<Binding>)
    requires s != []
    ensures NodesAfter(a, s) == Replace(NodesAfter(a, s[..|s| - 1]), s[|s| - 1])
  {
    NodesKeepKeys(a, s[..|s| - 1], ("", ""));
    forall i | 0 <= i < |a|
      ensures NodesAfter(a, s)[i] == Replace(NodesAfter(a, s[..|s| - 1]), s[|s| - 1])[i]
    {
      NodeAfterSnoc(a[i], s);
    }
  }

  /** Any merge: the nodes that are there change in place, what merging into nothing has besides comes after them. */
  lemma {:induction false} AnyClosedForm(a: seq<Binding>, s: seq<Binding>)
    ensures Merge(a, s) == NodesAfter(a, s) + Missing(Merge([], s), a)
    decreases |s|
  {
    if s == [] {
      assert NodesAfter(a, s) == a;
    } else {
      var front, n := s[..|s| - 1], s[|s| - 1];
      var u, m := NodesAfter(a, front), Missing(Merge([], front), a);
      AnyClosedForm(a, front);
      MergeSnoc(a, s);
      MergeSnoc([], s);
      NodesKeepKeys(a, front, KeyOf(n));
      HasMissing(Merge([], front), a, KeyOf(n));
      AbsorbConcat(u, m, n);
      MissingAbsorbed(Merge([], front), n, a);
      NodesAfterSnoc(a, s);
      if !Has(a, KeyOf(n)) {
        NothingReplaced(u, n);
      }
    }
  }

  // ---------------------------------------------------------------- the theorem

  lemma SameNode(x: Binding, s: seq<Binding>, t: seq<Binding>)
    requires Merge([], s) == Merge([], t)
    requires Has(s, KeyOf(x)) ==> Merge(x.bindings, Under(s, KeyOf(x))) == Merge(x.bindings, Under(t, KeyOf(x)))
    ensures NodeAfter(x, s) == NodeAfter(x, t)
  {
    HasMergeAny([], s, KeyOf(x));
    HasMergeAny([], t, KeyOf(x));
  }

  lemma {:induction false} AgreeSuffices(a: seq<Binding>, s: seq<Binding>, t: seq<Binding>)
    requires Agree(s, t)
    ensures Merge(a, s) == Merge(a, t)
    decreases Count(s)
  {
    forall i | 0 <= i < |a| ensures NodeAfter(a[i], s) == NodeAfter(a[i], t) {
      var x, k := a[i], KeyOf(a[i]);
      if Has(s, k) {
        var j :| 0 <= j < |s| && KeyOf(s[j]) == k;
        FewerUnder(s, k);
        assert Agree(Under(s, KeyOf(s[j])), Under(t, KeyOf(s[j])));
        AgreeSuffices(x.bindings, Under(s, k), Under(t, k));
      }
      SameNode(x, s, t);
    }
    AnyClosedForm(a, s);
    AnyClosedForm(a, t);
    assert NodesAfter(a, s) == NodesAfter(a, t);
  }

  function Longest(s: seq<Binding>): nat {
    if s == [] then 0
    else if |s[0].location| > Longest(s[1..]) then |s[0].location| else Longest(s[1..])
  }

  lemma {:induction false} LongestIsLongest(s: seq<Binding>, i: nat)
    requires i < |s|
    ensures |s[i].location| <= Longest(s)
  {
    if i > 0 {
      LongestIsLongest(s[1..], i - 1);
    }
  }

  /** There is always a key that a forest does not use. */
  lemma FreshKey(s: seq<Binding>) returns (k: Key)
    ensures !Has(s, k)
  {
    k := ("", seq(Longest(s) + 1, i => 'x'));
    if Has(s, k) {
      var i :| 0 <= i < |s| && KeyOf(s[i]) == k;
      LongestIsLongest(s, i);
    }
  }

  lemma {:induction false} NothingMissing(e: seq<Binding>, a: seq<Binding>)
    requires forall k :: Has(a, k) ==> !Has(e, k)
    ensures Missing(e, a) == e
  {
    if e != [] {
      forall k ensures Has(e, k) <==> KeyOf(e[0]) == k || Has(e[1..], k) {
        HasTail(e, k);
      }
      assert Has(e, KeyOf(e[0]));
      NothingMissing(e[1..], a);
    }
  }

  /** Below a node that the forest does not touch, merging shows what it gives on its own. */
  lemma MergeBesides(f: Binding, s: seq<Binding>)
    requires !Has(s, KeyOf(f))
    ensures Merge([f], s) == [f] + Merge([], s)
  {
    AnyClosedForm([f], s);
    assert NodesAfter([f], s) == [f];
    forall k | Has([f], k) ensures !Has(Merge([], s), k) {
      HasMergeAny([], s, k);
    }
    NothingMissing(Merge([], s), [f]);
  }

  lemma SameUnder(s: seq<Binding>, t: seq<Binding>, k: Key, x: seq<Binding>)
    requires Equivalent(s, t) && Has(s, k) && x != []
    ensures Merge(x, Under(s, k)) == Merge(x, Under(t, k))
  {
    var a := [Container(k.0, k.1, x)];
    assert Merge([], s) == Merge([], t) && Merge(a, s) == Merge(a, t);
    HasMergeAny([], s, k);
    HasMergeAny([], t, k);
    AnyClosedForm(a, s);
    AnyClosedForm(a, t);
    assert NodeAfter(a[0], s) == Merge(a, s)[0] && NodeAfter(a[0], t) == Merge(a, t)[0];
  }

  lemma EquivalentUnder(s: seq<Binding>, t: seq<Binding>, k: Key)
    requires Equivalent(s, t) && Has(s, k)
    ensures Equivalent(Under(s, k), Under(t, k))
  {
    var u, v := Under(s, k), Under(t, k);
    forall x ensures Merge(x, u) == Merge(x, v) {
      if x != [] {
        SameUnder(s, t, k, x);
      } else {
        var key := FreshKey(u + v);
        var f := Leaf(key.0, key.1);
        HasConcat(u, v, key);
        SameUnder(s, t, k, [f]);
        MergeBesides(f, u);
        MergeBesides(f, v);
        assert Merge([], u) == Merge([f], u)[1..] && Merge([], v) == Merge([f], v)[1..];
      }
    }
  }

  lemma {:induction false} AgreeNeeded(s: seq<Binding>, t: seq<Binding>)
    requires Equivalent(s, t)
    ensures Agree(s, t)
    decreases Count(s)
  {
    assert Merge([], s) == Merge([], t);
    forall i | 0 <= i < |s| ensures Agree(Under(s, KeyOf(s[i])), Under(t, KeyOf(s[i]))) {
      FewerUnder(s, KeyOf(s[i]));
      EquivalentUnder(s, t, KeyOf(s[i]));
      AgreeNeeded(Under(s, KeyOf(s[i])), Under(t, KeyOf(s[i])));
    }
  }

  /** Two forests do the same to every forest if and only if they agree when merged into nothing, level by level. */
  lemma EquivalentIffAgree(s: seq<Binding>, t: seq<Binding>)
    ensures Equivalent(s, t) <==> Agree(s, t)
  {
    if Equivalent(s, t) {
      AgreeNeeded(s, t);
    }
    if Agree(s, t) {
      forall a ensures Merge(a, s) == Merge(a, t) {
        AgreeSuffices(a, s, t);
      }
    }
  }

  ghost predicate Associates(b: seq<Binding>, c: seq<Binding>) {
    forall a :: Merge(Merge(a, b), c) == Merge(a, Merge(b, c))
  }

  /**
    Merging is associative with these two right operands, for every left one, if and only if their
    concatenation agrees with their merge.
   */
  lemma MergeAssociativeIff(b: seq<Binding>, c: seq<Binding>)
    ensures Associates(b, c) <==> Agree(b + c, Merge(b, c))
  {
    EquivalentIffAgree(b + c, Merge(b, c));
    forall a ensures Merge(a, b + c) == Merge(Merge(a, b), c) {
      MergeConcat(a, b, c);
    }
    assert Associates(b, c) <==> Equivalent(b + c, Merge(b, c));
  }
}

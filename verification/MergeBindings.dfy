/**
  mergeBindings (server/proxy/bindings.go): the keyed, recursive merge of binding forests.

  The loop is specified by `Merge`, a left fold of `Absorb`. The algebra is proved through a
  closed form: when the siblings of `b` have distinct keys,
      Merge(a, b) == Update(a, b) + Missing(b, a)
 */
module MergeBindings {
  import opened Wrappers
  import opened Bindings

  type Key = (AppID, Location)

  function KeyOf(b: Binding): Key {
    (b.appID, b.location)
  }

  predicate Has(bb: seq<Binding>, k: Key) {
    exists i :: 0 <= i < |bb| && KeyOf(bb[i]) == k
  }

  /** No two siblings share (AppID, Location). */
  predicate Distinct(bb: seq<Binding>) {
    forall i, j :: 0 <= i < j < |bb| ==> KeyOf(bb[i]) != KeyOf(bb[j])
  }

  /** No two siblings share (AppID, Location), at any level. */
  predicate DeepDistinct(bb: seq<Binding>) {
    Distinct(bb) && forall i :: 0 <= i < |bb| ==> DeepDistinct(bb[i].bindings)
  }

  // ---------------------------------------------------------------- specification

  function Merge(bb1: seq<Binding>, bb2: seq<Binding>): seq<Binding>
    decreases bb2, 0
  {
    if bb2 == [] then bb1 else Merge(Absorb(bb1, bb2[0]), bb2[1..])
  }

  /** One iteration of the outer loop: replace every node with b's key, or append b. */
  function Absorb(out: seq<Binding>, b: Binding): seq<Binding>
    decreases b, 1
  {
    if Has(out, KeyOf(b)) then
      seq(|out|, i requires 0 <= i < |out| =>
        if KeyOf(out[i]) == KeyOf(b) then MergeNode(out[i], b) else out[i])
    else
      out + [b]
  }

  /** `b` overrides `o`; the children of `o`, if any, are merged with those of `b`. */
  function MergeNode(o: Binding, b: Binding): Binding
    decreases b, 0
  {
    if o.bindings == [] then b else b.(bindings := Merge(o.bindings, b.bindings))
  }

  // ---------------------------------------------------------------- the loops

  /** `out` after the inner loop has visited its first n nodes. */
  ghost function Visited(out: seq<Binding>, b: Binding, n: nat): (r: seq<Binding>)
    ensures |r| == |out|
  {
    seq(|out|, i requires 0 <= i < |out| =>
      if i < n && KeyOf(out[i]) == KeyOf(b) then MergeNode(out[i], b) else out[i])
  }

  lemma VisitedAll(out: seq<Binding>, b: Binding)
    ensures Absorb(out, b) == if Has(out, KeyOf(b)) then Visited(out, b, |out|) else out + [b]
    ensures !Has(out, KeyOf(b)) ==> Visited(out, b, |out|) == out
  {
  }

  lemma VisitOne(out: seq<Binding>, b: Binding, n: nat)
    requires n < |out|
    ensures Visited(out, b, n)[n] == out[n]
    ensures Visited(out, b, n + 1) ==
            if KeyOf(out[n]) == KeyOf(b) then Visited(out, b, n)[n := MergeNode(out[n], b)] else Visited(out, b, n)
  {
  }

  method MergeLoop(bb1: seq<Binding>, bb2: seq<Binding>) returns (out: seq<Binding>)
    ensures out == Merge(bb1, bb2)
    decreases bb2
  {
    out := bb1;
    assert bb2[0..] == bb2;
    for j := 0 to |bb2|
      invariant Merge(out, bb2[j..]) == Merge(bb1, bb2)
    {
      var b2 := bb2[j];
      var found := false;
      ghost var before := out;
      assert out == Visited(before, b2, 0);
      for i := 0 to |out|
        invariant out == Visited(before, b2, i)
        invariant found <==> exists k :: 0 <= k < i && KeyOf(before[k]) == KeyOf(b2)
      {
        VisitOne(before, b2, i);
        var o := out[i];
        if b2.appID == o.appID && b2.location == o.location {
          found := true;
          var merged := b2;
          if |o.bindings| != 0 {
            var children := MergeLoop(o.bindings, b2.bindings);
            merged := merged.(bindings := children);
          }
          out := out[i := merged];
        }
      }
      VisitedAll(before, b2);
      if !found {
        out := out + [b2];
      }
      assert bb2[j..][0] == b2 && bb2[j..][1..] == bb2[j + 1..];
    }
  }

  // ---------------------------------------------------------------- the closed form

  /** The node of a forest with key `k`. */
  ghost function At(bb: seq<Binding>, k: Key): (b: Binding)
    requires Has(bb, k)
    ensures b in bb && KeyOf(b) == k
  {
    var i :| 0 <= i < |bb| && KeyOf(bb[i]) == k;
    bb[i]
  }

  ghost function UpdateNode(o: Binding, b: seq<Binding>): Binding {
    if Has(b, KeyOf(o)) then MergeNode(o, At(b, KeyOf(o))) else o
  }

  ghost function Update(a: seq<Binding>, b: seq<Binding>): (r: seq<Binding>)
    ensures |r| == |a|
  {
    seq(|a|, i requires 0 <= i < |a| => UpdateNode(a[i], b))
  }

  /** The nodes of `b` whose key does not occur in `a`, in order. */
  ghost function Missing(b: seq<Binding>, a: seq<Binding>): seq<Binding> {
    if b == [] then []
    else if Has(a, KeyOf(b[0])) then Missing(b[1..], a)
    else [b[0]] + Missing(b[1..], a)
  }

  lemma AtUnique(bb: seq<Binding>, i: nat)
    requires Distinct(bb) && i < |bb|
    ensures At(bb, KeyOf(bb[i])) == bb[i]
  {
  }

  lemma NodeKeepsKey(o: Binding, b: Binding)
    requires KeyOf(o) == KeyOf(b)
    ensures KeyOf(MergeNode(o, b)) == KeyOf(o)
  {
  }

  /** Missing depends only on which keys occur in `a`. */
  lemma {:induction false} MissingCongruent(b: seq<Binding>, a: seq<Binding>, a': seq<Binding>)
    requires forall i :: 0 <= i < |b| ==> (Has(a, KeyOf(b[i])) <==> Has(a', KeyOf(b[i])))
    ensures Missing(b, a) == Missing(b, a')
  {
    if b != [] {
      forall i | 0 <= i < |b[1..]|
        ensures Has(a, KeyOf(b[1..][i])) <==> Has(a', KeyOf(b[1..][i]))
      {
        assert b[1..][i] == b[i + 1];
      }
      MissingCongruent(b[1..], a, a');
    }
  }

  lemma HasAbsorb(a: seq<Binding>, b: Binding, k: Key)
    ensures Has(Absorb(a, b), k) <==> Has(a, k) || k == KeyOf(b)
  {
    var r := Absorb(a, b);
    if Has(a, KeyOf(b)) {
      forall i | 0 <= i < |a| ensures KeyOf(r[i]) == KeyOf(a[i]) {}
      if Has(a, k) {
        var i :| 0 <= i < |a| && KeyOf(a[i]) == k;
        assert KeyOf(r[i]) == k;
      }
    } else {
      assert r[|a|] == b;
      if Has(a, k) {
        var i :| 0 <= i < |a| && KeyOf(a[i]) == k;
        assert KeyOf(r[i]) == k;
      }
    }
  }

  lemma HasTail(b: seq<Binding>, k: Key)
    requires b != []
    ensures Has(b, k) <==> KeyOf(b[0]) == k || Has(b[1..], k)
  {
    if Has(b, k) {
      var i :| 0 <= i < |b| && KeyOf(b[i]) == k;
      if i > 0 {
        assert b[1..][i - 1] == b[i];
      }
    }
    if Has(b[1..], k) {
      var i :| 0 <= i < |b[1..]| && KeyOf(b[1..][i]) == k;
      assert b[i + 1] == b[1..][i];
    }
  }

  lemma DistinctTail(b: seq<Binding>)
    requires Distinct(b) && b != []
    ensures Distinct(b[1..]) && !Has(b[1..], KeyOf(b[0]))
  {
  }

  /** A node updated by b == [b0] + b' is first merged with b0, then updated by b'. */
  lemma UpdateNodeCons(o: Binding, b: seq<Binding>)
    requires Distinct(b) && b != []
    ensures UpdateNode(o, b) ==
            if KeyOf(o) == KeyOf(b[0]) then MergeNode(o, b[0]) else UpdateNode(o, b[1..])
  {
    HasTail(b, KeyOf(o));
    DistinctTail(b);
    if KeyOf(o) == KeyOf(b[0]) {
      AtUnique(b, 0);
    } else if Has(b[1..], KeyOf(o)) {
      var i :| 0 <= i < |b[1..]| && KeyOf(b[1..][i]) == KeyOf(o);
      AtUnique(b[1..], i);
      AtUnique(b, i + 1);
    }
  }

  lemma AbsorbKeepsKeys(a: seq<Binding>, b: Binding)
    ensures |Absorb(a, b)| == if Has(a, KeyOf(b)) then |a| else |a| + 1
    ensures forall i :: 0 <= i < |a| ==> KeyOf(Absorb(a, b)[i]) == KeyOf(a[i])
  {
    forall i | 0 <= i < |a| ensures KeyOf(Absorb(a, b)[i]) == KeyOf(a[i]) {
      if KeyOf(a[i]) == KeyOf(b) {
        NodeKeepsKey(a[i], b);
      }
    }
  }

  lemma UpdateAfterAbsorb(a: seq<Binding>, b: seq<Binding>, i: nat)
    requires Distinct(b) && b != [] && i < |a|
    ensures UpdateNode(Absorb(a, b[0])[i], b[1..]) == UpdateNode(a[i], b)
  {
    UpdateNodeCons(a[i], b);
    DistinctTail(b);
    if KeyOf(a[i]) == KeyOf(b[0]) {
      NodeKeepsKey(a[i], b[0]);
    }
  }

  lemma MissingAfterAbsorb(a: seq<Binding>, b: seq<Binding>)
    requires Distinct(b) && b != []
    ensures Missing(b[1..], Absorb(a, b[0])) == Missing(b[1..], a)
  {
    var a', rest := Absorb(a, b[0]), b[1..];
    DistinctTail(b);
    forall i | 0 <= i < |rest|
      ensures Has(a', KeyOf(rest[i])) <==> Has(a, KeyOf(rest[i]))
    {
      HasAbsorb(a, b[0], KeyOf(rest[i]));
    }
    MissingCongruent(rest, a', a);
  }

  lemma {:induction false} MergeClosedForm(a: seq<Binding>, b: seq<Binding>)
    requires Distinct(b)
    ensures Merge(a, b) == Update(a, b) + Missing(b, a)
    decreases |b|
  {
    if b == [] {
      assert Update(a, b) == a;
    } else {
      DistinctTail(b);
      MergeClosedForm(Absorb(a, b[0]), b[1..]);
      MissingAfterAbsorb(a, b);
      UpdateAbsorbed(a, b);
      assert Update(a, b) + [b[0]] + Missing(b[1..], a) == Update(a, b) + ([b[0]] + Missing(b[1..], a));
    }
  }

  lemma UpdateAbsorbed(a: seq<Binding>, b: seq<Binding>)
    requires Distinct(b) && b != []
    ensures Update(Absorb(a, b[0]), b[1..]) ==
            Update(a, b) + if Has(a, KeyOf(b[0])) then [] else [b[0]]
  {
    var a' := Absorb(a, b[0]);
    AbsorbKeepsKeys(a, b[0]);
    forall i | 0 <= i < |a| ensures Update(a', b[1..])[i] == Update(a, b)[i] {
      UpdateAfterAbsorb(a, b, i);
    }
    if !Has(a, KeyOf(b[0])) {
      DistinctTail(b);
      assert a'[|a|] == b[0];
      assert Update(a', b[1..])[|a|] == b[0];
    }
  }

  /** The replacing half of Absorb. */
  function Replace(s: seq<Binding>, b: Binding): (r: seq<Binding>)
    ensures |r| == |s|
  {
    seq(|s|, i requires 0 <= i < |s| => if KeyOf(s[i]) == KeyOf(b) then MergeNode(s[i], b) else s[i])
  }

  lemma ReplaceHead(s: seq<Binding>, b: Binding)
    requires s != []
    ensures Replace(s, b) == [Replace([s[0]], b)[0]] + Replace(s[1..], b)
  {
  }

  // ---------------------------------------------------------------- facts about the parts

  lemma HasUpdate(a: seq<Binding>, b: seq<Binding>, k: Key)
    ensures Has(Update(a, b), k) <==> Has(a, k)
  {
    forall i | 0 <= i < |a| ensures KeyOf(Update(a, b)[i]) == KeyOf(a[i]) {}
    if Has(a, k) {
      var i :| 0 <= i < |a| && KeyOf(a[i]) == k;
      assert KeyOf(Update(a, b)[i]) == k;
    }
  }

  lemma {:induction false} HasMissing(b: seq<Binding>, a: seq<Binding>, k: Key)
    ensures Has(Missing(b, a), k) <==> Has(b, k) && !Has(a, k)
  {
    if b != [] {
      HasMissing(b[1..], a, k);
      HasTail(b, k);
      if !Has(a, KeyOf(b[0])) {
        var m := Missing(b, a);
        assert m == [b[0]] + Missing(b[1..], a);
        assert m[1..] == Missing(b[1..], a);
        HasTail(m, k);
      }
    }
  }

  lemma HasConcat(x: seq<Binding>, y: seq<Binding>, k: Key)
    ensures Has(x + y, k) <==> Has(x, k) || Has(y, k)
  {
    if Has(x, k) {
      var i :| 0 <= i < |x| && KeyOf(x[i]) == k;
      assert (x + y)[i] == x[i];
    }
    if Has(y, k) {
      var i :| 0 <= i < |y| && KeyOf(y[i]) == k;
      assert (x + y)[|x| + i] == y[i];
    }
  }

  lemma HasMerge(a: seq<Binding>, b: seq<Binding>, k: Key)
    requires Distinct(b)
    ensures Has(Merge(a, b), k) <==> Has(a, k) || Has(b, k)
  {
    MergeClosedForm(a, b);
    HasUpdate(a, b, k);
    HasMissing(b, a, k);
    HasConcat(Update(a, b), Missing(b, a), k);
  }

  lemma {:induction false} HasMergeAny(a: seq<Binding>, t: seq<Binding>, k: Key)
    ensures Has(Merge(a, t), k) <==> Has(a, k) || Has(t, k)
    decreases |t|
  {
    if t != [] {
      HasAbsorb(a, t[0], k);
      HasMergeAny(Absorb(a, t[0]), t[1..], k);
      HasTail(t, k);
    }
  }

  lemma {:induction false} MissingConcat(x: seq<Binding>, y: seq<Binding>, a: seq<Binding>)
    ensures Missing(x + y, a) == Missing(x, a) + Missing(y, a)
  {
    if x == [] {
      assert x + y == y;
    } else {
      assert (x + y)[1..] == x[1..] + y;
      MissingConcat(x[1..], y, a);
    }
  }

  lemma {:induction false} MissingMissing(c: seq<Binding>, b: seq<Binding>, a: seq<Binding>, ab: seq<Binding>)
    requires forall k :: Has(ab, k) <==> Has(a, k) || Has(b, k)
    ensures Missing(Missing(c, b), a) == Missing(c, ab)
  {
    if c != [] {
      MissingMissing(c[1..], b, a, ab);
      var head := if Has(b, KeyOf(c[0])) then [] else [c[0]];
      MissingConcat(head, Missing(c[1..], b), a);
      assert Has(ab, KeyOf(c[0])) <==> Has(a, KeyOf(c[0])) || Has(b, KeyOf(c[0]));
    }
  }

  /** Updating keeps keys, so it commutes with selecting by key. */
  lemma {:induction false} MissingUpdate(b: seq<Binding>, c: seq<Binding>, a: seq<Binding>)
    ensures Missing(Update(b, c), a) == Update(Missing(b, a), c)
  {
    if b == [] {
      assert Update(b, c) == [];
    } else {
      assert Update(b, c)[1..] == Update(b[1..], c);
      assert Update(b, c)[0] == UpdateNode(b[0], c);
      MissingUpdate(b[1..], c, a);
      if !Has(a, KeyOf(b[0])) {
        var m := Missing(b, a);
        assert m == [b[0]] + Missing(b[1..], a);
        assert Update(m, c) == [UpdateNode(b[0], c)] + Update(Missing(b[1..], a), c);
      }
    }
  }

  lemma {:induction false} MissingMember(b: seq<Binding>, a: seq<Binding>, x: Binding)
    ensures x in Missing(b, a) <==> x in b && !Has(a, KeyOf(x))
  {
    if b != [] {
      MissingMember(b[1..], a, x);
      assert x in b <==> x == b[0] || x in b[1..];
    }
  }

  lemma {:induction false} MissingDistinct(b: seq<Binding>, a: seq<Binding>)
    requires Distinct(b)
    ensures Distinct(Missing(b, a))
  {
    if b != [] {
      DistinctTail(b);
      MissingDistinct(b[1..], a);
      HasMissing(b[1..], a, KeyOf(b[0]));
      var rest := Missing(b[1..], a);
      if !Has(a, KeyOf(b[0])) {
        var m := Missing(b, a);
        assert m == [b[0]] + rest;
        forall i, j | 0 <= i < j < |m| ensures KeyOf(m[i]) != KeyOf(m[j]) {
          assert m[j] == rest[j - 1];
        }
      }
    }
  }

  lemma AtMember(bb: seq<Binding>, x: Binding)
    requires Distinct(bb) && x in bb
    ensures Has(bb, KeyOf(x)) && At(bb, KeyOf(x)) == x
  {
    var i :| 0 <= i < |bb| && bb[i] == x;
    AtUnique(bb, i);
  }

  // ---------------------------------------------------------------- the laws

  /** Merging two forests with distinct siblings gives one with distinct siblings, at every level. */
  lemma {:induction false} MergePreservesDistinct(a: seq<Binding>, b: seq<Binding>)
    requires DeepDistinct(a) && DeepDistinct(b)
    ensures DeepDistinct(Merge(a, b))
    decreases b
  {
    MergeClosedForm(a, b);
    var u, m := Update(a, b), Missing(b, a);
    MissingDistinct(b, a);
    forall i, j | 0 <= i < j < |u + m| ensures KeyOf((u + m)[i]) != KeyOf((u + m)[j]) {
      if i < |a| && j < |a| {
        assert KeyOf(u[i]) == KeyOf(a[i]) && KeyOf(u[j]) == KeyOf(a[j]);
      } else if i < |a| {
        MissingMember(b, a, m[j - |a|]);
        assert KeyOf(u[i]) == KeyOf(a[i]);
      }
    }
    forall i | 0 <= i < |u + m| ensures DeepDistinct((u + m)[i].bindings) {
      if i < |a| {
        if Has(b, KeyOf(a[i])) {
          var n := At(b, KeyOf(a[i]));
          MergePreservesDistinct(a[i].bindings, n.bindings);
        }
      } else {
        MissingMember(b, a, m[i - |a|]);
      }
    }
  }

  lemma MergeRightIdentity(a: seq<Binding>)
    ensures Merge(a, []) == a
  {
  }

  lemma {:induction false} MissingLength(b: seq<Binding>, a: seq<Binding>)
    ensures |Missing(b, a)| <= |b|
    ensures a == [] ==> Missing(b, a) == b
  {
    if b != [] {
      MissingLength(b[1..], a);
    }
  }

  lemma {:induction false} MergeKeepsDistinct(a: seq<Binding>, b: seq<Binding>)
    requires Distinct(a)
    ensures Distinct(Merge(a, b))
    decreases |b|
  {
    if b != [] {
      var r := Absorb(a, b[0]);
      AbsorbKeepsKeys(a, b[0]);
      if !Has(a, KeyOf(b[0])) {
        assert r == a + [b[0]];
      }
      MergeKeepsDistinct(r, b[1..]);
    }
  }

  /** The empty forest is a left identity exactly on forests whose roots are distinct. */
  lemma MergeLeftIdentity(b: seq<Binding>)
    ensures Merge([], b) == b <==> Distinct(b)
  {
    if Distinct(b) {
      MergeClosedForm([], b);
      MissingLength(b, []);
      assert Update([], b) == [];
    }
    MergeKeepsDistinct([], b);
  }

  lemma {:induction false} MergeIdempotent(a: seq<Binding>)
    requires DeepDistinct(a)
    ensures Merge(a, a) == a
    decreases a
  {
    MergeClosedForm(a, a);
    forall i | 0 <= i < |a| ensures Update(a, a)[i] == a[i] {
      AtUnique(a, i);
      MergeIdempotent(a[i].bindings);
    }
    assert Update(a, a) == a;
    if Missing(a, a) != [] {
      MissingMember(a, a, Missing(a, a)[0]);
      assert false;
    }
  }

  lemma {:induction false} MergeLength(a: seq<Binding>, b: seq<Binding>)
    ensures |Merge(a, b)| >= |a|
    decreases |b|
  {
    if b != [] {
      MergeLength(Absorb(a, b[0]), b[1..]);
    }
  }

  lemma {:induction false} NodeAssociative(x: Binding, y: Binding, z: Binding)
    requires DeepDistinct(y.bindings) && DeepDistinct(z.bindings)
    ensures MergeNode(MergeNode(x, y), z) == MergeNode(x, MergeNode(y, z))
    decreases z, 1
  {
    if x.bindings != [] {
      MergeLength(x.bindings, y.bindings);
      if y.bindings == [] {
        MergeRightIdentity(x.bindings);
      } else {
        MergeAssociative(x.bindings, y.bindings, z.bindings);
        MergeLength(y.bindings, z.bindings);
      }
    }
  }

  lemma {:induction false} UpdateTwice(a: seq<Binding>, b: seq<Binding>, c: seq<Binding>, i: nat)
    requires DeepDistinct(b) && DeepDistinct(c) && i < |a|
    ensures Update(Update(a, b), c)[i] == Update(a, Merge(b, c))[i]
    decreases c, 0
  {
    var x, k, bc := a[i], KeyOf(a[i]), Merge(b, c);
    MergeClosedForm(b, c);
    MergeKeepsDistinct(b, c);
    HasMerge(b, c, k);
    assert Update(a, bc)[i] == UpdateNode(x, bc);
    assert Update(a, b)[i] == UpdateNode(x, b);
    if Has(b, k) {
      var j :| 0 <= j < |b| && KeyOf(b[j]) == k;
      AtUnique(b, j);
      AtUnique(bc, j);
      assert bc[j] == UpdateNode(b[j], c);
      if Has(c, k) {
        var z := At(c, k);
        var l :| 0 <= l < |c| && c[l] == z;
        NodeAssociative(x, b[j], z);
      }
    } else if Has(c, k) {
      MissingMember(c, b, At(c, k));
      AtMember(bc, At(c, k));
    }
  }

  lemma UpdateConcat(u: seq<Binding>, m: seq<Binding>, c: seq<Binding>)
    ensures Update(u + m, c) == Update(u, c) + Update(m, c)
  {
  }

  lemma LeftSide(a: seq<Binding>, b: seq<Binding>, c: seq<Binding>)
    requires Distinct(b) && Distinct(c)
    ensures Merge(Merge(a, b), c) ==
            Update(Update(a, b), c) + Update(Missing(b, a), c) + Missing(c, Merge(a, b))
  {
    MergeClosedForm(a, b);
    MergeClosedForm(Merge(a, b), c);
    UpdateConcat(Update(a, b), Missing(b, a), c);
  }

  lemma RightSide(a: seq<Binding>, b: seq<Binding>, c: seq<Binding>)
    requires Distinct(b) && Distinct(c)
    ensures Merge(a, Merge(b, c)) ==
            Update(a, Merge(b, c)) + Update(Missing(b, a), c) + Missing(Missing(c, b), a)
  {
    MergeClosedForm(b, c);
    MergeKeepsDistinct(b, c);
    MergeClosedForm(a, Merge(b, c));
    MissingConcat(Update(b, c), Missing(c, b), a);
    MissingUpdate(b, c, a);
  }

  /** Merge is associative as soon as the two right operands have distinct siblings at every level. */
  lemma {:induction false} MergeAssociative(a: seq<Binding>, b: seq<Binding>, c: seq<Binding>)
    requires DeepDistinct(b) && DeepDistinct(c)
    ensures Merge(Merge(a, b), c) == Merge(a, Merge(b, c))
    decreases c, 1
  {
    LeftSide(a, b, c);
    RightSide(a, b, c);
    assert Update(Update(a, b), c) == Update(a, Merge(b, c)) by {
      forall i | 0 <= i < |a| ensures Update(Update(a, b), c)[i] == Update(a, Merge(b, c))[i] {
        UpdateTwice(a, b, c, i);
      }
    }
    assert Missing(Missing(c, b), a) == Missing(c, Merge(a, b)) by {
      forall k ensures Has(Merge(a, b), k) <==> Has(a, k) || Has(b, k) {
        HasMerge(a, b, k);
      }
      MissingMissing(c, b, a, Merge(a, b));
    }
  }

  // ---------------------------------------------------------------- where the laws stop

  function Leaf(app: AppID, loc: Location): Binding {
    Binding(app, loc, "", "", "", "", Some(Call("/submit", "")), None, [])
  }

  function Container(app: AppID, loc: Location, children: seq<Binding>): Binding {
    Binding(app, loc, "", "", "", "", None, None, children)
  }

  const P := Leaf("app", "p")
  const Q := Leaf("app", "q")
  const R := Leaf("app", "r")

  /** ([] + x1 + x2) + y: the children of the two duplicates come first. */
  lemma LeftGrouping(x1: Binding, x2: Binding, y: Binding)
    requires x1 == Container("app", "k", [P]) && x2 == Container("app", "k", [Q]) && y == Container("app", "k", [R])
    ensures Merge(Merge([], [x1, x2]), [y]) == [Container("app", "k", [P, Q, R])]
  {
    MergeSingletons([P], Q);
    var x12 := Container("app", "k", [P, Q]);
    assert MergeNode(x1, x2) == x12;
    assert Absorb([], x1) == [x1];
    AbsorbSame(x1, x2);
    MergeOne([x1], x2);
    assert [x1, x2][1..] == [x2];
    MergeSingletons([P, Q], R);
    assert [P, Q] + [R] == [P, Q, R];
    AbsorbSame(x12, y);
    MergeOne([x12], y);
  }

  /** [] + ((x1, x2) + y): each duplicate absorbs y first, so its child precedes x2's. */
  lemma RightGrouping(x1: Binding, x2: Binding, y: Binding)
    requires x1 == Container("app", "k", [P]) && x2 == Container("app", "k", [Q]) && y == Container("app", "k", [R])
    ensures var r := Merge([], Merge([x1, x2], [y]));
            |r| == 1 && |r[0].bindings| >= 2 && r[0].bindings[1].location == "r"
  {
    MergeSingletons([P], R);
    MergeSingletons([Q], R);
    var y1, y2 := Container("app", "k", [P, R]), Container("app", "k", [Q, R]);
    assert MergeNode(x1, y) == y1 && MergeNode(x2, y) == y2;
    MergeOne([x1, x2], y);
    assert KeyOf([x1, x2][0]) == KeyOf(y);
    assert Absorb([x1, x2], y) == [y1, y2];
    assert Absorb([], y1) == [y1];
    AbsorbSame(y1, y2);
    MergeOne([y1], y2);
    assert [y1, y2][1..] == [y2];
    SecondChildStays([P, R], [Q, R]);
    assert KeyOf([P, R][1]) == ("app", "r");
  }

  /** With repeated siblings in the middle operand, associativity fails. */
  lemma MergeNotAssociativeOnDuplicates()
    ensures exists a, b, c :: !Distinct(b) && Merge(Merge(a, b), c) != Merge(a, Merge(b, c))
  {
    var x1, x2, y := Container("app", "k", [P]), Container("app", "k", [Q]), Container("app", "k", [R]);
    LeftGrouping(x1, x2, y);
    RightGrouping(x1, x2, y);
    assert KeyOf([x1, x2][0]) == KeyOf([x1, x2][1]);
    assert [P, Q, R][1].location == "q";
    assert Merge(Merge([], [x1, x2]), [y]) != Merge([], Merge([x1, x2], [y]));
  }

  lemma MergeOne(a: seq<Binding>, x: Binding)
    ensures Merge(a, [x]) == Absorb(a, x)
  {
    assert [x][1..] == [];
  }

  lemma MergeSingletons(a: seq<Binding>, x: Binding)
    requires !Has(a, KeyOf(x))
    ensures Merge(a, [x]) == a + [x]
  {
    assert [x][1..] == [];
    assert Merge(a, [x]) == Merge(Absorb(a, x), []);
  }

  lemma AbsorbSame(o: Binding, b: Binding)
    requires KeyOf(o) == KeyOf(b)
    ensures Absorb([o], b) == [MergeNode(o, b)]
  {
    assert Has([o], KeyOf(b)) by { assert KeyOf([o][0]) == KeyOf(b); }
  }

  /** Merging never moves an existing key. */
  lemma {:induction false} SecondChildStays(a: seq<Binding>, b: seq<Binding>)
    ensures |Merge(a, b)| >= |a|
    ensures forall i :: 0 <= i < |a| ==> KeyOf(Merge(a, b)[i]) == KeyOf(a[i])
    decreases |b|
  {
    if b != [] {
      var r := Absorb(a, b[0]);
      AbsorbKeepsKeys(a, b[0]);
      SecondChildStays(r, b[1..]);
    }
  }
}

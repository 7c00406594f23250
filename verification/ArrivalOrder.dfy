/**
  GetBindings (server/proxy/bindings.go:84-114): the bindings of the enabled apps arrive on a
  channel in any order, each is merged into the result, and the result is sorted.

  The outcome does not depend on the arrival order, up to siblings that tie in the sort key,
  exactly when the first container an app offers at a shared root has distinct children.
 */
module ArrivalOrder {
  import opened Bindings
  import opened Strings
  import opened MergeBindings

  /** What one app contributed: its ID and its cleaned bindings. */
  datatype AppForest = AppForest(app: AppID, roots: seq<Binding>)

  /** A non-empty container with no payload of its own, all of whose children are the app's. */
  predicate BareRoot(r: Binding, app: AppID) {
    && r == Container(r.appID, r.location, r.bindings)
    && r.bindings != []
    && forall i :: 0 <= i < |r.bindings| ==> r.bindings[i].appID == app
  }

  predicate BareForest(f: AppForest) {
    forall i :: 0 <= i < |f.roots| ==> BareRoot(f.roots[i], f.app)
  }

  predicate ValidArrival(fs: seq<AppForest>) {
    && (forall i :: 0 <= i < |fs| ==> BareForest(fs[i]))
    && (forall i, j :: 0 <= i < j < |fs| ==> fs[i].app != fs[j].app)
  }

  // ---------------------------------------------------------------- collecting

  function Fold(fs: seq<AppForest>): seq<Binding> {
    if fs == [] then [] else Merge(Fold(fs[..|fs| - 1]), fs[|fs| - 1].roots)
  }

  method Collect(arrived: seq<AppForest>) returns (ret: seq<Binding>)
    ensures ret == Fold(arrived)
  {
    ret := [];
    for i := 0 to |arrived|
      invariant ret == Fold(arrived[..i])
    {
      assert arrived[..i + 1][..i] == arrived[..i];
      ret := MergeLoop(ret, arrived[i].roots);
    }
    assert arrived[..|arrived|] == arrived;
  }

  // ---------------------------------------------------------------- the children at one root

  ghost function ChildrenAt(x: seq<Binding>, k: Key): seq<Binding> {
    if Has(x, k) then At(x, k).bindings else []
  }

  /** The children of one app, in order. */
  function ByApp(s: seq<Binding>, app: AppID): seq<Binding> {
    if s == [] then []
    else if s[0].appID == app then [s[0]] + ByApp(s[1..], app)
    else ByApp(s[1..], app)
  }

  predicate AllOf(s: seq<Binding>, app: AppID) {
    forall i :: 0 <= i < |s| ==> s[i].appID == app
  }

  /** Every root is a bare non-empty container, and no two share a key. */
  predicate BareResult(x: seq<Binding>) {
    && Distinct(x)
    && forall i :: 0 <= i < |x| ==>
      x[i] == Container(x[i].appID, x[i].location, x[i].bindings) && x[i].bindings != []
  }

  lemma {:induction false} ByAppConcat(x: seq<Binding>, y: seq<Binding>, app: AppID)
    ensures ByApp(x + y, app) == ByApp(x, app) + ByApp(y, app)
  {
    if x == [] {
      assert x + y == y;
    } else {
      assert (x + y)[1..] == x[1..] + y;
      ByAppConcat(x[1..], y, app);
      assert [x[0]] + (ByApp(x[1..], app) + ByApp(y, app)) == [x[0]] + ByApp(x[1..], app) + ByApp(y, app);
    }
  }

  lemma {:induction false} ByAppAll(s: seq<Binding>, app: AppID, other: AppID)
    requires AllOf(s, app)
    ensures ByApp(s, other) == if other == app then s else []
  {
    if s != [] {
      ByAppAll(s[1..], app, other);
    }
  }

  lemma {:induction false} ByAppHas(s: seq<Binding>, k: Key)
    ensures Has(ByApp(s, k.0), k) <==> Has(s, k)
  {
    if s != [] {
      ByAppHas(s[1..], k);
      HasTail(s, k);
      var r := ByApp(s, k.0);
      if s[0].appID == k.0 {
        assert r[1..] == ByApp(s[1..], k.0);
        HasTail(r, k);
      } else {
        assert r == ByApp(s[1..], k.0);
      }
    }
  }

  lemma {:induction false} ByAppReplace(s: seq<Binding>, b: Binding, app: AppID)
    ensures ByApp(Replace(s, b), app) ==
            if b.appID == app then Replace(ByApp(s, app), b) else ByApp(s, app)
  {
    if s == [] {
      assert Replace(s, b) == [];
    } else {
      var head, rest := Replace([s[0]], b)[0], Replace(s[1..], b);
      ReplaceHead(s, b);
      if KeyOf(s[0]) == KeyOf(b) {
        NodeKeepsKey(s[0], b);
      }
      ByAppReplace(s[1..], b, app);
      assert ([head] + rest)[1..] == rest;
      if s[0].appID == app {
        assert ([s[0]] + ByApp(s[1..], app))[1..] == ByApp(s[1..], app);
        ReplaceHead([s[0]] + ByApp(s[1..], app), b);
      }
    }
  }

  lemma ByAppAbsorb(s: seq<Binding>, b: Binding, app: AppID)
    ensures ByApp(Absorb(s, b), app) ==
            if b.appID == app then Absorb(ByApp(s, app), b) else ByApp(s, app)
  {
    ByAppHas(s, KeyOf(b));
    if Has(s, KeyOf(b)) {
      assert Absorb(s, b) == Replace(s, b);
      ByAppReplace(s, b, app);
      if b.appID == app {
        assert Absorb(ByApp(s, app), b) == Replace(ByApp(s, app), b);
      }
    } else {
      ByAppConcat(s, [b], app);
      assert [b][1..] == [];
    }
  }

  /** Merging an app's children touches only that app's share of the siblings. */
  lemma {:induction false} ByAppMerge(s: seq<Binding>, t: seq<Binding>, app: AppID, other: AppID)
    requires AllOf(t, app)
    ensures ByApp(Merge(s, t), other) ==
            if other == app then Merge(ByApp(s, app), t) else ByApp(s, other)
    decreases |t|
  {
    if t != [] {
      ByAppAbsorb(s, t[0], other);
      ByAppMerge(Absorb(s, t[0]), t[1..], app, other);
    }
  }

  // ---------------------------------------------------------------- one app's roots

  /** The children an app ends up with at `k`, given the list `acc` it starts from. */
  function Gather(acc: seq<Binding>, roots: seq<Binding>, k: Key): seq<Binding>
    decreases |roots|
  {
    if roots == [] then acc
    else Gather(if KeyOf(roots[0]) == k then Merge(acc, roots[0].bindings) else acc, roots[1..], k)
  }

  /** As Gather, when nobody has bound to `k` yet: the first root is taken as it is. */
  function GatherFirst(roots: seq<Binding>, k: Key): seq<Binding> {
    if roots == [] then []
    else if KeyOf(roots[0]) == k then Gather(roots[0].bindings, roots[1..], k)
    else GatherFirst(roots[1..], k)
  }

  lemma AbsorbRoot(x: seq<Binding>, r: Binding, app: AppID, k: Key)
    requires BareResult(x) && BareRoot(r, app)
    ensures BareResult(Absorb(x, r))
    ensures Has(Absorb(x, r), k) <==> Has(x, k) || KeyOf(r) == k
    ensures ChildrenAt(Absorb(x, r), k) ==
            if KeyOf(r) != k then ChildrenAt(x, k)
            else if Has(x, k) then Merge(ChildrenAt(x, k), r.bindings)
            else r.bindings
  {
    var y := Absorb(x, r);
    HasAbsorb(x, r, k);
    AbsorbKeepsKeys(x, r);
    if !Has(x, KeyOf(r)) {
      assert y == x + [r];
    }
    assert Distinct(y);
    forall i | 0 <= i < |y|
      ensures y[i] == Container(y[i].appID, y[i].location, y[i].bindings) && y[i].bindings != []
    {
      if i < |x| && KeyOf(x[i]) == KeyOf(r) {
        MergeLength(x[i].bindings, r.bindings);
      }
    }
    if Has(x, k) {
      var i :| 0 <= i < |x| && KeyOf(x[i]) == k;
      AtUnique(x, i);
      AtUnique(y, i);
    } else if KeyOf(r) == k {
      AtUnique(y, |x|);
    }
  }

  lemma {:induction false} MergeRoots(x: seq<Binding>, roots: seq<Binding>, app: AppID, k: Key)
    requires BareResult(x) && BareForest(AppForest(app, roots))
    ensures BareResult(Merge(x, roots))
    ensures Has(Merge(x, roots), k) <==> Has(x, k) || Has(roots, k)
    ensures ChildrenAt(Merge(x, roots), k) ==
            if Has(x, k) then Gather(ChildrenAt(x, k), roots, k) else GatherFirst(roots, k)
    decreases |roots|
  {
    if roots != [] {
      var y := Absorb(x, roots[0]);
      assert BareRoot(AppForest(app, roots).roots[0], app);
      AbsorbRoot(x, roots[0], app, k);
      assert BareForest(AppForest(app, roots[1..])) by {
        forall i | 0 <= i < |roots[1..]| ensures BareRoot(roots[1..][i], app) {
          assert roots[1..][i] == AppForest(app, roots).roots[i + 1];
        }
      }
      MergeRoots(y, roots[1..], app, k);
      HasTail(roots, k);
    }
  }

  lemma {:induction false} ByAppGather(acc: seq<Binding>, f: AppForest, k: Key, other: AppID)
    requires BareForest(f)
    ensures ByApp(Gather(acc, f.roots, k), other) ==
            if other == f.app then Gather(ByApp(acc, f.app), f.roots, k) else ByApp(acc, other)
    decreases |f.roots|
  {
    if f.roots != [] {
      var rest := AppForest(f.app, f.roots[1..]);
      assert BareRoot(f.roots[0], f.app);
      if KeyOf(f.roots[0]) == k {
        ByAppMerge(acc, f.roots[0].bindings, f.app, other);
        ByAppGather(Merge(acc, f.roots[0].bindings), rest, k, other);
      } else {
        ByAppGather(acc, rest, k, other);
      }
    }
  }

  lemma {:induction false} GatherFirstByApp(f: AppForest, k: Key, other: AppID)
    requires BareForest(f)
    ensures ByApp(GatherFirst(f.roots, k), other) == if other == f.app then GatherFirst(f.roots, k) else []
    decreases |f.roots|
  {
    if f.roots != [] {
      var rest := AppForest(f.app, f.roots[1..]);
      assert BareRoot(f.roots[0], f.app);
      if KeyOf(f.roots[0]) == k {
        ByAppGather(f.roots[0].bindings, rest, k, other);
        ByAppAll(f.roots[0].bindings, f.app, other);
        ByAppAll(f.roots[0].bindings, f.app, f.app);
      } else {
        GatherFirstByApp(rest, k, other);
      }
    }
  }

  // ---------------------------------------------------------------- the fold

  predicate BoundBefore(fs: seq<AppForest>, n: nat, k: Key)
    requires n <= |fs|
  {
    exists i :: 0 <= i < n && Has(fs[i].roots, k)
  }

  /** What app number i ends up with at `k` depends only on whether `k` was already bound when it arrived. */
  function Share(fs: seq<AppForest>, i: nat, k: Key): seq<Binding>
    requires i < |fs|
  {
    if BoundBefore(fs, i, k) then Gather([], fs[i].roots, k) else GatherFirst(fs[i].roots, k)
  }

  lemma {:induction false} NoRootNoShare(acc: seq<Binding>, roots: seq<Binding>, k: Key)
    requires !Has(roots, k)
    ensures Gather(acc, roots, k) == acc && GatherFirst(roots, k) == []
  {
    if roots != [] {
      HasTail(roots, k);
      assert KeyOf(roots[0]) != k;
      NoRootNoShare(acc, roots[1..], k);
    }
  }

  lemma ValidPrefix(fs: seq<AppForest>)
    requires ValidArrival(fs) && fs != []
    ensures ValidArrival(fs[..|fs| - 1]) && BareForest(fs[|fs| - 1])
  {
  }

  lemma BoundPrefix(fs: seq<AppForest>, n: nat, m: nat, k: Key)
    requires n <= m <= |fs|
    ensures BoundBefore(fs[..m], n, k) <==> BoundBefore(fs, n, k)
  {
  }

  lemma {:induction false} FoldRoots(fs: seq<AppForest>, k: Key)
    requires ValidArrival(fs)
    ensures BareResult(Fold(fs))
    ensures Has(Fold(fs), k) <==> BoundBefore(fs, |fs|, k)
    decreases |fs|
  {
    if fs != [] {
      var n := |fs| - 1;
      ValidPrefix(fs);
      FoldRoots(fs[..n], k);
      MergeRoots(Fold(fs[..n]), fs[n].roots, fs[n].app, k);
      BoundPrefix(fs, n, n, k);
      assert BoundBefore(fs, |fs|, k) <==> BoundBefore(fs, n, k) || Has(fs[n].roots, k);
    }
  }

  lemma FoldStep(x: seq<Binding>, f: AppForest, k: Key, app: AppID)
    requires BareResult(x) && BareForest(f)
    ensures ByApp(ChildrenAt(Merge(x, f.roots), k), app) ==
            if app != f.app then ByApp(ChildrenAt(x, k), app)
            else if Has(x, k) then Gather(ByApp(ChildrenAt(x, k), app), f.roots, k)
            else GatherFirst(f.roots, k)
  {
    MergeRoots(x, f.roots, f.app, k);
    if Has(x, k) {
      ByAppGather(ChildrenAt(x, k), f, k, app);
    } else {
      GatherFirstByApp(f, k, app);
    }
  }

  /** Nobody else contributes children with an app's ID. */
  lemma {:induction false} FoldForeign(fs: seq<AppForest>, k: Key, app: AppID)
    requires ValidArrival(fs)
    requires forall i :: 0 <= i < |fs| ==> fs[i].app != app
    ensures ByApp(ChildrenAt(Fold(fs), k), app) == []
    decreases |fs|
  {
    if fs != [] {
      var n := |fs| - 1;
      ValidPrefix(fs);
      FoldForeign(fs[..n], k, app);
      FoldRoots(fs[..n], k);
      FoldStep(Fold(fs[..n]), fs[n], k, app);
    }
  }

  /** The children of app number i under root k, after everything has arrived. */
  lemma {:induction false} FoldShare(fs: seq<AppForest>, i: nat, k: Key)
    requires ValidArrival(fs) && i < |fs|
    ensures ByApp(ChildrenAt(Fold(fs), k), fs[i].app) == Share(fs, i, k)
    decreases |fs|
  {
    var n := |fs| - 1;
    ValidPrefix(fs);
    FoldRoots(fs[..n], k);
    FoldStep(Fold(fs[..n]), fs[n], k, fs[i].app);
    BoundPrefix(fs, i, n, k);
    if i < n {
      FoldShare(fs[..n], i, k);
    } else {
      FoldForeign(fs[..n], k, fs[n].app);
    }
  }

  // ---------------------------------------------------------------- when the order is irrelevant

  /** Equal up to the order of siblings. */
  ghost predicate SameUpToTies(x: seq<Binding>, y: seq<Binding>) {
    forall k ::
      (Has(x, k) <==> Has(y, k)) && multiset(ChildrenAt(x, k)) == multiset(ChildrenAt(y, k))
  }

  ghost predicate Permutation(fs: seq<AppForest>, gs: seq<AppForest>) {
    multiset(fs) == multiset(gs)
  }

  function FirstAt(roots: seq<Binding>, k: Key): Binding
    requires Has(roots, k)
  {
    if KeyOf(roots[0]) == k then roots[0]
    else
      HasTail(roots, k);
      FirstAt(roots[1..], k)
  }

  /** At a root that several apps bind to, the first container of each has distinct children. */
  ghost predicate OrderSafe(fs: seq<AppForest>) {
    forall i, j, k ::
      0 <= i < |fs| && 0 <= j < |fs| && i != j && Has(fs[i].roots, k) && Has(fs[j].roots, k)
      ==> Distinct(FirstAt(fs[i].roots, k).bindings)
  }

  lemma {:induction false} GatherAgrees(roots: seq<Binding>, k: Key)
    requires Has(roots, k) && Distinct(FirstAt(roots, k).bindings)
    ensures Gather([], roots, k) == GatherFirst(roots, k)
  {
    if KeyOf(roots[0]) == k {
      MergeLeftIdentity(roots[0].bindings);
    } else {
      HasTail(roots, k);
      GatherAgrees(roots[1..], k);
    }
  }

  ghost predicate SameKeys(a: seq<Binding>, b: seq<Binding>) {
    forall k :: Has(a, k) <==> Has(b, k)
  }

  /** Forests with the same keys grow by the same number of nodes. */
  lemma {:induction false} MergeGrowth(a: seq<Binding>, b: seq<Binding>, t: seq<Binding>)
    requires SameKeys(a, b)
    ensures SameKeys(Merge(a, t), Merge(b, t))
    ensures |Merge(a, t)| - |a| == |Merge(b, t)| - |b|
    decreases |t|
  {
    if t != [] {
      var a', b' := Absorb(a, t[0]), Absorb(b, t[0]);
      forall k ensures Has(a', k) <==> Has(b', k) {
        HasAbsorb(a, t[0], k);
        HasAbsorb(b, t[0], k);
      }
      AbsorbKeepsKeys(a, t[0]);
      AbsorbKeepsKeys(b, t[0]);
      MergeGrowth(a', b', t[1..]);
    }
  }

  lemma {:induction false} GatherGrowth(a: seq<Binding>, b: seq<Binding>, roots: seq<Binding>, k: Key)
    requires SameKeys(a, b)
    ensures |Gather(a, roots, k)| - |a| == |Gather(b, roots, k)| - |b|
    decreases |roots|
  {
    if roots != [] {
      if KeyOf(roots[0]) == k {
        MergeGrowth(a, b, roots[0].bindings);
        GatherGrowth(Merge(a, roots[0].bindings), Merge(b, roots[0].bindings), roots[1..], k);
      } else {
        GatherGrowth(a, b, roots[1..], k);
      }
    }
  }

  /** Merging loses nodes as soon as a key is repeated. */
  lemma {:induction false} MergeSize(a: seq<Binding>, t: seq<Binding>)
    ensures |Merge(a, t)| <= |a| + |t|
    ensures |Merge(a, t)| == |a| + |t| ==> Distinct(t)
    ensures |Merge(a, t)| == |a| + |t| ==> forall i :: 0 <= i < |t| ==> !Has(a, KeyOf(t[i]))
    decreases |t|
  {
    if t != [] {
      var a' := Absorb(a, t[0]);
      AbsorbKeepsKeys(a, t[0]);
      MergeSize(a', t[1..]);
      if |Merge(a, t)| == |a| + |t| {
        forall i | 0 < i < |t| ensures !Has(a, KeyOf(t[i])) && KeyOf(t[i]) != KeyOf(t[0]) {
          assert t[i] == t[1..][i - 1];
          HasAbsorb(a, t[0], KeyOf(t[i]));
        }
        forall i, j | 0 <= i < j < |t| ensures KeyOf(t[i]) != KeyOf(t[j]) {
          if i > 0 {
            assert t[1..][i - 1] == t[i] && t[1..][j - 1] == t[j];
          }
        }
      }
    }
  }

  lemma {:induction false} GatherDiffers(roots: seq<Binding>, k: Key)
    requires Has(roots, k) && !Distinct(FirstAt(roots, k).bindings)
    ensures |Gather([], roots, k)| < |GatherFirst(roots, k)|
  {
    if KeyOf(roots[0]) == k {
      var c := roots[0].bindings;
      MergeSize([], c);
      forall key ensures Has(Merge([], c), key) <==> Has(c, key) {
        HasMergeAny([], c, key);
      }
      GatherGrowth(Merge([], c), c, roots[1..], k);
    } else {
      HasTail(roots, k);
      GatherDiffers(roots[1..], k);
    }
  }

  /** Without clashes, the children of an app are the ones it would have alone. */
  lemma CanonicalShare(fs: seq<AppForest>, i: nat, k: Key)
    requires ValidArrival(fs) && OrderSafe(fs) && i < |fs|
    ensures ByApp(ChildrenAt(Fold(fs), k), fs[i].app) == GatherFirst(fs[i].roots, k)
  {
    FoldShare(fs, i, k);
    if BoundBefore(fs, i, k) {
      if Has(fs[i].roots, k) {
        GatherAgrees(fs[i].roots, k);
      } else {
        NoRootNoShare([], fs[i].roots, k);
      }
    }
  }

  // ---------------------------------------------------------------- multisets of siblings

  lemma {:induction false} ByAppMultiset(s: seq<Binding>, x: Binding, app: AppID)
    ensures multiset(ByApp(s, app))[x] == if x.appID == app then multiset(s)[x] else 0
  {
    if s != [] {
      ByAppMultiset(s[1..], x, app);
      assert s == [s[0]] + s[1..];
      assert multiset(s) == multiset{s[0]} + multiset(s[1..]);
      var head := if s[0].appID == app then [s[0]] else [];
      assert multiset(head + ByApp(s[1..], app)) == multiset(head) + multiset(ByApp(s[1..], app));
    }
  }

  lemma SiblingsByApp(s: seq<Binding>, t: seq<Binding>)
    requires forall app :: ByApp(s, app) == ByApp(t, app)
    ensures multiset(s) == multiset(t)
  {
    forall x ensures multiset(s)[x] == multiset(t)[x] {
      ByAppMultiset(s, x, x.appID);
      ByAppMultiset(t, x, x.appID);
      assert ByApp(s, x.appID) == ByApp(t, x.appID);
    }
  }

  lemma ByAppCount(s: seq<Binding>, t: seq<Binding>, app: AppID)
    requires multiset(s) == multiset(t)
    ensures |ByApp(s, app)| == |ByApp(t, app)|
  {
    forall x ensures multiset(ByApp(s, app))[x] == multiset(ByApp(t, app))[x] {
      ByAppMultiset(s, x, app);
      ByAppMultiset(t, x, app);
    }
    assert multiset(ByApp(s, app)) == multiset(ByApp(t, app));
    assert |multiset(ByApp(s, app))| == |ByApp(s, app)|;
    assert |multiset(ByApp(t, app))| == |ByApp(t, app)|;
  }

  lemma RepeatedElement<T>(s: seq<T>, i: nat, j: nat)
    requires i < j < |s| && s[i] == s[j]
    ensures multiset(s)[s[i]] >= 2
  {
    assert s == s[..i] + [s[i]] + s[i + 1..j] + [s[j]] + s[j + 1..];
  }

  lemma {:induction false} SingleElement(fs: seq<AppForest>, x: AppForest)
    requires forall i, j :: 0 <= i < j < |fs| ==> fs[i].app != fs[j].app
    ensures multiset(fs)[x] <= 1
  {
    if fs != [] {
      assert fs == [fs[0]] + fs[1..];
      SingleElement(fs[1..], x);
      if x == fs[0] {
        assert x !in fs[1..];
      }
    }
  }

  lemma PermutationValid(fs: seq<AppForest>, gs: seq<AppForest>)
    requires ValidArrival(fs) && Permutation(gs, fs)
    ensures ValidArrival(gs)
    ensures OrderSafe(fs) ==> OrderSafe(gs)
  {
    forall i | 0 <= i < |gs| ensures BareForest(gs[i]) {
      var a := IndexIn(gs, fs, i);
    }
    forall i, j | 0 <= i < j < |gs| ensures gs[i].app != gs[j].app {
      var a := IndexIn(gs, fs, i);
      var b := IndexIn(gs, fs, j);
      if a == b {
        RepeatedElement(gs, i, j);
        SingleElement(fs, fs[a]);
      } else if a < b {
        assert fs[a].app != fs[b].app;
      } else {
        assert fs[b].app != fs[a].app;
      }
    }
    if OrderSafe(fs) {
      forall i, j, k |
        0 <= i < |gs| && 0 <= j < |gs| && i != j && Has(gs[i].roots, k) && Has(gs[j].roots, k)
        ensures Distinct(FirstAt(gs[i].roots, k).bindings)
      {
        var a := IndexIn(gs, fs, i);
        var b := IndexIn(gs, fs, j);
        assert gs[i].app != gs[j].app;
        assert a != b;
      }
    }
  }

  lemma IndexIn(gs: seq<AppForest>, fs: seq<AppForest>, i: nat) returns (a: nat)
    requires Permutation(gs, fs) && i < |gs|
    ensures a < |fs| && fs[a] == gs[i]
  {
    assert gs[i] in multiset(gs);
    assert gs[i] in multiset(fs);
    a :| a < |fs| && fs[a] == gs[i];
  }

  // ---------------------------------------------------------------- the theorem

  lemma SafeFoldsAgree(fs: seq<AppForest>, gs: seq<AppForest>)
    requires ValidArrival(fs) && OrderSafe(fs) && Permutation(gs, fs)
    ensures SameUpToTies(Fold(gs), Fold(fs))
  {
    PermutationValid(fs, gs);
    forall k
      ensures Has(Fold(gs), k) <==> Has(Fold(fs), k)
      ensures multiset(ChildrenAt(Fold(gs), k)) == multiset(ChildrenAt(Fold(fs), k))
    {
      FoldRoots(fs, k);
      FoldRoots(gs, k);
      if BoundBefore(fs, |fs|, k) {
        BoundInPermutation(fs, gs, k);
      }
      if BoundBefore(gs, |gs|, k) {
        BoundInPermutation(gs, fs, k);
      }
      forall app ensures ByApp(ChildrenAt(Fold(gs), k), app) == ByApp(ChildrenAt(Fold(fs), k), app) {
        SharesAgree(fs, gs, k, app);
      }
      SiblingsByApp(ChildrenAt(Fold(gs), k), ChildrenAt(Fold(fs), k));
    }
  }

  lemma BoundInPermutation(fs: seq<AppForest>, gs: seq<AppForest>, k: Key)
    requires Permutation(fs, gs) && BoundBefore(fs, |fs|, k)
    ensures BoundBefore(gs, |gs|, k)
  {
    var i :| 0 <= i < |fs| && Has(fs[i].roots, k);
    var a := IndexIn(fs, gs, i);
    assert Has(gs[a].roots, k);
  }

  lemma SharesAgree(fs: seq<AppForest>, gs: seq<AppForest>, k: Key, app: AppID)
    requires ValidArrival(fs) && ValidArrival(gs) && OrderSafe(fs) && OrderSafe(gs)
    requires Permutation(gs, fs)
    ensures ByApp(ChildrenAt(Fold(gs), k), app) == ByApp(ChildrenAt(Fold(fs), k), app)
  {
    if i :| 0 <= i < |fs| && fs[i].app == app {
      var a := IndexIn(fs, gs, i);
      CanonicalShare(fs, i, k);
      CanonicalShare(gs, a, k);
    } else {
      forall j | 0 <= j < |gs| ensures gs[j].app != app {
        var b := IndexIn(gs, fs, j);
      }
      FoldForeign(fs, k, app);
      FoldForeign(gs, k, app);
    }
  }

  /** With a repeated child at a shared root, swapping two arrivals changes the number of children. */
  lemma UnsafeFoldsDiffer(f: AppForest, g: AppForest, rest: seq<AppForest>, k: Key)
    requires ValidArrival([f, g] + rest) && ValidArrival([g, f] + rest)
    requires Has(f.roots, k) && Has(g.roots, k) && !Distinct(FirstAt(f.roots, k).bindings)
    ensures !SameUpToTies(Fold([f, g] + rest), Fold([g, f] + rest))
  {
    var gs, hs := [f, g] + rest, [g, f] + rest;
    FoldShare(gs, 0, k);
    FoldShare(hs, 1, k);
    assert !BoundBefore(gs, 0, k);
    assert BoundBefore(hs, 1, k) by { assert Has(hs[0].roots, k); }
    GatherDiffers(f.roots, k);
    if multiset(ChildrenAt(Fold(gs), k)) == multiset(ChildrenAt(Fold(hs), k)) {
      ByAppCount(ChildrenAt(Fold(gs), k), ChildrenAt(Fold(hs), k), f.app);
    }
  }

  lemma PickTwo(fs: seq<AppForest>, a: nat, b: nat)
    requires a < b < |fs|
    ensures multiset(fs) == multiset{fs[a], fs[b]} + multiset(fs[..a] + fs[a + 1..b] + fs[b + 1..])
  {
    var x, y, z := fs[..a], fs[a + 1..b], fs[b + 1..];
    assert fs[..b] == x + [fs[a]] + y;
    assert fs == fs[..b] + [fs[b]] + z;
    assert multiset(x + y + z) == multiset(x) + multiset(y) + multiset(z);
    assert multiset(fs[..b]) == multiset(x) + multiset{fs[a]} + multiset(y);
    assert multiset(fs) == multiset(fs[..b]) + multiset{fs[b]} + multiset(z);
  }

  lemma TwoFirst(fs: seq<AppForest>, i: nat, j: nat) returns (rest: seq<AppForest>)
    requires i < |fs| && j < |fs| && i != j
    ensures Permutation([fs[i], fs[j]] + rest, fs) && Permutation([fs[j], fs[i]] + rest, fs)
  {
    var a, b := if i < j then i else j, if i < j then j else i;
    rest := fs[..a] + fs[a + 1..b] + fs[b + 1..];
    PickTwo(fs, a, b);
    assert multiset([fs[i], fs[j]] + rest) == multiset([fs[i], fs[j]]) + multiset(rest);
    assert multiset([fs[j], fs[i]] + rest) == multiset([fs[j], fs[i]]) + multiset(rest);
  }

  lemma UnsafeOrderMatters(fs: seq<AppForest>) returns (gs: seq<AppForest>, hs: seq<AppForest>)
    requires ValidArrival(fs) && !OrderSafe(fs)
    ensures Permutation(gs, fs) && Permutation(hs, fs) && !SameUpToTies(Fold(gs), Fold(hs))
  {
    var i, j, k :|
      0 <= i < |fs| && 0 <= j < |fs| && i != j && Has(fs[i].roots, k) && Has(fs[j].roots, k) &&
      !Distinct(FirstAt(fs[i].roots, k).bindings);
    var rest := TwoFirst(fs, i, j);
    gs, hs := [fs[i], fs[j]] + rest, [fs[j], fs[i]] + rest;
    PermutationValid(fs, gs);
    PermutationValid(fs, hs);
    UnsafeFoldsDiffer(fs[i], fs[j], rest, k);
  }

  lemma SafeOrdersAgree(fs: seq<AppForest>, gs: seq<AppForest>, hs: seq<AppForest>)
    requires ValidArrival(fs) && OrderSafe(fs) && Permutation(gs, fs) && Permutation(hs, fs)
    ensures SameUpToTies(Fold(gs), Fold(hs))
  {
    PermutationValid(fs, hs);
    SafeFoldsAgree(hs, gs);
  }

  /** Every arrival order gives the same result, up to ties, if and only if the forests are order safe. */
  lemma ArrivalOrderIrrelevant(fs: seq<AppForest>)
    requires ValidArrival(fs)
    ensures OrderSafe(fs) <==>
            forall gs, hs | Permutation(gs, fs) && Permutation(hs, fs) :: SameUpToTies(Fold(gs), Fold(hs))
  {
    if OrderSafe(fs) {
      forall gs, hs | Permutation(gs, fs) && Permutation(hs, fs)
        ensures SameUpToTies(Fold(gs), Fold(hs))
      {
        SafeOrdersAgree(fs, gs, hs);
      }
    } else {
      var gs, hs := UnsafeOrderMatters(fs);
    }
  }

  // ---------------------------------------------------------------- the final sort

  function Keys(s: seq<Binding>, key: Binding -> string): (r: seq<string>)
    ensures |r| == |s|
  {
    seq(|s|, i requires 0 <= i < |s| => key(s[i]))
  }

  const BY_APP_ID: Binding -> string := (b: Binding) => b.appID
  const BY_LOCATION: Binding -> string := (b: Binding) => b.location

  lemma InsertSorted(s: seq<string>, i: nat, x: string)
    requires Sorted(s) && i <= |s|
    requires forall j :: 0 <= j < i ==> Leq(s[j], x)
    requires i < |s| ==> !Leq(s[i], x)
    ensures Sorted(s[..i] + [x] + s[i..])
  {
    var r := s[..i] + [x] + s[i..];
    forall a, b | 0 <= a < b < |r| ensures Leq(r[a], r[b]) {
      if a == i {
        LeqTotal(s[i], x);
        if b > i + 1 {
          LeqTransitive(x, s[i], s[b - 1]);
        }
      }
    }
  }

  function InsertBy(s: seq<Binding>, x: Binding, key: Binding -> string): (r: seq<Binding>)
    requires Sorted(Keys(s, key))
    ensures multiset(r) == multiset(s) + multiset{x}
    ensures Sorted(Keys(r, key))
  {
    var i := Position(s, x, key);
    var r := s[..i] + [x] + s[i..];
    InsertSorted(Keys(s, key), i, key(x));
    assert Keys(r, key) == Keys(s, key)[..i] + [key(x)] + Keys(s, key)[i..];
    assert s == s[..i] + s[i..];
    r
  }

  /** Where `x` goes: behind everything that is not greater. */
  function Position(s: seq<Binding>, x: Binding, key: Binding -> string): (i: nat)
    ensures i <= |s| && (i < |s| ==> !Leq(key(s[i]), key(x)))
    ensures forall j :: 0 <= j < i ==> Leq(key(s[j]), key(x))
  {
    if s == [] || !Leq(key(s[0]), key(x)) then 0
    else
      var i := Position(s[1..], x, key);
      assert forall j :: 0 < j < i + 1 ==> s[j] == s[1..][j - 1];
      i + 1
  }

  /** sort.Slice for `<` on a key; callers may rely on no particular order of ties. */
  function SortBy(s: seq<Binding>, key: Binding -> string): (r: seq<Binding>)
    ensures multiset(r) == multiset(s)
    ensures Sorted(Keys(r, key))
  {
    if s == [] then []
    else
      var n := |s| - 1;
      assert s == s[..n] + [s[n]];
      InsertBy(SortBy(s[..n], key), s[n], key)
  }

  /** `out` is `x` with the children of every root, then the roots, in sorted order. */
  ghost predicate SortOutcome(x: seq<Binding>, out: seq<Binding>, mid: seq<Binding>) {
    && |mid| == |x|
    && (forall i :: 0 <= i < |x| ==>
          && mid[i] == x[i].(bindings := mid[i].bindings)
          && multiset(mid[i].bindings) == multiset(x[i].bindings)
          && Sorted(Keys(mid[i].bindings, BY_APP_ID)))
    && multiset(out) == multiset(mid)
    && Sorted(Keys(out, BY_LOCATION))
  }

  /** A possible result of SortTopBindings: ties may come out in any order. */
  ghost predicate SortedFrom(x: seq<Binding>, out: seq<Binding>) {
    exists mid :: SortOutcome(x, out, mid)
  }

  method SortTopBindings(x: seq<Binding>) returns (out: seq<Binding>)
    ensures SortedFrom(x, out)
  {
    out := [];
    for n := 0 to |x|
      invariant |out| == n
      invariant forall i :: 0 <= i < n ==>
        && out[i] == x[i].(bindings := out[i].bindings)
        && multiset(out[i].bindings) == multiset(x[i].bindings)
        && Sorted(Keys(out[i].bindings, BY_APP_ID))
    {
      var children := SortBy(x[n].bindings, BY_APP_ID);
      out := out + [x[n].(bindings := children)];
    }
    ghost var mid := out;
    out := SortBy(out, BY_LOCATION);
    assert SortOutcome(x, out, mid);
  }

  // ---------------------------------------------------------------- the sorted result is unique up to ties

  lemma {:induction false} DistinctOnce(x: seq<Binding>, b: Binding)
    requires Distinct(x)
    ensures multiset(x)[b] <= 1
  {
    if x != [] {
      assert x == [x[0]] + x[1..];
      DistinctOnce(x[1..], b);
      if b == x[0] {
        assert b !in x[1..];
      }
    }
  }

  lemma HasInPermutation(x: seq<Binding>, y: seq<Binding>, k: Key)
    requires multiset(x) == multiset(y) && Has(x, k)
    ensures Has(y, k)
  {
    var i :| 0 <= i < |x| && KeyOf(x[i]) == k;
    assert x[i] in multiset(x);
    assert x[i] in multiset(y);
  }

  lemma PermutedDistinct(mid: seq<Binding>, out: seq<Binding>)
    requires Distinct(mid) && multiset(out) == multiset(mid)
    ensures Distinct(out)
  {
    forall i, j | 0 <= i < j < |out| ensures KeyOf(out[i]) != KeyOf(out[j]) {
      if KeyOf(out[i]) == KeyOf(out[j]) {
        MemberOfPermutation(out, mid, i);
        MemberOfPermutation(out, mid, j);
        AtMember(mid, out[i]);
        AtMember(mid, out[j]);
        RepeatedElement(out, i, j);
        DistinctOnce(mid, out[i]);
      }
    }
  }

  lemma MemberOfPermutation(x: seq<Binding>, y: seq<Binding>, i: nat)
    requires multiset(x) == multiset(y) && i < |x|
    ensures x[i] in y
  {
    assert x[i] in multiset(x);
    assert x[i] in multiset(y);
  }

  lemma SameLength(x: seq<Binding>, y: seq<Binding>)
    requires multiset(x) == multiset(y)
    ensures |x| == |y|
  {
    assert |multiset(x)| == |x| && |multiset(y)| == |y|;
  }

  lemma PermutedChildrenAt(mid: seq<Binding>, out: seq<Binding>, k: Key)
    requires Distinct(mid) && multiset(out) == multiset(mid)
    ensures Has(out, k) <==> Has(mid, k)
    ensures ChildrenAt(out, k) == ChildrenAt(mid, k)
  {
    PermutedDistinct(mid, out);
    if Has(mid, k) {
      HasInPermutation(mid, out, k);
    }
    if Has(out, k) {
      HasInPermutation(out, mid, k);
      var i :| 0 <= i < |out| && KeyOf(out[i]) == k;
      AtUnique(out, i);
      MemberOfPermutation(out, mid, i);
      AtMember(mid, out[i]);
    }
  }

  lemma SortedChildrenAt(x: seq<Binding>, out: seq<Binding>, mid: seq<Binding>, k: Key)
    requires Distinct(x) && SortOutcome(x, out, mid)
    ensures Distinct(mid)
    ensures Has(mid, k) <==> Has(x, k)
    ensures multiset(ChildrenAt(mid, k)) == multiset(ChildrenAt(x, k))
  {
    assert forall i :: 0 <= i < |x| ==> KeyOf(mid[i]) == KeyOf(x[i]);
    if Has(x, k) {
      var j :| 0 <= j < |x| && KeyOf(x[j]) == k;
      AtUnique(x, j);
      AtUnique(mid, j);
    }
  }

  lemma SortKeepsRoots(x: seq<Binding>, out: seq<Binding>, mid: seq<Binding>)
    requires BareResult(x) && SortOutcome(x, out, mid)
    ensures BareResult(out) && SameUpToTies(out, x)
    ensures ChildrenSorted(out)
  {
    forall k
      ensures Has(out, k) <==> Has(x, k)
      ensures multiset(ChildrenAt(out, k)) == multiset(ChildrenAt(x, k))
    {
      SortedChildrenAt(x, out, mid, k);
      PermutedChildrenAt(mid, out, k);
    }
    SortedChildrenAt(x, out, mid, ("", ""));
    PermutedDistinct(mid, out);
    forall i | 0 <= i < |out|
      ensures out[i] == Container(out[i].appID, out[i].location, out[i].bindings) && out[i].bindings != []
      ensures Sorted(Keys(out[i].bindings, BY_APP_ID))
    {
      MemberOfPermutation(out, mid, i);
      var j :| 0 <= j < |mid| && mid[j] == out[i];
      SameLength(mid[j].bindings, x[j].bindings);
    }
  }

  lemma Cancel(a: multiset<Binding>, b: multiset<Binding>, x: Binding)
    requires a + multiset{x} == b + multiset{x}
    ensures a == b
  {
    assert (a + multiset{x}) - multiset{x} == a;
    assert (b + multiset{x}) - multiset{x} == b;
  }

  lemma TakeOut(y: seq<Binding>, j: nat)
    requires j < |y|
    ensures multiset(y) == multiset(y[..j] + y[j + 1..]) + multiset{y[j]}
  {
    var pre, post := y[..j], y[j + 1..];
    assert y == pre + ([y[j]] + post);
    assert multiset(pre + post) == multiset(pre) + multiset(post);
    assert multiset([y[j]] + post) == multiset{y[j]} + multiset(post);
  }

  lemma TakeHead(x: seq<Binding>)
    requires x != []
    ensures multiset(x) == multiset(x[1..]) + multiset{x[0]}
  {
    assert x == [x[0]] + x[1..];
  }

  lemma Occurs(x: Binding, y: seq<Binding>) returns (j: nat)
    requires x in multiset(y)
    ensures j < |y| && y[j] == x
  {
    j :| 0 <= j < |y| && y[j] == x;
  }

  /** Removing an element that both sequences hold leaves the same multiset. */
  lemma TakeOutBoth(x: seq<Binding>, y: seq<Binding>) returns (j: nat)
    requires multiset(x) == multiset(y) && x != []
    ensures j < |y| && y[j] == x[0]
    ensures multiset(x[1..]) == multiset(y[..j] + y[j + 1..])
  {
    TakeHead(x);
    j := Occurs(x[0], y);
    TakeOut(y, j);
    Cancel(multiset(x[1..]), multiset(y[..j] + y[j + 1..]), x[0]);
  }

  lemma KeysTakeOut(y: seq<Binding>, j: nat, key: Binding -> string)
    requires j < |y|
    ensures multiset(Keys(y, key)) == multiset{key(y[j])} + multiset(Keys(y[..j] + y[j + 1..], key))
  {
    assert Keys(y, key) == Keys(y[..j], key) + [key(y[j])] + Keys(y[j + 1..], key);
    assert Keys(y[..j] + y[j + 1..], key) == Keys(y[..j], key) + Keys(y[j + 1..], key);
  }

  lemma KeysHead(x: seq<Binding>, key: Binding -> string)
    requires x != []
    ensures multiset(Keys(x, key)) == multiset{key(x[0])} + multiset(Keys(x[1..], key))
  {
    assert Keys(x, key) == [key(x[0])] + Keys(x[1..], key);
  }

  lemma {:induction false} KeysPermuted(x: seq<Binding>, y: seq<Binding>, key: Binding -> string)
    requires multiset(x) == multiset(y)
    ensures multiset(Keys(x, key)) == multiset(Keys(y, key))
    decreases |x|
  {
    if x == [] {
      assert |multiset(y)| == |y|;
    } else {
      var j := TakeOutBoth(x, y);
      KeysHead(x, key);
      KeysTakeOut(y, j, key);
      KeysPermuted(x[1..], y[..j] + y[j + 1..], key);
    }
  }

  /** The roots without their children. */
  function Bare(x: seq<Binding>): (r: seq<Binding>)
    ensures |r| == |x|
  {
    seq(|x|, i requires 0 <= i < |x| => Container(x[i].appID, x[i].location, []))
  }

  lemma BareOnce(x: seq<Binding>, b: Binding)
    requires Distinct(x)
    ensures multiset(Bare(x))[b] == if b == Container(b.appID, b.location, []) && Has(x, KeyOf(b)) then 1 else 0
  {
    assert Distinct(Bare(x)) by {
      assert forall i :: 0 <= i < |x| ==> KeyOf(Bare(x)[i]) == KeyOf(x[i]);
    }
    DistinctOnce(Bare(x), b);
    if b in Bare(x) {
      var i :| 0 <= i < |x| && Bare(x)[i] == b;
      assert KeyOf(x[i]) == KeyOf(b);
    }
    if b == Container(b.appID, b.location, []) && Has(x, KeyOf(b)) {
      var i :| 0 <= i < |x| && KeyOf(x[i]) == KeyOf(b);
      assert Bare(x)[i] == b;
    }
  }

  /** Roots with the same keys, sorted by location, have the same locations in the same positions. */
  lemma SameLocations(x: seq<Binding>, y: seq<Binding>)
    requires Distinct(x) && Distinct(y) && SameKeys(x, y)
    requires Sorted(Keys(x, BY_LOCATION)) && Sorted(Keys(y, BY_LOCATION))
    ensures Keys(x, BY_LOCATION) == Keys(y, BY_LOCATION)
  {
    forall b ensures multiset(Bare(x))[b] == multiset(Bare(y))[b] {
      BareOnce(x, b);
      BareOnce(y, b);
    }
    KeysPermuted(Bare(x), Bare(y), BY_LOCATION);
    assert Keys(Bare(x), BY_LOCATION) == Keys(x, BY_LOCATION);
    assert Keys(Bare(y), BY_LOCATION) == Keys(y, BY_LOCATION);
    SortedUnique(Keys(x, BY_LOCATION), Keys(y, BY_LOCATION));
  }

  /**
    Two results as alike as sorting can make them: the same locations position by position; the same
    roots, each with the same children; and under each root the same app in every position.
   */
  ghost predicate SortedAlike(x: seq<Binding>, y: seq<Binding>) {
    && Keys(x, BY_LOCATION) == Keys(y, BY_LOCATION)
    && SameUpToTies(x, y)
    && forall k :: Keys(ChildrenAt(x, k), BY_APP_ID) == Keys(ChildrenAt(y, k), BY_APP_ID)
  }

  ghost predicate ChildrenSorted(x: seq<Binding>) {
    forall i :: 0 <= i < |x| ==> Sorted(Keys(x[i].bindings, BY_APP_ID))
  }

  lemma SortedChildren(x: seq<Binding>, k: Key)
    requires ChildrenSorted(x)
    ensures Sorted(Keys(ChildrenAt(x, k), BY_APP_ID))
  {
    if Has(x, k) {
      var i :| 0 <= i < |x| && At(x, k) == x[i];
    }
  }

  lemma SortingMakesAlike(x: seq<Binding>, y: seq<Binding>)
    requires BareResult(x) && BareResult(y) && SameUpToTies(x, y)
    requires ChildrenSorted(x) && ChildrenSorted(y)
    requires Sorted(Keys(x, BY_LOCATION)) && Sorted(Keys(y, BY_LOCATION))
    ensures SortedAlike(x, y)
  {
    SameLocations(x, y);
    forall k ensures Keys(ChildrenAt(x, k), BY_APP_ID) == Keys(ChildrenAt(y, k), BY_APP_ID) {
      SortedChildren(x, k);
      SortedChildren(y, k);
      assert multiset(ChildrenAt(x, k)) == multiset(ChildrenAt(y, k));
      KeysPermuted(ChildrenAt(x, k), ChildrenAt(y, k), BY_APP_ID);
      SortedUnique(Keys(ChildrenAt(x, k), BY_APP_ID), Keys(ChildrenAt(y, k), BY_APP_ID));
    }
  }

  lemma SortedFold(fs: seq<AppForest>, out: seq<Binding>)
    requires ValidArrival(fs) && SortedFrom(Fold(fs), out)
    ensures BareResult(out) && ChildrenSorted(out) && Sorted(Keys(out, BY_LOCATION))
    ensures SameUpToTies(out, Fold(fs))
  {
    FoldRoots(fs, ("", ""));
    var mid :| SortOutcome(Fold(fs), out, mid);
    SortKeepsRoots(Fold(fs), out, mid);
  }

  lemma TiesTransitive(x: seq<Binding>, y: seq<Binding>, z: seq<Binding>)
    requires SameUpToTies(x, y) && SameUpToTies(y, z)
    ensures SameUpToTies(x, z)
  {
    forall k
      ensures Has(x, k) <==> Has(z, k)
      ensures multiset(ChildrenAt(x, k)) == multiset(ChildrenAt(z, k))
    {
      assert Has(x, k) <==> Has(y, k);
    }
  }

  /** A result that GetBindings can give when these forests arrive in some order. */
  ghost predicate CanResult(fs: seq<AppForest>, out: seq<Binding>) {
    exists gs :: Permutation(gs, fs) && SortedFrom(Fold(gs), out)
  }

  /** End to end: for order-safe forests, all arrival orders give results that are alike. */
  lemma SortedResultsAgree(fs: seq<AppForest>, out1: seq<Binding>, out2: seq<Binding>)
    requires ValidArrival(fs) && OrderSafe(fs) && CanResult(fs, out1) && CanResult(fs, out2)
    ensures SortedAlike(out1, out2)
  {
    var gs :| Permutation(gs, fs) && SortedFrom(Fold(gs), out1);
    var hs :| Permutation(hs, fs) && SortedFrom(Fold(hs), out2);
    PermutationValid(fs, gs);
    PermutationValid(fs, hs);
    SortedFold(gs, out1);
    SortedFold(hs, out2);
    SafeOrdersAgree(fs, gs, hs);
    TiesTransitive(out1, Fold(gs), Fold(hs));
    assert SameUpToTies(Fold(hs), out2);
    TiesTransitive(out1, Fold(hs), out2);
    SortingMakesAlike(out1, out2);
  }

  lemma SortedResult(x: seq<Binding>) returns (out: seq<Binding>)
    ensures SortedFrom(x, out)
  {
    var mid := seq(|x|, i requires 0 <= i < |x| => x[i].(bindings := SortBy(x[i].bindings, BY_APP_ID)));
    out := SortBy(mid, BY_LOCATION);
    assert SortOutcome(x, out, mid);
  }

  /** Sorting does not hide it when the order has mattered. */
  lemma UnsafeOrderShows(fs: seq<AppForest>) returns (out1: seq<Binding>, out2: seq<Binding>)
    requires ValidArrival(fs) && !OrderSafe(fs)
    ensures CanResult(fs, out1) && CanResult(fs, out2) && !SameUpToTies(out1, out2)
  {
    var gs, hs := UnsafeOrderMatters(fs);
    out1 := SortedResult(Fold(gs));
    out2 := SortedResult(Fold(hs));
    PermutationValid(fs, gs);
    PermutationValid(fs, hs);
    SortedFold(gs, out1);
    SortedFold(hs, out2);
    if SameUpToTies(out1, out2) {
      assert SameUpToTies(Fold(gs), out1);
      TiesTransitive(Fold(gs), out1, out2);
      TiesTransitive(Fold(gs), out2, Fold(hs));
    }
  }

  /** All results that the forests can give are alike if and only if the forests are order safe. */
  lemma SortedOrderIrrelevant(fs: seq<AppForest>)
    requires ValidArrival(fs)
    ensures OrderSafe(fs) <==>
            forall out1, out2 | CanResult(fs, out1) && CanResult(fs, out2) :: SortedAlike(out1, out2)
  {
    if OrderSafe(fs) {
      forall out1, out2 | CanResult(fs, out1) && CanResult(fs, out2) ensures SortedAlike(out1, out2) {
        SortedResultsAgree(fs, out1, out2);
      }
    } else {
      var out1, out2 := UnsafeOrderShows(fs);
    }
  }
}

/**
  Which nodes of a binding forest survive its cleaning, what they carry, and when nothing is reported
  (server/proxy/invoke_bindings.go:62-203): said on the input alone, by recursion on the tree.
 */
module CleanSurvivors {
  import opened Wrappers
  import opened Strings
  import opened Bindings
  import opened LocationPaths
  import opened CleanForms
  import opened CleanBindings

  /** What a node is called below its parent. */
  function Name(b: Binding): string {
    if b.location == "" then b.labelText else b.location
  }

  function PathOf(b: Binding, prefix: Location): Location {
    Sub(prefix, TrimSpace(Name(b)))
  }

  predicate UnderCommand(l: Location) {
    "/command" <= l && l != "/command"
  }

  /** The word that is typed for a command: the label, or for want of one the location. */
  function Typed(b: Binding): string {
    if b.labelText == "" then TrimSpace(Name(b)) else b.labelText
  }

  /** The icon as it is normalised; none if it cannot be. */
  function Icon(env: Env, b: Binding): string {
    if b.icon != "" && env.norm(b.icon).Some? then env.norm(b.icon).value else ""
  }

  function Kinds(b: Binding): nat {
    (if b.bindings == [] then 0 else 1) + (if b.form.Some? then 1 else 0) + if b.submit.Some? then 1 else 0
  }

  /** Everything that a node needs for itself. */
  predicate Fit(env: Env, b: Binding, prefix: Location) {
    var l := PathOf(b, prefix);
    && !(b.location == "" && b.labelText == "")
    && (exists i :: 0 <= i < |env.granted| && env.granted[i] <= l)
    && (UnderCommand(l) ==> OneWord(TrimSpace(Typed(b))))
    && (l == Sub("/channel_header", TrimSpace(Name(b))) && env.userAgent == "webapp" ==> Icon(env, b) != "")
  }

  /** A node survives if it is fit, has one kind of contents and, if these are nodes, one that survives. */
  predicate Survives(env: Env, b: Binding, prefix: Location)
    decreases b
  {
    && Fit(env, b, prefix) && Kinds(b) == 1
    && (b.bindings != [] ==>
          exists i :: 0 <= i < |b.bindings| && Survives(env, b.bindings[i], PathOf(b, prefix)))
  }

  /** What a survivor carries. */
  predicate Carries(env: Env, out: Binding, b: Binding, prefix: Location)
    decreases b, 0
  {
    var l := PathOf(b, prefix);
    && out.location == TrimSpace(Name(b))
    && out.appID == (if l in {"/post_menu", "/channel_header", "/command"} then b.appID else env.appID)
    && out.labelText == (if UnderCommand(l) then TrimSpace(Typed(b)) else b.labelText)
    && out.icon == Icon(env, b) && out.hint == b.hint && out.description == b.description
    && out.submit == b.submit
    && out.form == (match b.form case None => None case Some(f) => Some(CleanForm(f, env.norm).0))
    && AreSurvivors(env, out.bindings, b.bindings, l)
  }

  /** `out` has the survivors of the input, all of them, in their order, and nothing else. */
  predicate AreSurvivors(env: Env, out: seq<Binding>, bb: seq<Binding>, prefix: Location)
    decreases bb, 1
  {
    if bb == [] then out == []
    else if Survives(env, bb[0], prefix) then
      out != [] && Carries(env, out[0], bb[0], prefix) && AreSurvivors(env, out[1..], bb[1..], prefix)
    else AreSurvivors(env, out, bb[1..], prefix)
  }

  predicate AnySurvives(env: Env, bb: seq<Binding>, prefix: Location) {
    exists i :: 0 <= i < |bb| && Survives(env, bb[i], prefix)
  }

  lemma AnyTail(env: Env, bb: seq<Binding>, prefix: Location)
    requires bb != []
    ensures AnySurvives(env, bb, prefix) <==> Survives(env, bb[0], prefix) || AnySurvives(env, bb[1..], prefix)
  {
    if i :| 0 < i < |bb| && Survives(env, bb[i], prefix) {
      assert Survives(env, bb[1..][i - 1], prefix);
    }
    if i :| 0 <= i < |bb[1..]| && Survives(env, bb[1..][i], prefix) {
      assert Survives(env, bb[i + 1], prefix);
    }
  }

  /** The part of cleaning a node that does not look at its contents. */
  lemma HeadIff(env: Env, b: Binding, prefix: Location)
    ensures CleanHead(env, b, prefix).value.Some? <==> Fit(env, b, prefix)
    ensures Fit(env, b, prefix) ==>
      var n, l := CleanHead(env, b, prefix).value.value, PathOf(b, prefix);
      && n.location == TrimSpace(Name(b)) && n.icon == Icon(env, b)
      && n.appID == (if l in {"/post_menu", "/channel_header", "/command"} then b.appID else env.appID)
      && n.labelText == (if UnderCommand(l) then TrimSpace(Typed(b)) else b.labelText)
      && n.hint == b.hint && n.description == b.description
      && n.submit == b.submit && n.form == b.form && n.bindings == b.bindings
  {
    OneWordIff(TrimSpace(Typed(b)));
    TrimOfTrimmed(Name(b));
  }

  lemma TrimOfTrimmed(s: string)
    ensures TrimSpace(TrimSpace(s)) == TrimSpace(s)
  {
    TrimSpaceProperties(s);
  }

  lemma {:induction false} NodeSurvivesIff(env: Env, b: Binding, prefix: Location)
    ensures CleanNode(env, b, prefix).value.Some? <==> Survives(env, b, prefix)
    ensures Survives(env, b, prefix) ==> Carries(env, CleanNode(env, b, prefix).value.value, b, prefix)
    decreases b, 0
  {
    HeadIff(env, b, prefix);
    if Fit(env, b, prefix) {
      SurvivorsExact(env, b.bindings, PathOf(b, prefix));
      assert (exists i :: 0 <= i < |b.bindings| && Survives(env, b.bindings[i], PathOf(b, prefix))) <==>
             AnySurvives(env, b.bindings, PathOf(b, prefix));
    }
  }

  /**
    Cleaning a forest leaves exactly the nodes that survive, at every level, in their order, each with
    what a survivor carries; something is left if and only if a root survives.
   */
  lemma {:induction false} SurvivorsExact(env: Env, bb: seq<Binding>, prefix: Location)
    ensures AreSurvivors(env, CleanForest(env, bb, prefix).value, bb, prefix)
    ensures CleanForest(env, bb, prefix).value != [] <==> AnySurvives(env, bb, prefix)
    decreases bb, 1
  {
    if bb != [] {
      NodeSurvivesIff(env, bb[0], prefix);
      SurvivorsExact(env, bb[1..], prefix);
      AnyTail(env, bb, prefix);
      if Survives(env, bb[0], prefix) {
        assert CleanForest(env, bb, prefix).value[1..] == CleanForest(env, bb[1..], prefix).value;
      }
    }
  }

  /** The survivors determine the result: nothing else has them in this order. */
  lemma {:induction false} SurvivorsUnique(env: Env, out: seq<Binding>, bb: seq<Binding>, prefix: Location)
    requires AreSurvivors(env, out, bb, prefix)
    ensures out == CleanForest(env, bb, prefix).value
    decreases bb, 1
  {
    if bb != [] {
      NodeSurvivesIff(env, bb[0], prefix);
      if Survives(env, bb[0], prefix) {
        var o := CleanNode(env, bb[0], prefix).value.value;
        SurvivorsUnique(env, out[0].bindings, bb[0].bindings, PathOf(bb[0], prefix));
        SurvivorsUnique(env, o.bindings, bb[0].bindings, PathOf(bb[0], prefix));
        assert out[0] == o;
        SurvivorsUnique(env, out[1..], bb[1..], prefix);
        assert out == [out[0]] + out[1..];
      } else {
        SurvivorsUnique(env, out, bb[1..], prefix);
      }
    }
  }

  // ---------------------------------------------------------------- when nothing is reported

  /** A node with nothing to complain about, down to its leaves. */
  predicate Faultless(env: Env, b: Binding, prefix: Location)
    decreases b
  {
    && Fit(env, b, prefix) && Kinds(b) == 1
    && Trimmed(Name(b)) && (UnderCommand(PathOf(b, prefix)) ==> Trimmed(Typed(b)))
    && (b.icon != "" ==> env.norm(b.icon).Some?)
    && (b.form.Some? ==> CleanForm(b.form.value, env.norm).1 == [])
    && forall i :: 0 <= i < |b.bindings| ==> Faultless(env, b.bindings[i], PathOf(b, prefix))
  }

  lemma HeadSilentIff(env: Env, b: Binding, prefix: Location)
    ensures CleanHead(env, b, prefix).problems == [] && CleanHead(env, b, prefix).value.Some? <==>
            && Fit(env, b, prefix) && Trimmed(Name(b)) && (UnderCommand(PathOf(b, prefix)) ==> Trimmed(Typed(b)))
            && (b.icon != "" ==> env.norm(b.icon).Some?)
    ensures CleanHead(env, b, prefix).value.None? ==> CleanHead(env, b, prefix).problems != []
  {
    HeadIff(env, b, prefix);
    TrimSpaceProperties(Name(b));
    TrimSpaceProperties(Typed(b));
  }

  lemma {:induction false} NodeSilentIff(env: Env, b: Binding, prefix: Location)
    ensures CleanNode(env, b, prefix).problems == [] <==> Faultless(env, b, prefix)
    decreases b, 0
  {
    HeadIff(env, b, prefix);
    HeadSilentIff(env, b, prefix);
    if Fit(env, b, prefix) {
      ForestSilentIff(env, b.bindings, PathOf(b, prefix));
    }
  }

  predicate AllFaultless(env: Env, bb: seq<Binding>, prefix: Location) {
    forall i :: 0 <= i < |bb| ==> Faultless(env, bb[i], prefix)
  }

  lemma AllTail(env: Env, bb: seq<Binding>, prefix: Location)
    requires bb != []
    ensures AllFaultless(env, bb, prefix) <==>
            Faultless(env, bb[0], prefix) && AllFaultless(env, bb[1..], prefix)
  {
    assert forall i :: 0 < i < |bb| ==> bb[i] == bb[1..][i - 1];
  }

  /** Nothing is reported if and only if every node of the input is faultless. */
  lemma {:induction false} ForestSilentIff(env: Env, bb: seq<Binding>, prefix: Location)
    ensures CleanForest(env, bb, prefix).problems == [] <==> AllFaultless(env, bb, prefix)
    decreases bb, 1
  {
    if bb != [] {
      NodeSilentIff(env, bb[0], prefix);
      ForestSilentIff(env, bb[1..], prefix);
      AllTail(env, bb, prefix);
    }
  }

  // ---------------------------------------------------------------- what is reported of a node

  predicate GrantedAt(env: Env, l: Location) {
    exists i :: 0 <= i < |env.granted| && env.granted[i] <= l
  }

  /** Which problems placing a node reports. */
  lemma PlaceProblems(env: Env, b: Binding, prefix: Location)
    ensures var found, named := Place(env, b, prefix).problems, b.location != "" || b.labelText != "";
            && (NoLocationNorLabel in found <==> !named)
            && (TrimmedLocation in found <==> named && !Trimmed(Name(b)))
            && (NotGranted in found <==> named && !GrantedAt(env, PathOf(b, prefix)))
            && (Place(env, b, prefix).value.Some? <==> named && GrantedAt(env, PathOf(b, prefix)))
  {
    TrimSpaceProperties(Name(b));
  }

  /** Which problems label and icon of a placed node `n` at `l` report. */
  lemma DressProblems(env: Env, n: Binding, l: Location)
    ensures var found, word := Dress(env, n, l).problems, if n.labelText == "" then n.location else n.labelText;
            var fits := UnderCommand(l) ==> OneWord(TrimSpace(word));
            && (TrimmedLabel in found <==> UnderCommand(l) && !Trimmed(word))
            && (CommandLabelBlank in found <==> !fits)
            && (InvalidIcon in found <==> fits && n.icon != "" && env.norm(n.icon).None?)
            && (NoChannelHeaderIcon in found <==>
                fits && l == Sub("/channel_header", n.location) && env.userAgent == "webapp" && Icon(env, n) == "")
  {
    OneWordIff(TrimSpace(DefaultLabel(n)));
    TrimSpaceProperties(DefaultLabel(n));
  }

  /** The problems of a node: of its place, then of its label and icon, then of its contents. */
  lemma NodeProblems(env: Env, b: Binding, prefix: Location)
    ensures var found, placed := CleanNode(env, b, prefix).problems, Place(env, b, prefix);
            && (placed.value.None? ==> found == placed.problems)
            && (placed.value.Some? ==>
                  var head := placed.problems + Dress(env, placed.value.value, PathOf(b, prefix)).problems;
                  if !Fit(env, b, prefix) then found == head
                  else if Kinds(b) != 1 then found == head + [NotExactlyOne]
                  else if b.bindings != [] then
                    found == head + CleanForest(env, b.bindings, PathOf(b, prefix)).problems
                  else if b.form.Some? then found == head + CleanForm(b.form.value, env.norm).1
                  else found == head)
  {
    HeadIff(env, b, prefix);
  }
}

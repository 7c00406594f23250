/**
  cleanAppBindings and cleanAppBinding (server/proxy/invoke_bindings.go:62-203): the mutually
  recursive removal of the bindings that an app may not have, or that cannot be used.

  In the source the maps usedLocations and usedCommandLabels are consulted but never written, so
  the two checks for duplicate siblings never fire; they have no counterpart here.
 */
module CleanBindings {
  import opened Wrappers
  import opened Strings
  import opened Bindings
  import opened LocationPaths
  import opened CleanForms
  import MergeBindings
  import ArrivalOrder

  /** What cleaning depends on: the app, who asked, and how icons are normalised. */
  datatype Env = Env(appID: AppID, granted: seq<Location>, userAgent: string, norm: Normalizer)

  datatype Cleaned<+T> = Cleaned(value: T, problems: seq<Problem>)

  predicate Granted(env: Env, fql: Location) {
    exists i :: 0 <= i < |env.granted| && In(fql, env.granted[i])
  }

  /** Strictly below /command, where a label must be a single word. */
  predicate Subcommand(fql: Location) {
    fql != COMMAND && In(fql, COMMAND)
  }

  // ---------------------------------------------------------------- specification

  function RawLocation(b: Binding): Location {
    if b.location == "" then b.labelText else b.location
  }

  function NodeLocation(b: Binding): Location {
    TrimSpace(RawLocation(b))
  }

  /** The node with its location and owner settled. */
  function Place(env: Env, b: Binding, prefix: Location): Cleaned<Option<Binding>> {
    if b.location == "" && b.labelText == "" then Cleaned(None, [NoLocationNorLabel]) else
    var loc := NodeLocation(b);
    var fql := Sub(prefix, loc);
    var problems := if loc != RawLocation(b) then [TrimmedLocation] else [];
    if !Granted(env, fql) then Cleaned(None, problems + [NotGranted])
    else Cleaned(Some(b.(location := loc, appID := if IsTop(fql) then b.appID else env.appID)), problems)
  }

  /** Defaulted to the location, then trimmed, below /command. */
  function CleanLabel(n: Binding, fql: Location): string {
    if Subcommand(fql) then TrimSpace(DefaultLabel(n)) else n.labelText
  }

  function DefaultLabel(n: Binding): string {
    if n.labelText == "" then n.location else n.labelText
  }

  function LabelProblems(n: Binding, fql: Location): seq<Problem> {
    if Subcommand(fql) && TrimSpace(DefaultLabel(n)) != DefaultLabel(n) then [TrimmedLabel] else []
  }

  /** The placed node with its label and icon cleaned. */
  function Dress(env: Env, n: Binding, fql: Location): Cleaned<Option<Binding>> {
    var text := CleanLabel(n, fql);
    var p1 := LabelProblems(n, fql);
    if Subcommand(fql) && HasBlank(text) then Cleaned(None, p1 + [CommandLabelBlank]) else
    var icon := CleanIcon(n.icon, env.norm);
    var p2 := if n.icon != "" && env.norm(n.icon).None? then p1 + [InvalidIcon] else p1;
    if fql == Sub(CHANNEL_HEADER, n.location) && icon == "" && env.userAgent == "webapp" then
      Cleaned(None, p2 + [NoChannelHeaderIcon])
    else
      Cleaned(Some(n.(labelText := text, icon := icon)), p2)
  }

  /** Everything about a node but its contents. */
  function CleanHead(env: Env, b: Binding, prefix: Location): Cleaned<Option<Binding>> {
    var placed := Place(env, b, prefix);
    if placed.value.None? then placed else
    var n := placed.value.value;
    var dressed := Dress(env, n, Sub(prefix, n.location));
    Cleaned(dressed.value, placed.problems + dressed.problems)
  }

  predicate ExactlyOne(b: Binding) {
    || (b.bindings != [] && b.form.None? && b.submit.None?)
    || (b.bindings == [] && b.form.Some? && b.submit.None?)
    || (b.bindings == [] && b.form.None? && b.submit.Some?)
  }

  function CleanNode(env: Env, b: Binding, prefix: Location): Cleaned<Option<Binding>>
    decreases b
  {
    var head := CleanHead(env, b, prefix);
    if head.value.None? then head else
    var n := head.value.value;
    var fql := Sub(prefix, n.location);
    if !ExactlyOne(b) then Cleaned(None, head.problems + [NotExactlyOne])
    else if b.bindings != [] then
      var sub := CleanForest(env, b.bindings, fql);
      if sub.value == [] then Cleaned(None, head.problems + sub.problems)
      else Cleaned(Some(n.(bindings := sub.value)), head.problems + sub.problems)
    else if b.form.Some? then
      var (form, problems) := CleanForm(b.form.value, env.norm);
      Cleaned(Some(n.(form := Some(form))), head.problems + problems)
    else
      head
  }

  function CleanForest(env: Env, bb: seq<Binding>, prefix: Location): Cleaned<seq<Binding>>
    decreases bb
  {
    if bb == [] then Cleaned([], [])
    else
      var first := CleanNode(env, bb[0], prefix);
      var rest := CleanForest(env, bb[1..], prefix);
      Cleaned(if first.value.None? then rest.value else [first.value.value] + rest.value,
              first.problems + rest.problems)
  }

  // ---------------------------------------------------------------- the loops

  /** The result when `done` has been produced and the nodes from n on are still to be cleaned. */
  ghost function Pending(env: Env, done: Cleaned<seq<Binding>>, bb: seq<Binding>, n: nat, prefix: Location)
    : Cleaned<seq<Binding>>
    requires n <= |bb|
  {
    var rest := CleanForest(env, bb[n..], prefix);
    Cleaned(done.value + rest.value, done.problems + rest.problems)
  }

  function Add(done: Cleaned<seq<Binding>>, c: Cleaned<Option<Binding>>): Cleaned<seq<Binding>> {
    Cleaned(if c.value.None? then done.value else done.value + [c.value.value], done.problems + c.problems)
  }

  lemma PendingStep(env: Env, done: Cleaned<seq<Binding>>, bb: seq<Binding>, n: nat, prefix: Location)
    requires n < |bb|
    ensures Pending(env, done, bb, n, prefix) ==
            Pending(env, Add(done, CleanNode(env, bb[n], prefix)), bb, n + 1, prefix)
  {
    assert bb[n..][0] == bb[n] && bb[n..][1..] == bb[n + 1..];
    var c, rest := CleanNode(env, bb[n], prefix), CleanForest(env, bb[n + 1..], prefix);
    assert done.problems + (c.problems + rest.problems) == (done.problems + c.problems) + rest.problems;
    if c.value.Some? {
      assert done.value + ([c.value.value] + rest.value) == (done.value + [c.value.value]) + rest.value;
    }
  }

  lemma PendingEnds(env: Env, done: Cleaned<seq<Binding>>, bb: seq<Binding>, prefix: Location)
    ensures Pending(env, Cleaned([], []), bb, 0, prefix) == CleanForest(env, bb, prefix)
    ensures Pending(env, done, bb, |bb|, prefix) == done
  {
    assert bb[0..] == bb && bb[|bb|..] == [];
    var r := CleanForest(env, bb, prefix);
    assert [] + r.value == r.value && [] + r.problems == r.problems;
    assert done.value + [] == done.value && done.problems + [] == done.problems;
  }

  method CleanAppBindings(env: Env, bindings: seq<Binding>, locPrefix: Location)
    returns (out: seq<Binding>, problems: seq<Problem>)
    ensures Cleaned(out, problems) == CleanForest(env, bindings, locPrefix)
    decreases bindings, 1
  {
    out, problems := [], [];
    PendingEnds(env, Cleaned(out, problems), bindings, locPrefix);
    for n := 0 to |bindings|
      invariant Pending(env, Cleaned(out, problems), bindings, n, locPrefix) ==
                CleanForest(env, bindings, locPrefix)
    {
      PendingStep(env, Cleaned(out, problems), bindings, n, locPrefix);
      var clean, found := CleanAppBinding(env, bindings[n], locPrefix);
      problems := problems + found;
      if clean.Some? {
        out := out + [clean.value];
      }
    }
    PendingEnds(env, Cleaned(out, problems), bindings, locPrefix);
  }

  method IsGranted(env: Env, fql: Location) returns (allowed: bool)
    ensures allowed <==> Granted(env, fql)
  {
    allowed := false;
    for i := 0 to |env.granted|
      invariant allowed <==> exists k :: 0 <= k < i && In(fql, env.granted[k])
    {
      if In(fql, env.granted[i]) {
        allowed := true;
        break;
      }
    }
  }

  method PlaceBinding(env: Env, binding: Binding, locPrefix: Location)
    returns (clean: Option<Binding>, problems: seq<Problem>)
    ensures Cleaned(clean, problems) == Place(env, binding, locPrefix)
  {
    var b := binding;
    problems := [];
    if b.location == "" && b.labelText == "" {
      return None, [NoLocationNorLabel];
    }
    if b.location == "" {
      b := b.(location := b.labelText);
    }
    var trimmed := TrimSpace(b.location);
    if trimmed != b.location {
      problems := problems + [TrimmedLocation];
      b := b.(location := trimmed);
    }
    var fql := Sub(locPrefix, b.location);
    var allowed := IsGranted(env, fql);
    if !allowed {
      return None, problems + [NotGranted];
    }
    // Every binding but the top-level ones belongs to the app, whatever the app says.
    if !IsTop(fql) {
      b := b.(appID := env.appID);
    }
    return Some(b), problems;
  }

  method DressBinding(env: Env, binding: Binding, fql: Location)
    returns (clean: Option<Binding>, problems: seq<Problem>)
    ensures Cleaned(clean, problems) == Dress(env, binding, fql)
  {
    var b := binding;
    problems := [];
    if fql != COMMAND && In(fql, COMMAND) {
      if b.labelText == "" {
        b := b.(labelText := b.location);
      }
      var trimmed := TrimSpace(b.labelText);
      if trimmed != b.labelText {
        problems := problems + [TrimmedLabel];
        b := b.(labelText := trimmed);
      }
      if HasBlank(b.labelText) {
        return None, problems + [CommandLabelBlank];
      }
    }
    if b.icon != "" {
      var icon := env.norm(b.icon);
      if icon.Some? {
        b := b.(icon := icon.value);
      } else {
        problems := problems + [InvalidIcon];
        b := b.(icon := "");
      }
    }
    if fql == Sub(CHANNEL_HEADER, b.location) {
      if b.icon == "" && env.userAgent == "webapp" {
        return None, problems + [NoChannelHeaderIcon];
      }
    }
    return Some(b), problems;
  }

  method CleanAppBinding(env: Env, binding: Binding, locPrefix: Location)
    returns (clean: Option<Binding>, problems: seq<Problem>)
    ensures Cleaned(clean, problems) == CleanNode(env, binding, locPrefix)
    decreases binding, 0
  {
    clean, problems := PlaceBinding(env, binding, locPrefix);
    if clean.None? {
      return;
    }
    var fql := Sub(locPrefix, clean.value.location);
    var dressed, dressProblems := DressBinding(env, clean.value, fql);
    problems := problems + dressProblems;
    if dressed.None? {
      return None, problems;
    }
    var b := dressed.value;
    HeadFacts(env, binding, locPrefix);
    var hasBindings, hasForm, hasSubmit := |b.bindings| > 0, b.form.Some?, b.submit.Some?;
    if hasBindings && !hasForm && !hasSubmit {
      var sub, found := CleanAppBindings(env, b.bindings, fql);
      problems := problems + found;
      if |sub| == 0 {
        return None, problems;
      }
      b := b.(bindings := sub);
    } else if hasForm && !hasSubmit && !hasBindings {
      var form, found := CleanFormLoop(b.form.value, env.norm);
      problems := problems + found;
      b := b.(form := Some(form));
    } else if hasSubmit && !hasBindings && !hasForm {
      // nothing to clean for submit
    } else {
      return None, problems + [NotExactlyOne];
    }
    clean := Some(b);
  }

  // ---------------------------------------------------------------- soundness

  predicate FormIsClean(f: Form) {
    FieldsClean(f.fields)
  }

  /** What holds of every node below `prefix` in a cleaned forest. */
  predicate WellPlaced(env: Env, prefix: Location, b: Binding)
    decreases b
  {
    var fql := Sub(prefix, b.location);
    && Granted(env, fql)
    && (IsTop(fql) || b.appID == env.appID)
    && ExactlyOne(b)
    && Trimmed(b.location)
    && (Subcommand(fql) ==> Trimmed(b.labelText) && !HasBlank(b.labelText))
    && (fql == Sub(CHANNEL_HEADER, b.location) && env.userAgent == "webapp" ==> b.icon != "")
    && (b.form.Some? ==> FormIsClean(b.form.value))
    && forall i :: 0 <= i < |b.bindings| ==> WellPlaced(env, fql, b.bindings[i])
  }

  lemma HeadFacts(env: Env, b: Binding, prefix: Location)
    requires CleanHead(env, b, prefix).value.Some?
    ensures var n := CleanHead(env, b, prefix).value.value;
            var fql := Sub(prefix, n.location);
            && n.location == NodeLocation(b) && Trimmed(n.location)
            && Granted(env, fql)
            && (IsTop(fql) || n.appID == env.appID)
            && (Subcommand(fql) ==> Trimmed(n.labelText) && !HasBlank(n.labelText))
            && (fql == Sub(CHANNEL_HEADER, n.location) && env.userAgent == "webapp" ==> n.icon != "")
            && n.hint == b.hint && n.description == b.description
            && n.submit == b.submit && n.form == b.form && n.bindings == b.bindings
  {
    TrimSpaceProperties(RawLocation(b));
    var placed := Place(env, b, prefix).value.value;
    TrimSpaceProperties(DefaultLabel(placed));
  }

  lemma {:induction false} NodeWellPlaced(env: Env, b: Binding, prefix: Location)
    requires CleanNode(env, b, prefix).value.Some?
    ensures WellPlaced(env, prefix, CleanNode(env, b, prefix).value.value)
    decreases b, 0
  {
    HeadFacts(env, b, prefix);
    var n := CleanHead(env, b, prefix).value.value;
    if b.bindings != [] {
      ForestWellPlaced(env, b.bindings, Sub(prefix, n.location));
    } else if b.form.Some? {
      KeptFieldsClean(b.form.value.fields);
    }
  }

  /** Every node of a cleaned forest is granted, owned, usable and, below /command, a single word. */
  lemma {:induction false} ForestWellPlaced(env: Env, bb: seq<Binding>, prefix: Location)
    ensures forall i :: 0 <= i < |CleanForest(env, bb, prefix).value| ==>
              WellPlaced(env, prefix, CleanForest(env, bb, prefix).value[i])
    decreases bb, 1
  {
    if bb != [] {
      ForestWellPlaced(env, bb[1..], prefix);
      if CleanNode(env, bb[0], prefix).value.Some? {
        NodeWellPlaced(env, bb[0], prefix);
      }
    }
  }

  // ---------------------------------------------------------------- embedding

  /** `o` is `b` with its location, owner, label, icon and contents cleaned. */
  predicate NodeFrom(o: Binding, b: Binding)
    decreases b, 0
  {
    && o.location == NodeLocation(b)
    && o.hint == b.hint && o.description == b.description && o.submit == b.submit
    && (o.form.Some? <==> b.form.Some?)
    && Embeds(o.bindings, b.bindings)
  }

  /** `out` is what is left of `input` after dropping nodes, in the same order, at every level. */
  predicate Embeds(out: seq<Binding>, input: seq<Binding>)
    decreases input, 1
  {
    if out == [] then true
    else if input == [] then false
    else (NodeFrom(out[0], input[0]) && Embeds(out[1..], input[1..])) || Embeds(out, input[1..])
  }

  /** Nothing was dropped, at any level. */
  predicate Complete(out: seq<Binding>, input: seq<Binding>)
    decreases input
  {
    if input == [] then out == []
    else
      && out != []
      && out[0].location == NodeLocation(input[0])
      && Complete(out[0].bindings, input[0].bindings)
      && Complete(out[1..], input[1..])
  }

  lemma {:induction false} NodeEmbeds(env: Env, b: Binding, prefix: Location)
    requires CleanNode(env, b, prefix).value.Some?
    ensures NodeFrom(CleanNode(env, b, prefix).value.value, b)
    decreases b, 0
  {
    HeadFacts(env, b, prefix);
    var n := CleanHead(env, b, prefix).value.value;
    if b.bindings != [] {
      ForestEmbeds(env, b.bindings, Sub(prefix, n.location));
    }
  }

  /** The cleaned forest is an order-preserving embedding of the input. */
  lemma {:induction false} ForestEmbeds(env: Env, bb: seq<Binding>, prefix: Location)
    ensures Embeds(CleanForest(env, bb, prefix).value, bb)
    decreases bb, 1
  {
    if bb != [] {
      var out := CleanForest(env, bb, prefix).value;
      var rest := CleanForest(env, bb[1..], prefix).value;
      ForestEmbeds(env, bb[1..], prefix);
      if CleanNode(env, bb[0], prefix).value.Some? {
        NodeEmbeds(env, bb[0], prefix);
        assert out[1..] == rest;
      }
    }
  }

  lemma {:induction false} NodeSilent(env: Env, b: Binding, prefix: Location)
    requires CleanNode(env, b, prefix).problems == []
    ensures CleanNode(env, b, prefix).value.Some?
    ensures var o := CleanNode(env, b, prefix).value.value;
            o.location == NodeLocation(b) && Complete(o.bindings, b.bindings)
    decreases b, 0
  {
    var head := CleanHead(env, b, prefix);
    assert head.value.Some?;
    HeadFacts(env, b, prefix);
    if b.bindings != [] {
      ForestSilent(env, b.bindings, Sub(prefix, head.value.value.location));
    }
  }

  /** Nothing disappears silently: without a reported problem every node is still there. */
  lemma {:induction false} ForestSilent(env: Env, bb: seq<Binding>, prefix: Location)
    requires CleanForest(env, bb, prefix).problems == []
    ensures Complete(CleanForest(env, bb, prefix).value, bb)
    decreases bb, 1
  {
    if bb != [] {
      NodeSilent(env, bb[0], prefix);
      ForestSilent(env, bb[1..], prefix);
    }
  }

  // ---------------------------------------------------------------- idempotence

  /**
    Nothing is left to default in a cleaned node. Below /command that means a location and a label;
    elsewhere an empty location is harmless only when the label is nothing but space.
   */
  predicate Stable(b: Binding, fql: Location) {
    if Subcommand(fql) then b.location != "" && b.labelText != ""
    else b.location != "" || (b.labelText != "" && TrimSpace(b.labelText) == "")
  }

  predicate DeepStable(bb: seq<Binding>, prefix: Location)
    decreases bb
  {
    if bb == [] then true
    else
      var fql := Sub(prefix, bb[0].location);
      Stable(bb[0], fql) && DeepStable(bb[0].bindings, fql) && DeepStable(bb[1..], prefix)
  }

  lemma HeadFixpoint(env: Env, b: Binding, prefix: Location)
    requires CleanHead(env, b, prefix).value.Some? && IconStable(env.norm)
    requires var n := CleanHead(env, b, prefix).value.value; Stable(n, Sub(prefix, n.location))
    ensures var n := CleanHead(env, b, prefix).value.value;
            CleanHead(env, n, prefix).value == Some(n)
  {
    var n := CleanHead(env, b, prefix).value.value;
    var fql := Sub(prefix, n.location);
    HeadFacts(env, b, prefix);
    TrimSpaceProperties(n.location);
    TrimSpaceProperties(n.labelText);
    CleanIconIdempotent(b.icon, env.norm);
    assert NodeLocation(n) == n.location;
    assert CleanLabel(n, fql) == n.labelText;
    assert Place(env, n, prefix).value == Some(n);
  }

  function WithContents(n: Option<Binding>, form: Option<Form>, children: seq<Binding>): Option<Binding> {
    if n.None? then None else Some(n.value.(form := form, bindings := children))
  }

  lemma PlaceIgnoresContents(env: Env, b: Binding, prefix: Location, form: Option<Form>, children: seq<Binding>)
    ensures var p, p' := Place(env, b, prefix), Place(env, b.(form := form, bindings := children), prefix);
            p'.value == WithContents(p.value, form, children)
  {
  }

  lemma DressIgnoresContents(env: Env, b: Binding, fql: Location, form: Option<Form>, children: seq<Binding>)
    ensures var d, d' := Dress(env, b, fql), Dress(env, b.(form := form, bindings := children), fql);
            d'.value == WithContents(d.value, form, children)
  {
  }

  /** The head of a node does not depend on its contents. */
  lemma HeadIgnoresContents(env: Env, b: Binding, prefix: Location, form: Option<Form>, children: seq<Binding>)
    ensures CleanHead(env, b.(form := form, bindings := children), prefix).value ==
            WithContents(CleanHead(env, b, prefix).value, form, children)
  {
    PlaceIgnoresContents(env, b, prefix, form, children);
    var p := Place(env, b, prefix).value;
    if p.Some? {
      DressIgnoresContents(env, p.value, Sub(prefix, p.value.location), form, children);
    }
  }

  lemma {:induction false} NodeFixpoint(env: Env, b: Binding, prefix: Location)
    requires CleanNode(env, b, prefix).value.Some? && IconStable(env.norm)
    requires var o := CleanNode(env, b, prefix).value.value; var fql := Sub(prefix, o.location);
             Stable(o, fql) && DeepStable(o.bindings, fql)
    ensures var o := CleanNode(env, b, prefix).value.value;
            CleanNode(env, o, prefix).value == Some(o)
    decreases b, 0
  {
    var n := CleanHead(env, b, prefix).value.value;
    var o := CleanNode(env, b, prefix).value.value;
    HeadFacts(env, b, prefix);
    HeadFixpoint(env, b, prefix);
    HeadIgnoresContents(env, n, prefix, o.form, o.bindings);
    assert o == n.(form := o.form, bindings := o.bindings);
    if b.bindings != [] {
      ForestFixpoint(env, b.bindings, Sub(prefix, n.location));
    } else if b.form.Some? {
      CleanFormIdempotent(b.form.value, env.norm);
    }
  }

  lemma {:induction false} ForestFixpoint(env: Env, bb: seq<Binding>, prefix: Location)
    requires IconStable(env.norm) && DeepStable(CleanForest(env, bb, prefix).value, prefix)
    ensures var out := CleanForest(env, bb, prefix).value;
            CleanForest(env, out, prefix).value == out
    decreases bb, 1
  {
    if bb != [] {
      var out, rest := CleanForest(env, bb, prefix).value, CleanForest(env, bb[1..], prefix).value;
      if CleanNode(env, bb[0], prefix).value.Some? {
        assert out[1..] == rest;
        NodeFixpoint(env, bb[0], prefix);
      }
      ForestFixpoint(env, bb[1..], prefix);
    }
  }

  lemma {:induction false} ForestLength(env: Env, bb: seq<Binding>, prefix: Location)
    ensures |CleanForest(env, bb, prefix).value| <= |bb|
    decreases |bb|
  {
    if bb != [] {
      ForestLength(env, bb[1..], prefix);
    }
  }

  /** A cleaned node is its head with cleaned contents. */
  lemma NodeShape(env: Env, b: Binding, prefix: Location)
    requires CleanNode(env, b, prefix).value.Some?
    ensures CleanHead(env, b, prefix).value.Some?
    ensures var o, n := CleanNode(env, b, prefix).value.value, CleanHead(env, b, prefix).value.value;
            && o.location == n.location && o.labelText == n.labelText
            && o.bindings == CleanForest(env, b.bindings, Sub(prefix, n.location)).value
  {
    HeadFacts(env, b, prefix);
  }

  lemma HeadLabel(env: Env, b: Binding, prefix: Location)
    requires CleanHead(env, b, prefix).value.Some?
    ensures b.location != "" || b.labelText != ""
    ensures var n := CleanHead(env, b, prefix).value.value;
            && n.location == NodeLocation(b)
            && n.labelText == if Subcommand(Sub(prefix, n.location))
                              then TrimSpace(if b.labelText == "" then n.location else b.labelText)
                              else b.labelText
  {
  }

  lemma NodeFixpointIsStable(env: Env, b: Binding, prefix: Location)
    requires CleanNode(env, b, prefix).value == Some(b)
    ensures Stable(b, Sub(prefix, b.location))
    ensures CleanForest(env, b.bindings, Sub(prefix, b.location)).value == b.bindings
  {
    NodeShape(env, b, prefix);
    HeadLabel(env, b, prefix);
    TrimSpaceProperties(b.labelText);
    TrimSpaceProperties(b.location);
  }

  lemma {:induction false} FixpointIsStable(env: Env, bb: seq<Binding>, prefix: Location)
    requires CleanForest(env, bb, prefix).value == bb
    ensures DeepStable(bb, prefix)
    decreases bb
  {
    if bb != [] {
      ForestLength(env, bb[1..], prefix);
      var c := CleanNode(env, bb[0], prefix).value;
      assert c.Some?;
      assert c.value == bb[0] && CleanForest(env, bb[1..], prefix).value == bb[1..];
      NodeFixpointIsStable(env, bb[0], prefix);
      FixpointIsStable(env, bb[1..], prefix);
      if bb[0].bindings != [] {
        FixpointIsStable(env, bb[0].bindings, Sub(prefix, bb[0].location));
      }
    }
  }

  /**
    What cleaning makes of an input node stays as it is. Below /command the node has a location, and
    its label is missing or more than space. Elsewhere it has a location, or a label of nothing but space.
   */
  predicate Settles(b: Binding, fql: Location) {
    if Subcommand(fql) then NodeLocation(b) != "" && (b.labelText == "" || TrimSpace(b.labelText) != "")
    else NodeLocation(b) != "" || (b.labelText != "" && TrimSpace(b.labelText) == "")
  }

  /** Every node of the input that survives the cleaning settles. */
  predicate SurvivorsSettle(env: Env, bb: seq<Binding>, prefix: Location)
    decreases bb
  {
    if bb == [] then true
    else
      var fql := Sub(prefix, NodeLocation(bb[0]));
      && (CleanNode(env, bb[0], prefix).value.Some? ==>
            Settles(bb[0], fql) && SurvivorsSettle(env, bb[0].bindings, fql))
      && SurvivorsSettle(env, bb[1..], prefix)
  }

  lemma NodeSettles(env: Env, b: Binding, prefix: Location)
    requires CleanNode(env, b, prefix).value.Some?
    ensures var o, fql := CleanNode(env, b, prefix).value.value, Sub(prefix, NodeLocation(b));
            && o.location == NodeLocation(b) && o.bindings == CleanForest(env, b.bindings, fql).value
            && (Stable(o, fql) <==> Settles(b, fql))
  {
    NodeShape(env, b, prefix);
    HeadLabel(env, b, prefix);
    TrimSpaceProperties(RawLocation(b));
  }

  lemma {:induction false} SurvivorsAreStable(env: Env, bb: seq<Binding>, prefix: Location)
    ensures DeepStable(CleanForest(env, bb, prefix).value, prefix) <==> SurvivorsSettle(env, bb, prefix)
    decreases bb
  {
    if bb != [] {
      SurvivorsAreStable(env, bb[1..], prefix);
      if CleanNode(env, bb[0], prefix).value.Some? {
        NodeSettles(env, bb[0], prefix);
        SurvivorsAreStable(env, bb[0].bindings, Sub(prefix, NodeLocation(bb[0])));
        assert CleanForest(env, bb, prefix).value[1..] == CleanForest(env, bb[1..], prefix).value;
      }
    }
  }

  /** Cleaning a cleaned forest changes nothing if and only if every surviving node of the input settles. */
  lemma CleanIdempotentIff(env: Env, bb: seq<Binding>, prefix: Location)
    requires IconStable(env.norm)
    ensures var out := CleanForest(env, bb, prefix).value;
            CleanForest(env, out, prefix).value == out <==> SurvivorsSettle(env, bb, prefix)
  {
    var out := CleanForest(env, bb, prefix).value;
    SurvivorsAreStable(env, bb, prefix);
    if DeepStable(out, prefix) {
      ForestFixpoint(env, bb, prefix);
    }
    if CleanForest(env, out, prefix).value == out {
      FixpointIsStable(env, out, prefix);
    }
  }

  /** A label of nothing but space is trimmed away the first time, and replaced by the location the second time. */
  lemma BlankCommandLabelIsUnstable(env: Env)
    requires Granted(env, "/command/x")
    ensures var b := MergeBindings.Leaf("app", "x").(labelText := " ");
            var once := CleanForest(env, [b], COMMAND).value;
            once != [] && CleanForest(env, once, COMMAND).value != once
  {
    var b := MergeBindings.Leaf("app", "x").(labelText := " ");
    BlankLabelIsTrimmedAway(env, b);
    var once := CleanForest(env, [b], COMMAND).value;
    assert [b][1..] == [];
    if CleanForest(env, once, COMMAND).value == once {
      FixpointIsStable(env, once, COMMAND);
    }
  }

  lemma BlankLabelIsTrimmedAway(env: Env, b: Binding)
    requires Granted(env, "/command/x") && b == MergeBindings.Leaf("app", "x").(labelText := " ")
    ensures CleanNode(env, b, COMMAND).value.Some?
    ensures var o := CleanNode(env, b, COMMAND).value.value;
            o.labelText == "" && o.location == "x" && Subcommand(Sub(COMMAND, "x"))
  {
    assert TrimSpace(" ") == "" by { assert " "[1..] == ""; }
    TrimSpaceProperties("x");
    assert Sub(COMMAND, "x") == "/command/x" && "/command/x"[..|COMMAND|] == COMMAND;
    assert Place(env, b, COMMAND).value == Some(b.(appID := env.appID));
  }

  // ---------------------------------------------------------------- from cleaning to merging

  /**
    A cleaned top-level container without a payload whose children all have a location is what the
    merge of several apps' bindings expects: its children carry the app's ID.
   */
  lemma CleanedContainerIsBare(env: Env, bb: seq<Binding>, i: nat)
    requires i < |CleanForest(env, bb, "").value|
    requires var r := CleanForest(env, bb, "").value[i];
             && IsTop(r.location)
             && r == MergeBindings.Container(r.appID, r.location, r.bindings)
             && forall j :: 0 <= j < |r.bindings| ==> r.bindings[j].location != ""
    ensures ArrivalOrder.BareRoot(CleanForest(env, bb, "").value[i], env.appID)
  {
    ForestWellPlaced(env, bb, "");
    var r := CleanForest(env, bb, "").value[i];
    assert Sub("", r.location) == r.location;
    forall j | 0 <= j < |r.bindings| ensures r.bindings[j].appID == env.appID {
      assert WellPlaced(env, r.location, r.bindings[j]);
      SubOfTopIsNotTop(r.location, r.bindings[j].location);
    }
  }
}

/** Locations (apps/locations.go): "/"-separated paths below a few top-level places of the UI. */
module LocationPaths {
  import opened Strings
  import opened Bindings

  const POST_MENU: Location := "/post_menu"
  const CHANNEL_HEADER: Location := "/channel_header"
  const COMMAND: Location := "/command"

  predicate IsTop(l: Location) {
    l == CHANNEL_HEADER || l == COMMAND || l == POST_MENU
  }

  predicate In(l: Location, other: Location) {
    HasPrefix(l, other)
  }

  function Sub(l: Location, sub: Location): Location {
    if sub == "" then l
    else if sub[0] != '/' then l + "/" + sub
    else l + sub
  }

  /** The top locations, being in a location, and going below one, said on the texts. */
  lemma LocationTexts(l: Location, other: Location, sub: Location)
    ensures IsTop(l) <==> l in {"/channel_header", "/command", "/post_menu"}
    ensures In(l, other) <==> exists rest: string :: l == other + rest
    ensures Sub(l, "") == l && Sub(l, "/" + sub) == l + "/" + sub
    ensures sub != "" && sub[0] != '/' ==> Sub(l, sub) == l + "/" + sub
  {
    if In(l, other) {
      assert l == other + l[|other|..];
    }
    assert l + ("/" + sub) == l + "/" + sub;
  }

  /** A location strictly below a top-level one is never itself top-level. */
  lemma SubOfTopIsNotTop(l: Location, sub: Location)
    requires IsTop(l) && sub != ""
    ensures !IsTop(Sub(l, sub))
  {
    assert Sub(l, sub)[|l|] == '/';
  }

  /** What is granted at a location is granted everywhere below it. */
  lemma SubStaysIn(l: Location, sub: Location, granted: Location)
    requires In(l, granted)
    ensures In(Sub(l, sub), granted)
  {
    assert l <= Sub(l, sub);
  }
}

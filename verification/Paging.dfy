/**
  The page loops over the flat key-value store. A loop over an unchanging store sees every key
  exactly once; ListHashKeys deletes while it pages, and what it leaves behind is spelled out.
 */
module Paging {
  import opened Records
  import opened Mattermost

  const LIST_KEYS_PER_PAGE := 1000

  function Filter<T>(s: seq<T>, p: T -> bool): seq<T> {
    if s == [] then []
    else if p(s[0]) then [s[0]] + Filter(s[1..], p)
    else Filter(s[1..], p)
  }

  lemma {:induction false} FilterAppend<T>(a: seq<T>, b: seq<T>, p: T -> bool)
    ensures Filter(a + b, p) == Filter(a, p) + Filter(b, p)
  {
    if a == [] {
      assert a + b == b;
    } else {
      assert (a + b)[1..] == a[1..] + b;
      FilterAppend(a[1..], b, p);
    }
  }

  lemma {:induction false} FilterMember<T>(s: seq<T>, p: T -> bool, x: T)
    ensures x in Filter(s, p) <==> x in s && p(x)
  {
    if s != [] {
      FilterMember(s[1..], p, x);
      assert x in s <==> x == s[0] || x in s[1..];
    }
  }

  lemma {:induction false} FilterNoDuplicates(s: seq<string>, p: string -> bool)
    requires NoDuplicates(s)
    ensures NoDuplicates(Filter(s, p))
  {
    if s != [] {
      assert NoDuplicates(s[1..]);
      FilterNoDuplicates(s[1..], p);
      FilterMember(s[1..], p, s[0]);
      assert s[0] !in s[1..];
    }
  }

  lemma FilterSnoc<T>(s: seq<T>, i: nat, p: T -> bool)
    requires i < |s|
    ensures Filter(s[..i + 1], p) == if p(s[i]) then Filter(s[..i], p) + [s[i]] else Filter(s[..i], p)
  {
    assert s[..i + 1] == s[..i] + [s[i]];
    FilterAppend(s[..i], [s[i]], p);
    assert [s[i]][1..] == [];
  }

  // ---------------------------------------------------------------- an unchanging store

  /** What a loop over pages 0, 1, ... has been given before page n. */
  function Pages(keys: seq<string>, n: nat): seq<string> {
    if n == 0 then [] else Pages(keys, n - 1) + PageOf(keys, n - 1, LIST_KEYS_PER_PAGE)
  }

  /** The pages are consecutive pieces of the listing, so no key is repeated or passed over. */
  lemma {:induction false} PagesArePrefix(keys: seq<string>, n: nat)
    ensures Pages(keys, n) == if n * LIST_KEYS_PER_PAGE < |keys| then keys[..n * LIST_KEYS_PER_PAGE] else keys
  {
    if n > 0 {
      PagesArePrefix(keys, n - 1);
    }
  }

  /** The first empty page comes only after the whole listing. */
  lemma EmptyPageIsLast(keys: seq<string>, n: nat)
    ensures PageOf(keys, n, LIST_KEYS_PER_PAGE) == [] <==> |keys| <= n * LIST_KEYS_PER_PAGE
    ensures PageOf(keys, n, LIST_KEYS_PER_PAGE) == [] ==> Pages(keys, n) == keys
  {
    PagesArePrefix(keys, n);
  }

  /** The loop of listKeysForApp and listKeysForUser: the matching keys, each once, in listing order. */
  method ListMatching(server: Server, p: string -> bool) returns (ok: bool, found: seq<string>)
    modifies server`errors
    ensures server.errors == old(server.errors) + Failure(ok)
    ensures ok ==> found == Filter(server.keys, p)
  {
    found := [];
    var n := 0;
    while true
      invariant found == Filter(Pages(server.keys, n), p) && server.errors == old(server.errors)
      decreases |server.keys| - n * LIST_KEYS_PER_PAGE
    {
      var listed, ks := server.ListKeys(n, LIST_KEYS_PER_PAGE);
      if !listed {
        return false, [];
      }
      EmptyPageIsLast(server.keys, n);
      if ks == [] {
        return true, found;
      }
      ghost var before := found;
      for i := 0 to |ks|
        invariant found == before + Filter(ks[..i], p) && server.errors == old(server.errors)
      {
        FilterSnoc(ks, i, p);
        if p(ks[i]) {
          found := found + [ks[i]];
        }
      }
      assert ks[..|ks|] == ks;
      FilterAppend(Pages(server.keys, n), ks, p);
      n := n + 1;
    }
  }

  // ---------------------------------------------------------------- deleting while paging

  function Min(a: nat, b: nat): nat {
    if a < b then a else b
  }

  function Kept(s: seq<string>, doomed: string -> bool): seq<string> {
    Filter(s, k => !doomed(k))
  }

  /** How many keys the deletions in the first page of `keys` cause to be skipped. */
  function Skipped(keys: seq<string>, perPage: nat, doomed: string -> bool): (r: nat)
    ensures r <= |keys| - Min(perPage, |keys|)
  {
    var n := Min(perPage, |keys|);
    Min(n - Min(|Kept(keys[..n], doomed)|, n), |keys| - n)
  }

  /**
    What is left of `keys` by a loop that deletes the doomed keys of a page before it asks for the
    next one: each deletion moves the rest of the listing up, so as many keys are skipped unseen.
   */
  function Survivors(keys: seq<string>, perPage: nat, doomed: string -> bool): seq<string>
    requires perPage > 0
    decreases |keys|
  {
    if keys == [] then []
    else
      var n := Min(perPage, |keys|);
      var kept := Kept(keys[..n], doomed);
      var rest := keys[n..];
      var skipped := Skipped(keys, perPage, doomed);
      kept + rest[..skipped] + Survivors(rest[skipped..], perPage, doomed)
  }

  /** No doomed key is among the skipped ones. */
  predicate NoneSkipped(keys: seq<string>, perPage: nat, doomed: string -> bool)
    requires perPage > 0
    decreases |keys|
  {
    keys == [] ||
    var n := Min(perPage, |keys|);
    var rest := keys[n..];
    var skipped := Skipped(keys, perPage, doomed);
    (forall k :: k in rest[..skipped] ==> !doomed(k)) && NoneSkipped(rest[skipped..], perPage, doomed)
  }

  ghost predicate Clear(keys: seq<string>, doomed: string -> bool) {
    forall k :: k in keys ==> !doomed(k)
  }

  lemma {:induction false} FilterLength<T>(s: seq<T>, p: T -> bool)
    ensures |Filter(s, p)| <= |s|
    ensures (forall x :: x in s ==> p(x)) ==> Filter(s, p) == s
    ensures (forall x :: x in s ==> !p(x)) ==> Filter(s, p) == []
  {
    if s != [] {
      FilterLength(s[1..], p);
      assert s[0] in s && forall x :: x in s[1..] ==> x in s;
    }
  }

  lemma ConcatMember<T>(a: seq<T>, b: seq<T>, x: T)
    ensures x in a + b <==> x in a || x in b
  {
  }

  /** Deleting while paging removes all doomed keys exactly when none of them is skipped. */
  lemma {:induction false} DeletionCompleteIff(keys: seq<string>, perPage: nat, doomed: string -> bool)
    requires perPage > 0
    ensures Clear(Survivors(keys, perPage, doomed), doomed) <==> NoneSkipped(keys, perPage, doomed)
    decreases |keys|
  {
    if keys != [] {
      var n := Min(perPage, |keys|);
      var kept := Kept(keys[..n], doomed);
      var rest := keys[n..];
      var skipped := Skipped(keys, perPage, doomed);
      var later := Survivors(rest[skipped..], perPage, doomed);
      DeletionCompleteIff(rest[skipped..], perPage, doomed);
      forall k ensures k in kept ==> !doomed(k) {
        FilterMember(keys[..n], k => !doomed(k), k);
      }
      forall k ensures k in Survivors(keys, perPage, doomed) <==> k in kept || k in rest[..skipped] || k in later {
        ConcatMember(kept, rest[..skipped], k);
        ConcatMember(kept + rest[..skipped], later, k);
      }
    }
  }

  /** When the listing fits one page, the deletion is complete and leaves all others in order. */
  lemma OnePageIsComplete(keys: seq<string>, perPage: nat, doomed: string -> bool)
    requires |keys| <= perPage && perPage > 0
    ensures Survivors(keys, perPage, doomed) == Kept(keys, doomed)
    ensures Clear(Survivors(keys, perPage, doomed), doomed)
  {
    FilterLength(keys, k => !doomed(k));
    assert keys[..|keys|] == keys && keys[|keys|..] == [];
    if keys != [] {
      assert Survivors(keys, perPage, doomed) == Kept(keys, doomed);
    }
    forall k ensures k in Kept(keys, doomed) ==> !doomed(k) {
      FilterMember(keys, k => !doomed(k), k);
    }
  }

  /** One key more than a page, all of them doomed: the last one is never seen. */
  lemma SecondPageSurvives(keys: seq<string>, perPage: nat, doomed: string -> bool)
    requires perPage > 0 && |keys| == perPage + 1 && forall k :: k in keys ==> doomed(k)
    ensures Survivors(keys, perPage, doomed) == [keys[perPage]]
  {
    FilterLength(keys[..perPage], k => !doomed(k));
    assert forall k :: k in keys[..perPage] ==> k in keys;
    assert keys[perPage..] == [keys[perPage]];
    assert keys[perPage..][..1] == [keys[perPage]] && keys[perPage..][1..] == [];
  }

  /** Only doomed keys are gone; nothing else changed. */
  ghost predicate OnlyDoomedGone(before: KVData, after: KVData, doomed: string -> bool) {
    && (forall k :: k in after ==> k in before && after[k] == before[k])
    && (forall k :: k in before && !doomed(k) ==> k in after)
  }

  lemma {:induction false} WithoutAbsent(keys: seq<string>, key: string)
    requires key !in keys
    ensures Without(keys, key) == keys
  {
    if keys != [] {
      WithoutAbsent(keys[1..], key);
    }
  }

  lemma {:induction false} WithoutAppend(a: seq<string>, b: seq<string>, key: string)
    ensures Without(a + b, key) == Without(a, key) + Without(b, key)
  {
    if a == [] {
      assert a + b == b;
    } else {
      assert (a + b)[1..] == a[1..] + b;
      WithoutAppend(a[1..], b, key);
    }
  }

  lemma ElsewhereAbsent(a: seq<string>, key: string, b: seq<string>)
    requires NoDuplicates(a + [key] + b)
    ensures key !in a && key !in b
  {
    var all := a + [key] + b;
    forall i | 0 <= i < |a|
      ensures a[i] != key
    {
      assert all[i] != all[|a|];
    }
    forall i | 0 <= i < |b|
      ensures b[i] != key
    {
      assert all[|a|] != all[|a| + 1 + i];
    }
  }

  lemma WithoutAt(a: seq<string>, key: string, b: seq<string>)
    requires key !in a && key !in b
    ensures Without(a + [key] + b, key) == a + b
  {
    WithoutAbsent(a, key);
    WithoutAbsent(b, key);
    WithoutAppend(a + [key], b, key);
    WithoutAppend(a, [key], key);
    assert Without([key], key) == [] && a + [] == a;
  }

  /** Deletes one key where it stands in the listing. */
  method DeleteAt(server: Server, doomed: string -> bool, ghost a: seq<string>, key: string, ghost b: seq<string>)
    returns (ok: bool)
    requires server.Valid() && server.keys == a + [key] + b && doomed(key)
    modifies server
    ensures server.Valid() && server.saved == old(server.saved)
    ensures OnlyDoomedGone(old(server.data), server.data, doomed)
    ensures server.errors == old(server.errors) + Failure(ok)
    ensures ok ==> server.keys == a + b
  {
    ElsewhereAbsent(a, key, b);
    WithoutAt(a, key, b);
    ghost var o;
    ok, o := server.KVDelete(key);
  }

  lemma GoneTwice(before: KVData, between: KVData, after: KVData, doomed: string -> bool)
    requires OnlyDoomedGone(before, between, doomed) && OnlyDoomedGone(between, after, doomed)
    ensures OnlyDoomedGone(before, after, doomed)
  {
  }

  lemma KeptSnoc(page: seq<string>, i: nat, doomed: string -> bool)
    requires i < |page|
    ensures Kept(page[..i + 1], doomed) ==
            if doomed(page[i]) then Kept(page[..i], doomed) else Kept(page[..i], doomed) + [page[i]]
  {
    FilterSnoc(page, i, k => !doomed(k));
  }

  /** The listing when the first i keys of a page have been dealt with. */
  function Midway(done: seq<string>, page: seq<string>, i: nat, tail: seq<string>, doomed: string -> bool): seq<string>
    requires i <= |page|
  {
    done + Kept(page[..i], doomed) + page[i..] + tail
  }

  lemma MidwayEnds(done: seq<string>, page: seq<string>, tail: seq<string>, doomed: string -> bool)
    ensures Midway(done, page, 0, tail, doomed) == done + page + tail
    ensures Midway(done, page, |page|, tail, doomed) == done + Kept(page, doomed) + tail
  {
    assert page[0..] == page && Kept(page[..0], doomed) == [] && done + [] == done;
    assert page[..|page|] == page && page[|page|..] == [];
    assert done + Kept(page, doomed) + [] == done + Kept(page, doomed);
  }

  lemma MidwayStep(done: seq<string>, page: seq<string>, i: nat, tail: seq<string>, doomed: string -> bool)
    requires i < |page|
    ensures var a, b := done + Kept(page[..i], doomed), page[i + 1..] + tail;
            && Midway(done, page, i, tail, doomed) == a + [page[i]] + b
            && Midway(done, page, i + 1, tail, doomed) == if doomed(page[i]) then a + b else a + [page[i]] + b
  {
    KeptSnoc(page, i, doomed);
    var kept := Kept(page[..i], doomed);
    assert page[i..] == [page[i]] + page[i + 1..];
    assert done + (kept + [page[i]]) == done + kept + [page[i]];
  }

  /** One page of ListHashKeys with KV.Delete as the callback; `done` and `tail` are not touched. */
  method DeleteInPage(
      server: Server, doomed: string -> bool, ghost done: seq<string>, page: seq<string>, ghost tail: seq<string>)
    returns (ok: bool)
    requires server.Valid() && server.keys == done + page + tail
    modifies server
    ensures server.Valid() && server.saved == old(server.saved)
    ensures OnlyDoomedGone(old(server.data), server.data, doomed)
    ensures server.errors == old(server.errors) + Failure(ok)
    ensures ok ==> server.keys == done + Kept(page, doomed) + tail
  {
    MidwayEnds(done, page, tail, doomed);
    for i := 0 to |page|
      invariant server.Valid() && server.saved == old(server.saved)
      invariant OnlyDoomedGone(old(server.data), server.data, doomed) && server.errors == old(server.errors)
      invariant server.keys == Midway(done, page, i, tail, doomed)
    {
      MidwayStep(done, page, i, tail, doomed);
      if doomed(page[i]) {
        ghost var between := server.data;
        ok := DeleteAt(server, doomed, done + Kept(page[..i], doomed), page[i], page[i + 1..] + tail);
        GoneTwice(old(server.data), between, server.data, doomed);
        if !ok {
          return;
        }
      }
    }
    ok := true;
  }

  /** Where the loop of ListHashKeys stands: `done` will not be looked at again. */
  ghost predicate Progress(start: seq<string>, done: seq<string>, rest: seq<string>, n: nat, doomed: string -> bool) {
    && (|done| == n * LIST_KEYS_PER_PAGE || (rest == [] && |done| <= n * LIST_KEYS_PER_PAGE))
    && done + Survivors(rest, LIST_KEYS_PER_PAGE, doomed) == Survivors(start, LIST_KEYS_PER_PAGE, doomed)
  }

  lemma NextPage(start: seq<string>, done: seq<string>, rest: seq<string>, n: nat, doomed: string -> bool)
    requires Progress(start, done, rest, n, doomed)
    ensures PageOf(done + rest, n, LIST_KEYS_PER_PAGE) == rest[..Min(LIST_KEYS_PER_PAGE, |rest|)]
  {
    if |done| < n * LIST_KEYS_PER_PAGE {
      assert done + rest == done;
    }
  }

  lemma Associate(done: seq<string>, kept: seq<string>, tail: seq<string>, i: nat, later: seq<string>)
    requires i <= |tail|
    ensures done + kept + tail[..i] + later == done + (kept + tail[..i] + later)
    ensures done + kept + tail[..i] + tail[i..] == done + kept + tail
  {
    assert tail == tail[..i] + tail[i..];
  }

  lemma PageDone(start: seq<string>, done: seq<string>, rest: seq<string>, n: nat, doomed: string -> bool)
    returns (done': seq<string>, rest': seq<string>)
    requires Progress(start, done, rest, n, doomed) && rest != []
    ensures Progress(start, done', rest', n + 1, doomed) && |rest'| < |rest|
    ensures done' + rest' ==
      var size := Min(LIST_KEYS_PER_PAGE, |rest|);
      done + Kept(rest[..size], doomed) + rest[size..]
  {
    var size := Min(LIST_KEYS_PER_PAGE, |rest|);
    var kept, tail := Kept(rest[..size], doomed), rest[size..];
    var skipped := Skipped(rest, LIST_KEYS_PER_PAGE, doomed);
    FilterLength(rest[..size], k => !doomed(k));
    done', rest' := done + kept + tail[..skipped], tail[skipped..];
    Associate(done, kept, tail, skipped, Survivors(rest', LIST_KEYS_PER_PAGE, doomed));
    assert |done'| == |done| + |kept| + skipped;
  }

  /** One round of the page loop of ListHashKeys; `more` unless it was the last. */
  method DeleteNextPage(
      server: Server, doomed: string -> bool, n: nat,
      ghost start: seq<string>, ghost done: seq<string>, ghost rest: seq<string>)
    returns (ok: bool, more: bool, ghost done': seq<string>, ghost rest': seq<string>)
    requires server.Valid() && server.keys == done + rest && Progress(start, done, rest, n, doomed)
    modifies server
    ensures server.Valid() && server.saved == old(server.saved)
    ensures OnlyDoomedGone(old(server.data), server.data, doomed)
    ensures server.errors == old(server.errors) + Failure(ok)
    ensures ok && !more ==> server.keys == Survivors(start, LIST_KEYS_PER_PAGE, doomed)
    ensures ok && more ==>
      server.keys == done' + rest' && Progress(start, done', rest', n + 1, doomed) && |rest'| < |rest|
  {
    done', rest', more := done, rest, false;
    var page;
    ok, page := server.ListKeys(n, LIST_KEYS_PER_PAGE);
    if !ok {
      return;
    }
    NextPage(start, done, rest, n, doomed);
    if page == [] {
      assert rest == [];
      return;
    }
    ghost var tail := rest[Min(LIST_KEYS_PER_PAGE, |rest|)..];
    assert done + rest == done + page + tail;
    ok := DeleteInPage(server, doomed, done, page, tail);
    done', rest' := PageDone(start, done, rest, n, doomed);
    more := true;
  }

  /**
    ListHashKeys (server/store/service.go:185-222) with KV.Delete as the callback, stopping at the
    first error. `doomed` stands for the length test and the match functions.
   */
  method DeleteWhilePaging(server: Server, doomed: string -> bool) returns (ok: bool)
    requires server.Valid()
    modifies server
    ensures server.Valid() && server.saved == old(server.saved)
    ensures OnlyDoomedGone(old(server.data), server.data, doomed)
    ensures server.errors == old(server.errors) + Failure(ok)
    ensures ok ==> server.keys == Survivors(old(server.keys), LIST_KEYS_PER_PAGE, doomed)
  {
    ghost var done: seq<string> := [];
    ghost var rest := server.keys;
    var n := 0;
    var more := true;
    while more
      invariant server.Valid() && server.saved == old(server.saved)
      invariant OnlyDoomedGone(old(server.data), server.data, doomed) && server.errors == old(server.errors)
      invariant more ==> server.keys == done + rest && Progress(old(server.keys), done, rest, n, doomed)
      invariant !more ==> server.keys == Survivors(old(server.keys), LIST_KEYS_PER_PAGE, doomed)
      decreases more, |rest|
    {
      ghost var between := server.data;
      ok, more, done, rest := DeleteNextPage(server, doomed, n, old(server.keys), done, rest);
      GoneTwice(old(server.data), between, server.data, doomed);
      if !ok {
        return;
      }
      n := n + 1;
    }
    ok := true;
  }
}

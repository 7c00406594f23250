/**
  The subscription store and service (server/store/subscriptions.go:83-144,
  server/appservices/subscriptions.go:23-170), calling a server of which any call may fail.
 */
module AppServices {
  import opened Wrappers
  import opened Bindings
  import opened Records
  import opened ContentStore
  import opened Mattermost
  import opened Keys
  import opened Paging
  import opened Subscriptions

  /** The parts of incoming.Request that matter here. */
  datatype Request = Request(actingUserID: UserID, sourceAppID: AppID, privileged: bool)

  datatype SubError = Refused | NotFound | Forbidden | Failed

  // ---------------------------------------------------------------- the store

  method Get(server: Server, e: Event) returns (r: Result<seq<Subscription>, SubError>)
    modifies server`errors
    ensures server.errors == old(server.errors) + Failure(r.Ok? || SubsKey(e).None?)
    ensures r.Ok? ==> SubsKey(e).Some? && r.value == Stored(server.data, SubsKey(e).value)
    ensures r.Err? ==> r == Err(Failed)
  {
    var key := SubsKey(e);
    if key.None? {
      return Err(Failed);
    }
    var ok, v := server.KVGet(key.value);
    if !ok {
      return Err(Failed);
    }
    r := Ok(if v.Some? && v.value.SubsValue? then v.value.stored.subscriptions else []);
  }

  method Save(server: Server, e: Event, subs: seq<Subscription>) returns (ok: bool, ghost o: Outcome)
    requires server.Valid()
    modifies server
    ensures server.Valid() && server.saved == old(server.saved)
    ensures SubsKey(e).None? ==> !ok && o == Lost
    ensures ok <==> o == Fine
    ensures server.errors == old(server.errors) + Failure(ok || SubsKey(e).None?)
    ensures server.data == if o.Lost? then old(server.data) else SaveSubs(old(server.data), e, subs)
  {
    var key := SubsKey(e);
    if key.None? {
      return false, Lost;
    }
    if |subs| == 0 {
      ok, o := server.KVDelete(key.value);
    } else {
      ok, o := server.KVSet(key.value, SubsValue(StoredSubscriptions(e, subs)));
    }
  }

  /** List skips what it cannot decode to an event. */
  predicate IsListable(data: KVData, key: string) {
    key in data && data[key].SubsValue? && data[key].stored.event.subject != ""
  }

  /** What List returns, given the listing of the keys. */
  function Listing(data: KVData, keys: seq<string>): seq<StoredSubscriptions> {
    if keys == [] then []
    else if IsSubsKey(keys[0]) && IsListable(data, keys[0]) then
      [data[keys[0]].stored] + Listing(data, keys[1..])
    else Listing(data, keys[1..])
  }

  lemma {:induction false} ListingAppend(data: KVData, a: seq<string>, b: seq<string>)
    ensures Listing(data, a + b) == Listing(data, a) + Listing(data, b)
  {
    if a == [] {
      assert a + b == b;
    } else {
      assert (a + b)[1..] == a[1..] + b;
      ListingAppend(data, a[1..], b);
    }
  }

  lemma ListingSnoc(data: KVData, ks: seq<string>, i: nat)
    requires i < |ks|
    ensures Listing(data, ks[..i + 1]) == Listing(data, ks[..i]) + Listing(data, [ks[i]])
  {
    assert ks[..i + 1] == ks[..i] + [ks[i]];
    ListingAppend(data, ks[..i], [ks[i]]);
  }

  /** The part of List that handles one page. */
  method ListPage(server: Server, ks: seq<string>) returns (ok: bool, all: seq<StoredSubscriptions>)
    modifies server`errors
    ensures server.errors == old(server.errors) + Failure(ok)
    ensures ok ==> all == Listing(server.data, ks)
  {
    all := [];
    for i := 0 to |ks|
      invariant all == Listing(server.data, ks[..i]) && server.errors == old(server.errors)
    {
      ListingSnoc(server.data, ks, i);
      assert [ks[i]][1..] == [];
      if IsSubsKey(ks[i]) {
        var got, v := server.KVGet(ks[i]);
        if !got {
          return false, [];
        }
        if v.Some? && v.value.SubsValue? && v.value.stored.event.subject != "" {
          all := all + [v.value.stored];
        }
      }
    }
    assert ks[..|ks|] == ks;
    ok := true;
  }

  method List(server: Server) returns (ok: bool, all: seq<StoredSubscriptions>)
    modifies server`errors
    ensures server.errors == old(server.errors) + Failure(ok)
    ensures ok ==> all == Listing(server.data, server.keys)
  {
    all := [];
    var n := 0;
    while true
      invariant all == Listing(server.data, Pages(server.keys, n)) && server.errors == old(server.errors)
      decreases |server.keys| - n * LIST_KEYS_PER_PAGE
    {
      var listed, ks := server.ListKeys(n, LIST_KEYS_PER_PAGE);
      if !listed {
        return false, [];
      }
      EmptyPageIsLast(server.keys, n);
      if ks == [] {
        return true, all;
      }
      ListingAppend(server.data, Pages(server.keys, n), ks);
      var read, more := ListPage(server, ks);
      if !read {
        return false, [];
      }
      all := all + more;
      n := n + 1;
    }
  }

  /** List has the list under each subscription key, in the order of the keys. */
  lemma {:induction false} ListingFollowsKeys(data: KVData, keys: seq<string>)
    requires SubsInv(data) && forall i :: 0 <= i < |keys| ==> keys[i] in data
    ensures |Listing(data, keys)| == |Filter(keys, IsSubsKey)|
    ensures forall i :: 0 <= i < |Filter(keys, IsSubsKey)| ==>
      WellFiled(data, Filter(keys, IsSubsKey)[i]) && Listing(data, keys)[i] == data[Filter(keys, IsSubsKey)[i]].stored
  {
    if keys != [] {
      ListingFollowsKeys(data, keys[1..]);
      if IsSubsKey(keys[0]) {
        assert WellFiled(data, keys[0]);
        assert data[keys[0]].stored.event.subject != "";
      }
    }
  }

  // ---------------------------------------------------------------- subscribing

  /** append(all[:i], all[i+1:]...): the elements behind position i move one place forward, in place. */
  method RemoveAt(a: array<Subscription>, i: nat)
    requires i < a.Length
    modifies a
    ensures a[..a.Length - 1] == old(a[..i]) + old(a[i + 1..])
  {
    for j := i to a.Length - 1
      invariant forall k :: 0 <= k < i ==> a[k] == old(a[k])
      invariant forall k :: i <= k < j ==> a[k] == old(a[k + 1])
      invariant forall k :: j <= k < a.Length ==> a[k] == old(a[k])
    {
      a[j] := a[j + 1];
    }
  }

  lemma {:induction false} RemovedIsCut(subs: seq<Subscription>, i: nat, appID: AppID, owner: UserID)
    requires i < |subs| && Has(subs[i], appID, owner)
    requires forall j :: 0 <= j < i ==> !Has(subs[j], appID, owner)
    ensures Removed(subs, appID, owner) == subs[..i] + subs[i + 1..]
    ensures Find(subs, appID, owner) == Some(subs[i].call)
  {
    if i > 0 {
      RemovedIsCut(subs[1..], i - 1, appID, owner);
      assert subs[..i] == [subs[0]] + subs[1..][..i - 1];
      assert subs[1..][i - 1 + 1..] == subs[i + 1..];
    }
  }

  lemma {:induction false} NotFoundMeansNone(subs: seq<Subscription>, appID: AppID, owner: UserID)
    requires forall j :: 0 <= j < |subs| ==> !Has(subs[j], appID, owner)
    ensures Find(subs, appID, owner) == None
  {
    if subs != [] {
      NotFoundMeansNone(subs[1..], appID, owner);
    }
  }

  function ListOf(data: KVData, e: Event): seq<Subscription> {
    if SubsKey(e).None? then [] else Stored(data, SubsKey(e).value)
  }

  /** The lookup loop of unsubscribe. */
  method FirstOf(subs: seq<Subscription>, appID: AppID, owner: UserID) returns (i: nat)
    ensures i <= |subs|
    ensures i < |subs| ==> Has(subs[i], appID, owner) && Removed(subs, appID, owner) == subs[..i] + subs[i + 1..]
    ensures i < |subs| <==> Find(subs, appID, owner).Some?
  {
    i := 0;
    while i < |subs|
      invariant i <= |subs| && forall j :: 0 <= j < i ==> !Has(subs[j], appID, owner)
    {
      if !(subs[i].appID != appID || subs[i].ownerUserID != owner) {
        RemovedIsCut(subs, i, appID, owner);
        return;
      }
      i := i + 1;
    }
    NotFoundMeansNone(subs, appID, owner);
  }

  /** What a call leaves in the store, and what it reports. */
  type Effect = (KVData, Option<SubError>)

  /**
    unsubscribe: whether the list could be read, and how its one write ended, decide what it comes to.
   */
  function UnsubscribeRun(
      data: KVData, e: Event, appID: AppID, owner: UserID, permitted: bool, read: bool, o: Outcome): Effect
  {
    if SubsKey(e).None? || !read then (data, Some(Failed))
    else if Lookup(data, e, appID, owner).None? then (data, Some(NotFound))
    else if !permitted then (data, Some(Forbidden))
    else (if o.Lost? then data else Unsubscribed(data, e, appID, owner), if o == Fine then None else Some(Failed))
  }

  /** Subscribe: one write that removes an earlier entry, if there is one, and one that adds the new entry. */
  function SubscribeRun(
      data: KVData, e: Event, appID: AppID, owner: UserID, call: Call, read: bool, o1: Outcome, o2: Outcome): Effect
  {
    var first := UnsubscribeRun(data, e, appID, owner, true, read, o1);
    if first.1.Some? && first.1 != Some(NotFound) then first
    else (if o2.Lost? then first.0 else Subscribed(data, e, appID, owner, call),
          if o2 == Fine then None else Some(Failed))
  }

  method UnsubscribeOwner(server: Server, r: Request, owner: UserID, e: Event)
    returns (all: seq<Subscription>, err: Option<SubError>, ghost read: bool, ghost o: Outcome)
    requires server.Valid()
    modifies server
    ensures server.Valid() && server.saved == old(server.saved)
    ensures server.errors == old(server.errors) + Failure(err != Some(Failed) || SubsKey(e).None?)
    ensures (server.data, err) == UnsubscribeRun(old(server.data), e, r.sourceAppID, owner,
      owner == r.actingUserID || r.privileged, read, o)
    ensures err in {None, Some(NotFound)} ==> all == Removed(ListOf(old(server.data), e), r.sourceAppID, owner)
    ensures err == Some(Forbidden) <==>
      && SubsKey(e).Some? && read && Lookup(old(server.data), e, r.sourceAppID, owner).Some?
      && owner != r.actingUserID && !r.privileged
    ensures err == Some(Forbidden) ==> server.data == old(server.data)
  {
    o := Lost;
    var got := Get(server, e);
    read := got.Ok?;
    if got.Err? {
      return [], Some(got.error), read, o;
    }
    var i := FirstOf(got.value, r.sourceAppID, owner);
    if i == |got.value| {
      RemovedAbsent(got.value, r.sourceAppID, owner);
      return got.value, Some(NotFound), read, o;
    }
    var s := got.value[i];
    if s.ownerUserID != r.actingUserID && !r.privileged {
      return [], Some(Forbidden), read, o;
    }
    var slice := new Subscription[|got.value|](k requires 0 <= k < |got.value| => got.value[k]);
    assert slice[..] == got.value && slice[..i] == got.value[..i] && slice[i + 1..] == got.value[i + 1..];
    RemoveAt(slice, i);
    var modified := slice[..slice.Length - 1];
    assert modified == Removed(got.value, r.sourceAppID, owner);
    var ok;
    ok, o := Save(server, e, modified);
    if !ok {
      return [], Some(Failed), read, o;
    }
    return modified, None, read, o;
  }

  lemma SaveAfterSave(data: KVData, e: Event, first: seq<Subscription>, second: seq<Subscription>)
    requires SubsKey(e).Some? && second != []
    ensures SaveSubs(SaveSubs(data, e, first), e, second) == SaveSubs(data, e, second)
  {
  }

  /** `accepted` stands for the checks of the request. */
  method Subscribe(server: Server, r: Request, accepted: bool, e: Event, call: Call)
    returns (err: Option<SubError>, ghost read: bool, ghost o1: Outcome, ghost o2: Outcome)
    requires server.Valid()
    modifies server
    ensures server.Valid() && server.saved == old(server.saved)
    ensures server.errors == old(server.errors) + Failure(err in {None, Some(Refused)} || SubsKey(e).None?)
    ensures !accepted ==> err == Some(Refused) && server.data == old(server.data)
    ensures accepted ==>
      (server.data, err) == SubscribeRun(old(server.data), e, r.sourceAppID, r.actingUserID, call, read, o1, o2)
  {
    read, o1, o2 := false, Lost, Lost;
    if !accepted {
      return Some(Refused), read, o1, o2;
    }
    var all, failed;
    all, failed, read, o1 := UnsubscribeOwner(server, r, r.actingUserID, e);
    if failed.Some? && failed != Some(NotFound) {
      return failed, read, o1, o2;
    }
    ghost var before := all;
    all := all + [Subscription(call, r.sourceAppID, r.actingUserID)];
    SaveAfterSave(old(server.data), e, before, all);
    var ok;
    ok, o2 := Save(server, e, all);
    err := if ok then None else Some(Failed);
  }

  /**
    What unsubscribing comes to, said of the map of subscriptions: success exactly if there was an entry,
    which could be read and was removed; "not found" exactly if there was none to be read; and nobody
    else's entry is touched.
   */
  ghost predicate OneEntryGone(
      before: KVData, after: KVData, e: Event, appID: AppID, owner: UserID, err: Option<SubError>, read: bool,
      o: Outcome)
  {
    && (err == None <==> SubsKey(e).Some? && read && Lookup(before, e, appID, owner).Some? && o == Fine)
    && (err == Some(NotFound) <==> SubsKey(e).Some? && read && Lookup(before, e, appID, owner).None?)
    && err in {None, Some(NotFound), Some(Failed)}
    && (err == None ==> Lookup(after, e, appID, owner).None?)
    && (err == Some(NotFound) || !read ==> after == before)
    && (Lookup(after, e, appID, owner) == Lookup(before, e, appID, owner) ||
        (Lookup(after, e, appID, owner).None? && read && o != Lost))
    && (forall f, a, u :: (f, a, u) != (e, appID, owner) ==> Lookup(after, f, a, u) == Lookup(before, f, a, u))
    && SubsInv(after)
  }

  lemma UnsubscribeExact(data: KVData, e: Event, appID: AppID, owner: UserID, read: bool, o: Outcome)
    requires SubsInv(data)
    ensures var run := UnsubscribeRun(data, e, appID, owner, true, read, o);
            OneEntryGone(data, run.0, e, appID, owner, run.1, read, o)
  {
    var after := UnsubscribeRun(data, e, appID, owner, true, read, o).0;
    if SubsKey(e).Some? {
      UnsubscribeIsRemoval(data, e, appID, owner, e, appID, owner);
      forall f, a, u | (f, a, u) != (e, appID, owner)
        ensures Lookup(after, f, a, u) == Lookup(data, f, a, u)
      {
        UnsubscribeIsRemoval(data, e, appID, owner, f, a, u);
      }
    }
  }

  method Unsubscribe(server: Server, r: Request, accepted: bool, e: Event)
    returns (err: Option<SubError>, ghost read: bool, ghost o: Outcome)
    requires server.Valid()
    modifies server
    ensures server.Valid() && server.saved == old(server.saved)
    ensures server.errors == old(server.errors) + Failure(err != Some(Failed) || SubsKey(e).None?)
    ensures !accepted ==> err == Some(Refused) && server.data == old(server.data)
    ensures accepted ==>
      (server.data, err) == UnsubscribeRun(old(server.data), e, r.sourceAppID, r.actingUserID, true, read, o)
    ensures accepted && SubsInv(old(server.data)) ==>
      OneEntryGone(old(server.data), server.data, e, r.sourceAppID, r.actingUserID, err, read, o)
  {
    if !accepted {
      return Some(Refused), false, Lost;
    }
    ghost var before := server.data;
    var modified;
    modified, err, read, o := UnsubscribeOwner(server, r, r.actingUserID, e);
    if SubsInv(before) {
      UnsubscribeExact(before, e, r.sourceAppID, r.actingUserID, read, o);
    }
  }

  /** Subscribe succeeds exactly when the list can be read and every write that it makes goes well. */
  lemma SubscribeSucceedsIff(
      data: KVData, e: Event, appID: AppID, owner: UserID, call: Call, read: bool, o1: Outcome, o2: Outcome)
    requires SubsInv(data)
    ensures var run := SubscribeRun(data, e, appID, owner, call, read, o1, o2);
            && (run.1 == None <==>
                SubsKey(e).Some? && read && (Lookup(data, e, appID, owner).Some? ==> o1 == Fine) && o2 == Fine)
            && run.1 in {None, Some(Failed)}
            && (Lookup(run.0, e, appID, owner) ==
                var had := Lookup(data, e, appID, owner);
                if SubsKey(e).None? || !read || (had.Some? && o1 == Lost) then had
                else if (had.Some? && o1 == Applied) || o2 == Lost then None
                else Some(call))
            && SubsInv(run.0)
  {
    if SubsKey(e).Some? {
      SubscribeIsUpdate(data, e, appID, owner, call, e, appID, owner);
      UnsubscribeIsRemoval(data, e, appID, owner, e, appID, owner);
    }
  }

  /**
    Subscribe loses an earlier subscription exactly when there is one, and either the first write took
    effect and reported a failure, or it went well and the second write was lost. Without an earlier
    subscription, everything stays as it was or the new one is there.
   */
  lemma SubscribeLosesIff(
      data: KVData, e: Event, appID: AppID, owner: UserID, call: Call, read: bool, o1: Outcome, o2: Outcome)
    requires SubsInv(data)
    ensures var after := SubscribeRun(data, e, appID, owner, call, read, o1, o2).0;
            var had := Lookup(data, e, appID, owner).Some?;
            && (had && Lookup(after, e, appID, owner).None? <==>
                had && read && (o1 == Applied || (o1 == Fine && o2 == Lost)))
            && (!had ==> after == data || (SubsKey(e).Some? && after == Subscribed(data, e, appID, owner, call)))
  {
    if SubsKey(e).Some? {
      SubscribeIsUpdate(data, e, appID, owner, call, e, appID, owner);
      UnsubscribeIsRemoval(data, e, appID, owner, e, appID, owner);
    }
  }

  /** Whatever happens to the two writes, everybody else's subscriptions are the same. */
  lemma SubscribeSparesOthers(
      data: KVData, e: Event, appID: AppID, owner: UserID, call: Call, read: bool, o1: Outcome, o2: Outcome,
      f: Event, a: AppID, u: UserID)
    requires SubsInv(data) && (f, a, u) != (e, appID, owner)
    ensures Lookup(SubscribeRun(data, e, appID, owner, call, read, o1, o2).0, f, a, u) == Lookup(data, f, a, u)
  {
    if SubsKey(e).Some? {
      SubscribeIsUpdate(data, e, appID, owner, call, f, a, u);
      UnsubscribeIsRemoval(data, e, appID, owner, f, a, u);
    }
  }

  /** Subscribing twice to the same event, the second time with a lost write, leaves no subscription. */
  lemma SecondSubscribeLoses(data: KVData, e: Event, appID: AppID, owner: UserID, first: Call, second: Call)
    requires SubsInv(data) && SubsKey(e).Some?
    ensures var once := SubscribeRun(data, e, appID, owner, first, true, Fine, Fine);
            var twice := SubscribeRun(once.0, e, appID, owner, second, true, Fine, Lost);
            && once.1 == None && Lookup(once.0, e, appID, owner) == Some(first)
            && twice.1 == Some(Failed) && Lookup(twice.0, e, appID, owner) == None
  {
    var once := SubscribeRun(data, e, appID, owner, first, true, Fine, Fine).0;
    SubscribeSucceedsIff(data, e, appID, owner, first, true, Fine, Fine);
    SubscribeLosesIff(once, e, appID, owner, second, true, Fine, Lost);
  }

  // ---------------------------------------------------------------- listing

  /** apps.Subscription: what GetSubscriptions returns. */
  datatype AppSubscription = AppSubscription(event: Event, call: Call)

  /** The inner loop of GetSubscriptions. */
  function MineOf(e: Event, subs: seq<Subscription>, appID: AppID, owner: UserID): seq<AppSubscription> {
    if subs == [] then []
    else if Has(subs[0], appID, owner) then [AppSubscription(e, subs[0].call)] + MineOf(e, subs[1..], appID, owner)
    else MineOf(e, subs[1..], appID, owner)
  }

  function Mine(all: seq<StoredSubscriptions>, appID: AppID, owner: UserID): seq<AppSubscription> {
    if all == [] then []
    else MineOf(all[0].event, all[0].subscriptions, appID, owner) + Mine(all[1..], appID, owner)
  }

  lemma {:induction false} MineOfSnoc(e: Event, subs: seq<Subscription>, s: Subscription, appID: AppID, owner: UserID)
    ensures MineOf(e, subs + [s], appID, owner) ==
            if Has(s, appID, owner) then MineOf(e, subs, appID, owner) + [AppSubscription(e, s.call)]
            else MineOf(e, subs, appID, owner)
  {
    if subs == [] {
      assert [] + [s] == [s];
    } else {
      assert (subs + [s])[1..] == subs[1..] + [s];
      MineOfSnoc(e, subs[1..], s, appID, owner);
    }
  }

  lemma {:induction false} MineSnoc(all: seq<StoredSubscriptions>, s: StoredSubscriptions, appID: AppID, owner: UserID)
    ensures Mine(all + [s], appID, owner) == Mine(all, appID, owner) + MineOf(s.event, s.subscriptions, appID, owner)
  {
    if all == [] {
      assert [] + [s] == [s];
    } else {
      assert (all + [s])[1..] == all[1..] + [s];
      MineSnoc(all[1..], s, appID, owner);
    }
  }

  method Collect(all: seq<StoredSubscriptions>, appID: AppID, owner: UserID) returns (out: seq<AppSubscription>)
    ensures out == Mine(all, appID, owner)
  {
    out := [];
    for i := 0 to |all|
      invariant out == Mine(all[..i], appID, owner)
    {
      var stored := all[i];
      ghost var before := out;
      for j := 0 to |stored.subscriptions|
        invariant out == before + MineOf(stored.event, stored.subscriptions[..j], appID, owner)
      {
        var s := stored.subscriptions[j];
        assert stored.subscriptions[..j + 1] == stored.subscriptions[..j] + [s];
        MineOfSnoc(stored.event, stored.subscriptions[..j], s, appID, owner);
        if s.appID == appID && s.ownerUserID == owner {
          out := out + [AppSubscription(stored.event, s.call)];
        }
      }
      assert stored.subscriptions[..|stored.subscriptions|] == stored.subscriptions;
      assert all[..i + 1] == all[..i] + [stored];
      MineSnoc(all[..i], stored, appID, owner);
    }
    assert all[..|all|] == all;
  }

  method GetSubscriptions(server: Server, r: Request, accepted: bool)
    returns (out: Result<seq<AppSubscription>, SubError>)
    modifies server`errors
    ensures !accepted <==> out == Err(Refused)
    ensures server.errors == old(server.errors) + Failure(out != Err(Failed))
    ensures out.Ok? ==> out.value == Mine(Listing(server.data, server.keys), r.sourceAppID, r.actingUserID)
  {
    if !accepted {
      return Err(Refused);
    }
    var ok, all := List(server);
    if !ok {
      return Err(Failed);
    }
    var found := Collect(all, r.sourceAppID, r.actingUserID);
    out := Ok(found);
  }

  lemma {:induction false} MineOfUnique(e: Event, subs: seq<Subscription>, appID: AppID, owner: UserID)
    requires Unique(subs)
    ensures MineOf(e, subs, appID, owner) == match Find(subs, appID, owner)
                                             case None => []
                                             case Some(call) => [AppSubscription(e, call)]
  {
    if subs != [] {
      MineOfUnique(e, subs[1..], appID, owner);
    }
  }

  /** A result of List: every list unique, no two for the same event. */
  ghost predicate ProperListing(all: seq<StoredSubscriptions>) {
    && (forall i :: 0 <= i < |all| ==> Unique(all[i].subscriptions))
    && (forall i, j :: 0 <= i < j < |all| ==> all[i].event != all[j].event)
  }

  ghost predicate Offers(all: seq<StoredSubscriptions>, appID: AppID, owner: UserID, m: AppSubscription) {
    exists i :: 0 <= i < |all| && all[i].event == m.event && Find(all[i].subscriptions, appID, owner) == Some(m.call)
  }

  lemma OffersCons(all: seq<StoredSubscriptions>, appID: AppID, owner: UserID, m: AppSubscription)
    requires all != []
    ensures Offers(all, appID, owner, m) <==>
            (all[0].event == m.event && Find(all[0].subscriptions, appID, owner) == Some(m.call)) ||
            Offers(all[1..], appID, owner, m)
  {
    if Offers(all[1..], appID, owner, m) {
      var i :| 0 <= i < |all[1..]| && all[1..][i].event == m.event &&
               Find(all[1..][i].subscriptions, appID, owner) == Some(m.call);
      assert all[i + 1] == all[1..][i];
    }
    if Offers(all, appID, owner, m) {
      var i :| 0 <= i < |all| && all[i].event == m.event && Find(all[i].subscriptions, appID, owner) == Some(m.call);
      if i > 0 {
        assert all[1..][i - 1] == all[i];
      }
    }
  }

  lemma {:induction false} MineExact(all: seq<StoredSubscriptions>, appID: AppID, owner: UserID)
    requires ProperListing(all)
    ensures forall m :: m in Mine(all, appID, owner) <==> Offers(all, appID, owner, m)
    ensures NoDuplicates(Mine(all, appID, owner))
  {
    if all != [] {
      assert ProperListing(all[1..]);
      MineExact(all[1..], appID, owner);
      var e, first, later := all[0].event, MineOf(all[0].event, all[0].subscriptions, appID, owner), Mine(all[1..],
          appID, owner);
      MineOfUnique(e, all[0].subscriptions, appID, owner);
      forall m ensures m in Mine(all, appID, owner) <==> Offers(all, appID, owner, m) {
        OffersCons(all, appID, owner, m);
      }
      forall m | m in later ensures m.event != e {
        var i :| 0 <= i < |all[1..]| && all[1..][i].event == m.event;
        assert all[0].event != all[i + 1].event;
      }
      assert |first| <= 1 && forall m :: m in first ==> m.event == e;
    }
  }

  lemma ListingIsProper(data: KVData, keys: seq<string>)
    requires SubsInv(data) && Lists(keys, data)
    ensures ProperListing(Listing(data, keys))
  {
    var all, ks := Listing(data, keys), Filter(keys, IsSubsKey);
    ListingFollowsKeys(data, keys);
    FilterNoDuplicates(keys, IsSubsKey);
    forall i, j | 0 <= i < j < |all|
      ensures all[i].event != all[j].event
    {
      assert WellFiled(data, ks[i]) && WellFiled(data, ks[j]);
    }
    forall i | 0 <= i < |all|
      ensures Unique(all[i].subscriptions)
    {
      assert WellFiled(data, ks[i]);
    }
  }

  /** GetSubscriptions returns exactly the app's and the user's entries of the map, each once. */
  lemma GetSubscriptionsExact(data: KVData, keys: seq<string>, appID: AppID, owner: UserID, e: Event, call: Call)
    requires SubsInv(data) && Lists(keys, data)
    ensures AppSubscription(e, call) in Mine(Listing(data, keys), appID, owner)
            <==> Lookup(data, e, appID, owner) == Some(call)
    ensures NoDuplicates(Mine(Listing(data, keys), appID, owner))
  {
    var all, ks, m := Listing(data, keys), Filter(keys, IsSubsKey), AppSubscription(e, call);
    ListingIsProper(data, keys);
    MineExact(all, appID, owner);
    ListingFollowsKeys(data, keys);
    if Offers(all, appID, owner, m) {
      var i :| 0 <= i < |all| && all[i].event == e && Find(all[i].subscriptions, appID, owner) == Some(call);
      assert WellFiled(data, ks[i]);
    }
    if Lookup(data, e, appID, owner) == Some(call) {
      var key := SubsKey(e).value;
      SubsKeyIsSubsKey(e);
      FilterMember(keys, IsSubsKey, key);
      var i :| 0 <= i < |ks| && ks[i] == key;
      assert WellFiled(data, ks[i]);
      SubsKeyInjective(e, all[i].event);
    }
  }

  // ---------------------------------------------------------------- unsubscribing an app

  method FilterOut(subs: seq<Subscription>, appID: AppID) returns (modified: seq<Subscription>)
    ensures modified == NotOf(subs, appID)
  {
    modified := [];
    for j := 0 to |subs|
      invariant modified == NotOf(subs[..j], appID)
    {
      FilterSnoc(subs, j, (s: Subscription) => s.appID != appID);
      if subs[j].appID != appID {
        modified := modified + [subs[j]];
      }
    }
    assert subs[..|subs|] == subs;
  }

  /** One list of UnsubscribeApp; `key` is where it is filed. */
  method DropFromList(server: Server, stored: StoredSubscriptions, appID: AppID, ghost key: string)
    returns (ok: bool, ghost changed: bool)
    requires server.Valid() && WellFiled(server.data, key) && server.data[key].stored == stored
    modifies server
    ensures server.Valid() && server.saved == old(server.saved)
    ensures server.errors == old(server.errors) + Failure(ok)
    ensures ok ==> changed
    ensures server.data == if changed then WithoutAppAt(old(server.data), key, appID) else old(server.data)
  {
    var modified := FilterOut(stored.subscriptions, appID);
    if |modified| < |stored.subscriptions| {
      ghost var o;
      ok, o := Save(server, stored.event, modified);
      changed := !o.Lost?;
    } else {
      ok, changed := true, true;
    }
  }

  lemma NothingGoneYet(data: KVData, appID: AppID)
    ensures AppGoneFrom(data, data, {}, appID)
  {
  }

  /** The lists in `done` lost the app's entries; on success these are all lists. */
  method UnsubscribeApp(server: Server, accepted: bool, appID: AppID) returns (ok: bool, ghost done: set<string>)
    requires server.Valid() && SubsInv(server.data)
    modifies server
    ensures server.Valid() && server.saved == old(server.saved) && SubsInv(server.data)
    ensures server.errors == old(server.errors) + Failure(ok || !accepted)
    ensures AppGoneFrom(old(server.data), server.data, done, appID)
    ensures forall k :: k in done ==> k in old(server.data) && IsSubsKey(k)
    ensures ok ==> AllSubsKeys(done, old(server.data))
  {
    done := {};
    NothingGoneYet(server.data, appID);
    if !accepted {
      return false, done;
    }
    ghost var before, ks := server.data, Filter(server.keys, IsSubsKey);
    var all;
    ok, all := List(server);
    if !ok {
      return;
    }
    ListingFollowsKeys(before, server.keys);
    FilterNoDuplicates(server.keys, IsSubsKey);
    forall k ensures k in ks <==> k in before && IsSubsKey(k) {
      FilterMember(server.keys, IsSubsKey, k);
    }
    for i := 0 to |all|
      invariant server.Valid() && server.saved == old(server.saved) && SubsInv(server.data)
      invariant done == set j | 0 <= j < i :: ks[j]
      invariant AppGoneFrom(before, server.data, done, appID) && server.errors == old(server.errors)
    {
      ghost var key, between := ks[i], server.data;
      assert ks[i] in ks;
      AppGoneStep(before, between, done, key, appID);
      ghost var changed;
      ok, changed := DropFromList(server, all[i], appID, key);
      if changed {
        done := done + {key};
      }
      if !ok {
        return;
      }
    }
    ok := true;
    assert forall k :: k in done <==> k in ks;
  }
}

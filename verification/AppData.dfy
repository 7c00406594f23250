/**
  Clearing what the flat store keeps for one app: hashkeys by parsed app ID
  (server/store/service.go:224-260) and session keys by prefix (server/store/session.go:78-97, 186-200).
 */
module AppData {
  import opened Strings
  import opened Bindings
  import opened Records
  import opened Mattermost
  import opened Keys
  import opened Paging

  /** What WithAppID and WithPrefix together let through; empty arguments match everything. */
  predicate Matches(key: string, appID: AppID, prefix: string) {
    var parsed := ParseHashkey(key);
    && parsed.Some?
    && (appID == "" || parsed.value.appID == appID)
    && (prefix == "" || parsed.value.gns == prefix)
  }

  predicate DataOf(key: string, appID: AppID) {
    Matches(key, appID, KV_APP_PREFIX) || Matches(key, appID, KV_USER_PREFIX)
  }

  predicate TokenOf(key: string, appID: AppID) {
    HasPrefix(key, AppKey(appID))
  }

  /** A hashkey made for one app is taken for the data of exactly that app. */
  lemma DataBelongsToItsApp(
      idhash: string -> string, gns: string, owner: AppID, userID: UserID, ns: string, key: string, appID: AppID)
    requires FixedWidth(idhash) && HashkeyOf(idhash, gns, owner, userID, ns, key).Ok?
    requires Trimmed(owner) && appID != ""
    ensures DataOf(HashkeyOf(idhash, gns, owner, userID, ns, key).value, appID)
            <==> owner == appID && gns in {KV_APP_PREFIX, KV_USER_PREFIX}
  {
    ParseUndoesHashkey(idhash, gns, owner, userID, ns, key);
    TrimSpaceProperties(owner);
  }

  /**
    A session of app `owner` is cleared together with the sessions of `appID` exactly when `appID` is
    a prefix of "<owner>_<user>"; without underscores in `appID`, when it is a prefix of `owner`.
   */
  lemma TokenBelongsTo(owner: AppID, userID: UserID, appID: AppID)
    ensures TokenOf(SessionKey(owner, userID), appID) <==> appID <= owner + "_" + userID
    ensures '_' !in appID ==> (TokenOf(SessionKey(owner, userID), appID) <==> appID <= owner)
  {
    AppKeyPrefix(appID, owner, userID);
  }

  /** An underscore in an app ID lets it match sessions of an app whose own ID it does not start with. */
  lemma UnderscoreMatchesAcrossApps()
    ensures TokenOf(SessionKey("com.app", "u1"), "com.app_u") && !("com.app_u" <= "com.app")
  {
    TokenBelongsTo("com.app", "u1", "com.app_u");
    assert "com.app_u" <= "com.app" + "_" + "u1";
  }

  /** Session keys and hashkeys of apps are apart, so clearing one kind leaves the other alone. */
  lemma TokensAreNotData(key: string, a: AppID, b: AppID)
    ensures !(TokenOf(key, a) && DataOf(key, b))
    ensures TokenOf(key, a) ==> IsSessionKey(key)
    ensures DataOf(key, b) ==> IsHashkey(key)
  {
    if TokenOf(key, a) {
      assert key[..2] == AppKey(a)[..2] == KV_TOKEN_PREFIX;
    }
    if DataOf(key, b) {
      assert key[..2] == key[0..2];
    }
  }

  /** The two deletion passes of RemoveAllKVAndUserDataForApp, on the listing alone. */
  function WithoutData(keys: seq<string>, appID: AppID): seq<string> {
    var first := Survivors(keys, LIST_KEYS_PER_PAGE, k => Matches(k, appID, KV_APP_PREFIX));
    Survivors(first, LIST_KEYS_PER_PAGE, k => Matches(k, appID, KV_USER_PREFIX))
  }

  lemma OnePageLeavesNoData(keys: seq<string>, appID: AppID)
    requires |keys| <= 1_000
    ensures forall k :: k in WithoutData(keys, appID) <==> k in keys && !DataOf(k, appID)
  {
    var isApp, isUser := k => Matches(k, appID, KV_APP_PREFIX), k => Matches(k, appID, KV_USER_PREFIX);
    var first := Kept(keys, isApp);
    OnePageIsComplete(keys, LIST_KEYS_PER_PAGE, isApp);
    FilterLength(keys, k => !isApp(k));
    OnePageIsComplete(first, LIST_KEYS_PER_PAGE, isUser);
    forall k ensures k in WithoutData(keys, appID) <==> k in keys && !DataOf(k, appID) {
      FilterMember(keys, k => !isApp(k), k);
      FilterMember(first, k => !isUser(k), k);
    }
  }

  lemma GoneMore(before: KVData, between: KVData, after: KVData, p: string -> bool, q: string -> bool,
      r: string -> bool)
    requires OnlyDoomedGone(before, between, p) && OnlyDoomedGone(between, after, q)
    requires forall k :: p(k) || q(k) ==> r(k)
    ensures OnlyDoomedGone(before, after, r)
  {
  }

  method RemoveAllKVAndUserDataForApp(server: Server, appID: AppID) returns (ok: bool)
    requires server.Valid()
    modifies server
    ensures server.Valid() && server.saved == old(server.saved)
    ensures OnlyDoomedGone(old(server.data), server.data, k => DataOf(k, appID))
    ensures server.errors == old(server.errors) + Failure(ok)
    ensures ok ==> server.keys == WithoutData(old(server.keys), appID)
  {
    ok := DeleteWhilePaging(server, k => Matches(k, appID, KV_APP_PREFIX));
    ghost var between := server.data;
    if ok {
      ok := DeleteWhilePaging(server, k => Matches(k, appID, KV_USER_PREFIX));
    }
    if between == server.data {
      assert OnlyDoomedGone(between, server.data, k => Matches(k, appID, KV_USER_PREFIX));
    }
    GoneMore(old(server.data), between, server.data, k => Matches(k, appID, KV_APP_PREFIX),
             k => Matches(k, appID, KV_USER_PREFIX), k => DataOf(k, appID));
  }

  method DeleteOne(server: Server, doomed: string -> bool, key: string) returns (ok: bool)
    requires server.Valid() && doomed(key)
    modifies server
    ensures server.Valid() && server.saved == old(server.saved)
    ensures OnlyDoomedGone(old(server.data), server.data, doomed) && (ok ==> key !in server.data)
    ensures server.errors == old(server.errors) + Failure(ok)
  {
    ghost var o;
    ok, o := server.KVDelete(key);
  }

  /** Every one of these keys is gone, or deleting it failed. */
  ghost predicate Handled(keys: set<string>, data: KVData, missed: set<string>) {
    forall k :: k in keys && k in data ==> k in missed
  }

  /** The loop of DeleteAllForApp; failed deletions are only logged, `missed` has their keys. */
  method DeleteEach(server: Server, found: seq<string>, doomed: string -> bool) returns (ghost missed: set<string>)
    requires server.Valid() && forall i :: 0 <= i < |found| ==> doomed(found[i])
    modifies server
    ensures server.Valid() && server.saved == old(server.saved)
    ensures OnlyDoomedGone(old(server.data), server.data, doomed)
    ensures Handled(set i | 0 <= i < |found| :: found[i], server.data, missed)
    ensures |missed| <= server.errors - old(server.errors)
  {
    missed := {};
    ghost var seen: set<string> := {};
    for i := 0 to |found|
      invariant server.Valid() && server.saved == old(server.saved)
      invariant OnlyDoomedGone(old(server.data), server.data, doomed) && Handled(seen, server.data, missed)
      invariant seen == set j | 0 <= j < i :: found[j]
      invariant |missed| <= server.errors - old(server.errors)
    {
      ghost var between := server.data;
      var deleted := DeleteOne(server, doomed, found[i]);
      GoneTwice(old(server.data), between, server.data, doomed);
      missed := if deleted then missed else missed + {found[i]};
      seen := seen + {found[i]};
    }
  }

  /**
    sessionStore.DeleteAllForApp (server/store/session.go:186-200): the session keys it leaves are at
    most as many as there were errors.
   */
  method DeleteAllForApp(server: Server, appID: AppID) returns (ok: bool, ghost missed: set<string>)
    requires server.Valid()
    modifies server
    ensures server.Valid() && server.saved == old(server.saved)
    ensures OnlyDoomedGone(old(server.data), server.data, k => TokenOf(k, appID))
    ensures ok ==> forall k :: k in server.data && TokenOf(k, appID) ==> k in missed
    ensures ok ==> |missed| <= server.errors - old(server.errors)
    ensures !ok ==> server.data == old(server.data) && server.errors == old(server.errors) + 1
  {
    missed := {};
    var found;
    ok, found := ListMatching(server, k => TokenOf(k, appID));
    if !ok {
      return;
    }
    forall k ensures k in found <==> k in server.data && TokenOf(k, appID) {
      FilterMember(server.keys, k => TokenOf(k, appID), k);
    }
    missed := DeleteEach(server, found, k => TokenOf(k, appID));
    assert forall k :: k in found <==> k in set i | 0 <= i < |found| :: found[i];
  }
}

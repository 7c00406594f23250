/**
  Uninstalling, disabling and enabling an app (server/proxy/uninstall.go, server/proxy/enable.go).
 */
module Lifecycle {
  import opened Wrappers
  import opened Strings
  import opened Bindings
  import opened Records
  import opened ContentStore
  import opened Mattermost
  import opened Keys
  import opened Paging
  import opened AppData
  import opened Subscriptions
  import AppServices
  import opened AppStores
  import opened AppRecords

  /** The OAuth apps and the active bot accounts of the Mattermost server. */
  class Accounts {
    var oauthApps: set<string>
    var active: set<UserID>
    /** How many calls have returned an error. */
    ghost var errors: nat

    constructor ()
      ensures oauthApps == {} && active == {} && errors == 0
    {
      oauthApps, active, errors := {}, {}, 0;
    }

    method DeleteOAuth(id: string) returns (ok: bool)
      modifies this
      ensures active == old(active) && errors == old(errors) + Failure(ok)
      ensures oauthApps == old(oauthApps) - {id} || (!ok && oauthApps == old(oauthApps))
    {
      ok := *;
      var applied: bool := *;
      errors := errors + Failure(ok);
      if ok || applied {
        oauthApps := oauthApps - {id};
      }
    }

    method UpdateActive(bot: UserID, on: bool) returns (ok: bool)
      modifies this
      ensures oauthApps == old(oauthApps) && errors == old(errors) + Failure(ok)
      ensures active == (if on then old(active) + {bot} else old(active) - {bot}) || (!ok && active == old(active))
    {
      ok := *;
      var applied: bool := *;
      errors := errors + Failure(ok);
      if ok || applied {
        active := if on then active + {bot} else active - {bot};
      }
    }
  }

  // ---------------------------------------------------------------- what the steps do to the store

  /** The sessions of the app are gone, but for those whose deletion failed. */
  ghost predicate TokensCleared(before: KVData, after: KVData, appID: AppID, missed: set<string>) {
    && OnlyDoomedGone(before, after, k => TokenOf(k, appID))
    && forall k :: k in after && TokenOf(k, appID) ==> k in missed
  }

  /** The app's data are gone; all of them when the listing fits one page. */
  ghost predicate DataCleared(before: KVData, after: KVData, appID: AppID) {
    && OnlyDoomedGone(before, after, k => DataOf(k, appID))
    && (|before| <= 1_000 ==> forall k :: k in after ==> !DataOf(k, appID))
  }

  ghost predicate AppUnsubscribed(before: KVData, after: KVData, appID: AppID) {
    exists done :: AllSubsKeys(done, before) && AppGoneFrom(before, after, done, appID)
  }

  /** Everything that a successful uninstall has done to the store; `blob` is the key of the app's record. */
  ghost predicate Erased(before: KVData, after: KVData, appID: AppID, missed: set<string>, blob: string) {
    && (forall k :: k in after && TokenOf(k, appID) ==> k in missed)
    && (|before| <= 1_000 ==> forall k :: k in after ==> !DataOf(k, appID))
    && (forall e, a, o :: Lookup(after, e, a, o) == if a == appID then None else Lookup(before, e, a, o))
    && blob !in after
    && (forall k :: Foreign(k, appID, blob) ==> SameAt(before, after, k))
  }

  /** A key that uninstalling the app has no business with; subscription keys are shared by apps. */
  predicate Foreign(k: string, appID: AppID, blob: string) {
    !TokenOf(k, appID) && !DataOf(k, appID) && !IsSubsKey(k) && k != blob
  }

  lemma ListedOnce(keys: seq<string>, data: KVData)
    requires Lists(keys, data)
    ensures |keys| == |data|
  {
    DistinctCount(keys);
    assert (set k | k in keys) == data.Keys;
  }

  lemma {:induction false} DistinctCount(keys: seq<string>)
    requires NoDuplicates(keys)
    ensures |set k | k in keys| == |keys|
  {
    if keys != [] {
      var rest := keys[1..];
      assert NoDuplicates(rest);
      DistinctCount(rest);
      assert keys[0] !in rest;
      assert (set k | k in keys) == {keys[0]} + (set k | k in rest);
    }
  }

  /** Subscription keys are neither sessions, nor app data, nor records. */
  lemma SubsKeysApart(k: string, appID: AppID, h: string)
    requires IsSubsKey(k)
    ensures !TokenOf(k, appID) && !DataOf(k, appID) && k != APP_PREFIX + h
  {
    assert k[0] == KV_SUB_PREFIX[0] == 's' && (APP_PREFIX + h)[0] == 'a';
    TokensAreNotData(k, appID, appID);
  }

  /** The keys of records are neither sessions, nor app data, nor subscriptions. */
  lemma RecordKeysApart(h: string, appID: AppID)
    ensures !TokenOf(APP_PREFIX + h, appID) && !DataOf(APP_PREFIX + h, appID) && !IsSubsKey(APP_PREFIX + h)
  {
    var k := APP_PREFIX + h;
    assert k[0] == 'a' && KV_SUB_PREFIX[0] == 's';
    assert AppKey(appID)[0] == '.';
    TokensAreNotData(k, appID, appID);
  }

  ghost predicate SameSubs(before: KVData, after: KVData) {
    forall k :: IsSubsKey(k) ==> SameAt(before, after, k)
  }

  lemma SameSubsSameLookup(before: KVData, after: KVData, e: Event, a: AppID, o: UserID)
    requires SameSubs(before, after)
    ensures Lookup(after, e, a, o) == Lookup(before, e, a, o)
  {
    if SubsKey(e).Some? {
      SubsKeyIsSubsKey(e);
      assert SameAt(before, after, SubsKey(e).value);
    }
  }

  lemma SameSubsSameInv(before: KVData, after: KVData)
    requires SameSubs(before, after) && SubsInv(before)
    ensures SubsInv(after)
  {
    forall k | k in after && IsSubsKey(k)
      ensures WellFiled(after, k)
    {
      assert SameAt(before, after, k) && WellFiled(before, k);
    }
  }

  lemma ClearingKeepsSubs(before: KVData, between: KVData, after: KVData, appID: AppID)
    requires OnlyDoomedGone(before, between, k => TokenOf(k, appID))
    requires OnlyDoomedGone(between, after, k => DataOf(k, appID))
    ensures SameSubs(before, between) && SameSubs(before, after)
  {
    forall k | IsSubsKey(k)
      ensures SameAt(before, between, k) && SameAt(before, after, k)
    {
      SubsKeysApart(k, appID, "");
    }
  }

  lemma FewerKeys(before: KVData, after: KVData)
    requires forall k :: k in after ==> k in before
    ensures |after| <= |before|
  {
    SubsetCount(after.Keys, before.Keys);
  }

  lemma SubsetCount(a: set<string>, b: set<string>)
    requires a <= b
    ensures |a| <= |b|
  {
    assert b == a + (b - a);
  }

  lemma UnsubscribedLookups(before: KVData, after: KVData, appID: AppID)
    requires AppUnsubscribed(before, after, appID)
    ensures forall e, a, o :: Lookup(after, e, a, o) == if a == appID then None else Lookup(before, e, a, o)
    ensures forall k :: !IsSubsKey(k) ==> SameAt(before, after, k)
  {
    var done :| AllSubsKeys(done, before) && AppGoneFrom(before, after, done, appID);
    forall e, a, o ensures Lookup(after, e, a, o) == if a == appID then None else Lookup(before, e, a, o) {
      UnsubscribeAppIsFilter(before, after, done, appID, e, a, o);
    }
  }

  /** The four steps on the store, in their order, erase the app exactly. */
  lemma StepsErase(d0: KVData, d1: KVData, d2: KVData, d3: KVData, appID: AppID, missed: set<string>, h: string)
    requires TokensCleared(d0, d1, appID, missed) && DataCleared(d1, d2, appID) && AppUnsubscribed(d2, d3, appID)
    ensures Erased(d0, d3 - {APP_PREFIX + h}, appID, missed, APP_PREFIX + h)
  {
    var after := d3 - {APP_PREFIX + h};
    ClearingKeepsSubs(d0, d1, d2, appID);
    UnsubscribedLookups(d2, d3, appID);
    FewerKeys(d0, d1);
    assert SameSubs(d3, after) by {
      forall k | IsSubsKey(k) ensures SameAt(d3, after, k) {
        SubsKeysApart(k, appID, h);
      }
    }
    forall e, a, o ensures Lookup(after, e, a, o) == if a == appID then None else Lookup(d0, e, a, o) {
      SameSubsSameLookup(d3, after, e, a, o);
      SameSubsSameLookup(d0, d2, e, a, o);
    }
    forall k | k in after
      ensures TokenOf(k, appID) ==> k in missed
      ensures |d0| <= 1_000 ==> !DataOf(k, appID)
    {
      if IsSubsKey(k) {
        SubsKeysApart(k, appID, h);
      } else {
        assert SameAt(d2, d3, k);
      }
    }
    forall k | Foreign(k, appID, APP_PREFIX + h)
      ensures SameAt(d0, after, k)
    {
      assert SameAt(d2, d3, k);
    }
  }

  /**
    What erasing app a means for another app b: its data stay, and every record but a's; the session of
    its user stays exactly when a is not a prefix of "<b>_<user>", and is otherwise gone unless its
    deletion failed.
   */
  lemma OtherAppsUntouched(
      before: KVData, after: KVData, a: AppID, missed: set<string>, h: string,
      idhash: string -> string, gns: string, b: AppID, userID: UserID, ns: string, key: string)
    requires Erased(before, after, a, missed, APP_PREFIX + h) && a != "" && a != b && Trimmed(b)
    requires FixedWidth(idhash) && HashkeyOf(idhash, gns, b, userID, ns, key).Ok?
    requires gns in {KV_APP_PREFIX, KV_USER_PREFIX}
    ensures SameAt(before, after, HashkeyOf(idhash, gns, b, userID, ns, key).value)
    ensures !(a <= b + "_" + userID) ==> SameAt(before, after, SessionKey(b, userID))
    ensures a <= b + "_" + userID && SessionKey(b, userID) in after ==> SessionKey(b, userID) in missed
    ensures forall h': string :: h' != h ==> SameAt(before, after, APP_PREFIX + h')
  {
    forall h': string | h' != h ensures SameAt(before, after, APP_PREFIX + h') {
      RecordKeysApart(h', a);
      ContentStore.PrefixCancels(APP_PREFIX, h', h);
      assert Foreign(APP_PREFIX + h', a, APP_PREFIX + h);
    }
    var k, t := HashkeyOf(idhash, gns, b, userID, ns, key).value, SessionKey(b, userID);
    DataBelongsToItsApp(idhash, gns, b, userID, ns, key, a);
    TokenBelongsTo(b, userID, a);
    TokenBelongsTo(b, userID, b);
    HashkeyParts(idhash, gns, b, userID, ns, key);
    ParseUndoesHashkey(idhash, gns, b, userID, ns, key);
    assert DataOf(k, "") && TokenOf(t, b);
    TokensAreNotData(k, a, "");
    TokensAreNotData(t, b, a);
    assert k[0..2][0] == '.' && t[0] == '.' && (APP_PREFIX + h)[0] == 'a';
    NotSubsKey(k);
    NotSubsKey(t);
    assert Foreign(k, a, APP_PREFIX + h);
    assert !(a <= b + "_" + userID) ==> Foreign(t, a, APP_PREFIX + h);
  }

  lemma NotSubsKey(k: string)
    requires k != "" && k[0] == '.'
    ensures !IsSubsKey(k)
  {
    assert KV_SUB_PREFIX[0] == 's';
  }

  /** Nothing but keys of records has changed. */
  ghost predicate OnlyRecords(before: KVData, after: KVData) {
    forall k :: !IsAppRecordKey(k) ==> SameAt(before, after, k)
  }

  lemma RecordKey(h: string)
    ensures IsAppRecordKey(APP_PREFIX + h)
  {
    assert (APP_PREFIX + h)[..|APP_PREFIX|] == APP_PREFIX;
  }

  lemma RecordsAreNotSubs(before: KVData, after: KVData)
    requires OnlyRecords(before, after)
    ensures SameSubs(before, after)
  {
    forall k | IsSubsKey(k)
      ensures SameAt(before, after, k)
    {
      assert k[0] == KV_SUB_PREFIX[0] && KV_INSTALLED_APP_PREFIX[0] == 'a';
    }
  }

  lemma RecordsKeepSubs(before: KVData, after: KVData)
    requires OnlyRecords(before, after) && SubsInv(before)
    ensures SubsInv(after)
  {
    RecordsAreNotSubs(before, after);
    SameSubsSameInv(before, after);
  }

  /** Removing a record changes only keys of records. */
  lemma DeletionTouches(st: State<App>, appID: AppID, script: Script)
    ensures OnlyRecords(st.data, Deletion(APP_PREFIX, st, appID, script).st.data)
  {
    RecordKey(Listed(st.mem, appID));
  }

  /** Saving a record changes only keys of records, and the cache only at its own ID. */
  lemma PutTouches(codec: Codec<App>, st: State<App>, app: App, script: Script)
    requires AppCodec(codec)
    ensures var run := Put(codec, APP_PREFIX, true, st, app, script);
            && OnlyRecords(st.data, run.st.data)
            && (run.ok ==> run.st.cache == st.cache[app.appID := app])
            && (run.st.cache == st.cache || run.st.cache == st.cache[app.appID := app])
  {
    RecordKey(HashOf(codec, app));
    RecordKey(Listed(st.mem, app.appID));
  }

  lemma TokensAreNotRecords(before: KVData, after: KVData, appID: AppID)
    requires OnlyRecords(before, after)
    ensures forall k :: TokenOf(k, appID) ==> SameAt(before, after, k)
  {
    forall k | TokenOf(k, appID)
      ensures SameAt(before, after, k)
    {
      assert k[0] == AppKey(appID)[0] == '.' && KV_INSTALLED_APP_PREFIX[0] == 'a';
    }
  }

  /** Whatever is done to an app, the data and subscriptions of all others are the same. */
  ghost predicate Spares(before: KVData, after: KVData, appID: AppID) {
    && (forall k :: !TokenOf(k, appID) && !DataOf(k, appID) && !IsSubsKey(k) && !IsAppRecordKey(k) ==>
          SameAt(before, after, k))
    && (forall e, a, o :: a != appID ==> Lookup(after, e, a, o) == Lookup(before, e, a, o))
  }

  lemma GoneSameRecords(before: KVData, after: KVData, appID: AppID, doomed: string -> bool)
    requires OnlyDoomedGone(before, after, doomed)
    requires forall k :: doomed(k) ==> TokenOf(k, appID) || DataOf(k, appID)
    ensures SameRecords(before, after)
  {
    forall h: string ensures SameAt(before, after, APP_PREFIX + h) {
      RecordKeysApart(h, appID);
    }
  }

  lemma AppGoneSameRecords(before: KVData, after: KVData, done: set<string>, appID: AppID)
    requires AppGoneFrom(before, after, done, appID)
    requires forall k :: k in done ==> k in before && IsSubsKey(k)
    ensures SameRecords(before, after)
  {
    forall h: string ensures SameAt(before, after, APP_PREFIX + h) {
      RecordKeysApart(h, appID);
    }
  }

  lemma SameRecordsTwice(before: KVData, between: KVData, after: KVData)
    requires SameRecords(before, between) && SameRecords(between, after)
    ensures SameRecords(before, after)
  {
    forall h: string ensures SameAt(before, after, APP_PREFIX + h) {
      assert SameAt(before, between, APP_PREFIX + h) && SameAt(between, after, APP_PREFIX + h);
    }
  }

  lemma SparesTwice(before: KVData, between: KVData, after: KVData, appID: AppID)
    requires Spares(before, between, appID) && Spares(between, after, appID)
    ensures Spares(before, after, appID)
  {
    forall k | !TokenOf(k, appID) && !DataOf(k, appID) && !IsSubsKey(k) && !IsAppRecordKey(k)
      ensures SameAt(before, after, k)
    {
      assert SameAt(before, between, k) && SameAt(between, after, k);
    }
  }

  lemma GoneSpares(before: KVData, after: KVData, appID: AppID, doomed: string -> bool)
    requires OnlyDoomedGone(before, after, doomed) && SameSubs(before, after)
    requires forall k :: doomed(k) ==> TokenOf(k, appID) || DataOf(k, appID)
    ensures Spares(before, after, appID)
  {
    forall e, a, o ensures Lookup(after, e, a, o) == Lookup(before, e, a, o) {
      SameSubsSameLookup(before, after, e, a, o);
    }
  }

  lemma RecordsSpare(before: KVData, after: KVData, appID: AppID)
    requires OnlyRecords(before, after)
    ensures Spares(before, after, appID) && SameSubs(before, after)
  {
    RecordsAreNotSubs(before, after);
    forall e, a, o ensures Lookup(after, e, a, o) == Lookup(before, e, a, o) {
      SameSubsSameLookup(before, after, e, a, o);
    }
  }

  lemma AppGoneSpares(before: KVData, after: KVData, done: set<string>, appID: AppID)
    requires AppGoneFrom(before, after, done, appID)
    requires forall k :: k in done ==> k in before && IsSubsKey(k)
    ensures Spares(before, after, appID)
  {
    forall e, a, o | a != appID
      ensures Lookup(after, e, a, o) == Lookup(before, e, a, o)
    {
      if SubsKey(e).Some? {
        FindInNotOf(Stored(before, SubsKey(e).value), appID, a, o);
      }
    }
  }

  // ---------------------------------------------------------------- the operations

  /** How the app answered its OnUninstall call, if it has one. */
  datatype Callback = NoCallback | Answered | Refuses

  datatype UninstallResult = Uninstalled | NotPermitted | NotFound | Canceled | CleanupFailed

  /** How far a failed uninstall got: into the clean-up, or to App.Delete, with the fates of its calls. */
  datatype Progress = AtCleanup | AtDelete(script: Script)

  /** App.Delete was reached, found the record, and could remove its blob. */
  predicate Gone(p: Progress, st: State<App>, appID: AppID) {
    p.AtDelete? && p.script.kv.Fine? && appID in st.cache && appID in st.mem
  }

  /** Where the steps themselves, before DisableApp, have left lists and cache. */
  ghost predicate StoppedAt(p: Progress, st: State<App>, st': State<App>, appID: AppID) {
    if Gone(p, st, appID)
    then RecordGone(st, st', appID, p.script) && !(p.script.reconfigure && p.script.save.Fine?)
    else ListsSame(st, st')
  }

  /**
    What a failed uninstall leaves of an app that is not builtin: nothing but entries in the lists, if its
    record is gone; otherwise, if no call of DisableApp has failed, a disabled record, persisted unless
    the app was disabled before.
   */
  ghost predicate LeftBehind(c: Codec<App>, st: State<App>, st': State<App>, appID: AppID, p: Progress, quiet: bool) {
    && (appID !in st'.cache <==> appID !in st.cache || Gone(p, st, appID))
    && (Gone(p, st, appID) ==>
          RecordGone(st, st', appID, p.script) && !(p.script.reconfigure && p.script.save.Fine?))
    && (!Gone(p, st, appID) && quiet && appID in st.cache ==>
          && st'.cache[appID].disabled
          && (st.cache[appID].disabled || Persisted(c, st', st'.cache[appID])))
  }

  /**
    What a failed uninstall leaves of a builtin app, which Get goes on returning: the cache without the
    installed copy that it may have had, if that is gone, and with a disabled copy once Save has come
    that far; if no call of DisableApp has failed, the copy is there and persisted, unless the builtin app
    is marked as disabled.
   */
  ghost predicate BuiltinLeft(
      c: Codec<App>, st: State<App>, st': State<App>, app: App, copy: App, p: Progress, quiet: bool)
  {
    var rest := if Gone(p, st, app.appID) then st.cache - {app.appID} else st.cache;
    && (st'.cache == rest || st'.cache == rest[app.appID := copy])
    && (quiet && app.disabled ==> st'.cache == rest)
    && (quiet && !app.disabled ==> st'.cache == rest[app.appID := copy] && Persisted(c, st', copy))
  }

  function OAuthOf(app: App): set<string> {
    if app.oauth2ID.Some? then {app.oauth2ID.value} else {}
  }

  /** What ensureEnabled makes of an app; `listed` if it has a manifest. */
  datatype Access = Allowed | Disabled | Unlisted

  function EnsureEnabled(app: App, listed: bool): Access {
    if app.builtin then Allowed else if app.disabled then Disabled else if !listed then Unlisted else Allowed
  }

  /** Records are filed under their own ID. */
  predicate Filed(installed: map<AppID, App>) {
    forall id :: id in installed ==> installed[id].appID == id
  }

  class Proxy {
    const store: AppStore
    const accounts: Accounts

    constructor (store: AppStore, accounts: Accounts)
      ensures this.store == store && this.accounts == accounts
    {
      this.store, this.accounts := store, accounts;
    }

    ghost predicate Valid()
      reads store`installed, store`builtin, store.server`data, store.server`keys, store.server`saved, store.config
    {
      && store.Valid() && AppCodec(store.codec) && Filed(store.installed) && store.BuiltinsMarked()
      && SubsInv(store.server.data)
      && Lawful(store.codec) && ContentStore.Inv(store.codec, APP_PREFIX, store.St())
    }

    /** The clearing steps leave the records alone, and with them the content-addressed store. */
    lemma RecordsLeftAlone(st: State<App>, appID: AppID)
      requires Lawful(store.codec) && ContentStore.Inv(store.codec, APP_PREFIX, st)
      requires SameRecords(st.data, store.server.data) && store.St() == st.(data := store.server.data)
      ensures ContentStore.Inv(store.codec, APP_PREFIX, store.St())
      ensures OthersKept(store.codec, st, store.St(), appID)
    {
      SameRecordsKept(store.codec, st, store.server.data, appID);
    }

    /** How many calls to the Mattermost server have failed. */
    ghost function Errors(): nat
      reads store.server`errors, accounts`errors
    {
      store.server.errors + accounts.errors
    }

    /** The session step of UninstallApp and DisableApp. */
    method ClearSessions(appID: AppID) returns (ok: bool, ghost missed: set<string>)
      requires Valid()
      modifies store.server
      ensures Valid() && store.server.saved == old(store.server.saved)
      ensures if ok then |missed| <= Errors() - old(Errors()) else Errors() > old(Errors())
      ensures ok ==> TokensCleared(old(store.server.data), store.server.data, appID, missed)
      ensures Spares(old(store.server.data), store.server.data, appID)
      ensures SameRecords(old(store.server.data), store.server.data)
    {
      ghost var before, st := store.server.data, store.St();
      ok, missed := DeleteAllForApp(store.server, appID);
      assert OnlyDoomedGone(store.server.data, store.server.data, k => DataOf(k, appID));
      ClearingKeepsSubs(before, store.server.data, store.server.data, appID);
      SameSubsSameInv(before, store.server.data);
      GoneSpares(before, store.server.data, appID, k => TokenOf(k, appID));
      GoneSameRecords(before, store.server.data, appID, k => TokenOf(k, appID));
      RecordsLeftAlone(st, appID);
    }

    method ClearData(appID: AppID) returns (ok: bool)
      requires Valid()
      modifies store.server
      ensures Valid() && store.server.saved == old(store.server.saved)
      ensures Errors() == old(Errors()) + Failure(ok)
      ensures ok ==> DataCleared(old(store.server.data), store.server.data, appID)
      ensures Spares(old(store.server.data), store.server.data, appID)
      ensures SameRecords(old(store.server.data), store.server.data)
    {
      ghost var before, keys, st := store.server.data, store.server.keys, store.St();
      ListedOnce(keys, before);
      ok := RemoveAllKVAndUserDataForApp(store.server, appID);
      assert OnlyDoomedGone(before, before, k => TokenOf(k, appID));
      ClearingKeepsSubs(before, before, store.server.data, appID);
      SameSubsSameInv(before, store.server.data);
      GoneSpares(before, store.server.data, appID, k => DataOf(k, appID));
      GoneSameRecords(before, store.server.data, appID, k => DataOf(k, appID));
      RecordsLeftAlone(st, appID);
      if ok && |before| <= 1_000 {
        OnePageLeavesNoData(keys, appID);
      }
    }

    method ClearSubscriptions(permitted: bool, appID: AppID) returns (ok: bool)
      requires Valid()
      modifies store.server
      ensures Valid() && store.server.saved == old(store.server.saved)
      ensures Errors() == old(Errors()) + Failure(ok || !permitted)
      ensures ok ==> AppUnsubscribed(old(store.server.data), store.server.data, appID)
      ensures Spares(old(store.server.data), store.server.data, appID)
      ensures SameRecords(old(store.server.data), store.server.data)
    {
      ghost var before, done, st := store.server.data, {}, store.St();
      ok, done := AppServices.UnsubscribeApp(store.server, permitted, appID);
      AppGoneSpares(before, store.server.data, done, appID);
      AppGoneSameRecords(before, store.server.data, done, appID);
      RecordsLeftAlone(st, appID);
    }

    /** The steps of UninstallApp before the record itself, with the store after the first and the second clearing. */
    method Cleanup(permitted: bool, app: App)
      returns (ok: bool, ghost d1: KVData, ghost d2: KVData, ghost missed: set<string>)
      requires Valid()
      modifies store.server, accounts
      ensures Valid() && store.server.saved == old(store.server.saved)
      ensures if ok then |missed| <= Errors() - old(Errors()) else Errors() >= old(Errors()) + Failure(!permitted)
      ensures ok ==> TokensCleared(old(store.server.data), d1, app.appID, missed)
      ensures ok ==> DataCleared(d1, d2, app.appID) && AppUnsubscribed(d2, store.server.data, app.appID)
      ensures ok ==> accounts.active == old(accounts.active) - {app.botUserID}
      ensures ok ==> accounts.oauthApps == old(accounts.oauthApps) - OAuthOf(app)
      ensures Spares(old(store.server.data), store.server.data, app.appID)
      ensures SameRecords(old(store.server.data), store.server.data)
    {
      ghost var d0 := store.server.data;
      d2 := d0;
      ok, missed := ClearSessions(app.appID);
      d1 := store.server.data;
      if !ok {
        return;
      }
      if app.oauth2ID.Some? {
        ok := accounts.DeleteOAuth(app.oauth2ID.value);
        if !ok {
          return;
        }
      }
      ok := accounts.UpdateActive(app.botUserID, false);
      if !ok {
        return;
      }
      ok := ClearData(app.appID);
      d2 := store.server.data;
      SparesTwice(d0, d1, d2, app.appID);
      SameRecordsTwice(d0, d1, d2);
      if !ok {
        return;
      }
      ok := ClearSubscriptions(permitted, app.appID);
      SparesTwice(d0, d2, store.server.data, app.appID);
      SameRecordsTwice(d0, d2, store.server.data);
    }

    /** App.Delete, the last step. */
    method DeleteRecord(appID: AppID) returns (ok: bool, ghost script: Script)
      requires Valid()
      modifies store`installed, store.server, store.config`conf
      ensures Valid()
      ensures var run := Deletion(APP_PREFIX, old(store.St()), appID, script); store.St() == run.st && ok == run.ok
      ensures Errors() == old(Errors()) + Mishaps(script)
      ensures OnlyRecords(old(store.server.data), store.server.data)
      ensures OthersKept(store.codec, old(store.St()), store.St(), appID)
    {
      ghost var st := store.St();
      var r;
      r, script := store.Delete(appID);
      ok := r == Deleted;
      DeletionTouches(st, appID, script);
      RecordsKeepSubs(st.data, store.server.data);
      DeletionOutcome(store.codec, st, appID, script);
    }

    /** Save stamps every record with the schema version. */
    ghost function Stamped(app: App): App {
      app.(schemaVersion := store.schemaVersion)
    }

    /** What store.App.Get returns. */
    ghost function AppFor(appID: AppID): Option<App>
      reads store`installed, store`builtin
    {
      Visible(store.installed, store.builtin, appID)
    }

    lemma NothingHappens(st: State<App>, appID: AppID)
      requires Lawful(store.codec) && ContentStore.Inv(store.codec, APP_PREFIX, st)
      ensures OthersKept(store.codec, st, st, appID)
    {
      SameRecordsKept(store.codec, st, st.data, appID);
    }

    /**
      UpdateActive, sessions, then the record with its disabled flag set. Disabling a builtin app
      succeeds without effect on what Get returns.
     */
    method DisableApp(permitted: bool, appID: AppID) returns (ok: bool, ghost missed: set<string>)
      requires Valid()
      modifies store`installed, store.server, store.config`conf, accounts
      ensures Valid() && Errors() >= old(Errors())
      ensures !ok && Errors() == old(Errors()) ==> !permitted || old(AppFor(appID)).None?
      ensures !permitted || old(AppFor(appID)).None? ==>
        && !ok && unchanged(store`installed) && unchanged(store.server) && unchanged(store.config`conf)
        && unchanged(accounts)
      ensures ok ==> old(AppFor(appID)).Some?
      ensures old(AppFor(appID)).Some? ==> var app := old(AppFor(appID)).value;
        && (ok && app.disabled ==> store.St() == old(store.St()))
        && (ok && !app.disabled ==> Persisted(store.codec, store.St(), Stamped(app.(disabled := true))))
        && (ok && !app.disabled ==> store.installed == old(store.installed)[appID := Stamped(app.(disabled := true))])
        && (store.installed == old(store.installed) ||
            store.installed == old(store.installed)[appID := Stamped(app.(disabled := true))])
      ensures ok && !old(AppFor(appID)).value.disabled ==>
        && accounts.active == old(accounts.active) - {old(AppFor(appID)).value.botUserID}
        && (forall k :: k in store.server.data && TokenOf(k, appID) ==> k in missed)
        && |missed| <= Errors() - old(Errors())
      ensures ok ==> (AppFor(appID).value.disabled <==> appID !in store.builtin || store.builtin[appID].disabled)
      ensures ok ==> forall listed ::
        EnsureEnabled(AppFor(appID).value, listed) == Allowed <==> AppFor(appID).value.builtin
      ensures ok && appID !in store.builtin && !AppFor(appID).value.builtin ==> forall listed ::
        EnsureEnabled(AppFor(appID).value, listed) == Disabled
      ensures accounts.oauthApps == old(accounts.oauthApps)
      ensures Spares(old(store.server.data), store.server.data, appID)
      ensures OthersKept(store.codec, old(store.St()), store.St(), appID)
    {
      missed := {};
      ghost var st := store.St();
      NothingHappens(st, appID);
      if !permitted {
        return false, missed;
      }
      var found := store.Get(appID);
      if found.None? {
        return false, missed;
      }
      var app := found.value;
      if app.disabled {
        return true, missed;
      }
      ok := accounts.UpdateActive(app.botUserID, false);
      if !ok {
        return;
      }
      ok, missed := ClearSessions(app.appID);
      RecordsLeftAlone(st, appID);
      if !ok {
        return;
      }
      ghost var between := store.St();
      app := app.(disabled := true);
      ok := SaveRecord(app);
      RecordsSpare(between.data, store.server.data, appID);
      SparesTwice(st.data, between.data, store.server.data, appID);
      OthersKeptTwice(store.codec, st, between, store.St(), appID);
      TokensAreNotRecords(between.data, store.server.data, appID);
    }

    method EnableApp(permitted: bool, appID: AppID) returns (ok: bool)
      requires Valid()
      modifies store`installed, store.server, store.config`conf, accounts
      ensures Valid()
      ensures Errors() >= old(Errors())
      ensures !ok ==> !permitted || old(AppFor(appID)).None? || Errors() > old(Errors())
      ensures ok ==> permitted && old(AppFor(appID)).Some?
      ensures ok ==> var app := old(AppFor(appID)).value;
        store.installed == if !app.disabled then old(store.installed)
                           else old(store.installed)[appID := Stamped(app.(disabled := false))]
      ensures ok ==> var app := old(AppFor(appID)).value;
        accounts.active == if app.disabled then old(accounts.active) + {app.botUserID} else old(accounts.active)
      ensures accounts.oauthApps == old(accounts.oauthApps)
      ensures ok && appID !in store.builtin && !AppFor(appID).value.builtin ==>
        && EnsureEnabled(AppFor(appID).value, true) == Allowed
        && EnsureEnabled(AppFor(appID).value, false) == Unlisted
      ensures ok && AppFor(appID).value.builtin ==> forall listed ::
        EnsureEnabled(AppFor(appID).value, listed) == Allowed
      ensures ok && old(AppFor(appID)).value.disabled ==>
        Persisted(store.codec, store.St(), Stamped(old(AppFor(appID)).value.(disabled := false)))
      ensures OnlyRecords(old(store.server.data), store.server.data)
      ensures OthersKept(store.codec, old(store.St()), store.St(), appID)
    {
      NothingHappens(store.St(), appID);
      if !permitted {
        return false;
      }
      var found := store.Get(appID);
      if found.None? {
        return false;
      }
      var app := found.value;
      if !app.disabled {
        return true;
      }
      ok := accounts.UpdateActive(app.botUserID, true);
      if !ok {
        return;
      }
      app := app.(disabled := false);
      ok := SaveRecord(app);
    }

    /** All steps of UninstallApp after the callback. */
    method Erase(permitted: bool, app: App) returns (ok: bool, ghost missed: set<string>, ghost p: Progress)
      requires Valid()
      modifies store`installed, store.server, store.config`conf, accounts
      ensures Valid()
      ensures if ok then |missed| <= Errors() - old(Errors()) else Errors() >= old(Errors())
      ensures !ok && permitted && Errors() == old(Errors()) ==>
        app.appID !in old(store.installed) || app.appID !in old(store.config.conf.installedApps)
      ensures ok ==> app.appID in old(store.installed) && store.installed == old(store.installed) - {app.appID}
      ensures ok ==> store.config.conf.installedApps == old(store.config.conf.installedApps) - {app.appID}
      ensures ok ==> store.server.saved.installedApps == store.config.conf.installedApps
      ensures var blob := APP_PREFIX + Listed(old(store.config.conf.installedApps), app.appID);
              ok ==> Erased(old(store.server.data), store.server.data, app.appID, missed, blob)
      ensures ok ==> accounts.active == old(accounts.active) - {app.botUserID}
      ensures ok ==> accounts.oauthApps == old(accounts.oauthApps) - OAuthOf(app)
      ensures !ok ==> StoppedAt(p, old(store.St()), store.St(), app.appID)
      ensures Spares(old(store.server.data), store.server.data, app.appID)
      ensures OthersKept(store.codec, old(store.St()), store.St(), app.appID)
    {
      ghost var st, d1, d2 := store.St(), store.server.data, store.server.data;
      p := AtCleanup;
      ok, d1, d2, missed := Cleanup(permitted, app);
      RecordsLeftAlone(st, app.appID);
      if !ok {
        return;
      }
      ghost var cleaned, script := store.St(), FLAWLESS;
      ok, script := DeleteRecord(app.appID);
      p := AtDelete(script);
      RecordsSpare(cleaned.data, store.server.data, app.appID);
      SparesTwice(st.data, cleaned.data, store.server.data, app.appID);
      OthersKeptTwice(store.codec, st, cleaned, store.St(), app.appID);
      DeletionOutcome(store.codec, cleaned, app.appID, script);
      if ok {
        StepsErase(st.data, d1, d2, cleaned.data, app.appID, missed, Listed(st.mem, app.appID));
      }
    }

    /** The deferred function: a failure is followed by DisableApp, which starts with `failures` failed calls. */
    method EraseOrDisable(app: App)
      returns (ok: bool, ghost missed: set<string>, ghost failures: nat, ghost p: Progress)
      requires Valid() && AppFor(app.appID) == Some(app)
      modifies store`installed, store.server, store.config`conf, accounts
      ensures Valid()
      ensures old(Errors()) <= failures <= Errors() && (ok ==> |missed| <= Errors() - old(Errors()))
      ensures !ok && failures == old(Errors()) ==>
        app.appID !in old(store.installed) || app.appID !in old(store.config.conf.installedApps)
      ensures ok ==> app.appID in old(store.installed) && store.installed == old(store.installed) - {app.appID}
      ensures ok ==> store.config.conf.installedApps == old(store.config.conf.installedApps) - {app.appID}
      ensures ok ==> store.server.saved.installedApps == store.config.conf.installedApps
      ensures var blob := APP_PREFIX + Listed(old(store.config.conf.installedApps), app.appID);
              ok ==> Erased(old(store.server.data), store.server.data, app.appID, missed, blob)
      ensures ok ==> accounts.active == old(accounts.active) - {app.botUserID}
      ensures ok ==> accounts.oauthApps == old(accounts.oauthApps) - OAuthOf(app)
      ensures !ok && app.appID !in store.builtin ==>
        LeftBehind(store.codec, old(store.St()), store.St(), app.appID, p, failures == Errors())
      ensures !ok && app.appID in store.builtin ==>
        BuiltinLeft(store.codec, old(store.St()), store.St(), app, Stamped(app.(disabled := true)), p,
          failures == Errors())
      ensures Spares(old(store.server.data), store.server.data, app.appID)
      ensures OthersKept(store.codec, old(store.St()), store.St(), app.appID)
    {
      ghost var st := store.St();
      ok, missed, p := Erase(true, app);
      failures := Errors();
      if ok {
        return;
      }
      ghost var stopped, missedToo := store.St(), {};
      var disabled;
      disabled, missedToo := DisableApp(true, app.appID);
      SparesTwice(st.data, stopped.data, store.server.data, app.appID);
      OthersKeptTwice(store.codec, st, stopped, store.St(), app.appID);
    }

    /**
      UninstallApp (uninstall.go:17-85): on success the app is erased and nothing else is touched. What
      a failure after the callback leaves depends on how far it got.
     */
    method UninstallApp(permitted: bool, appID: AppID, callback: Callback, force: bool)
      returns (r: UninstallResult, ghost missed: set<string>, ghost failures: nat, ghost p: Progress)
      requires Valid()
      modifies store`installed, store.server, store.config`conf, accounts
      ensures Valid()
      ensures r == Uninstalled ==> |missed| <= Errors() - old(Errors())
      ensures old(Errors()) <= failures <= Errors()
      ensures r == CleanupFailed && failures == old(Errors()) ==>
        appID !in old(store.installed) || appID !in old(store.config.conf.installedApps)
      ensures r == Uninstalled ==> appID in old(store.installed) && store.installed == old(store.installed) - {appID}
      ensures r == Uninstalled ==> store.config.conf.installedApps == old(store.config.conf.installedApps) - {appID}
      ensures r == Uninstalled ==> store.server.saved.installedApps == store.config.conf.installedApps
      ensures var blob := APP_PREFIX + Listed(old(store.config.conf.installedApps), appID);
              r == Uninstalled ==> Erased(old(store.server.data), store.server.data, appID, missed, blob)
      ensures r == Uninstalled ==> accounts.active == old(accounts.active) - {old(AppFor(appID)).value.botUserID}
      ensures r == Uninstalled ==> accounts.oauthApps == old(accounts.oauthApps) - OAuthOf(old(AppFor(appID)).value)
      ensures r in {NotPermitted, NotFound, Canceled} ==>
        unchanged(store`installed) && unchanged(store.server) && unchanged(store.config`conf) && unchanged(accounts)
      ensures r == NotPermitted <==> !permitted
      ensures r == NotFound <==> permitted && old(AppFor(appID)).None?
      ensures r == Canceled <==> permitted && old(AppFor(appID)).Some? && callback.Refuses? && !force
      ensures r == CleanupFailed && appID !in store.builtin ==>
        LeftBehind(store.codec, old(store.St()), store.St(), appID, p, failures == Errors())
      ensures r == CleanupFailed && appID in store.builtin ==>
        && AppFor(appID) == old(AppFor(appID)) == Some(store.builtin[appID])
        && BuiltinLeft(store.codec, old(store.St()), store.St(), store.builtin[appID],
          Stamped(store.builtin[appID].(disabled := true)), p, failures == Errors())
      ensures Spares(old(store.server.data), store.server.data, appID)
      ensures OthersKept(store.codec, old(store.St()), store.St(), appID)
    {
      missed, failures, p := {}, Errors(), AtCleanup;
      ghost var st := store.St();
      NothingHappens(st, appID);
      if !permitted {
        return NotPermitted, {}, Errors(), p;
      }
      var found := store.Get(appID);
      if found.None? {
        return NotFound, {}, Errors(), p;
      }
      if callback.Refuses? && !force {
        return Canceled, {}, Errors(), p;
      }
      var ok;
      ok, missed, failures, p := EraseOrDisable(found.value);
      r := if ok then Uninstalled else CleanupFailed;
    }

    method SaveRecord(app: App) returns (ok: bool)
      requires Valid()
      modifies store`installed, store.server, store.config`conf
      ensures Valid()
      ensures Errors() >= old(Errors()) + Failure(ok)
      ensures store.installed == old(store.installed)[app.appID := Stamped(app)] ||
              (!ok && store.installed == old(store.installed))
      ensures ok ==> Persisted(store.codec, store.St(), Stamped(app))
      ensures OnlyRecords(old(store.server.data), store.server.data)
      ensures OthersKept(store.codec, old(store.St()), store.St(), app.appID)
    {
      ghost var st := store.St();
      ghost var script;
      ok, script := store.Save(app);
      PutTouches(store.codec, st, Stamped(app), script);
      RecordsKeepSubs(st.data, store.server.data);
      SaveIsSound(store.codec, st, Stamped(app), script);
    }
  }
}

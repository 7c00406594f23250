/**
  SynchronizeInstalledApps (server/proxy/synchronize.go:21-70): at startup, installed apps take over
  the manifests that are listed for them. The call that tells an app about it is CallOnce's.
 */
module Synchronize {
  import opened Bindings
  import opened Records
  import opened ContentStore
  import opened Mattermost
  import opened AppStores
  import opened AppRecords
  import Lifecycle

  /** The app has a listed manifest of another version. */
  predicate IsOutdated(all: map<AppID, App>, listed: map<AppID, Manifest>, id: AppID) {
    id in all && id in listed && all[id].version != listed[id].version
  }

  /** What the app is saved as. */
  function Renewed(app: App, m: Manifest, schemaVersion: string): App {
    app.WithManifest(m).(schemaVersion := schemaVersion)
  }

  /** Of the apps in `all`, exactly those in `done` have been renewed; the cache differs in nothing else. */
  ghost predicate SyncedTo(
      before: map<AppID, App>, after: map<AppID, App>, all: map<AppID, App>, listed: map<AppID, Manifest>,
      schemaVersion: string, done: set<AppID>)
  {
    && (forall id :: id in done ==> IsOutdated(all, listed, id))
    && (forall id :: id in after <==> id in before || id in done)
    && (forall id :: id in done && id in after ==> after[id] == Renewed(all[id], listed[id], schemaVersion))
    && (forall id :: id in before && id !in done && id in after ==> after[id] == before[id])
  }

  /** Field by field: the manifest's fields are the listed one's, those of the installation stay. */
  predicate TookOver(before: App, after: App, m: Manifest, schemaVersion: string) {
    && after.appID == m.appID && after.version == m.version && after.manifestRest == m.rest
    && after.schemaVersion == schemaVersion
    && after.builtin == before.builtin && after.disabled == before.disabled && after.botUserID == before.botUserID
    && after.oauth2ID == before.oauth2ID && after.rest == before.rest
  }

  /** What Get returned for an outdated app, the cache now holds with the listed manifest. */
  ghost predicate AllTookOver(
      before: map<AppID, App>, after: map<AppID, App>, builtin: map<AppID, App>, listed: map<AppID, Manifest>,
      schemaVersion: string)
  {
    forall id :: id in listed ==>
      match Visible(before, builtin, id)
      case Some(app) =>
        app.version != listed[id].version ==> id in after && TookOver(app, after[id], listed[id], schemaVersion)
      case None => true
  }

  lemma SyncedTookOver(
      before: map<AppID, App>, after: map<AppID, App>, builtin: map<AppID, App>, listed: map<AppID, Manifest>,
      schemaVersion: string, done: set<AppID>)
    requires SyncedTo(before, after, Listing(before, builtin, true), listed, schemaVersion, done)
    requires forall id :: IsOutdated(Listing(before, builtin, true), listed, id) ==> id in done
    ensures AllTookOver(before, after, builtin, listed, schemaVersion)
  {
    forall id | id in listed && Visible(before, builtin, id).Some?
      ensures var app := Visible(before, builtin, id).value;
        app.version != listed[id].version ==> id in after && TookOver(app, after[id], listed[id], schemaVersion)
    {
      ListingAt(before, builtin, id);
      assert IsOutdated(Listing(before, builtin, true), listed, id) ==> id in done;
    }
  }

  ghost predicate ManifestsFiled(listed: map<AppID, Manifest>) {
    forall id :: id in listed ==> listed[id].appID == id
  }

  /** Exactly the outdated apps. */
  ghost predicate IsDiff(diff: map<AppID, App>, all: map<AppID, App>, listed: map<AppID, Manifest>) {
    && (forall id :: id in diff <==> IsOutdated(all, listed, id))
    && (forall id :: id in diff ==> diff[id] == all[id])
  }

  /** The first loop. */
  method FindOutdated(all: map<AppID, App>, listed: map<AppID, Manifest>) returns (diff: map<AppID, App>)
    requires Lifecycle.Filed(all)
    ensures IsDiff(diff, all, listed)
  {
    diff := map[];
    var rest := all.Keys;
    while rest != {}
      invariant rest <= all.Keys
      invariant forall id :: id in diff <==> id !in rest && IsOutdated(all, listed, id)
      invariant forall id :: id in diff ==> diff[id] == all[id]
      decreases rest
    {
      var id :| id in rest;
      rest := rest - {id};
      var app := all[id];
      if app.appID in listed && app.version != listed[app.appID].version {
        diff := diff[app.appID := app];
      }
    }
  }

  /** SHA-1 and JSON behave, and the content-addressed store is as every run leaves it. */
  ghost predicate Sound(store: AppStore)
    reads store`installed, store.server`data, store.server`saved, store.config
  {
    Lawful(store.codec) && ContentStore.Inv(store.codec, APP_PREFIX, store.St())
  }

  /** The list in memory and the persisted one both lead to the record as it is read back. */
  predicate BothShow(c: Codec<App>, st: State<App>, app: App) {
    && View(c, APP_PREFIX, st.data, st.mem, app.appID) == ReadBack(c, app)
    && View(c, APP_PREFIX, st.data, st.saved, app.appID) == ReadBack(c, app)
  }

  /** Every renewed record is what a restart shows. */
  ghost predicate AllShown(
      c: Codec<App>, st: State<App>, all: map<AppID, App>, listed: map<AppID, Manifest>, schemaVersion: string,
      done: set<AppID>)
  {
    forall id :: id in done && id in all && id in listed ==>
      BothShow(c, st, Renewed(all[id], listed[id], schemaVersion))
  }

  /** Renewing another app leaves that so. */
  lemma ShownStep(
      c: Codec<App>, st: State<App>, st': State<App>, all: map<AppID, App>, listed: map<AppID, Manifest>,
      schemaVersion: string, done: set<AppID>, id: AppID)
    requires ContentStore.Inv(c, APP_PREFIX, st) && OthersKept(c, st, st', id) && ManifestsFiled(listed)
    requires AllShown(c, st, all, listed, schemaVersion, done) && id !in done && id in all && id in listed
    requires Persisted(c, st', Renewed(all[id], listed[id], schemaVersion))
    ensures AllShown(c, st', all, listed, schemaVersion, done + {id})
  {
    forall i | i in done + {id} && i in all && i in listed
      ensures BothShow(c, st', Renewed(all[i], listed[i], schemaVersion))
    {
      if i != id {
        assert BothShow(c, st, Renewed(all[i], listed[i], schemaVersion));
        OtherRecordStays(c, st, st', id, i);
      }
    }
  }

  /** One round of the second loop. */
  method Renew(store: AppStore, app: App, m: Manifest) returns (ok: bool, ghost saved: bool)
    requires store.Valid() && AppCodec(store.codec) && m.appID == app.appID
    modifies store`installed, store.server, store.config`conf
    ensures store.Valid() && (ok ==> saved) && store.server.errors >= old(store.server.errors) + Failure(ok)
    ensures store.installed ==
      (if saved then old(store.installed)[app.appID := Renewed(app, m, store.schemaVersion)] else old(store.installed))
    ensures old(Sound(store)) ==> Sound(store) && OthersKept(store.codec, old(store.St()), store.St(), app.appID)
    ensures old(Sound(store)) && ok ==> Persisted(store.codec, store.St(), Renewed(app, m, store.schemaVersion))
  {
    ghost var st, script := store.St(), FLAWLESS;
    ok, script := store.Save(app.WithManifest(m));
    if old(Sound(store)) {
      SaveIsSound(store.codec, st, Renewed(app, m, store.schemaVersion), script);
    }
    Lifecycle.PutTouches(store.codec, st, Renewed(app, m, store.schemaVersion), script);
    saved := ok || store.installed != old(store.installed);
  }

  lemma SyncedStep(
      before: map<AppID, App>, between: map<AppID, App>, all: map<AppID, App>, listed: map<AppID, Manifest>,
      schemaVersion: string, done: set<AppID>, id: AppID)
    requires SyncedTo(before, between, all, listed, schemaVersion, done) && IsOutdated(all, listed, id)
    ensures SyncedTo(before, between[id := Renewed(all[id], listed[id], schemaVersion)], all, listed, schemaVersion,
                     done + {id})
  {
  }

  lemma AllFiled(installed: map<AppID, App>, builtin: map<AppID, App>)
    requires Lifecycle.Filed(installed) && Lifecycle.Filed(builtin)
    ensures Lifecycle.Filed(Listing(installed, builtin, true))
  {
  }

  lemma NothingSynced(
      before: map<AppID, App>, all: map<AppID, App>, listed: map<AppID, Manifest>, schemaVersion: string)
    ensures SyncedTo(before, before, all, listed, schemaVersion, {})
  {
  }

  /** The second loop: the first failed Save ends it. */
  method RenewAll(store: AppStore, all: map<AppID, App>, diff: map<AppID, App>, listed: map<AppID, Manifest>)
    returns (ok: bool, ghost done: set<AppID>)
    requires store.Valid() && AppCodec(store.codec) && ManifestsFiled(listed)
    requires IsDiff(diff, all, listed) && Lifecycle.Filed(all)
    modifies store`installed, store.server, store.config`conf
    ensures store.Valid() && (ok ==> done == diff.Keys)
    ensures store.server.errors >= old(store.server.errors) + Failure(ok)
    ensures SyncedTo(old(store.installed), store.installed, all, listed, store.schemaVersion, done)
    ensures old(Sound(store)) ==> Sound(store)
    ensures old(Sound(store)) && ok ==>
      AllShown(store.codec, store.St(), all, listed, store.schemaVersion, done)
  {
    done := {};
    var rest := diff.Keys;
    NothingSynced(store.installed, all, listed, store.schemaVersion);
    while rest != {}
      invariant store.Valid() && rest <= diff.Keys && done == diff.Keys - rest
      invariant store.server.errors >= old(store.server.errors)
      invariant SyncedTo(old(store.installed), store.installed, all, listed, store.schemaVersion, done)
      invariant old(Sound(store)) ==>
        Sound(store) && AllShown(store.codec, store.St(), all, listed, store.schemaVersion, done)
      decreases rest
    {
      var id :| id in rest;
      rest := rest - {id};
      assert IsOutdated(all, listed, id) && diff[id] == all[id];
      assert all[id].appID == id && listed[id].appID == id;
      SyncedStep(old(store.installed), store.installed, all, listed, store.schemaVersion, done, id);
      ghost var saved, st := false, store.St();
      ok, saved := Renew(store, diff[id], listed[id]);
      if ok && old(Sound(store)) {
        ShownStep(store.codec, st, store.St(), all, listed, store.schemaVersion, done, id);
      }
      if saved {
        done := done + {id};
      }
      if !ok {
        return;
      }
    }
    ok := true;
  }

  /** On success exactly the outdated apps have been renewed, otherwise only some of them. */
  method SynchronizeInstalledApps(store: AppStore, listed: map<AppID, Manifest>)
    returns (ok: bool, ghost done: set<AppID>)
    requires store.Valid() && AppCodec(store.codec) && ManifestsFiled(listed)
    requires Lifecycle.Filed(store.installed) && Lifecycle.Filed(store.builtin)
    modifies store`installed, store.server, store.config`conf
    ensures store.Valid() && store.server.errors >= old(store.server.errors) + Failure(ok)
    ensures var all := Listing(old(store.installed), store.builtin, true);
            && SyncedTo(old(store.installed), store.installed, all, listed, store.schemaVersion, done)
            && (ok ==> forall id :: IsOutdated(all, listed, id) ==> id in done)
            && (ok && old(Sound(store)) ==> AllShown(store.codec, store.St(), all, listed, store.schemaVersion, done))
    ensures ok ==> AllTookOver(old(store.installed), store.installed, store.builtin, listed, store.schemaVersion)
    ensures old(Sound(store)) ==> Sound(store)
  {
    var all := store.AsMap(true);
    AllFiled(store.installed, store.builtin);
    var diff := FindOutdated(all, listed);
    ok, done := RenewAll(store, all, diff, listed);
    if ok {
      SyncedTookOver(old(store.installed), store.installed, store.builtin, listed, store.schemaVersion, done);
    }
  }

  /**
    After a successful synchronisation only builtin apps can still be outdated: they are saved among
    the installed ones at every start, where Get never sees them.
   */
  lemma OnlyBuiltinsStayOutdated(
      before: map<AppID, App>, after: map<AppID, App>, builtin: map<AppID, App>, listed: map<AppID, Manifest>,
      schemaVersion: string, done: set<AppID>, id: AppID)
    requires SyncedTo(before, after, Listing(before, builtin, true), listed, schemaVersion, done)
    requires forall i :: IsOutdated(Listing(before, builtin, true), listed, i) ==> i in done
    ensures IsOutdated(Listing(after, builtin, true), listed, id) <==> IsOutdated(builtin, listed, id)
    ensures id in builtin ==> Visible(after, builtin, id) == Visible(before, builtin, id)
    ensures id !in builtin && !IsOutdated(before, listed, id) ==>
      Visible(after, builtin, id) == Visible(before, builtin, id)
  {
    ListingAt(before, builtin, id);
    ListingAt(after, builtin, id);
    assert IsOutdated(Listing(before, builtin, true), listed, id) <==> id in done;
  }

  lemma ListingAt(installed: map<AppID, App>, builtin: map<AppID, App>, id: AppID)
    ensures var all := Listing(installed, builtin, true);
            && (id in all <==> id in installed || id in builtin)
            && (id in all ==> all[id] == if id in builtin then builtin[id] else installed[id])
  {
  }
}

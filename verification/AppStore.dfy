/**
  appStore (server/store/apps.go): installed apps in a content-addressed store, with builtin apps
  kept in memory beside them. Each method is tied to the state machine of ContentStore.
 */
module AppStores {
  import opened Wrappers
  import opened Bindings
  import opened Records
  import opened ContentStore
  import opened Mattermost
  import Keys

  const APP_PREFIX := Keys.KV_INSTALLED_APP_PREFIX

  /** A copy of a map without one key: the loops that rebuild s.installed and conf.InstalledApps. */
  method CopyExcept<V>(m: map<string, V>, key: string) returns (r: map<string, V>)
    ensures r == m - {key}
  {
    r := map[];
    var rest := m.Keys;
    while rest != {}
      invariant rest <= m.Keys
      invariant r == map k | k in m && k !in rest && k != key :: m[k]
      decreases rest
    {
      var k :| k in rest;
      rest := rest - {k};
      if k != key {
        r := r[k := m[k]];
      }
    }
  }

  /** The loop of Save that skips every entry with the previous hash. */
  method CopySkipping(m: Index, skipped: string) returns (r: Index)
    ensures r == map k | k in m && m[k] != skipped :: m[k]
  {
    r := map[];
    var rest := m.Keys;
    while rest != {}
      invariant rest <= m.Keys
      invariant r == map k | k in m && k !in rest && m[k] != skipped :: m[k]
      decreases rest
    {
      var k :| k in rest;
      rest := rest - {k};
      if m[k] != skipped {
        r := r[k := m[k]];
      }
    }
  }

  /** The loop of Configure. Reads may fail; a record that cannot be read or decoded is left out. */
  method ReadListed<R>(codec: Codec<R>, server: Server, prefix: string, index: Index) returns (found: map<string, R>)
    modifies server`errors
    ensures server.errors >= old(server.errors)
    ensures forall id :: id in found ==> View(codec, prefix, server.data, index, id) == Some(found[id])
    ensures server.errors == old(server.errors) ==> found == Recover(codec, prefix, server.data, index)
  {
    found := map[];
    var rest := index.Keys;
    while rest != {}
      invariant rest <= index.Keys
      invariant forall id :: id in found ==>
        id in index && id !in rest && View(codec, prefix, server.data, index, id) == Some(found[id])
      invariant server.errors >= old(server.errors)
      invariant server.errors == old(server.errors) ==> forall id :: id in index && id !in rest && id !in found ==>
        View(codec, prefix, server.data, index, id) == None
      decreases rest
    {
      var id :| id in rest;
      rest := rest - {id};
      var ok, v := server.KVGet(prefix + index[id]);
      if ok && v.Some? && v.value.Blob? && v.value.data != "" {
        var decoded := codec.decode(v.value.data);
        if decoded.Some? && codec.valid(decoded.value) {
          found := found[id := decoded.value];
        }
      }
    }
  }

  /** The list names a key under which there is text that decodes to this valid record. */
  ghost predicate Loadable<R>(c: Codec<R>, data: KVData, prefix: string, index: Index, id: string, r: R) {
    && id in index && prefix + index[id] in data && data[prefix + index[id]].Blob?
    && var text := data[prefix + index[id]].data; text != "" && c.decode(text) == Some(r) && c.valid(r)
  }

  lemma ShownIsLoadable<R(!new)>(c: Codec<R>, prefix: string, data: KVData, index: Index)
    ensures forall id, r :: View(c, prefix, data, index, id) == Some(r) <==> Loadable(c, data, prefix, index, id, r)
  {
  }

  /** One loop of AsMap: the wanted apps of `m` over those already in `base`. */
  method Overlay(base: map<AppID, App>, m: map<AppID, App>, allApps: bool) returns (out: map<AppID, App>)
    ensures out == base + map id | id in m && Wanted(m[id], allApps) :: m[id]
  {
    var wanted: map<AppID, App> := map[];
    var rest := m.Keys;
    while rest != {}
      invariant rest <= m.Keys
      invariant wanted == map id | id in m && id !in rest && Wanted(m[id], allApps) :: m[id]
      decreases rest
    {
      var id :| id in rest;
      rest := rest - {id};
      if allApps || !m[id].disabled {
        wanted := wanted[id := m[id]];
      }
    }
    out := base + wanted;
  }

  function LastWith(apps: seq<App>, id: AppID): Option<App> {
    if apps == [] then None
    else if apps[|apps| - 1].appID == id then Some(apps[|apps| - 1])
    else LastWith(apps[..|apps| - 1], id)
  }

  ghost predicate BuiltinFrom(before: map<AppID, App>, after: map<AppID, App>, apps: seq<App>) {
    && (forall id :: id in after <==> id in before || LastWith(apps, id).Some?)
    && (forall id :: id in after ==>
          after[id] == if LastWith(apps, id).Some? then LastWith(apps, id).value.(builtin := true) else before[id])
  }

  /** The id of an app record is its AppID. */
  ghost predicate AppCodec(c: Codec<App>) {
    forall a: App :: c.id(a) == a.appID
  }

  /** The result of Delete: done, refused before anything was touched, or failed on the way. */
  datatype DeleteResult = Deleted | NotInstalled | Failed

  class AppStore {
    const codec: Codec<App>
    const server: Server
    const config: ConfigService
    const schemaVersion: string
    var installed: map<AppID, App>
    var builtin: map<AppID, App>

    constructor (codec: Codec<App>, server: Server, config: ConfigService, schemaVersion: string)
      requires config.server == server
      ensures this.codec == codec && this.server == server && this.config == config
      ensures this.schemaVersion == schemaVersion
      ensures installed == map[] && builtin == map[]
    {
      this.codec, this.server, this.config, this.schemaVersion := codec, server, config, schemaVersion;
      installed, builtin := map[], map[];
    }

    ghost predicate Valid()
      reads server`data, server`keys
    {
      config.server == server && server.Valid()
    }

    /** Builtin apps are filed under their own ID and marked as builtin. */
    ghost predicate BuiltinsMarked()
      reads this`builtin
    {
      forall id :: id in builtin ==> builtin[id].appID == id && builtin[id].builtin
    }

    ghost function St(): State<App>
      reads `installed, server`data, server`saved, config
    {
      State(server.data, server.saved.installedApps, config.conf.installedApps, installed)
    }

    /** Of several builtin apps with the same ID, the last one counts. */
    method InitBuiltin(builtinApps: seq<App>)
      requires BuiltinsMarked()
      modifies this`builtin
      ensures BuiltinsMarked()
      ensures BuiltinFrom(old(builtin), builtin, builtinApps)
    {
      for n := 0 to |builtinApps|
        invariant BuiltinsMarked()
        invariant BuiltinFrom(old(builtin), builtin, builtinApps[..n])
      {
        assert builtinApps[..n + 1][..n] == builtinApps[..n];
        var app := builtinApps[n].(builtin := true);
        builtin := builtin[app.appID := app];
      }
      assert builtinApps[..|builtinApps|] == builtinApps;
    }

    method Configure(conf: StoredConfig)
      modifies this`installed, server`errors
      ensures forall id :: id in installed ==>
        View(codec, APP_PREFIX, server.data, conf.installedApps, id) == Some(installed[id])
      ensures server.errors == old(server.errors) ==>
        installed == Recover(codec, APP_PREFIX, server.data, conf.installedApps)
      ensures forall id, app :: id in installed && installed[id] == app ==>
        Loadable(codec, server.data, APP_PREFIX, conf.installedApps, id, app)
      ensures server.errors == old(server.errors) ==>
        forall id, app :: Loadable(codec, server.data, APP_PREFIX, conf.installedApps, id, app) ==>
          id in installed && installed[id] == app
    {
      installed := ReadListed(codec, server, APP_PREFIX, conf.installedApps);
      ShownIsLoadable(codec, APP_PREFIX, server.data, conf.installedApps);
    }

    method Get(appID: AppID) returns (r: Option<App>)
      ensures r == if appID in builtin then Some(builtin[appID])
                   else if appID in installed then Some(installed[appID]) else None
    {
      if appID in builtin {
        return Some(builtin[appID]);
      }
      if appID in installed {
        return Some(installed[appID]);
      }
      return None;
    }

    method AsMap(allApps: bool) returns (out: map<AppID, App>)
      ensures out == Listing(installed, builtin, allApps)
    {
      out := Overlay(map[], installed, allApps);
      out := Overlay(out, builtin, allApps);
    }

    /** KV.Set of the record under its hash. */
    method SaveBlob(stamped: App) returns (ok: bool, sha: string, ghost o: Outcome)
      requires Valid()
      modifies server
      ensures Valid() && sha == HashOf(codec, stamped)
      ensures var run := BlobStep(codec, APP_PREFIX, old(St()), stamped, o);
              && ok == run.ok && St() == run.st && Wrote(server.disks, |old(server.disks)|, run.disks, true)
      ensures server.errors == old(server.errors) + Failure(ok)
      ensures old(server.disks) <= server.disks
    {
      var data := codec.encode(stamped);
      sha := codec.sha(data);
      ok, o := server.KVSet(APP_PREFIX + sha, Blob(data));
    }

    method DeleteBlob(sha: string) returns (ok: bool, ghost o: Outcome)
      requires Valid()
      modifies server
      ensures Valid()
      ensures var run := DeleteStep(APP_PREFIX, old(St()), sha, o);
              && ok == run.ok && St() == run.st && Wrote(server.disks, |old(server.disks)|, run.disks, true)
      ensures server.errors == old(server.errors) + Failure(ok)
      ensures old(server.disks) <= server.disks
    {
      ok, o := server.KVDelete(APP_PREFIX + sha);
    }

    /** StoreConfig with a new list of installed apps. */
    method StoreList(updated: Index) returns (ok: bool, ghost reconfigured: bool, ghost o: Outcome)
      requires Valid()
      modifies server, config`conf
      ensures Valid()
      ensures var run := ListStep(old(St()), updated, reconfigured, o);
              && ok == run.ok && St() == run.st && Wrote(server.disks, |old(server.disks)|, run.disks, true)
      ensures server.errors == old(server.errors) + Failure(ok) && (!reconfigured ==> o == Fine)
      ensures old(server.disks) <= server.disks
    {
      var sc := config.conf.(installedApps := updated);
      ok, reconfigured, o := config.StoreConfig(sc);
    }

    /** apps.go:189-211: the configuration, then the previous blob. */
    method ListApp(appID: AppID, sha: string, prevSHA: string, ghost kv: Outcome)
      returns (ok: bool, ghost script: Script)
      requires Valid() && prevSHA == Listed(config.conf.installedApps, appID)
      modifies server, config`conf
      ensures Valid() && script.kv == kv
      ensures var run := Relist(APP_PREFIX, true, old(St()), appID, sha, script);
              && ok == run.ok && St() == run.st && Wrote(server.disks, |old(server.disks)|, run.disks, true)
      ensures server.errors == old(server.errors) + Mishaps(script.(kv := Fine))
      ensures old(server.disks) <= server.disks
    {
      ghost var from := |server.disks|;
      script := FLAWLESS.(kv := kv);
      var conf := config.conf;
      var updated := CopySkipping(conf.installedApps, prevSHA);
      updated := updated[appID := sha];
      ghost var reconfigured, o;
      ghost var run := ListStep(St(), updated, true, Fine);
      ok, reconfigured, o := StoreList(updated);
      script := script.(reconfigure := reconfigured, save := o);
      if !ok {
        return;
      }
      if sha != prevSHA {
        var deleted;
        ghost var snaps, listed := server.disks, St();
        deleted, o := DeleteBlob(prevSHA);
        script := script.(cleanup := o);
        WroteMore(snaps, server.disks, from, run.disks, DeleteStep(APP_PREFIX, listed, prevSHA, o).disks, true);
      }
    }

    method Save(app: App) returns (ok: bool, ghost script: Script)
      requires Valid() && AppCodec(codec)
      modifies this`installed, server, config`conf
      ensures Valid() && server.errors == old(server.errors) + Mishaps(script)
      ensures var run := Put(codec, APP_PREFIX, true, old(St()), app.(schemaVersion := schemaVersion), script);
              ok == run.ok && St() == run.st && Wrote(server.disks, |old(server.disks)|, run.disks, true)
    {
      ghost var st0, from := St(), |server.disks|;
      var conf := config.conf;
      var prevSHA := if app.appID in conf.installedApps then conf.installedApps[app.appID] else "";
      var stamped := app.(schemaVersion := schemaVersion);
      var sha;
      ghost var o;
      ok, sha, o := SaveBlob(stamped);
      script := FLAWLESS.(kv := o);
      if !ok {
        return;
      }

      var updatedInstalled := CopyExcept(installed, app.appID);
      updatedInstalled := updatedInstalled[app.appID := stamped];
      installed := updatedInstalled;
      ghost var run1, cached, snaps := BlobStep(codec, APP_PREFIX, st0, stamped, o), St(), server.disks;
      assert cached == run1.st.(cache := st0.cache[app.appID := stamped]);

      ok, script := ListApp(app.appID, sha, prevSHA, o);
      WroteMore(snaps, server.disks, from, run1.disks,
                Relist(APP_PREFIX, true, cached, app.appID, sha, script).disks, true);
    }

    method Delete(appID: AppID) returns (r: DeleteResult, ghost script: Script)
      requires Valid()
      modifies this`installed, server, config`conf
      ensures Valid() && server.errors == old(server.errors) + Mishaps(script)
      ensures r == NotInstalled <==> appID !in old(installed) || appID !in old(config.conf.installedApps)
      ensures r == NotInstalled ==> server.disks == old(server.disks)
      ensures var run := Deletion(APP_PREFIX, old(St()), appID, script);
              && (r == Deleted <==> run.ok)
              && St() == run.st && Wrote(server.disks, |old(server.disks)|, run.disks, true)
    {
      script := FLAWLESS;
      ghost var st0, from := St(), |server.disks|;
      if appID !in installed {
        return NotInstalled, script;
      }
      var conf := config.conf;
      if appID !in conf.installedApps {
        return NotInstalled, script;
      }
      var sha := conf.installedApps[appID];
      ghost var o;
      var ok;
      ok, o := DeleteBlob(sha);
      script := script.(kv := o);
      ghost var run1 := DeleteStep(APP_PREFIX, st0, sha, o);
      if !ok {
        return Failed, script;
      }

      var updatedInstalled := CopyExcept(installed, appID);
      installed := updatedInstalled;
      ghost var cached := run1.st.(cache := st0.cache - {appID});
      assert St() == cached;

      var updated := CopyExcept(conf.installedApps, appID);
      ghost var reconfigured;
      ghost var snaps := server.disks;
      ok, reconfigured, o := StoreList(updated);
      script := script.(reconfigure := reconfigured, save := o);
      WroteMore(snaps, server.disks, from, run1.disks, ListStep(cached, updated, reconfigured, o).disks, true);
      r := if ok then Deleted else Failed;
    }
  }

  predicate Wanted(app: App, allApps: bool) {
    allApps || !app.disabled
  }

  function Listing(installed: map<AppID, App>, builtin: map<AppID, App>, allApps: bool): map<AppID, App> {
    (map id | id in installed && Wanted(installed[id], allApps) :: installed[id]) +
    (map id | id in builtin && Wanted(builtin[id], allApps) :: builtin[id])
  }

  /** What Get returns. */
  function Visible(installed: map<AppID, App>, builtin: map<AppID, App>, id: AppID): Option<App> {
    if id in builtin then Some(builtin[id]) else if id in installed then Some(installed[id]) else None
  }

  /** Get finds exactly what AsMap(AllApps) lists. */
  lemma GetAgreesWithAsMap(installed: map<AppID, App>, builtin: map<AppID, App>, id: AppID)
    ensures var all := Listing(installed, builtin, true);
            Visible(installed, builtin, id) == if id in all then Some(all[id]) else None
  {
    var all := Listing(installed, builtin, true);
    assert id in all <==> id in installed || id in builtin;
  }

  /**
    AsMap(EnabledAppsOnly) agrees with Get, filtered, unless a disabled builtin app hides an enabled
    installed one of the same ID: then the list shows an app that Get does not return.
   */
  lemma EnabledListingAgreesIff(installed: map<AppID, App>, builtin: map<AppID, App>, id: AppID)
    ensures var enabled := Listing(installed, builtin, false);
            var got := Visible(installed, builtin, id);
            (if id in enabled then Some(enabled[id]) else None) ==
              (if got.Some? && !got.value.disabled then got else None)
            <==> !(id in builtin && builtin[id].disabled && id in installed && !installed[id].disabled)
  {
    var enabled := Listing(installed, builtin, false);
    if id in builtin && !builtin[id].disabled {
      assert enabled[id] == builtin[id];
    } else if id in installed && !installed[id].disabled {
      assert enabled[id] == installed[id];
    } else {
      assert id !in enabled;
    }
  }
}

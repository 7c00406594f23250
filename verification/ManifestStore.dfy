/**
  manifestStore (server/store/manifest.go): locally stored manifests, content-addressed like apps,
  over the global list that is fixed at startup.
 */
module ManifestStores {
  import opened Wrappers
  import opened Bindings
  import opened Records
  import opened ContentStore
  import opened Mattermost
  import opened AppStores
  import Keys

  const MANIFEST_PREFIX := Keys.KV_LOCAL_MANIFEST_PREFIX

  /** The id of a manifest is its AppID. */
  ghost predicate ManifestCodec(c: Codec<Manifest>) {
    forall m: Manifest :: c.id(m) == m.appID
  }

  class ManifestStore {
    const codec: Codec<Manifest>
    const server: Server
    const config: ConfigService
    const schemaVersion: string
    const global: map<AppID, Manifest>
    var local: map<AppID, Manifest>

    constructor (codec: Codec<Manifest>, server: Server, config: ConfigService, schemaVersion: string,
                 global: map<AppID, Manifest>)
      ensures this.codec == codec && this.server == server && this.config == config
      ensures this.schemaVersion == schemaVersion && this.global == global && local == map[]
    {
      this.codec, this.server, this.config := codec, server, config;
      this.schemaVersion, this.global, local := schemaVersion, global, map[];
    }

    ghost predicate Valid()
      reads server`data, server`keys
    {
      config.server == server && server.Valid()
    }

    ghost function St(): State<Manifest>
      reads `local, server`data, server`saved, config
    {
      State(server.data, server.saved.localManifests, config.conf.localManifests, local)
    }

    method Configure(conf: StoredConfig)
      modifies this`local, server`errors
      ensures forall id :: id in local ==>
        View(codec, MANIFEST_PREFIX, server.data, conf.localManifests, id) == Some(local[id])
      ensures server.errors == old(server.errors) ==>
        local == Recover(codec, MANIFEST_PREFIX, server.data, conf.localManifests)
      ensures forall id, m :: id in local && local[id] == m ==>
        Loadable(codec, server.data, MANIFEST_PREFIX, conf.localManifests, id, m)
      ensures server.errors == old(server.errors) ==>
        forall id, m :: Loadable(codec, server.data, MANIFEST_PREFIX, conf.localManifests, id, m) ==>
          id in local && local[id] == m
    {
      local := ReadListed(codec, server, MANIFEST_PREFIX, conf.localManifests);
      ShownIsLoadable(codec, MANIFEST_PREFIX, server.data, conf.localManifests);
    }

    method Get(appID: AppID) returns (r: Option<Manifest>)
      ensures r == var all := global + local; if appID in all then Some(all[appID]) else None
    {
      if appID in local {
        return Some(local[appID]);
      }
      if appID in global {
        return Some(global[appID]);
      }
      return None;
    }

    method AsMap() returns (out: map<AppID, Manifest>)
      ensures out == global + local
    {
      out := map[];
      var rest := global.Keys;
      while rest != {}
        invariant rest <= global.Keys
        invariant out == map id | id in global && id !in rest :: global[id]
        decreases rest
      {
        var id :| id in rest;
        rest := rest - {id};
        out := out[id := global[id]];
      }
      rest := local.Keys;
      while rest != {}
        invariant rest <= local.Keys
        invariant out == global + map id | id in local && id !in rest :: local[id]
        decreases rest
      {
        var id :| id in rest;
        rest := rest - {id};
        out := out[id := local[id]];
      }
    }

    /** KV.Set of the manifest under its hash. */
    method SaveBlob(stamped: Manifest) returns (ok: bool, sha: string, ghost o: Outcome)
      requires Valid()
      modifies server
      ensures Valid() && sha == HashOf(codec, stamped)
      ensures var run := BlobStep(codec, MANIFEST_PREFIX, old(St()), stamped, o);
              && ok == run.ok && St() == run.st && Wrote(server.disks, |old(server.disks)|, run.disks, false)
      ensures server.errors == old(server.errors) + Failure(ok)
      ensures old(server.disks) <= server.disks
    {
      var data := codec.encode(stamped);
      sha := codec.sha(data);
      ok, o := server.KVSet(MANIFEST_PREFIX + sha, Blob(data));
    }

    method StoreList(updated: Index) returns (ok: bool, ghost reconfigured: bool, ghost o: Outcome)
      requires Valid()
      modifies server, config`conf
      ensures Valid()
      ensures var run := ListStep(old(St()), updated, reconfigured, o);
              && ok == run.ok && St() == run.st && Wrote(server.disks, |old(server.disks)|, run.disks, false)
      ensures server.errors == old(server.errors) + Failure(ok) && (!reconfigured ==> o == Fine)
      ensures old(server.disks) <= server.disks
    {
      var sc := config.conf.(localManifests := updated);
      ok, reconfigured, o := config.StoreConfig(sc);
    }

    /** manifest.go:234-252: the configuration, then the previous blob. */
    method ListManifest(appID: AppID, sha: string, prevSHA: string, ghost kv: Outcome)
      returns (ok: bool, ghost script: Script)
      requires Valid() && prevSHA == Listed(config.conf.localManifests, appID)
      modifies server, config`conf
      ensures Valid() && script.kv == kv
      ensures var run := Relist(MANIFEST_PREFIX, false, old(St()), appID, sha, script);
              && ok == run.ok && St() == run.st && Wrote(server.disks, |old(server.disks)|, run.disks, false)
      ensures server.errors == old(server.errors) + Mishaps(script.(kv := Fine))
      ensures old(server.disks) <= server.disks
    {
      ghost var from := |server.disks|;
      script := FLAWLESS.(kv := kv);
      var updated := config.conf.localManifests[appID := sha];
      ghost var run := ListStep(St(), updated, true, Fine);
      ghost var reconfigured, o;
      ok, reconfigured, o := StoreList(updated);
      script := script.(reconfigure := reconfigured, save := o);
      if !ok {
        return;
      }
      if sha != prevSHA {
        var deleted;
        ghost var snaps, listed := server.disks, St();
        deleted, o := server.KVDelete(MANIFEST_PREFIX + prevSHA);
        script := script.(cleanup := o);
        WroteMore(snaps, server.disks, from, run.disks, DeleteStep(MANIFEST_PREFIX, listed, prevSHA, o).disks, false);
      }
    }

    method StoreLocal(m: Manifest) returns (ok: bool, ghost script: Script)
      requires Valid() && ManifestCodec(codec)
      modifies this`local, server, config`conf
      ensures Valid() && server.errors == old(server.errors) + Mishaps(script)
      ensures var run := Put(codec, MANIFEST_PREFIX, false, old(St()), m.(schemaVersion := schemaVersion), script);
              ok == run.ok && St() == run.st && Wrote(server.disks, |old(server.disks)|, run.disks, false)
    {
      ghost var st0, from := St(), |server.disks|;
      var conf := config.conf;
      var prevSHA := if m.appID in conf.localManifests then conf.localManifests[m.appID] else "";
      var stamped := m.(schemaVersion := schemaVersion);
      var sha;
      ghost var o;
      ok, sha, o := SaveBlob(stamped);
      script := FLAWLESS.(kv := o);
      if !ok {
        return;
      }

      var updatedLocal := CopyExcept(local, m.appID);
      updatedLocal := updatedLocal[m.appID := stamped];
      local := updatedLocal;
      ghost var run1, cached, snaps := BlobStep(codec, MANIFEST_PREFIX, st0, stamped, o), St(), server.disks;
      assert cached == run1.st.(cache := st0.cache[m.appID := stamped]);

      ok, script := ListManifest(m.appID, sha, prevSHA, o);
      WroteMore(snaps, server.disks, from, run1.disks,
                Relist(MANIFEST_PREFIX, false, cached, m.appID, sha, script).disks, false);
    }

    /** Unlike the app store, this does not check that the manifest is there. */
    method DeleteLocal(appID: AppID) returns (ok: bool, ghost script: Script)
      requires Valid()
      modifies this`local, server, config`conf
      ensures Valid() && server.errors == old(server.errors) + Mishaps(script)
      ensures var run := Remove(MANIFEST_PREFIX, old(St()), appID, script);
              ok == run.ok && St() == run.st && Wrote(server.disks, |old(server.disks)|, run.disks, false)
    {
      ghost var st0, from := St(), |server.disks|;
      var conf := config.conf;
      var sha := if appID in conf.localManifests then conf.localManifests[appID] else "";
      ghost var o;
      ok, o := server.KVDelete(MANIFEST_PREFIX + sha);
      script := FLAWLESS.(kv := o);
      ghost var run1 := DeleteStep(MANIFEST_PREFIX, st0, sha, o);
      assert Wrote(server.disks, from, run1.disks, false);
      if !ok {
        return;
      }

      var updatedLocal := CopyExcept(local, appID);
      local := updatedLocal;
      ghost var cached, snaps := St(), server.disks;
      assert cached == run1.st.(cache := st0.cache - {appID});

      var updated := CopyExcept(conf.localManifests, appID);
      ghost var reconfigured;
      ok, reconfigured, o := StoreList(updated);
      script := script.(reconfigure := reconfigured, save := o);
      WroteMore(snaps, server.disks, from, run1.disks, ListStep(cached, updated, reconfigured, o).disks, false);
    }
  }
}

/**
  The Mattermost server as the plugin sees it: one flat key-value store with a listing order, and
  the persisted plugin configuration. Any call may fail; a failed write may still have taken effect.
 */
module Mattermost {
  import opened Wrappers
  import opened Records
  import opened ContentStore

  /** config.StoredConfig: the lists of installed apps and local manifests, id -> hash. */
  datatype StoredConfig = StoredConfig(installedApps: Index, localManifests: Index)

  /** What survives a crash of the plugin. */
  datatype Snapshot = Snapshot(data: KVData, saved: StoredConfig)

  ghost predicate NoDuplicates<T>(s: seq<T>) {
    forall i, j :: 0 <= i < j < |s| ==> s[i] != s[j]
  }

  /** The keys of the store, each once, in the order in which they are listed. */
  ghost predicate Lists(keys: seq<string>, data: KVData) {
    NoDuplicates(keys) && forall k :: k in keys <==> k in data
  }

  function Without(keys: seq<string>, key: string): seq<string> {
    if keys == [] then []
    else if keys[0] == key then Without(keys[1..], key)
    else [keys[0]] + Without(keys[1..], key)
  }

  lemma {:induction false} WithoutMember(keys: seq<string>, key: string, k: string)
    ensures k in Without(keys, key) <==> k in keys && k != key
  {
    if keys != [] {
      WithoutMember(keys[1..], key, k);
      assert k in keys <==> k == keys[0] || k in keys[1..];
    }
  }

  lemma {:induction false} WithoutNoDuplicates(keys: seq<string>, key: string)
    requires NoDuplicates(keys)
    ensures NoDuplicates(Without(keys, key))
  {
    if keys != [] {
      WithoutNoDuplicates(keys[1..], key);
      WithoutMember(keys[1..], key, keys[0]);
      var rest := Without(keys[1..], key);
      assert keys[0] !in keys[1..];
      assert keys[0] !in rest;
    }
  }

  lemma ListsAfterDelete(keys: seq<string>, data: KVData, key: string)
    requires Lists(keys, data)
    ensures Lists(Without(keys, key), data - {key})
  {
    WithoutNoDuplicates(keys, key);
    forall k ensures k in Without(keys, key) <==> k in data - {key} {
      WithoutMember(keys, key, k);
    }
  }

  /** The side of the configuration that one content-addressed store owns. */
  function Side(sc: StoredConfig, apps: bool): Index {
    if apps then sc.installedApps else sc.localManifests
  }

  /** Since snapshot number `from`, exactly these disks were written, as one store sees them. */
  ghost predicate Wrote(snaps: seq<Snapshot>, from: nat, disks: seq<Disk>, apps: bool) {
    && |snaps| == from + |disks|
    && forall i :: 0 <= i < |disks| ==>
      disks[i] == Disk(snaps[from + i].data, Side(snaps[from + i].saved, apps))
  }

  lemma WroteMore(before: seq<Snapshot>, after: seq<Snapshot>, from: nat, a: seq<Disk>, b: seq<Disk>, apps: bool)
    requires Wrote(before, from, a, apps) && before <= after && Wrote(after, |before|, b, apps)
    ensures Wrote(after, from, a + b, apps)
  {
    forall i | 0 <= i < |a + b|
      ensures (a + b)[i] == Disk(after[from + i].data, Side(after[from + i].saved, apps))
    {
      if i < |a| {
        assert after[from + i] == before[from + i];
      } else {
        assert (a + b)[i] == b[i - |a|];
      }
    }
  }

  /** What a call adds to the number of errors. */
  function Failure(ok: bool): nat {
    if ok then 0 else 1
  }

  class Server {
    var data: KVData
    var keys: seq<string>
    var saved: StoredConfig
    /** Every state that a write has left on disk, in order. */
    ghost var disks: seq<Snapshot>
    /** How many calls have returned an error. */
    ghost var errors: nat

    ghost predicate Valid()
      reads `data, `keys
    {
      Lists(keys, data)
    }

    constructor ()
      ensures Valid() && data == map[] && saved == StoredConfig(map[], map[]) && disks == [] && errors == 0
    {
      data, keys, saved, disks, errors := map[], [], StoredConfig(map[], map[]), [], 0;
    }

    method KVGet(key: string) returns (ok: bool, v: Option<Value>)
      modifies `errors
      ensures errors == old(errors) + Failure(ok)
      ensures ok ==> v == if key in data then Some(data[key]) else None
    {
      ok := *;
      errors := errors + Failure(ok);
      v := if ok && key in data then Some(data[key]) else None;
    }

    /** A new key may appear anywhere in the listing. */
    method KVSet(key: string, v: Value) returns (ok: bool, ghost o: Outcome)
      requires Valid()
      modifies this
      ensures Valid()
      ensures ok <==> o == Fine
      ensures data == WriteKV(old(data), key, v, o) && errors == old(errors) + Failure(ok)
      ensures saved == old(saved) && disks == old(disks) + [Snapshot(data, saved)]
    {
      var fate: Outcome := *;
      if !fate.Lost? {
        if key !in data {
          var pos :| 0 <= pos <= |keys|;
          keys := keys[..pos] + [key] + keys[pos..];
        }
        data := data[key := v];
      }
      disks := disks + [Snapshot(data, saved)];
      ok, o := fate.Fine?, fate;
      errors := errors + Failure(ok);
    }

    /** Deleting a key that is not there succeeds; the listing order of the others does not change. */
    method KVDelete(key: string) returns (ok: bool, ghost o: Outcome)
      requires Valid()
      modifies this
      ensures Valid()
      ensures ok <==> o == Fine
      ensures data == DeleteKV(old(data), key, o) && errors == old(errors) + Failure(ok)
      ensures keys == if o.Lost? then old(keys) else Without(old(keys), key)
      ensures saved == old(saved) && disks == old(disks) + [Snapshot(data, saved)]
    {
      var fate: Outcome := *;
      if !fate.Lost? {
        ListsAfterDelete(keys, data, key);
        keys := Without(keys, key);
        data := data - {key};
      }
      disks := disks + [Snapshot(data, saved)];
      ok, o := fate.Fine?, fate;
      errors := errors + Failure(ok);
    }

    method SavePluginConfig(sc: StoredConfig) returns (ok: bool, ghost o: Outcome)
      modifies this
      ensures ok <==> o == Fine
      ensures saved == if o.Lost? then old(saved) else sc
      ensures data == old(data) && keys == old(keys) && errors == old(errors) + Failure(ok)
      ensures disks == old(disks) + [Snapshot(data, saved)]
    {
      var fate: Outcome := *;
      if !fate.Lost? {
        saved := sc;
      }
      disks := disks + [Snapshot(data, saved)];
      ok, o := fate.Fine?, fate;
      errors := errors + Failure(ok);
    }

    /** Page number `page` of the listing. */
    method ListKeys(page: nat, perPage: nat) returns (ok: bool, ks: seq<string>)
      requires perPage > 0
      modifies `errors
      ensures errors == old(errors) + Failure(ok)
      ensures ok ==> ks == PageOf(keys, page, perPage)
    {
      ok := *;
      errors := errors + Failure(ok);
      ks := if ok then PageOf(keys, page, perPage) else [];
    }
  }

  function PageOf(keys: seq<string>, page: nat, perPage: nat): seq<string>
    requires perPage > 0
  {
    var from := page * perPage;
    if from >= |keys| then []
    else if from + perPage >= |keys| then keys[from..]
    else keys[from..from + perPage]
  }

  /** config.Service: the configuration in memory, persisted through the server. */
  class ConfigService {
    const server: Server
    var conf: StoredConfig

    constructor (server: Server)
      ensures this.server == server && conf == server.saved
    {
      this.server := server;
      conf := server.saved;
    }

    /** StoreConfig (server/config/service.go:236-255): recompute in memory first, then persist. */
    method StoreConfig(sc: StoredConfig) returns (ok: bool, ghost reconfigured: bool, ghost o: Outcome)
      modifies this`conf, server
      ensures (ok <==> reconfigured && o == Fine) && (!reconfigured ==> o == Fine)
      ensures conf == if reconfigured then sc else old(conf)
      ensures server.saved == if reconfigured && !o.Lost? then sc else old(server.saved)
      ensures server.data == old(server.data) && server.keys == old(server.keys)
      ensures server.errors == old(server.errors) + Failure(ok)
      ensures server.disks == old(server.disks) + if reconfigured then [Snapshot(server.data, server.saved)] else []
    {
      var works: bool := *;
      reconfigured, o := works, Fine;
      if !works {
        server.errors := server.errors + 1;
        return false, false, Fine;
      }
      conf := sc;
      ok, o := server.SavePluginConfig(sc);
    }
  }
}

/**
  The content-addressed stores (server/store/apps.go and manifest.go), as a state machine.

  A record lives in the key-value store under prefix + SHA-1 of its JSON; the plugin configuration
  lists id -> hash, both in memory and persisted; a cache holds the records themselves.
  Every call to the server may fail, and a failed call may or may not have taken effect.
 */
module ContentStore {
  import opened Wrappers
  import opened Records

  /** JSON, SHA-1 and validation of one kind of record. */
  datatype Codec<!R> = Codec(
    encode: R -> string,
    decode: string -> Option<R>,
    valid: R -> bool,
    id: R -> string,
    sha: string -> string)

  /** Valid records survive JSON, an encoding names its record's id, and SHA-1 does not collide. */
  ghost predicate Lawful<R(!new)>(c: Codec<R>) {
    && (forall r :: c.valid(r) ==> c.decode(c.encode(r)) == Some(r) && c.encode(r) != "")
    && (forall r, s :: c.encode(r) == c.encode(s) ==> c.id(r) == c.id(s))
    && (forall x, y :: c.sha(x) == c.sha(y) ==> x == y)
    && (forall x :: c.sha(x) != "")
  }

  type Index = map<string, string>

  /** What survives a crash: the key-value store and the persisted list. */
  datatype Disk = Disk(data: KVData, index: Index)

  datatype State<R> = State(data: KVData, saved: Index, mem: Index, cache: map<string, R>)

  /** The fate of one call: it succeeds, it fails without effect, or it fails after its effect. */
  datatype Outcome = Fine | Lost | Applied

  /** The fates of the calls made by one operation, in order. */
  datatype Script = Script(kv: Outcome, reconfigure: bool, save: Outcome, cleanup: Outcome)

  const FLAWLESS := Script(Fine, true, Fine, Fine)

  /** How many of the calls report an error. */
  function Mishaps(s: Script): nat {
    (if s.kv.Fine? then 0 else 1) + (if s.reconfigure then 0 else 1) +
    (if s.save.Fine? then 0 else 1) + (if s.cleanup.Fine? then 0 else 1)
  }

  datatype Run<R> = Run(st: State<R>, disks: seq<Disk>, ok: bool)

  // ---------------------------------------------------------------- reading

  function Load<R>(c: Codec<R>, data: KVData, key: string): Option<R> {
    if key in data && data[key].Blob? && data[key].data != "" then
      match c.decode(data[key].data)
      case Some(r) => if c.valid(r) then Some(r) else None
      case None => None
    else None
  }

  /** The record that a list and a store give for `id`. */
  function View<R>(c: Codec<R>, prefix: string, data: KVData, index: Index, id: string): Option<R> {
    if id in index then Load(c, data, prefix + index[id]) else None
  }

  /** Configure: the records that the list names and that can be loaded. */
  function Recover<R>(c: Codec<R>, prefix: string, data: KVData, index: Index): map<string, R> {
    map id | id in index && View(c, prefix, data, index, id).Some? :: View(c, prefix, data, index, id).value
  }

  function Reload<R>(c: Codec<R>, prefix: string, d: Disk): State<R> {
    State(d.data, d.index, d.index, Recover(c, prefix, d.data, d.index))
  }

  // ---------------------------------------------------------------- writing

  function HashOf<R>(c: Codec<R>, r: R): string {
    c.sha(c.encode(r))
  }

  function Listed(index: Index, id: string): string {
    if id in index then index[id] else ""
  }

  /** A write to a map that reached the store, or did not. */
  function WriteKV(data: KVData, key: string, v: Value, o: Outcome): KVData {
    if o.Lost? then data else data[key := v]
  }

  function DeleteKV(data: KVData, key: string, o: Outcome): KVData {
    if o.Lost? then data else data - {key}
  }

  function SaveIndex(saved: Index, updated: Index, o: Outcome): Index {
    if o.Lost? then saved else updated
  }

  /** The new list: the app store leaves out every entry with the previous hash, the manifest store does not. */
  function Relisted(mem: Index, id: string, hash: string, ofApps: bool): Index {
    if ofApps then (map k | k in mem && mem[k] != Listed(mem, id) :: mem[k])[id := hash]
    else mem[id := hash]
  }

  /** One run after another. */
  function Then<R>(first: Run<R>, second: Run<R>): Run<R> {
    Run(second.st, first.disks + second.disks, second.ok)
  }

  function BlobStep<R>(c: Codec<R>, prefix: string, st: State<R>, r: R, o: Outcome): Run<R> {
    var data := WriteKV(st.data, prefix + HashOf(c, r), Blob(c.encode(r)), o);
    Run(st.(data := data), [Disk(data, st.saved)], o == Fine)
  }

  function DeleteStep<R>(prefix: string, st: State<R>, hash: string, o: Outcome): Run<R> {
    var data := DeleteKV(st.data, prefix + hash, o);
    Run(st.(data := data), [Disk(data, st.saved)], o == Fine)
  }

  /** StoreConfig: in memory first, then persisted. */
  function ListStep<R>(st: State<R>, updated: Index, reconfigure: bool, o: Outcome): Run<R> {
    if !reconfigure then Run(st, [], false)
    else
      var saved := SaveIndex(st.saved, updated, o);
      Run(st.(mem := updated, saved := saved), [Disk(st.data, saved)], o == Fine)
  }

  /** The second half of Put: memory list, persisted list, removal of the old blob. */
  function Relist<R>(
      prefix: string, ofApps: bool, cached: State<R>, id: string, hash: string, script: Script): Run<R>
  {
    var previous := Listed(cached.mem, id);
    var run := ListStep(cached, Relisted(cached.mem, id, hash, ofApps), script.reconfigure, script.save);
    if !run.ok || hash == previous then run
    else Then(run, DeleteStep(prefix, run.st, previous, script.cleanup)).(ok := true)
  }

  /** Save and StoreLocal: the blob, the cache, then the lists. */
  function Put<R>(c: Codec<R>, prefix: string, ofApps: bool, st: State<R>, r: R, script: Script): Run<R> {
    var run := BlobStep(c, prefix, st, r, script.kv);
    if !run.ok then run
    else
      var cached := run.st.(cache := st.cache[c.id(r) := r]);
      Then(run, Relist(prefix, ofApps, cached, c.id(r), HashOf(c, r), script))
  }

  /** DeleteLocal, and Delete once its checks have passed: blob, cache, memory list, persisted list. */
  function Remove<R>(prefix: string, st: State<R>, id: string, script: Script): Run<R> {
    var run1 := DeleteStep(prefix, st, Listed(st.mem, id), script.kv);
    if !run1.ok then run1 else
    var cached := run1.st.(cache := st.cache - {id});
    Then(run1, ListStep(cached, st.mem - {id}, script.reconfigure, script.save))
  }

  /** Delete of the app store: nothing is touched if the app is not installed or not listed. */
  function Deletion<R>(prefix: string, st: State<R>, id: string, script: Script): Run<R> {
    if id !in st.cache || id !in st.mem then Run(st, [], false) else Remove(prefix, st, id, script)
  }

  // ---------------------------------------------------------------- the invariant

  /** `hash` is the hash of some record with this id. */
  ghost predicate Names<R(!new)>(c: Codec<R>, id: string, hash: string) {
    exists r :: c.id(r) == id && HashOf(c, r) == hash
  }

  ghost predicate Indexed<R(!new)>(c: Codec<R>, index: Index) {
    forall id :: id in index ==> Names(c, id, index[id])
  }

  /** Content addressing: a key is the hash of what it holds. */
  ghost predicate Addressed<R>(c: Codec<R>, prefix: string, data: KVData) {
    forall h: string :: prefix + h in data ==>
      data[prefix + h].Blob? && c.sha(data[prefix + h].data) == h
  }

  ghost predicate DiskInv<R(!new)>(c: Codec<R>, prefix: string, d: Disk) {
    Addressed(c, prefix, d.data) && Indexed(c, d.index)
  }

  ghost predicate Inv<R(!new)>(c: Codec<R>, prefix: string, st: State<R>) {
    DiskInv(c, prefix, Disk(st.data, st.saved)) && Indexed(c, st.mem)
  }

  lemma NamesInjective<R(!new)>(c: Codec<R>, i: string, j: string, h: string)
    requires Lawful(c) && Names(c, i, h) && Names(c, j, h)
    ensures i == j && h != ""
  {
    var r :| c.id(r) == i && HashOf(c, r) == h;
    var s :| c.id(s) == j && HashOf(c, s) == h;
    assert c.encode(r) == c.encode(s);
  }

  lemma NamesSelf<R(!new)>(c: Codec<R>, r: R)
    ensures Names(c, c.id(r), HashOf(c, r))
  {
  }

  lemma DifferentHashes<R(!new)>(c: Codec<R>, mem: Index, k: string, id: string)
    requires Lawful(c) && Indexed(c, mem) && k in mem && k != id
    ensures mem[k] != Listed(mem, id)
  {
    assert Names(c, k, mem[k]);
    NamesInjective(c, k, k, mem[k]);
    if id in mem {
      var hk, hi := mem[k], mem[id];
      if hk == hi {
        NamesInjective(c, k, id, hk);
      }
    }
  }

  /** Only the entry of `id` itself is left out with the previous hash. */
  lemma RelistedIsUpdate<R(!new)>(c: Codec<R>, mem: Index, id: string, hash: string, ofApps: bool)
    requires Lawful(c) && Indexed(c, mem)
    ensures Relisted(mem, id, hash, ofApps) == mem[id := hash]
  {
    forall k | k in mem && k != id ensures mem[k] != Listed(mem, id) {
      DifferentHashes(c, mem, k, id);
    }
  }

  lemma PrefixCancels(prefix: string, h: string, h': string)
    ensures prefix + h == prefix + h' <==> h == h'
  {
    assert (prefix + h)[|prefix|..] == h && (prefix + h')[|prefix|..] == h';
  }

  lemma AddressedWrite<R(!new)>(c: Codec<R>, prefix: string, data: KVData, r: R, o: Outcome)
    requires Addressed(c, prefix, data)
    ensures Addressed(c, prefix, WriteKV(data, prefix + HashOf(c, r), Blob(c.encode(r)), o))
  {
    forall h: string ensures prefix + h == prefix + HashOf(c, r) <==> h == HashOf(c, r) {
      PrefixCancels(prefix, h, HashOf(c, r));
    }
  }

  /** Exactly what Save and StoreLocal come to, call by call. */
  lemma PutOutcome<R(!new)>(c: Codec<R>, prefix: string, ofApps: bool, st: State<R>, r: R, script: Script)
    requires Lawful(c) && Indexed(c, st.mem)
    ensures var run, id, hash := Put(c, prefix, ofApps, st, r, script), c.id(r), c.sha(c.encode(r));
            var listed := script.kv.Fine? && script.reconfigure;
            var cleaned := listed && script.save.Fine? && !(id in st.mem && st.mem[id] == hash);
            && (run.ok <==> listed && script.save.Fine?)
            && run.st.cache == (if script.kv.Fine? then st.cache[id := r] else st.cache)
            && run.st.mem == (if listed then st.mem[id := hash] else st.mem)
            && run.st.saved == (if listed && !script.save.Lost? then st.mem[id := hash] else st.saved)
            && var data := if script.kv.Lost? then st.data else st.data[prefix + hash := Blob(c.encode(r))];
               run.st.data == if cleaned && !script.cleanup.Lost?
                              then data - {prefix + if id in st.mem then st.mem[id] else ""} else data
  {
    RelistedIsUpdate(c, st.mem, c.id(r), HashOf(c, r), ofApps);
    var hash := HashOf(c, r);
    assert hash != "";
  }

  /** Exactly what DeleteLocal comes to, and Delete where it is not refused. */
  lemma RemoveOutcome<R>(prefix: string, st: State<R>, id: string, script: Script)
    ensures var run := Remove(prefix, st, id, script);
            var listed := script.kv.Fine? && script.reconfigure;
            && (run.ok <==> listed && script.save.Fine?)
            && run.st.cache == (if script.kv.Fine? then st.cache - {id} else st.cache)
            && run.st.mem == (if listed then st.mem - {id} else st.mem)
            && run.st.saved == (if listed && !script.save.Lost? then st.mem - {id} else st.saved)
            && run.st.data == if script.kv.Lost? then st.data
                              else st.data - {prefix + if id in st.mem then st.mem[id] else ""}
  {
  }

  // ---------------------------------------------------------------- what a restart would see

  function Update<R>(m: map<string, R>, id: string, r: Option<R>): map<string, R> {
    if r.Some? then m[id := r.value] else m - {id}
  }

  /** What reading the record back would give; the record itself when it is valid. */
  function ReadBack<R>(c: Codec<R>, r: R): Option<R> {
    if c.encode(r) == "" then None
    else
      match c.decode(c.encode(r))
      case Some(s) => if c.valid(s) then Some(s) else None
      case None => None
  }

  lemma RecoverSame<R>(c: Codec<R>, prefix: string, data: KVData, index: Index, data': KVData, index': Index)
    requires forall k :: View(c, prefix, data', index', k) == View(c, prefix, data, index, k)
    ensures Recover(c, prefix, data', index') == Recover(c, prefix, data, index)
  {
    var m, m' := Recover(c, prefix, data, index), Recover(c, prefix, data', index');
    forall k ensures k in m' <==> k in m {
      assert View(c, prefix, data', index', k) == View(c, prefix, data, index, k);
    }
    forall k | k in m ensures m'[k] == m[k] {
      assert View(c, prefix, data', index', k) == View(c, prefix, data, index, k);
    }
  }

  lemma RecoverUpdate<R>(
      c: Codec<R>, prefix: string, data: KVData, index: Index, data': KVData, index': Index, id: string)
    requires forall k :: k != id ==> View(c, prefix, data', index', k) == View(c, prefix, data, index, k)
    ensures Recover(c, prefix, data', index') ==
            Update(Recover(c, prefix, data, index), id, View(c, prefix, data', index', id))
  {
    var x := View(c, prefix, data', index', id);
    var m, m' := Update(Recover(c, prefix, data, index), id, x), Recover(c, prefix, data', index');
    forall k ensures k in m' <==> k in m {
      assert k != id ==> View(c, prefix, data', index', k) == View(c, prefix, data, index, k);
    }
    forall k | k in m ensures m'[k] == m[k] {
      assert k != id ==> View(c, prefix, data', index', k) == View(c, prefix, data, index, k);
    }
  }

  lemma OtherKey<R(!new)>(c: Codec<R>, prefix: string, k: string, h: string, r: R)
    requires Lawful(c) && Names(c, k, h) && k != c.id(r)
    ensures prefix + h != prefix + HashOf(c, r)
  {
    NamesSelf(c, r);
    PrefixCancels(prefix, h, HashOf(c, r));
    if h == HashOf(c, r) {
      NamesInjective(c, k, c.id(r), h);
    }
  }

  /** Writing the blob of `r` changes what is seen for no other id. */
  lemma OthersAfterWrite<R(!new)>(c: Codec<R>, prefix: string, data: KVData, index: Index, r: R, o: Outcome, k: string)
    requires Lawful(c) && Indexed(c, index) && k != c.id(r)
    ensures View(c, prefix, WriteKV(data, prefix + HashOf(c, r), Blob(c.encode(r)), o), index, k) ==
            View(c, prefix, data, index, k)
  {
    if k in index {
      OtherKey(c, prefix, k, index[k], r);
    }
  }

  /** After the blob is written, the old list shows the old records, or also the new one. */
  lemma SeenAfterWrite<R(!new)>(c: Codec<R>, prefix: string, data: KVData, index: Index, r: R, o: Outcome)
    requires Lawful(c) && Addressed(c, prefix, data) && Indexed(c, index)
    ensures var data1 := WriteKV(data, prefix + HashOf(c, r), Blob(c.encode(r)), o);
            || Recover(c, prefix, data1, index) == Recover(c, prefix, data, index)
            || Recover(c, prefix, data1, index) == Update(Recover(c, prefix, data, index), c.id(r), ReadBack(c, r))
  {
    var hash, id := HashOf(c, r), c.id(r);
    var data1 := WriteKV(data, prefix + hash, Blob(c.encode(r)), o);
    forall k | k != id ensures View(c, prefix, data1, index, k) == View(c, prefix, data, index, k) {
      OthersAfterWrite(c, prefix, data, index, r, o, k);
    }
    if id in index && index[id] == hash && !o.Lost? {
      RecoverUpdate(c, prefix, data, index, data1, index, id);
    } else {
      if id in index {
        PrefixCancels(prefix, index[id], hash);
      }
      RecoverSame(c, prefix, data, index, data1, index);
    }
  }

  /** After the list is written too, it shows the memory list's records with the new one put in. */
  lemma SeenAfterList<R(!new)>(c: Codec<R>, prefix: string, data: KVData, mem: Index, r: R)
    requires Lawful(c) && Indexed(c, mem)
    ensures var data1 := data[prefix + HashOf(c, r) := Blob(c.encode(r))];
            Recover(c, prefix, data1, mem[c.id(r) := HashOf(c, r)]) ==
            Update(Recover(c, prefix, data, mem), c.id(r), ReadBack(c, r))
  {
    var hash, id := HashOf(c, r), c.id(r);
    var data1, updated := data[prefix + hash := Blob(c.encode(r))], mem[id := hash];
    forall k | k != id ensures View(c, prefix, data1, updated, k) == View(c, prefix, data, mem, k) {
      OthersAfterWrite(c, prefix, data, mem, r, Fine, k);
    }
    RecoverUpdate(c, prefix, data, mem, data1, updated, id);
  }

  /** Removing a blob that only `id` may be listed under. */
  lemma OthersAfterDelete<R(!new)>(
      c: Codec<R>, prefix: string, data: KVData, index: Index, id: string, h: string, o: Outcome, k: string)
    requires Lawful(c) && Indexed(c, index) && (h == "" || Names(c, id, h))
    requires !(k == id && k in index && index[k] == h)
    ensures View(c, prefix, DeleteKV(data, prefix + h, o), index, k) == View(c, prefix, data, index, k)
  {
    if k in index {
      assert Names(c, k, index[k]);
      NamesInjective(c, k, k, index[k]);
      PrefixCancels(prefix, index[k], h);
      if index[k] == h {
        NamesInjective(c, k, id, h);
      }
    }
  }

  lemma SeenAfterDelete<R(!new)>(
      c: Codec<R>, prefix: string, data: KVData, index: Index, id: string, h: string, o: Outcome)
    requires Lawful(c) && Indexed(c, index) && (h == "" || Names(c, id, h))
    ensures var seen := Recover(c, prefix, DeleteKV(data, prefix + h, o), index);
            || seen == Recover(c, prefix, data, index)
            || (id in index && index[id] == h && seen == Recover(c, prefix, data, index) - {id})
  {
    var data1 := DeleteKV(data, prefix + h, o);
    forall k | !(k == id && k in index && index[k] == h)
      ensures View(c, prefix, data1, index, k) == View(c, prefix, data, index, k)
    {
      OthersAfterDelete(c, prefix, data, index, id, h, o, k);
    }
    if id in index && index[id] == h && !o.Lost? {
      RecoverUpdate(c, prefix, data, index, data1, index, id);
    } else {
      RecoverSame(c, prefix, data, index, data1, index);
    }
  }

  /** Removing an entry from the list after its blob is gone. */
  lemma SeenAfterUnlist<R(!new)>(c: Codec<R>, prefix: string, data: KVData, mem: Index, id: string, o: Outcome)
    requires Lawful(c) && Indexed(c, mem)
    ensures Recover(c, prefix, DeleteKV(data, prefix + Listed(mem, id), o), mem - {id}) ==
            Recover(c, prefix, data, mem) - {id}
  {
    var data1 := DeleteKV(data, prefix + Listed(mem, id), o);
    ListedNames(c, mem, id);
    forall k | k != id ensures View(c, prefix, data1, mem - {id}, k) == View(c, prefix, data, mem, k) {
      OthersAfterDelete(c, prefix, data, mem, id, Listed(mem, id), o, k);
    }
    RecoverUpdate(c, prefix, data, mem, data1, mem - {id}, id);
  }

  lemma ListedNames<R(!new)>(c: Codec<R>, mem: Index, id: string)
    requires Indexed(c, mem)
    ensures Listed(mem, id) == "" || Names(c, id, Listed(mem, id))
  {
  }

  // ---------------------------------------------------------------- crash atomicity

  function Seen<R>(c: Codec<R>, prefix: string, d: Disk): map<string, R> {
    Recover(c, prefix, d.data, d.index)
  }

  /**
    Every state of the disk during Put: the old records, those with the new one, or the memory list's
    with the new one.
   */
  ghost predicate PutSees<R>(c: Codec<R>, prefix: string, st: State<R>, r: R, d: Disk) {
    var was := Recover(c, prefix, st.data, st.saved);
    || Seen(c, prefix, d) == was
    || Seen(c, prefix, d) == Update(was, c.id(r), ReadBack(c, r))
    || Seen(c, prefix, d) == Update(Recover(c, prefix, st.data, st.mem), c.id(r), ReadBack(c, r))
  }

  ghost predicate RemoveSees<R>(c: Codec<R>, prefix: string, st: State<R>, id: string, d: Disk) {
    var was := Recover(c, prefix, st.data, st.saved);
    || Seen(c, prefix, d) == was
    || Seen(c, prefix, d) == was - {id}
    || Seen(c, prefix, d) == Recover(c, prefix, st.data, st.mem) - {id}
  }

  lemma SavedIsOldOrNew(saved: Index, updated: Index, o: Outcome)
    ensures SaveIndex(saved, updated, o) == saved || SaveIndex(saved, updated, o) == updated
  {
  }

  /** The clean-up of Put removes a blob that the new list does not need. */
  lemma CleanupInvisible<R(!new)>(c: Codec<R>, prefix: string, data: KVData, mem: Index, r: R, o: Outcome)
    requires Lawful(c) && Indexed(c, mem) && HashOf(c, r) != Listed(mem, c.id(r))
    ensures var updated := mem[c.id(r) := HashOf(c, r)];
            Recover(c, prefix, DeleteKV(data, prefix + Listed(mem, c.id(r)), o), updated) ==
            Recover(c, prefix, data, updated)
  {
    var id, h := c.id(r), Listed(mem, c.id(r));
    var updated := mem[id := HashOf(c, r)];
    NamesSelf(c, r);
    ListedNames(c, mem, id);
    SeenAfterDelete(c, prefix, data, updated, id, h, o);
  }

  /** The disk after write number n of Put. */
  lemma PutDisk<R(!new)>(
      c: Codec<R>, prefix: string, ofApps: bool, st: State<R>, r: R, script: Script, n: nat)
    requires Lawful(c) && Indexed(c, st.mem)
    requires n < |Put(c, prefix, ofApps, st, r, script).disks|
    ensures var d := Put(c, prefix, ofApps, st, r, script).disks[n];
            var hash := HashOf(c, r);
            var data := WriteKV(st.data, prefix + hash, Blob(c.encode(r)), script.kv);
            var updated := st.mem[c.id(r) := hash];
            && n < 3
            && (n == 0 ==> d == Disk(data, st.saved))
            && (n > 0 ==> script.kv == Fine)
            && (n == 1 ==> d == Disk(data, SaveIndex(st.saved, updated, script.save)))
            && (n == 2 ==> hash != Listed(st.mem, c.id(r)) &&
                           d == Disk(DeleteKV(data, prefix + Listed(st.mem, c.id(r)), script.cleanup), updated))
  {
    RelistedIsUpdate(c, st.mem, c.id(r), HashOf(c, r), ofApps);
  }

  lemma RemoveDisk<R(!new)>(prefix: string, st: State<R>, id: string, script: Script, n: nat)
    requires n < |Remove(prefix, st, id, script).disks|
    ensures var d := Remove(prefix, st, id, script).disks[n];
            var data := DeleteKV(st.data, prefix + Listed(st.mem, id), script.kv);
            && n < 2
            && (n == 0 ==> d == Disk(data, st.saved))
            && (n == 1 ==> d == Disk(data, SaveIndex(st.saved, st.mem - {id}, script.save)))
  {
  }

  lemma PutCrashes<R(!new)>(
      c: Codec<R>, prefix: string, ofApps: bool, st: State<R>, r: R, script: Script, n: nat)
    requires Lawful(c) && Inv(c, prefix, st)
    requires n < |Put(c, prefix, ofApps, st, r, script).disks|
    ensures PutSees(c, prefix, st, r, Put(c, prefix, ofApps, st, r, script).disks[n])
  {
    var id, hash := c.id(r), HashOf(c, r);
    PutDisk(c, prefix, ofApps, st, r, script, n);
    SeenAfterWrite(c, prefix, st.data, st.saved, r, script.kv);
    if n > 0 {
      SavedIsOldOrNew(st.saved, st.mem[id := hash], script.save);
      SeenAfterList(c, prefix, st.data, st.mem, r);
      if n == 2 {
        CleanupInvisible(c, prefix, st.data[prefix + hash := Blob(c.encode(r))], st.mem, r, script.cleanup);
      }
    }
  }

  lemma RemoveCrashes<R(!new)>(c: Codec<R>, prefix: string, st: State<R>, id: string, script: Script, n: nat)
    requires Lawful(c) && Inv(c, prefix, st)
    requires n < |Remove(prefix, st, id, script).disks|
    ensures RemoveSees(c, prefix, st, id, Remove(prefix, st, id, script).disks[n])
  {
    RemoveDisk(prefix, st, id, script, n);
    ListedNames(c, st.mem, id);
    SeenAfterDelete(c, prefix, st.data, st.saved, id, Listed(st.mem, id), script.kv);
    if n == 1 {
      SavedIsOldOrNew(st.saved, st.mem - {id}, script.save);
      SeenAfterUnlist(c, prefix, st.data, st.mem, id, script.kv);
    }
  }

  // ---------------------------------------------------------------- every reachable store

  datatype Op<R> = PutOp(r: R) | RemoveOp(id: string)

  /**
    One thing that can happen: an operation that runs to its end, one cut short by a crash, a restart,
    or something that another component does. The two stores share one configuration, so whenever the
    other store persists its list, this one's list in memory is persisted with it.
   */
  datatype Step<R> =
    | Complete(op: Op<R>, script: Script)
    | Crash(op: Op<R>, script: Script, writes: nat)
    | Restart
    | ConfigSavedElsewhere
    | WrittenElsewhere(key: string, value: Option<Value>)

  /** A write of another component, which keeps to keys of its own. */
  function Foreign(data: KVData, prefix: string, key: string, value: Option<Value>): KVData {
    if prefix <= key then data
    else match value case Some(v) => data[key := v] case None => data - {key}
  }

  /** `ofApps` tells the app store from the manifest store. */
  function RunOf<R>(c: Codec<R>, prefix: string, ofApps: bool, st: State<R>, op: Op<R>, script: Script): Run<R> {
    match op
    case PutOp(r) => Put(c, prefix, ofApps, st, r, script)
    case RemoveOp(id) => if ofApps then Deletion(prefix, st, id, script) else Remove(prefix, st, id, script)
  }

  /** The app store refuses to delete what is not installed or not listed; the manifest store refuses nothing. */
  predicate Refuses<R>(ofApps: bool, st: State<R>, op: Op<R>) {
    ofApps && op.RemoveOp? && (op.id !in st.cache || op.id !in st.mem)
  }

  /** The disk after the first `writes` writes of a run. */
  function DiskAfter<R>(st: State<R>, run: Run<R>, writes: nat): Disk {
    if writes == 0 || run.disks == [] then Disk(st.data, st.saved)
    else if writes <= |run.disks| then run.disks[writes - 1]
    else run.disks[|run.disks| - 1]
  }

  function Exec<R>(c: Codec<R>, prefix: string, ofApps: bool, st: State<R>, step: Step<R>): State<R> {
    match step
    case Complete(op, script) => RunOf(c, prefix, ofApps, st, op, script).st
    case Crash(op, script, writes) =>
      Reload(c, prefix, DiskAfter(st, RunOf(c, prefix, ofApps, st, op, script), writes))
    case Restart => Reload(c, prefix, Disk(st.data, st.saved))
    case ConfigSavedElsewhere => st.(saved := st.mem)
    case WrittenElsewhere(key, value) => st.(data := Foreign(st.data, prefix, key, value))
  }

  function ExecAll<R>(c: Codec<R>, prefix: string, ofApps: bool, st: State<R>, steps: seq<Step<R>>): State<R>
    decreases |steps|
  {
    if steps == [] then st
    else Exec(c, prefix, ofApps, ExecAll(c, prefix, ofApps, st, steps[..|steps| - 1]), steps[|steps| - 1])
  }

  function Empty<R>(): State<R> {
    State(map[], map[], map[], map[])
  }

  lemma AddressedDelete<R>(c: Codec<R>, prefix: string, data: KVData, key: string, o: Outcome)
    requires Addressed(c, prefix, data)
    ensures Addressed(c, prefix, DeleteKV(data, key, o))
  {
  }

  lemma IndexedPut<R(!new)>(c: Codec<R>, mem: Index, r: R)
    requires Indexed(c, mem)
    ensures Indexed(c, mem[c.id(r) := HashOf(c, r)])
  {
    NamesSelf(c, r);
  }

  lemma PutInv<R(!new)>(c: Codec<R>, prefix: string, ofApps: bool, st: State<R>, r: R, script: Script)
    requires Lawful(c) && Inv(c, prefix, st)
    ensures Inv(c, prefix, Put(c, prefix, ofApps, st, r, script).st)
  {
    var data1 := WriteKV(st.data, prefix + HashOf(c, r), Blob(c.encode(r)), script.kv);
    AddressedWrite(c, prefix, st.data, r, script.kv);
    AddressedDelete(c, prefix, data1, prefix + Listed(st.mem, c.id(r)), script.cleanup);
    RelistedIsUpdate(c, st.mem, c.id(r), HashOf(c, r), ofApps);
    IndexedPut(c, st.mem, r);
  }

  lemma PutDiskInv<R(!new)>(
      c: Codec<R>, prefix: string, ofApps: bool, st: State<R>, r: R, script: Script, n: nat)
    requires Lawful(c) && Inv(c, prefix, st)
    requires n < |Put(c, prefix, ofApps, st, r, script).disks|
    ensures DiskInv(c, prefix, Put(c, prefix, ofApps, st, r, script).disks[n])
  {
    PutDisk(c, prefix, ofApps, st, r, script, n);
    var data1 := WriteKV(st.data, prefix + HashOf(c, r), Blob(c.encode(r)), script.kv);
    AddressedWrite(c, prefix, st.data, r, script.kv);
    AddressedDelete(c, prefix, data1, prefix + Listed(st.mem, c.id(r)), script.cleanup);
    IndexedPut(c, st.mem, r);
  }

  lemma RemoveInv<R(!new)>(c: Codec<R>, prefix: string, st: State<R>, id: string, script: Script)
    requires Lawful(c) && Inv(c, prefix, st)
    ensures Inv(c, prefix, Remove(prefix, st, id, script).st)
  {
    AddressedDelete(c, prefix, st.data, prefix + Listed(st.mem, id), script.kv);
    assert Indexed(c, st.mem - {id});
  }

  lemma RemoveDiskInv<R(!new)>(c: Codec<R>, prefix: string, st: State<R>, id: string, script: Script, n: nat)
    requires Lawful(c) && Inv(c, prefix, st)
    requires n < |Remove(prefix, st, id, script).disks|
    ensures DiskInv(c, prefix, Remove(prefix, st, id, script).disks[n])
  {
    RemoveDisk(prefix, st, id, script, n);
    AddressedDelete(c, prefix, st.data, prefix + Listed(st.mem, id), script.kv);
    assert Indexed(c, st.mem - {id});
  }

  lemma DiskAfterInv<R(!new)>(
      c: Codec<R>, prefix: string, ofApps: bool, st: State<R>, op: Op<R>, script: Script, writes: nat)
    requires Lawful(c) && Inv(c, prefix, st)
    ensures DiskInv(c, prefix, DiskAfter(st, RunOf(c, prefix, ofApps, st, op, script), writes))
  {
    var run := RunOf(c, prefix, ofApps, st, op, script);
    if writes > 0 && run.disks != [] {
      var n := if writes <= |run.disks| then writes - 1 else |run.disks| - 1;
      match op {
        case PutOp(r) => PutDiskInv(c, prefix, ofApps, st, r, script, n);
        case RemoveOp(id) => RemoveDiskInv(c, prefix, st, id, script, n);
      }
    }
  }

  lemma ForeignKeepsAddresses<R>(c: Codec<R>, prefix: string, data: KVData, key: string, value: Option<Value>)
    requires Addressed(c, prefix, data)
    ensures Addressed(c, prefix, Foreign(data, prefix, key, value))
  {
    forall h: string ensures prefix + h == key ==> prefix <= key {
      assert (prefix + h)[..|prefix|] == prefix;
    }
  }

  lemma ExecInv<R(!new)>(c: Codec<R>, prefix: string, ofApps: bool, st: State<R>, step: Step<R>)
    requires Lawful(c) && Inv(c, prefix, st)
    ensures Inv(c, prefix, Exec(c, prefix, ofApps, st, step))
  {
    match step {
      case Complete(op, script) =>
        match op {
          case PutOp(r) => PutInv(c, prefix, ofApps, st, r, script);
          case RemoveOp(id) => RemoveInv(c, prefix, st, id, script);
        }
      case Crash(op, script, writes) =>
        DiskAfterInv(c, prefix, ofApps, st, op, script, writes);
      case Restart =>
      case ConfigSavedElsewhere =>
      case WrittenElsewhere(key, value) => ForeignKeepsAddresses(c, prefix, st.data, key, value);
    }
  }

  /** Content addressing and the naming of the lists survive any run, with any failures, crashes and restarts. */
  lemma {:induction false} ReachableInv<R(!new)>(c: Codec<R>, prefix: string, ofApps: bool, steps: seq<Step<R>>)
    requires Lawful(c)
    ensures Inv(c, prefix, ExecAll(c, prefix, ofApps, Empty(), steps))
    decreases |steps|
  {
    if steps != [] {
      ReachableInv(c, prefix, ofApps, steps[..|steps| - 1]);
      ExecInv(c, prefix, ofApps, ExecAll(c, prefix, ofApps, Empty(), steps[..|steps| - 1]),
              steps[|steps| - 1]);
    }
  }

  /** The effect of an operation on a plain map of records. */
  function Apply<R>(c: Codec<R>, m: map<string, R>, op: Op<R>): map<string, R> {
    match op
    case PutOp(r) => Update(m, c.id(r), ReadBack(c, r))
    case RemoveOp(id) => m - {id}
  }

  /** What a restart shows after an operation was stopped is the old records, or those with the operation applied. */
  ghost predicate OldOrNew<R>(
      c: Codec<R>, prefix: string, ofApps: bool, st: State<R>, op: Op<R>, script: Script, writes: nat)
  {
    var was := Recover(c, prefix, st.data, st.saved);
    var seen := Exec(c, prefix, ofApps, st, Crash(op, script, writes)).cache;
    seen == was || seen == Apply(c, was, op)
  }

  /**
    In every reachable store, whatever calls fail, stopping an operation after any number of its writes
    and restarting gives the old records, or the old records with the operation applied, or the records
    of the memory list with the operation applied. When the memory list is the persisted one, the last
    two are the same: old or new, and nothing in between.
   */
  lemma CrashAtomicity<R(!new)>(
      c: Codec<R>, prefix: string, ofApps: bool, steps: seq<Step<R>>,
      op: Op<R>, script: Script, writes: nat)
    requires Lawful(c)
    ensures var st := ExecAll(c, prefix, ofApps, Empty(), steps);
            && (OldOrNew(c, prefix, ofApps, st, op, script, writes) ||
                Exec(c, prefix, ofApps, st, Crash(op, script, writes)).cache ==
                Apply(c, Recover(c, prefix, st.data, st.mem), op))
            && (st.mem == st.saved ==> OldOrNew(c, prefix, ofApps, st, op, script, writes))
  {
    ReachableInv(c, prefix, ofApps, steps);
    var st := ExecAll(c, prefix, ofApps, Empty(), steps);
    var run := RunOf(c, prefix, ofApps, st, op, script);
    if writes > 0 && run.disks != [] {
      var n := if writes <= |run.disks| then writes - 1 else |run.disks| - 1;
      match op {
        case PutOp(r) => PutCrashes(c, prefix, ofApps, st, r, script, n);
        case RemoveOp(id) => RemoveCrashes(c, prefix, st, id, script, n);
      }
    }
  }

  function IdOf<R>(c: Codec<R>, op: Op<R>): string {
    match op
    case PutOp(r) => c.id(r)
    case RemoveOp(id) => id
  }

  ghost predicate AgreeElsewhere<R>(m: map<string, R>, m': map<string, R>, id: string) {
    forall k :: k != id ==> (k in m <==> k in m') && (k in m ==> m[k] == m'[k])
  }

  lemma ApplyAgrees<R>(c: Codec<R>, m: map<string, R>, m': map<string, R>, op: Op<R>)
    ensures Apply(c, m, op) == Apply(c, m', op) || Apply(c, m, op) == m' ==> AgreeElsewhere(m, m', IdOf(c, op))
    ensures AgreeElsewhere(m, m', IdOf(c, op)) ==> Apply(c, m, op) == Apply(c, m', op)
  {
    var id, n, n' := IdOf(c, op), Apply(c, m, op), Apply(c, m', op);
    assert forall k :: k != id ==> (k in n <==> k in m) && (k in m ==> n[k] == m[k]);
    assert forall k :: k != id ==> (k in n' <==> k in m') && (k in m' ==> n'[k] == m'[k]);
    assert id in n <==> id in n';
    assert id in n ==> n[id] == n'[id];
  }

  lemma SecondPutShows<R(!new)>(c: Codec<R>, prefix: string, ofApps: bool, st: State<R>, r: R)
    requires Lawful(c) && Indexed(c, st.mem)
    ensures var disks := Put(c, prefix, ofApps, st, r, FLAWLESS).disks;
            |disks| >= 2 && Seen(c, prefix, disks[1]) == Apply(c, Recover(c, prefix, st.data, st.mem), PutOp(r))
  {
    RelistedIsUpdate(c, st.mem, c.id(r), HashOf(c, r), ofApps);
    SeenAfterList(c, prefix, st.data, st.mem, r);
  }

  lemma SecondRemovalShows<R(!new)>(c: Codec<R>, prefix: string, ofApps: bool, st: State<R>, id: string)
    requires Lawful(c) && Indexed(c, st.mem) && !Refuses(ofApps, st, RemoveOp(id))
    ensures var disks := RunOf(c, prefix, ofApps, st, RemoveOp(id), FLAWLESS).disks;
            |disks| == 2 && Seen(c, prefix, disks[1]) == Recover(c, prefix, st.data, st.mem) - {id}
  {
    SeenAfterUnlist(c, prefix, st.data, st.mem, id, Fine);
  }

  /** After two writes of an operation without a failure, the list in memory is on the disk, the operation applied. */
  lemma SecondWriteShows<R(!new)>(c: Codec<R>, prefix: string, ofApps: bool, st: State<R>, op: Op<R>)
    requires Lawful(c) && Inv(c, prefix, st) && !Refuses(ofApps, st, op)
    ensures Exec(c, prefix, ofApps, st, Crash(op, FLAWLESS, 2)).cache ==
            Apply(c, Recover(c, prefix, st.data, st.mem), op)
  {
    match op {
      case PutOp(r) => SecondPutShows(c, prefix, ofApps, st, r);
      case RemoveOp(id) => SecondRemovalShows(c, prefix, ofApps, st, id);
    }
  }

  lemma RefusalChangesNothing<R>(c: Codec<R>, prefix: string, ofApps: bool, st: State<R>, op: Op<R>)
    requires Refuses(ofApps, st, op)
    ensures forall script, writes :: OldOrNew(c, prefix, ofApps, st, op, script, writes)
  {
  }

  /**
    Exactly when an operation is atomic: in a reachable store every way to stop it gives old or new if
    and only if it is refused, or the memory list and the persisted list show the same records for every
    other ID.
   */
  lemma CrashAtomicIff<R(!new)>(c: Codec<R>, prefix: string, ofApps: bool, steps: seq<Step<R>>, op: Op<R>)
    requires Lawful(c)
    ensures var st := ExecAll(c, prefix, ofApps, Empty(), steps);
            (forall script, writes :: OldOrNew(c, prefix, ofApps, st, op, script, writes)) <==>
            Refuses(ofApps, st, op) ||
            AgreeElsewhere(Recover(c, prefix, st.data, st.mem), Recover(c, prefix, st.data, st.saved), IdOf(c, op))
  {
    var st := ExecAll(c, prefix, ofApps, Empty(), steps);
    var inMemory, was := Recover(c, prefix, st.data, st.mem), Recover(c, prefix, st.data, st.saved);
    ReachableInv(c, prefix, ofApps, steps);
    ApplyAgrees(c, inMemory, was, op);
    if Refuses(ofApps, st, op) {
      RefusalChangesNothing(c, prefix, ofApps, st, op);
    } else if AgreeElsewhere(inMemory, was, IdOf(c, op)) {
      forall script, writes: nat
        ensures OldOrNew(c, prefix, ofApps, st, op, script, writes)
      {
        CrashAtomicity(c, prefix, ofApps, steps, op, script, writes);
      }
    } else {
      SecondWriteShows(c, prefix, ofApps, st, op);
      assert !OldOrNew(c, prefix, ofApps, st, op, FLAWLESS, 2);
    }
  }

  lemma AgreeTwice<R>(m: map<string, R>, m': map<string, R>, i: string, j: string)
    requires i != j
    ensures AgreeElsewhere(m, m', i) && AgreeElsewhere(m, m', j) ==> m == m'
  {
  }

  /** All operations are atomic if and only if the two lists show the same records, if there are two IDs at all. */
  lemma AllCrashAtomicIff<R(!new)>(c: Codec<R>, prefix: string, ofApps: bool, steps: seq<Step<R>>, r: R, s: R)
    requires Lawful(c) && c.id(r) != c.id(s)
    ensures var st := ExecAll(c, prefix, ofApps, Empty(), steps);
            (forall op, script, writes :: OldOrNew(c, prefix, ofApps, st, op, script, writes)) <==>
            Recover(c, prefix, st.data, st.mem) == Recover(c, prefix, st.data, st.saved)
  {
    var st := ExecAll(c, prefix, ofApps, Empty(), steps);
    var inMemory, was := Recover(c, prefix, st.data, st.mem), Recover(c, prefix, st.data, st.saved);
    if inMemory == was {
      forall op, script, writes: nat
        ensures OldOrNew(c, prefix, ofApps, st, op, script, writes)
      {
        CrashAtomicIff(c, prefix, ofApps, steps, op);
      }
    }
    CrashAtomicIff(c, prefix, ofApps, steps, PutOp(r));
    CrashAtomicIff(c, prefix, ofApps, steps, PutOp(s));
    AgreeTwice(inMemory, was, c.id(r), c.id(s));
  }

  /** A first record that is saved in memory, but whose list never reaches the disk. */
  lemma UnsavedRecord<R(!new)>(c: Codec<R>, prefix: string, ofApps: bool, r: R)
    requires Lawful(c) && c.valid(r)
    ensures var st := Put(c, prefix, ofApps, Empty(), r, FLAWLESS.(save := Lost)).st;
            && Recover(c, prefix, st.data, st.mem) == map[c.id(r) := r]
            && Recover(c, prefix, st.data, st.saved) == map[]
  {
    RelistedIsUpdate(c, map[], c.id(r), HashOf(c, r), ofApps);
    SeenAfterList(c, prefix, map[], map[], r);
    ReadBackValid(c, r);
    assert Recover(c, prefix, map[], map[]) == map[];
  }

  lemma {:induction false} ExecOne<R>(c: Codec<R>, prefix: string, ofApps: bool, step: Step<R>)
    ensures ExecAll(c, prefix, ofApps, Empty(), [step]) == Exec(c, prefix, ofApps, Empty(), step)
  {
    assert [step][..0] == [];
  }

  /**
    A store where it fails: a first record is saved, but its configuration never reaches the disk. Then a
    second record is saved, and stopped after two writes: the first record appears with the second.
   */
  lemma CrashShowsNeither<R(!new)>(c: Codec<R>, prefix: string, ofApps: bool, r: R, s: R)
    requires Lawful(c) && c.valid(r) && c.valid(s) && c.id(r) != c.id(s)
    ensures var st := ExecAll(c, prefix, ofApps, Empty(), [Complete(PutOp(r), FLAWLESS.(save := Lost))]);
            !OldOrNew(c, prefix, ofApps, st, PutOp(s), FLAWLESS, 2)
  {
    var step := Complete(PutOp(r), FLAWLESS.(save := Lost));
    var st := ExecAll(c, prefix, ofApps, Empty(), [step]);
    ExecOne(c, prefix, ofApps, step);
    ReachableInv(c, prefix, ofApps, [step]);
    UnsavedRecord(c, prefix, ofApps, r);
    SecondWriteShows(c, prefix, ofApps, st, PutOp(s));
    var inMemory: map<string, R>, was: map<string, R> := map[c.id(r) := r], map[];
    assert c.id(r) in inMemory && c.id(r) !in was;
    ApplyAgrees(c, inMemory, was, PutOp(s));
  }

  /** An operation that reports success has taken effect on the disk, and leaves the two lists equal. */
  lemma SuccessIsDurable<R(!new)>(
      c: Codec<R>, prefix: string, ofApps: bool, st: State<R>, op: Op<R>, script: Script)
    requires Lawful(c) && Inv(c, prefix, st)
    requires RunOf(c, prefix, ofApps, st, op, script).ok
    ensures var st' := RunOf(c, prefix, ofApps, st, op, script).st;
            && st'.mem == st'.saved
            && Recover(c, prefix, st'.data, st'.saved) == Apply(c, Recover(c, prefix, st.data, st.mem), op)
  {
    match op {
      case PutOp(r) =>
        RelistedIsUpdate(c, st.mem, c.id(r), HashOf(c, r), ofApps);
        SeenAfterList(c, prefix, st.data, st.mem, r);
        if HashOf(c, r) != Listed(st.mem, c.id(r)) {
          CleanupInvisible(c, prefix, st.data[prefix + HashOf(c, r) := Blob(c.encode(r))], st.mem, r, script.cleanup);
        }
      case RemoveOp(id) =>
        SeenAfterUnlist(c, prefix, st.data, st.mem, id, script.kv);
    }
  }

  // ---------------------------------------------------------------- the cache is a plain map

  /** The cache shows every listed record, and the store holds nothing else under the prefix. */
  ghost predicate Coherent<R(!new)>(c: Codec<R>, prefix: string, st: State<R>) {
    && Inv(c, prefix, st)
    && st.mem == st.saved
    && st.cache == Recover(c, prefix, st.data, st.mem)
    && st.cache.Keys == st.mem.Keys
    && forall h: string :: prefix + h in st.data ==> InUse(st.mem, h)
  }

  predicate InUse(index: Index, h: string) {
    exists id :: id in index && index[id] == h
  }

  lemma ReadBackValid<R(!new)>(c: Codec<R>, r: R)
    requires Lawful(c) && c.valid(r)
    ensures ReadBack(c, r) == Some(r)
  {
  }

  /** After a flawless Put, the blobs in use are those of the new list. */
  lemma PutLeavesNoGarbage<R(!new)>(c: Codec<R>, prefix: string, ofApps: bool, st: State<R>, r: R, h: string)
    requires Lawful(c) && Coherent(c, prefix, st)
    requires prefix + h in Put(c, prefix, ofApps, st, r, FLAWLESS).st.data
    ensures InUse(st.mem[c.id(r) := HashOf(c, r)], h)
  {
    var id, hash := c.id(r), HashOf(c, r);
    var updated := st.mem[id := hash];
    PrefixCancels(prefix, h, hash);
    if h == hash {
      assert updated[id] == h;
    } else {
      assert prefix + h in st.data;
      assert InUse(st.mem, h);
      var k :| k in st.mem && st.mem[k] == h;
      if k != id {
        assert updated[k] == h;
      }
    }
  }

  lemma PutRefines<R(!new)>(c: Codec<R>, prefix: string, ofApps: bool, st: State<R>, r: R)
    requires Lawful(c) && Coherent(c, prefix, st) && c.valid(r)
    ensures var run := Put(c, prefix, ofApps, st, r, FLAWLESS);
            run.ok && Coherent(c, prefix, run.st) && run.st.cache == st.cache[c.id(r) := r]
  {
    var run := Put(c, prefix, ofApps, st, r, FLAWLESS);
    PutInv(c, prefix, ofApps, st, r, FLAWLESS);
    RelistedIsUpdate(c, st.mem, c.id(r), HashOf(c, r), ofApps);
    ReadBackValid(c, r);
    SuccessIsDurable(c, prefix, ofApps, st, PutOp(r), FLAWLESS);
    assert run.st.mem == st.mem[c.id(r) := HashOf(c, r)];
    forall h: string | prefix + h in run.st.data ensures InUse(run.st.mem, h) {
      PutLeavesNoGarbage(c, prefix, ofApps, st, r, h);
    }
  }

  lemma RemoveLeavesNoGarbage<R(!new)>(c: Codec<R>, prefix: string, st: State<R>, id: string, h: string)
    requires Lawful(c) && Coherent(c, prefix, st)
    requires prefix + h in Remove(prefix, st, id, FLAWLESS).st.data
    ensures InUse(st.mem - {id}, h)
  {
    assert InUse(st.mem, h);
    var k :| k in st.mem && st.mem[k] == h;
    assert k in st.mem - {id} && (st.mem - {id})[k] == h;
  }

  lemma RemoveRefines<R(!new)>(c: Codec<R>, prefix: string, st: State<R>, id: string)
    requires Lawful(c) && Coherent(c, prefix, st)
    ensures var run := Remove(prefix, st, id, FLAWLESS);
            run.ok && Coherent(c, prefix, run.st) && run.st.cache == st.cache - {id}
  {
    var run := Remove(prefix, st, id, FLAWLESS);
    RemoveInv(c, prefix, st, id, FLAWLESS);
    SuccessIsDurable(c, prefix, false, st, RemoveOp(id), FLAWLESS);
    forall h: string | prefix + h in run.st.data ensures InUse(run.st.mem, h) {
      RemoveLeavesNoGarbage(c, prefix, st, id, h);
    }
  }

  /**
    A step without an error: a flawless operation on a valid record, a restart, or something that happens
    elsewhere in the plugin.
   */
  predicate Undisturbed<R>(c: Codec<R>, step: Step<R>) {
    match step
    case Complete(op, script) => script == FLAWLESS && (op.PutOp? ==> c.valid(op.r))
    case Crash(_, _, _) => false
    case _ => true
  }

  predicate AllUndisturbed<R>(c: Codec<R>, steps: seq<Step<R>>) {
    forall i :: 0 <= i < |steps| ==> Undisturbed(c, steps[i])
  }

  /** The plain map of a run: only its own operations count. */
  function MapAfter<R>(c: Codec<R>, steps: seq<Step<R>>): map<string, R>
    decreases |steps|
  {
    if steps == [] then map[]
    else
      var m := MapAfter(c, steps[..|steps| - 1]);
      match steps[|steps| - 1]
      case Complete(PutOp(r), _) => m[c.id(r) := r]
      case Complete(RemoveOp(id), _) => m - {id}
      case _ => m
  }

  lemma ForeignIsInvisible(data: KVData, prefix: string, key: string, value: Option<Value>, h: string)
    ensures var after := Foreign(data, prefix, key, value);
            && (prefix + h in after <==> prefix + h in data)
            && (prefix + h in data ==> after[prefix + h] == data[prefix + h])
  {
    assert (prefix + h)[..|prefix|] == prefix;
  }

  /** What other components write changes nothing that this store shows. */
  lemma ForeignKeepsCoherent<R(!new)>(
      c: Codec<R>, prefix: string, st: State<R>, key: string, value: Option<Value>)
    requires Coherent(c, prefix, st)
    ensures Coherent(c, prefix, st.(data := Foreign(st.data, prefix, key, value)))
  {
    var data := Foreign(st.data, prefix, key, value);
    ForeignKeepsAddresses(c, prefix, st.data, key, value);
    forall k ensures View(c, prefix, data, st.mem, k) == View(c, prefix, st.data, st.mem, k) {
      if k in st.mem {
        ForeignIsInvisible(st.data, prefix, key, value, st.mem[k]);
      }
    }
    RecoverSame(c, prefix, st.data, st.mem, data, st.mem);
    forall h: string | prefix + h in data ensures InUse(st.mem, h) {
      ForeignIsInvisible(st.data, prefix, key, value, h);
    }
  }

  /** In a coherent store a refused removal is one of an ID that is not there. */
  lemma RemovalRefines<R(!new)>(c: Codec<R>, prefix: string, ofApps: bool, st: State<R>, id: string)
    requires Lawful(c) && Coherent(c, prefix, st)
    ensures var st' := RunOf(c, prefix, ofApps, st, RemoveOp(id), FLAWLESS).st;
            Coherent(c, prefix, st') && st'.cache == st.cache - {id}
  {
    if Refuses(ofApps, st, RemoveOp(id)) {
      assert id !in st.cache;
    } else {
      RemoveRefines(c, prefix, st, id);
    }
  }

  lemma StepRefines<R(!new)>(c: Codec<R>, prefix: string, ofApps: bool, st: State<R>, step: Step<R>)
    requires Lawful(c) && Coherent(c, prefix, st) && Undisturbed(c, step)
    ensures var st' := Exec(c, prefix, ofApps, st, step);
            && Coherent(c, prefix, st')
            && st'.cache == match step
                            case Complete(PutOp(r), _) => st.cache[c.id(r) := r]
                            case Complete(RemoveOp(id), _) => st.cache - {id}
                            case _ => st.cache
  {
    match step {
      case Complete(PutOp(r), _) => PutRefines(c, prefix, ofApps, st, r);
      case Complete(RemoveOp(id), _) => RemovalRefines(c, prefix, ofApps, st, id);
      case WrittenElsewhere(key, value) => ForeignKeepsCoherent(c, prefix, st, key, value);
      case _ =>
    }
  }

  /**
    After any run of error-free operations on valid records, with restarts and whatever the rest of the
    plugin does in between, the cache is the plain map of that run.
   */
  lemma {:induction false} CacheRefinesMap<R(!new)>(c: Codec<R>, prefix: string, ofApps: bool, steps: seq<Step<R>>)
    requires Lawful(c) && AllUndisturbed(c, steps)
    ensures var st := ExecAll(c, prefix, ofApps, Empty(), steps);
            Coherent(c, prefix, st) && st.cache == MapAfter(c, steps)
    decreases |steps|
  {
    if steps == [] {
      assert Recover(c, prefix, map[], map[]) == map[];
    } else {
      var n := |steps| - 1;
      CacheRefinesMap(c, prefix, ofApps, steps[..n]);
      StepRefines(c, prefix, ofApps, ExecAll(c, prefix, ofApps, Empty(), steps[..n]), steps[n]);
    }
  }

  /** Save does not validate: the new record survives a restart exactly when reading it back gives it back. */
  lemma PutSurvivesRestartIff<R(!new)>(c: Codec<R>, prefix: string, ofApps: bool, st: State<R>, r: R)
    requires Lawful(c) && Coherent(c, prefix, st)
    ensures var st' := Put(c, prefix, ofApps, st, r, FLAWLESS).st;
            Reload(c, prefix, Disk(st'.data, st'.saved)).cache == st'.cache <==> ReadBack(c, r) == Some(r)
  {
    SuccessIsDurable(c, prefix, ofApps, st, PutOp(r), FLAWLESS);
    var st' := Put(c, prefix, ofApps, st, r, FLAWLESS).st;
    assert st'.cache == st.cache[c.id(r) := r];
    if Update(st.cache, c.id(r), ReadBack(c, r)) == st'.cache {
      assert c.id(r) in st'.cache && st'.cache[c.id(r)] == r;
    }
  }

  /** After any such run, a restart changes nothing. */
  lemma RestartChangesNothing<R(!new)>(c: Codec<R>, prefix: string, ofApps: bool, steps: seq<Step<R>>)
    requires Lawful(c) && AllUndisturbed(c, steps)
    ensures var st := ExecAll(c, prefix, ofApps, Empty(), steps);
            Exec(c, prefix, ofApps, st, Restart) == st
  {
    CacheRefinesMap(c, prefix, ofApps, steps);
  }

  /** In a coherent store, each listed record has its own blob, and each blob its own listed record. */
  lemma OneBlobPerRecord<R(!new)>(c: Codec<R>, prefix: string, st: State<R>, h: string)
    requires Lawful(c) && Coherent(c, prefix, st)
    ensures prefix + h in st.data <==> InUse(st.mem, h)
    ensures forall i, j :: i in st.mem && j in st.mem && st.mem[i] == h && st.mem[j] == h ==> i == j
  {
    if InUse(st.mem, h) {
      var id :| id in st.mem && st.mem[id] == h;
      assert id in st.cache;
    }
    forall i, j | i in st.mem && j in st.mem && st.mem[i] == h && st.mem[j] == h ensures i == j {
      NamesInjective(c, i, j, h);
    }
  }
}

/**
  What writing or removing the record of one app means for the records of the others
  (server/store/apps.go:159-253).
 */
module AppRecords {
  import opened Wrappers
  import opened Bindings
  import opened Records
  import opened ContentStore
  import opened AppStores

  predicate SameAt(before: KVData, after: KVData, k: string) {
    (k in before <==> k in after) && (k in before ==> after[k] == before[k])
  }

  predicate SameEntry(a: Index, b: Index, id: AppID) {
    (id in a <==> id in b) && (id in a ==> b[id] == a[id])
  }

  /** The lists have the same entries for every other app; a persisted entry may also come from memory. */
  ghost predicate ListsKept(st: State<App>, st': State<App>, appID: AppID) {
    forall id :: id != appID ==>
      && SameEntry(st.mem, st'.mem, id)
      && (SameEntry(st.saved, st'.saved, id) || SameEntry(st.mem, st'.saved, id))
  }

  /** Every blob that another app's ID may be listed with is there as before. */
  ghost predicate BlobsKept(c: Codec<App>, before: KVData, after: KVData, appID: AppID) {
    forall id, h :: id != appID && Names(c, id, h) ==> SameAt(before, after, APP_PREFIX + h)
  }

  ghost predicate CacheKept(before: map<AppID, App>, after: map<AppID, App>, appID: AppID) {
    forall id :: id != appID ==> (id in before <==> id in after) && (id in before ==> after[id] == before[id])
  }

  /** Whatever is done to one app, the records of all others are the same. */
  ghost predicate OthersKept(c: Codec<App>, st: State<App>, st': State<App>, appID: AppID) {
    ListsKept(st, st', appID) && BlobsKept(c, st.data, st'.data, appID) && CacheKept(st.cache, st'.cache, appID)
  }

  lemma OthersKeptTwice(c: Codec<App>, st: State<App>, st': State<App>, st'': State<App>, appID: AppID)
    requires OthersKept(c, st, st', appID) && OthersKept(c, st', st'', appID)
    ensures OthersKept(c, st, st'', appID)
  {
    forall id, h | id != appID && Names(c, id, h)
      ensures SameAt(st.data, st''.data, APP_PREFIX + h)
    {
      assert SameAt(st.data, st'.data, APP_PREFIX + h) && SameAt(st'.data, st''.data, APP_PREFIX + h);
    }
    forall id | id != appID
      ensures SameEntry(st.mem, st''.mem, id)
      ensures SameEntry(st.saved, st''.saved, id) || SameEntry(st.mem, st''.saved, id)
    {
      assert SameEntry(st.mem, st'.mem, id) && SameEntry(st'.mem, st''.mem, id);
    }
  }

  /** A step that changes neither lists nor cache, nor any blob of a record. */
  ghost predicate SameRecords(before: KVData, after: KVData) {
    forall h: string :: SameAt(before, after, APP_PREFIX + h)
  }

  lemma SameRecordsKept(c: Codec<App>, st: State<App>, data: KVData, appID: AppID)
    requires ContentStore.Inv(c, APP_PREFIX, st) && SameRecords(st.data, data)
    ensures ContentStore.Inv(c, APP_PREFIX, st.(data := data))
    ensures OthersKept(c, st, st.(data := data), appID)
  {
    forall h: string | APP_PREFIX + h in data
      ensures data[APP_PREFIX + h].Blob? && c.sha(data[APP_PREFIX + h].data) == h
    {
      assert SameAt(st.data, data, APP_PREFIX + h);
    }
    assert SameEntry(st.mem, st.mem, appID);
  }

  /** The blob of one app, or none, is no other app's. */
  lemma AnotherBlob(c: Codec<App>, appID: AppID, hash: string, id: AppID, h: string)
    requires Lawful(c) && (hash == "" || Names(c, appID, hash)) && id != appID && Names(c, id, h)
    ensures APP_PREFIX + h != APP_PREFIX + hash
  {
    NamesInjective(c, id, id, h);
    ContentStore.PrefixCancels(APP_PREFIX, h, hash);
    if h == hash {
      NamesInjective(c, id, appID, h);
    }
  }

  lemma WriteKeepsBlobs(c: Codec<App>, data: KVData, appID: AppID, hash: string, v: Value, o: Outcome)
    requires Lawful(c) && Names(c, appID, hash)
    ensures BlobsKept(c, data, WriteKV(data, APP_PREFIX + hash, v, o), appID)
  {
    forall id, h | id != appID && Names(c, id, h)
      ensures SameAt(data, WriteKV(data, APP_PREFIX + hash, v, o), APP_PREFIX + h)
    {
      AnotherBlob(c, appID, hash, id, h);
    }
  }

  lemma DeleteKeepsBlobs(c: Codec<App>, data: KVData, appID: AppID, hash: string, o: Outcome)
    requires Lawful(c) && (hash == "" || Names(c, appID, hash))
    ensures BlobsKept(c, data, DeleteKV(data, APP_PREFIX + hash, o), appID)
  {
    forall id, h | id != appID && Names(c, id, h)
      ensures SameAt(data, DeleteKV(data, APP_PREFIX + hash, o), APP_PREFIX + h)
    {
      AnotherBlob(c, appID, hash, id, h);
    }
  }

  lemma BlobsKeptTwice(c: Codec<App>, before: KVData, between: KVData, after: KVData, appID: AppID)
    requires BlobsKept(c, before, between, appID) && BlobsKept(c, between, after, appID)
    ensures BlobsKept(c, before, after, appID)
  {
    forall id, h | id != appID && Names(c, id, h)
      ensures SameAt(before, after, APP_PREFIX + h)
    {
      assert SameAt(before, between, APP_PREFIX + h) && SameAt(between, after, APP_PREFIX + h);
    }
  }

  lemma UpdatedEntries(st: State<App>, st': State<App>, appID: AppID, hash: string)
    requires st'.mem in {st.mem, st.mem[appID := hash], st.mem - {appID}}
    requires st'.saved in {st.saved, st'.mem}
    ensures ListsKept(st, st', appID)
  {
    forall id | id != appID
      ensures SameEntry(st.mem, st'.mem, id)
      ensures SameEntry(st.saved, st'.saved, id) || SameEntry(st.mem, st'.saved, id)
    {
      if st'.saved == st.saved {
        assert SameEntry(st.saved, st'.saved, id);
      }
    }
  }

  /** Saving a record touches two blobs and one entry, all of its own app. */
  lemma PutKeepsOthers(c: Codec<App>, st: State<App>, app: App, script: Script)
    requires Lawful(c) && AppCodec(c) && ContentStore.Inv(c, APP_PREFIX, st)
    ensures OthersKept(c, st, Put(c, APP_PREFIX, true, st, app, script).st, app.appID)
  {
    var st', hash, previous := Put(c, APP_PREFIX, true, st, app, script).st, HashOf(c, app), Listed(st.mem, app.appID);
    RelistedIsUpdate(c, st.mem, app.appID, hash, true);
    UpdatedEntries(st, st', app.appID, hash);
    NamesSelf(c, app);
    ListedNames(c, st.mem, app.appID);
    var data := WriteKV(st.data, APP_PREFIX + hash, Blob(c.encode(app)), script.kv);
    WriteKeepsBlobs(c, st.data, app.appID, hash, Blob(c.encode(app)), script.kv);
    DeleteKeepsBlobs(c, data, app.appID, previous, script.cleanup);
    BlobsKeptTwice(c, st.data, data, DeleteKV(data, APP_PREFIX + previous, script.cleanup), app.appID);
  }

  lemma RemoveKeepsOthers(c: Codec<App>, st: State<App>, appID: AppID, script: Script)
    requires Lawful(c) && ContentStore.Inv(c, APP_PREFIX, st)
    ensures OthersKept(c, st, Remove(APP_PREFIX, st, appID, script).st, appID)
  {
    UpdatedEntries(st, Remove(APP_PREFIX, st, appID, script).st, appID, "");
    ListedNames(c, st.mem, appID);
    DeleteKeepsBlobs(c, st.data, appID, Listed(st.mem, appID), script.kv);
  }

  lemma ViewKept(c: Codec<App>, st: State<App>, st': State<App>, appID: AppID, index: Index, index': Index, id: AppID)
    requires BlobsKept(c, st.data, st'.data, appID) && Indexed(c, index) && SameEntry(index, index', id) && id != appID
    ensures View(c, APP_PREFIX, st'.data, index', id) == View(c, APP_PREFIX, st.data, index, id)
  {
    if id in index {
      assert Names(c, id, index[id]);
      assert SameAt(st.data, st'.data, APP_PREFIX + index[id]);
    }
  }

  /**
    Another app's record stays: in the cache, in the view of the memory list, and after a restart, which
    shows it as the persisted list or the one in memory did.
   */
  lemma OtherRecordStays(c: Codec<App>, st: State<App>, st': State<App>, a: AppID, b: AppID)
    requires ContentStore.Inv(c, APP_PREFIX, st) && OthersKept(c, st, st', a) && b != a
    ensures b in st.cache <==> b in st'.cache
    ensures b in st.cache ==> st'.cache[b] == st.cache[b]
    ensures View(c, APP_PREFIX, st'.data, st'.mem, b) == View(c, APP_PREFIX, st.data, st.mem, b)
    ensures View(c, APP_PREFIX, st'.data, st'.saved, b) in
            {View(c, APP_PREFIX, st.data, st.saved, b), View(c, APP_PREFIX, st.data, st.mem, b)}
  {
    ViewKept(c, st, st', a, st.mem, st'.mem, b);
    if SameEntry(st.saved, st'.saved, b) {
      ViewKept(c, st, st', a, st.saved, st'.saved, b);
    } else {
      ViewKept(c, st, st', a, st.mem, st'.saved, b);
    }
  }

  /** The record is on disk as it will be read after a restart, and the two lists are the same. */
  ghost predicate Persisted(c: Codec<App>, st: State<App>, app: App) {
    st.mem == st.saved && View(c, APP_PREFIX, st.data, st.saved, app.appID) == ReadBack(c, app)
  }

  lemma SavedIsPersisted(c: Codec<App>, st: State<App>, app: App, script: Script)
    requires Lawful(c) && AppCodec(c) && ContentStore.Inv(c, APP_PREFIX, st)
    requires Put(c, APP_PREFIX, true, st, app, script).ok
    ensures Persisted(c, Put(c, APP_PREFIX, true, st, app, script).st, app)
  {
    var st' := Put(c, APP_PREFIX, true, st, app, script).st;
    SuccessIsDurable(c, APP_PREFIX, true, st, PutOp(app), script);
    var m := Recover(c, APP_PREFIX, st'.data, st'.saved);
    assert m == Update(Recover(c, APP_PREFIX, st.data, st.mem), app.appID, ReadBack(c, app));
    assert app.appID in m <==> View(c, APP_PREFIX, st'.data, st'.saved, app.appID).Some?;
  }

  /** Save, whatever fails, keeps the store addressed and the other records; without a failure the record is on disk. */
  lemma SaveIsSound(c: Codec<App>, st: State<App>, app: App, script: Script)
    requires Lawful(c) && AppCodec(c) && ContentStore.Inv(c, APP_PREFIX, st)
    ensures var run := Put(c, APP_PREFIX, true, st, app, script);
            && ContentStore.Inv(c, APP_PREFIX, run.st) && OthersKept(c, st, run.st, app.appID)
            && (run.ok ==> Persisted(c, run.st, app))
  {
    PutInv(c, APP_PREFIX, true, st, app, script);
    PutKeepsOthers(c, st, app, script);
    if Put(c, APP_PREFIX, true, st, app, script).ok {
      SavedIsPersisted(c, st, app, script);
    }
  }

  // ---------------------------------------------------------------- a removal that stops half-way

  /** App.Delete has taken the record away: from the store and the cache, and from the lists as far as it got. */
  ghost predicate RecordGone(st: State<App>, st': State<App>, appID: AppID, script: Script) {
    && appID in st.mem && st'.cache == st.cache - {appID}
    && APP_PREFIX + st.mem[appID] !in st'.data
    && st'.mem == (if script.reconfigure then st.mem - {appID} else st.mem)
    && st'.saved == if script.reconfigure && !script.save.Lost? then st.mem - {appID} else st.saved
  }

  ghost predicate ListsSame(st: State<App>, st': State<App>) {
    st'.cache == st.cache && st'.mem == st.mem && st'.saved == st.saved
  }

  /** When App.Delete fails, the record is gone exactly if the first of its calls, on the blob, succeeded. */
  lemma DeletionOutcome(c: Codec<App>, st: State<App>, appID: AppID, script: Script)
    requires Lawful(c) && ContentStore.Inv(c, APP_PREFIX, st)
    ensures var run := Deletion(APP_PREFIX, st, appID, script);
            && ContentStore.Inv(c, APP_PREFIX, run.st) && OthersKept(c, st, run.st, appID)
            && (run.ok <==>
                appID in st.cache && appID in st.mem && script.kv.Fine? && script.reconfigure && script.save.Fine?)
            && (if appID in st.cache && appID in st.mem && script.kv.Fine?
                then RecordGone(st, run.st, appID, script) else ListsSame(st, run.st))
  {
    RemoveInv(c, APP_PREFIX, st, appID, script);
    RemoveKeepsOthers(c, st, appID, script);
    assert SameEntry(st.mem, st.mem, appID);
  }

  /**
    Such an app is gone although a failure is reported: Get does not find it, and neither does a restart,
    if the two lists agreed on it before.
   */
  lemma GoneForGood(c: Codec<App>, st: State<App>, appID: AppID, script: Script)
    requires Lawful(c) && ContentStore.Inv(c, APP_PREFIX, st) && appID in st.cache && appID in st.mem
    requires script.kv.Fine? && !(script.reconfigure && script.save.Fine?)
    ensures var run := Deletion(APP_PREFIX, st, appID, script);
            && !run.ok && appID !in run.st.cache
            && View(c, APP_PREFIX, run.st.data, run.st.mem, appID) == None
            && (SameEntry(st.mem, st.saved, appID) ==>
                  View(c, APP_PREFIX, run.st.data, run.st.saved, appID) == None)
  {
    DeletionOutcome(c, st, appID, script);
  }
}

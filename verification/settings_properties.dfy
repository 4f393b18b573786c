/** What the settings store promises, stated over the functions of module
    Settings, and the places where the code as written departs from the
    evident intent, each with the corrected definition beside it. */
module SettingsProperties {
  import opened Values
  import opened Settings

  /** With `storageLocation` unset or "local", reading returns the local
      area unchanged whatever the sync area holds. */
  lemma LocalModeIgnoresSync(local: Record, sync1: Record, sync2: Record)
    requires ModeOf(local) == Local
    ensures AllItems(Storage(local, sync1)) == local
    ensures AllItems(Storage(local, sync2)) == AllItems(Storage(local, sync1))
  {
  }

  /** In Local mode a write replaces the local area and leaves sync alone. */
  lemma LocalModeWrite(st: Storage, keys: set<string>, rec: Record)
    requires Mode(st) == Local
    ensures Written(st, keys, rec).local == rec
    ensures Written(st, keys, rec).sync == st.sync
  {
  }

  /** In Sync mode a write sends every key to exactly one area, unchanged:
      local-only keys to local, all others to sync; nothing is lost. */
  lemma SyncModeWriteSplits(st: Storage, keys: set<string>, rec: Record)
    requires Mode(st) == Sync
    ensures var w := Written(st, keys, rec);
      && w.local.Keys == rec.Keys * keys
      && w.sync.Keys == rec.Keys - keys
      && (forall k :: k in w.sync ==> !IsLocalOnly(keys, k) && w.sync[k] == rec[k])
      && (forall k :: k in w.local ==> IsLocalOnly(keys, k) && w.local[k] == rec[k])
      && w.sync + w.local == rec
  {
  }

  /** Writing `rec` and reading back gives `rec`, provided the record's own
      `storageLocation` agrees with the mode in effect and, in Sync mode,
      `storageLocation` is local-only (so that the mode survives the split). */
  lemma {:induction false} RoundTrip(st: Storage, keys: set<string>, rec: Record)
    requires ModeOf(rec) == Mode(st)
    requires Mode(st) == Sync ==> IsLocalOnly(keys, StorageLocationKey)
    ensures AllItems(Written(st, keys, rec)) == rec
  {
    var w := Written(st, keys, rec);
    if Mode(st) == Sync {
      assert w.local == LocalHalf(rec, keys);
      assert Lookup(w.local, StorageLocationKey) == Lookup(rec, StorageLocationKey);
      assert ModeOf(w.local) == Sync;
      SyncModeWriteSplits(st, keys, rec);
    }
  }

  /** `setLocation(Sync)` from Local mode: sync becomes the old local record
      overridden by the old sync record, local becomes the old local record
      marked "sync", and reading then yields every key of both old areas,
      the old local values winning. */
  lemma RelocateToSyncFromLocal(st: Storage, keys: set<string>)
    requires Mode(st) == Local
    ensures var r := Relocated(st, keys, Sync);
      && r.sync == st.local + st.sync
      && r.local == st.local[StorageLocationKey := Str("sync")]
      && Mode(r) == Sync
      && AllItems(r).Keys == st.local.Keys + st.sync.Keys + {StorageLocationKey}
      && AllItems(r)[StorageLocationKey] == Str("sync")
      && (forall k :: k in st.local && k != StorageLocationKey ==> AllItems(r)[k] == st.local[k])
      && (forall k :: k in st.sync && k !in st.local && k != StorageLocationKey ==> AllItems(r)[k] == st.sync[k])
  {
    var r := Relocated(st, keys, Sync);
    assert r.local == st.local[StorageLocationKey := Str("sync")];
    assert Lookup(r.local, StorageLocationKey) == Some(Str("sync"));
  }

  /** In Local mode, removing `k` leaves the local area minus `k` and
      touches nothing else, whether or not `k` is local-only. */
  lemma RemoveInLocalMode(st: Storage, keys: set<string>, k: string)
    requires Mode(st) == Local
    ensures Removed(st, keys, k) == Some(Storage(st.local - {k}, st.sync))
  {
  }

  /** In Sync mode, removing a key rewrites BOTH areas from the one area it
      read: the other area's contents are replaced by the matching half of
      that copy. */
  lemma RemoveInSyncMode(st: Storage, keys: set<string>, k: string)
    requires Mode(st) == Sync
    requires RemovalArea(st, keys, k).Some?
    ensures var area := StorageData(st, RemovalArea(st, keys, k).value) - {k};
      Removed(st, keys, k) == Some(Storage(LocalHalf(area, keys), SyncHalf(area, keys)))
  {
  }

  // ---------------------------------------------------------------------
  // The local-only membership test.

  /** As written, no key is local-only: a Sync-mode write puts the tokens in
      the sync area and empties the local area, which loses the Sync
      preference itself, so the record no longer reads back. */
  lemma AsWrittenSyncWriteLeaksToken()
    ensures var st := Storage(map[StorageLocationKey := Str("sync")], map[]);
      var rec := map[StorageLocationKey := Str("sync"), "dropboxToken" := Str("t")];
      var w := Written(st, AsWrittenLocalOnlyKeys, rec);
      && "dropboxToken" in w.sync
      && w.local == map[]
      && Mode(w) == Local
      && AllItems(w) != rec
  {
    var st := Storage(map[StorageLocationKey := Str("sync")], map[]);
    var rec := map[StorageLocationKey := Str("sync"), "dropboxToken" := Str("t")];
    var w := Written(st, AsWrittenLocalOnlyKeys, rec);
    assert Mode(st) == Sync;
    assert w.local == map[];
    assert "dropboxToken" in rec;
  }

  /** With the declared local-only fields, a Sync-mode write keeps every
      token, refresh token and revoked flag out of the sync area and the
      record reads back unchanged. */
  lemma DeclaredKeysSyncWrite(st: Storage, rec: Record)
    requires Mode(st) == Sync && ModeOf(rec) == Sync
    ensures forall k :: k in Written(st, LocalOnlyKeys, rec).sync ==> k !in LocalOnlyKeys
    ensures AllItems(Written(st, LocalOnlyKeys, rec)) == rec
  {
    SyncModeWriteSplits(st, LocalOnlyKeys, rec);
    RoundTrip(st, LocalOnlyKeys, rec);
  }

  // ---------------------------------------------------------------------
  // setLocation.

  /** As written, switching to Sync copies every local key, tokens
      included, into the sync area. */
  lemma AsWrittenRelocateCopiesSecrets(st: Storage, keys: set<string>, k: string)
    requires Mode(st) == Local
    requires k in st.local && IsLocalOnly(keys, k)
    ensures k in Relocated(st, keys, Sync).sync
  {
    RelocateToSyncFromLocal(st, keys);
  }

  /** As written, switching from Sync back to Local loses the syncable
      settings: the final write still runs in Sync mode and overwrites both
      areas from the old local record alone. This holds with the declared
      local-only keys and with the empty set the membership test sees at
      run time (then even the location marker goes to the sync area). */
  lemma AsWrittenRelocateToLocalLosesSettings()
    ensures var st := Storage(map[StorageLocationKey := Str("sync")], map["theme" := Str("dark")]);
      var r := Relocated(st, LocalOnlyKeys, Local);
      && AllItems(r) == map[StorageLocationKey := Str("local")]
      && "theme" !in AllItems(r)
    ensures var st := Storage(map[StorageLocationKey := Str("sync")], map["theme" := Str("dark")]);
      AllItems(Relocated(st, AsWrittenLocalOnlyKeys, Local)) == map[]
  {
    var st := Storage(map[StorageLocationKey := Str("sync")], map["theme" := Str("dark")]);
    var merged := Storage(st.sync + st.local, st.sync);
    assert Mode(merged) == Sync;
    var rec := st.local[StorageLocationKey := Str("local")];
    assert rec == map[StorageLocationKey := Str("local")];
    var r := Relocated(st, LocalOnlyKeys, Local);
    assert r == Storage(LocalHalf(rec, LocalOnlyKeys), SyncHalf(rec, LocalOnlyKeys));
    assert LocalHalf(rec, LocalOnlyKeys) == rec;
    assert Mode(r) == Local;
    var r' := Relocated(st, AsWrittenLocalOnlyKeys, Local);
    assert r' == Storage(LocalHalf(rec, AsWrittenLocalOnlyKeys), SyncHalf(rec, AsWrittenLocalOnlyKeys));
    assert LocalHalf(rec, AsWrittenLocalOnlyKeys) == map[];
  }

  /** The record a migration is meant to preserve: both areas merged with
      the source's precedence, marked with the new location. */
  function Migrated(st: Storage, loc: Location): Record {
    (if loc == Sync then st.local + st.sync else st.sync + st.local)
      [StorageLocationKey := Str(LocationName(loc))]
  }

  /** The evidently intended migration: the merged record is written as a
      whole in the new mode (split when the target is Sync). */
  function IntendedRelocated(st: Storage, keys: set<string>, loc: Location): Storage {
    var merged := Migrated(st, loc);
    match loc
    case Local => Storage(merged, st.sync)
    case Sync => Storage(LocalHalf(merged, keys), SyncHalf(merged, keys))
  }

  /** Intended migration to Sync: every setting of both areas reads back
      and no local-only key reaches the sync area. */
  lemma {:induction false} IntendedRelocateToSync(st: Storage, keys: set<string>)
    requires IsLocalOnly(keys, StorageLocationKey)
    ensures AllItems(IntendedRelocated(st, keys, Sync)) == Migrated(st, Sync)
    ensures forall k :: k in IntendedRelocated(st, keys, Sync).sync ==> !IsLocalOnly(keys, k)
  {
    var merged := Migrated(st, Sync);
    var r := IntendedRelocated(st, keys, Sync);
    assert ModeOf(merged) == Sync;
    RoundTrip(Storage(map[StorageLocationKey := Str("sync")], map[]), keys, merged);
    assert Written(Storage(map[StorageLocationKey := Str("sync")], map[]), keys, merged) == r;
  }

  /** Intended migration to Local: every setting of both areas reads back
      from the local area. */
  lemma IntendedRelocateToLocal(st: Storage, keys: set<string>)
    ensures AllItems(IntendedRelocated(st, keys, Local)) == Migrated(st, Local)
    ensures Migrated(st, Local).Keys == st.local.Keys + st.sync.Keys + {StorageLocationKey}
  {
    var merged := Migrated(st, Local);
    assert Lookup(merged, StorageLocationKey) == Some(Str("local"));
  }

  // ---------------------------------------------------------------------
  // removeItem.

  /** As written, removing a token in Sync mode loses the syncable settings.
      With the declared local-only keys the local copy is read and the sync
      area is emptied, so the syncable settings of every device are lost.
      With the empty set the membership test sees at run time the sync copy
      is read and the local area is emptied: the Sync preference goes, the
      store falls back to Local mode and reads as empty. */
  lemma AsWrittenRemoveWipesSync()
    ensures var st := Storage(map[StorageLocationKey := Str("sync"), "dropboxToken" := Str("t")],
                              map["theme" := Str("dark")]);
      var r := Removed(st, LocalOnlyKeys, "dropboxToken");
      && r == Some(Storage(map[StorageLocationKey := Str("sync")], map[]))
      && "theme" !in AllItems(r.value)
    ensures var st := Storage(map[StorageLocationKey := Str("sync"), "dropboxToken" := Str("t")],
                              map["theme" := Str("dark")]);
      var r := Removed(st, AsWrittenLocalOnlyKeys, "dropboxToken");
      && r == Some(Storage(map[], map["theme" := Str("dark")]))
      && Mode(r.value) == Local
      && AllItems(r.value) == map[]
  {
    var st := Storage(map[StorageLocationKey := Str("sync"), "dropboxToken" := Str("t")],
                      map["theme" := Str("dark")]);
    var copy := st.local - {"dropboxToken"};
    assert copy == map[StorageLocationKey := Str("sync")];
    assert LocalHalf(copy, LocalOnlyKeys) == copy;
    assert SyncHalf(copy, LocalOnlyKeys) == map[];
    assert RemovalArea(st, AsWrittenLocalOnlyKeys, "dropboxToken") == Some(Sync);
    var copy' := st.sync - {"dropboxToken"};
    assert copy' == map["theme" := Str("dark")];
    assert LocalHalf(copy', AsWrittenLocalOnlyKeys) == map[];
    assert SyncHalf(copy', AsWrittenLocalOnlyKeys) == copy';
  }

  /** A Sync-mode store whose areas hold exactly what a split write puts
      there. */
  predicate WellSplit(st: Storage, keys: set<string>) {
    && (forall k :: k in st.local ==> IsLocalOnly(keys, k))
    && (forall k :: k in st.sync ==> !IsLocalOnly(keys, k))
  }

  /** The evidently intended removal: delete `k` from the one area it is
      read from and leave the other area as it is. */
  function IntendedRemoved(st: Storage, keys: set<string>, k: string): Option<Storage> {
    match RemovalArea(st, keys, k)
    case None => None
    case Some(Local) => Some(Storage(st.local - {k}, st.sync))
    case Some(Sync) => Some(Storage(st.local, st.sync - {k}))
  }

  /** Intended removal in a well-split Sync-mode store: exactly `k`
      disappears from what reading returns. */
  lemma IntendedRemoveDropsOnlyKey(st: Storage, keys: set<string>, k: string)
    requires Mode(st) == Sync && WellSplit(st, keys)
    requires k != StorageLocationKey
    requires RemovalArea(st, keys, k).Some?
    ensures IntendedRemoved(st, keys, k).Some?
    ensures AllItems(IntendedRemoved(st, keys, k).value) == AllItems(st) - {k}
  {
    var r := IntendedRemoved(st, keys, k).value;
    assert Lookup(r.local, StorageLocationKey) == Lookup(st.local, StorageLocationKey);
    assert Mode(r) == Sync;
  }
}

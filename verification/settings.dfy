/** The two-partition settings store of the authenticator extension.

    The whole user configuration is one record, persisted under the key
    `UserSettings` in each of two browser storage areas: `local` (stays on
    the device) and `sync` (replicated across the user's browsers). The
    `storageLocation` property held by the local area selects the mode:
    in Local mode the local area holds the whole record; in Sync mode the
    record is split by a fixed set of local-only keys, and reading merges
    the two areas with local values taking precedence. */
module Settings {
  import opened Values

  datatype Location = Local | Sync

  const StorageLocationKey := "storageLocation"

  /** The fields declared by `LocalUserSettingsData`: the keys meant never
      to leave the device. */
  const LocalOnlyKeys: set<string> := {
    "driveEncrypted", "driveFolder", "driveRefreshToken", "driveRevoked",
    "driveToken", "dropboxEncrypted", "dropboxRevoked", "dropboxToken",
    "lastRemindingBackupTime", "offset", "oneDriveBusiness",
    "oneDriveEncrypted", "oneDriveRevoked", "oneDriveRefreshToken",
    "oneDriveToken", StorageLocationKey
  }

  /** What the membership test `Object.keys(LocalUserSettingsData)` sees at
      run time: the class object itself, whose fields are only declared, has
      no own enumerable keys. */
  const AsWrittenLocalOnlyKeys: set<string> := {}

  /** The single membership test for local-only keys. */
  predicate IsLocalOnly(keys: set<string>, k: string) {
    k in keys
  }

  /** The value stored for each location. */
  function LocationName(loc: Location): string {
    match loc
    case Local => "local"
    case Sync => "sync"
  }

  /** `localSettings.storageLocation || "local"` compared with `"local"`:
      every value other than a falsy one or "local" takes the Sync branch. */
  function ModeOf(local: Record): (loc: Location)
    ensures StorageLocationKey !in local ==> loc == Local
    ensures StorageLocationKey in local && local[StorageLocationKey] == Str("local") ==> loc == Local
    ensures StorageLocationKey in local && local[StorageLocationKey] == Str("sync") ==> loc == Sync
    ensures loc == Sync ==> TruthyAt(local, StorageLocationKey)
  {
    if TruthyAt(local, StorageLocationKey) && local[StorageLocationKey] != Str("local")
    then Sync else Local
  }

  /** Contents of the two storage areas (an unset area reads as `{}`). */
  datatype Storage = Storage(local: Record, sync: Record)

  function Mode(st: Storage): Location {
    ModeOf(st.local)
  }

  /** `getStorageData(location)` */
  function StorageData(st: Storage, loc: Location): (r: Record)
    ensures loc == Local ==> ModeOf(r) == Mode(st)
    ensures Mode(st) == Local && loc == Local ==> r == AllItems(st)
    ensures Mode(st) == Sync ==> r.Keys <= AllItems(st).Keys
    ensures Mode(st) == Sync && loc == Local ==> forall k :: k in r ==> AllItems(st)[k] == r[k]
  {
    match loc
    case Local => st.local
    case Sync => st.sync
  }

  /** The local half of `splitSettings`: the local-only keys of `rec`. */
  function LocalHalf(rec: Record, keys: set<string>): Record {
    map k | k in rec && IsLocalOnly(keys, k) :: rec[k]
  }

  /** The syncable half of `splitSettings`: every other key of `rec`. */
  function SyncHalf(rec: Record, keys: set<string>): Record {
    map k | k in rec && !IsLocalOnly(keys, k) :: rec[k]
  }

  /** `getAllItems()`: the local area in Local mode, otherwise the sync area
      overridden by the local area. */
  function AllItems(st: Storage): (r: Record)
    ensures Mode(st) == Local ==> r == st.local
    ensures Mode(st) == Sync ==> r.Keys == st.local.Keys + st.sync.Keys
    ensures Mode(st) == Sync ==>
      forall k :: k in r ==> r[k] == if k in st.local then st.local[k] else st.sync[k]
  {
    if Mode(st) == Local then st.local else st.sync + st.local
  }

  /** `setItems(rec)`: the mode is read from the local area as it is when
      the write starts. */
  function Written(st: Storage, keys: set<string>, rec: Record): Storage {
    if Mode(st) == Local then Storage(rec, st.sync)
    else Storage(LocalHalf(rec, keys), SyncHalf(rec, keys))
  }

  /** `setLocation(loc)`, step by step: the merge is written to one area,
      then the ORIGINAL local record, with its `storageLocation` replaced,
      goes through `setItems`, whose mode is read from the local area as the
      first step left it. */
  function Relocated(st: Storage, keys: set<string>, loc: Location): Storage {
    var merged :=
      if loc == Sync then Storage(st.local, st.local + st.sync)
      else Storage(st.sync + st.local, st.sync);
    Written(merged, keys, st.local[StorageLocationKey := Str(LocationName(loc))])
  }

  /** The storage area `removeItem` reads: `chrome.storage[location]` with
      `location` the raw preference. The model knows only the "local" and
      "sync" areas and treats every other preference as a failure (None). */
  function RemovalArea(st: Storage, keys: set<string>, k: string): Option<Location> {
    if IsLocalOnly(keys, k) || !TruthyAt(st.local, StorageLocationKey) then Some(Local)
    else if st.local[StorageLocationKey] == Str("local") then Some(Local)
    else if st.local[StorageLocationKey] == Str("sync") then Some(Sync)
    else None
  }

  /** `removeItem(k)`: reads one area, deletes `k` from that copy and hands
      the copy to `setItems`, which rewrites BOTH areas in Sync mode. */
  function Removed(st: Storage, keys: set<string>, k: string): Option<Storage> {
    match RemovalArea(st, keys, k)
    case None => None
    case Some(area) => Some(Written(st, keys, StorageData(st, area) - {k}))
  }

  /** The settings store: the two storage areas and the local-only key set
      the membership test consults. */
  class UserSettings {
    var local: Record
    var sync: Record
    const localOnly: set<string>

    function State(): Storage
      reads this
    {
      Storage(local, sync)
    }

    /** A store over areas that already hold `local0` and `sync0`. */
    constructor (keys: set<string>, local0: Record, sync0: Record)
      ensures localOnly == keys && State() == Storage(local0, sync0)
    {
      localOnly := keys;
      local := local0;
      sync := sync0;
    }

    /** `splitSettings(rec)`: both halves start as copies of `rec`; each key
        is then deleted from the half it does not belong to. */
    method SplitSettings(rec: Record) returns (syncable: Record, localPart: Record)
      ensures localPart.Keys == rec.Keys * localOnly
      ensures syncable.Keys == rec.Keys - localOnly
      ensures forall k :: k in localPart ==> localPart[k] == rec[k]
      ensures forall k :: k in syncable ==> syncable[k] == rec[k]
      ensures syncable + localPart == rec
      ensures localPart == LocalHalf(rec, localOnly) && syncable == SyncHalf(rec, localOnly)
    {
      syncable := rec;
      localPart := rec;
      var todo := rec.Keys;
      while todo != {}
        invariant todo <= rec.Keys
        invariant localPart.Keys == rec.Keys - ((rec.Keys - todo) - localOnly)
        invariant syncable.Keys == rec.Keys - ((rec.Keys - todo) * localOnly)
        invariant forall k :: k in localPart ==> localPart[k] == rec[k]
        invariant forall k :: k in syncable ==> syncable[k] == rec[k]
        decreases todo
      {
        var k :| k in todo;
        if IsLocalOnly(localOnly, k) {
          syncable := syncable - {k};
        } else {
          localPart := localPart - {k};
        }
        todo := todo - {k};
      }
    }

    /** `setItems(rec)` */
    method SetItems(rec: Record)
      modifies this
      ensures State() == Written(old(State()), localOnly, rec)
    {
      var localSettings := local;
      if ModeOf(localSettings) == Local {
        local := rec;
      } else {
        var syncable, localPart := SplitSettings(rec);
        local, sync := localPart, syncable;
      }
    }

    /** `setLocation(loc)` */
    method SetLocation(loc: Location)
      modifies this
      ensures State() == Relocated(old(State()), localOnly, loc)
    {
      var localSettings := local;
      if loc == Sync {
        var syncableSettings := sync;
        sync := localSettings + syncableSettings;
      } else {
        var syncableSettings := sync;
        local := syncableSettings + localSettings;
      }
      localSettings := localSettings[StorageLocationKey := Str(LocationName(loc))];
      SetItems(localSettings);
    }

    /** `removeItem(k)`; `ok` is false when the call throws before writing. */
    method RemoveItem(k: string) returns (ok: bool)
      modifies this
      ensures ok == Removed(old(State()), localOnly, k).Some?
      ensures ok ==> State() == Removed(old(State()), localOnly, k).value
      ensures !ok ==> State() == old(State())
    {
      var area := RemovalArea(State(), localOnly, k);
      if area.None? {
        return false;
      }
      var storageData := StorageData(State(), area.value);
      storageData := storageData - {k};
      SetItems(storageData);
      ok := true;
    }
  }
}

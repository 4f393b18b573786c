/** The advisor: a fixed list of security insights, each with a validation
    over the settings, and an ignore list the user extends by dismissing
    insights. The insights shown are those, in list order, that are not
    ignored and whose validation holds. */
module AdvisorStore {
  import opened Values
  import opened Settings
  import opened SettingsProperties
  import opened BackupProperties

  datatype Level = Danger | Warning | Info

  /** An insight as listed in `insightsData` (its text is not modelled). */
  datatype Insight = Insight(id: string, level: Level)

  const IgnoreListKey := "advisorIgnoreList"

  const InsightsData: seq<Insight> := [
    Insight("passwordNotSet", Danger),
    Insight("autoLockNotSet", Warning),
    Insight("browserSyncNotEnabled", Info),
    Insight("autoFillNotEnabled", Info),
    Insight("smartFilterNotEnabled", Info)
  ]

  // ---------------------------------------------------------------------
  // Validations. `hasKey` is what `EntryStorage.hasEncryptionKey()` says.

  predicate PasswordNotSet(hasKey: bool) {
    !hasKey
  }

  /** A key exists and `Number(autolock)` is 0 or NaN. */
  predicate AutoLockNotSet(settings: Record, hasKey: bool) {
    var n := NumberOf(Lookup(settings, "autolock"));
    hasKey && (n.None? || n.value == 0)
  }

  predicate BrowserSyncNotEnabled(settings: Record) {
    Lookup(settings, StorageLocationKey) != Some(Str(LocationName(Sync)))
  }

  predicate AutoFillNotEnabled(settings: Record) {
    Lookup(settings, "autofill") != Some(Bool(true))
  }

  predicate SmartFilterNotEnabled(settings: Record) {
    Lookup(settings, "smartFilter") == Some(Bool(false))
  }

  /** The validation attached to an insight of `insightsData`. */
  predicate Validation(insight: Insight, settings: Record, hasKey: bool) {
    match insight.id
    case "passwordNotSet" => PasswordNotSet(hasKey)
    case "autoLockNotSet" => AutoLockNotSet(settings, hasKey)
    case "browserSyncNotEnabled" => BrowserSyncNotEnabled(settings)
    case "autoFillNotEnabled" => AutoFillNotEnabled(settings)
    case "smartFilterNotEnabled" => SmartFilterNotEnabled(settings)
    case _ => false
  }

  /** What each listed insight's validation decides, stated per rule. */
  lemma InsightRules(settings: Record, hasKey: bool, n: int)
    ensures Validation(InsightsData[0], settings, hasKey) <==> !hasKey
    ensures Lookup(settings, "autolock") == None ==>
      (Validation(InsightsData[1], settings, hasKey) <==> hasKey)
    ensures Lookup(settings, "autolock") == Some(Num(n)) ==>
      (Validation(InsightsData[1], settings, hasKey) <==> hasKey && n == 0)
    ensures Validation(InsightsData[2], settings, hasKey) <==>
      Lookup(settings, StorageLocationKey) != Some(Str("sync"))
    ensures Validation(InsightsData[3], settings, hasKey) <==>
      Lookup(settings, "autofill") != Some(Bool(true))
    ensures Validation(InsightsData[4], settings, hasKey) <==>
      Lookup(settings, "smartFilter") == Some(Bool(false))
  {
  }

  // ---------------------------------------------------------------------
  // getInsights.

  /** `advisorIgnoreList || []` as a list: a stored array, or empty. */
  function IgnoreListOf(settings: Record): seq<Value> {
    match Lookup(settings, IgnoreListKey)
    case Some(List(items)) => items
    case _ => []
  }

  /** `ignoreList.includes(id)` */
  predicate Ignored(ignoreList: seq<Value>, id: string) {
    Str(id) in ignoreList
  }

  predicate Shown(insight: Insight, ignoreList: seq<Value>, settings: Record, hasKey: bool) {
    !Ignored(ignoreList, insight.id) && Validation(insight, settings, hasKey)
  }

  /** The insights of `data` that are shown, in the order of `data`. */
  function Visible(data: seq<Insight>, ignoreList: seq<Value>, settings: Record, hasKey: bool): seq<Insight> {
    if data == [] then []
    else
      var rest := Visible(data[..|data| - 1], ignoreList, settings, hasKey);
      if Shown(data[|data| - 1], ignoreList, settings, hasKey) then rest + [data[|data| - 1]] else rest
  }

  /** An insight appears exactly when it is listed, not ignored and valid. */
  lemma {:induction false} VisibleMembers(data: seq<Insight>, ignoreList: seq<Value>, settings: Record, hasKey: bool)
    ensures forall x :: x in Visible(data, ignoreList, settings, hasKey) <==>
      x in data && !Ignored(ignoreList, x.id) && Validation(x, settings, hasKey)
  {
    if data != [] {
      var init := data[..|data| - 1];
      VisibleMembers(init, ignoreList, settings, hasKey);
      assert data == init + [data[|data| - 1]];
    }
  }

  /** `a` is `b` with some elements left out, order kept. */
  predicate Subsequence(a: seq<Insight>, b: seq<Insight>) {
    if a == [] then true
    else if b == [] then false
    else
      || Subsequence(a, b[..|b| - 1])
      || (a[|a| - 1] == b[|b| - 1] && Subsequence(a[..|a| - 1], b[..|b| - 1]))
  }

  /** The insights come in the order of `insightsData`. */
  lemma {:induction false} VisibleInOrder(data: seq<Insight>, ignoreList: seq<Value>, settings: Record, hasKey: bool)
    ensures Subsequence(Visible(data, ignoreList, settings, hasKey), data)
  {
    if data != [] {
      VisibleInOrder(data[..|data| - 1], ignoreList, settings, hasKey);
    }
  }

  /** `getInsights()` over the settings snapshot it reads. */
  method GetInsights(userSettings: Record, hasKey: bool) returns (insights: seq<Insight>)
    ensures insights == Visible(InsightsData, IgnoreListOf(userSettings), userSettings, hasKey)
    ensures forall x :: x in insights <==>
      x in InsightsData && !Ignored(IgnoreListOf(userSettings), x.id) && Validation(x, userSettings, hasKey)
  {
    var advisorIgnoreList := IgnoreListOf(userSettings);
    insights := [];
    var i := 0;
    while i < |InsightsData|
      invariant 0 <= i <= |InsightsData|
      invariant insights == Visible(InsightsData[..i], advisorIgnoreList, userSettings, hasKey)
    {
      var insightData := InsightsData[i];
      assert InsightsData[..i + 1][..i] == InsightsData[..i];
      if !Ignored(advisorIgnoreList, insightData.id) {
        var validation := Validation(insightData, userSettings, hasKey);
        if validation {
          insights := insights + [insightData];
        }
      }
      i := i + 1;
    }
    assert InsightsData[..i] == InsightsData;
    VisibleMembers(InsightsData, advisorIgnoreList, userSettings, hasKey);
  }

  // ---------------------------------------------------------------------
  // The advisor module: its state and mutations.

  /** The advisor's state. `userSettings` is the snapshot `getModule` read;
      the mutations edit that copy and write it back whole. */
  class Advisor {
    const store: UserSettings
    var userSettings: Record
    var insights: seq<Insight>
    var ignoreList: seq<Value>

    /** `getModule()` */
    constructor (store: UserSettings, hasKey: bool)
      ensures this.store == store && userSettings == AllItems(store.State())
      ensures insights == Visible(InsightsData, IgnoreListOf(userSettings), userSettings, hasKey)
      ensures ignoreList == IgnoreListOf(userSettings)
    {
      var snap := AllItems(store.State());
      var shown := GetInsights(snap, hasKey);
      this.store := store;
      userSettings := snap;
      insights := shown;
      ignoreList := IgnoreListOf(snap);
    }

    /** `dismissInsight(id)`: append (even a repeat), mirror into the copy,
        persist, and recompute from what the store now reads. */
    method DismissInsight(insightId: string, hasKey: bool)
      modifies this, store
      ensures ignoreList == old(ignoreList) + [Str(insightId)]
      ensures userSettings == old(userSettings)[IgnoreListKey := List(ignoreList)]
      ensures store.State() == Written(old(store.State()), store.localOnly, userSettings)
      ensures insights == Visible(InsightsData, IgnoreListOf(AllItems(store.State())), AllItems(store.State()), hasKey)
    {
      ignoreList := ignoreList + [Str(insightId)];
      userSettings := userSettings[IgnoreListKey := List(ignoreList)];
      store.SetItems(userSettings);
      insights := GetInsights(AllItems(store.State()), hasKey);
    }

    /** `clearIgnoreList()` */
    method ClearIgnoreList(hasKey: bool)
      modifies this, store
      ensures ignoreList == []
      ensures userSettings == old(userSettings) - {IgnoreListKey}
      ensures store.State() == Written(old(store.State()), store.localOnly, userSettings)
      ensures insights == Visible(InsightsData, IgnoreListOf(AllItems(store.State())), AllItems(store.State()), hasKey)
    {
      ignoreList := [];
      userSettings := userSettings - {IgnoreListKey};
      store.SetItems(userSettings);
      insights := GetInsights(AllItems(store.State()), hasKey);
    }

    /** `updateInsight()`: recompute the insights from the store; the
        ignore list is reread from the module's own copy. */
    method UpdateInsight(hasKey: bool)
      modifies this
      ensures insights == Visible(InsightsData, IgnoreListOf(AllItems(store.State())), AllItems(store.State()), hasKey)
      ensures ignoreList == IgnoreListOf(userSettings)
      ensures userSettings == old(userSettings)
    {
      insights := GetInsights(AllItems(store.State()), hasKey);
      ignoreList := IgnoreListOf(userSettings);
    }
  }

  // ---------------------------------------------------------------------
  // What the mutations achieve once the write reads back.

  /** After a dismissal whose copy still holds the store's storage
      preference, the dismissed insight is no longer shown. */
  lemma DismissedInsightHidden(st: Storage, keys: set<string>, copy: Record, ignoreList: seq<Value>,
                               id: string, hasKey: bool)
    requires Coherent(st, keys)
    requires Lookup(copy, StorageLocationKey) == Lookup(AllItems(st), StorageLocationKey)
    ensures var after := AllItems(Written(st, keys, copy[IgnoreListKey := List(ignoreList + [Str(id)])]));
      forall x | x in Visible(InsightsData, IgnoreListOf(after), after, hasKey) :: x.id != id
  {
    var rec := copy[IgnoreListKey := List(ignoreList + [Str(id)])];
    assert Lookup(rec, StorageLocationKey) == Lookup(copy, StorageLocationKey);
    WriteBack(st, keys, rec);
    var after := AllItems(Written(st, keys, rec));
    assert IgnoreListOf(after) == ignoreList + [Str(id)];
    VisibleMembers(InsightsData, IgnoreListOf(after), after, hasKey);
  }

  /** After clearing, every insight whose validation holds is shown again. */
  lemma ClearedShowsAllValid(st: Storage, keys: set<string>, copy: Record, hasKey: bool)
    requires Coherent(st, keys)
    requires Lookup(copy, StorageLocationKey) == Lookup(AllItems(st), StorageLocationKey)
    ensures var after := AllItems(Written(st, keys, copy - {IgnoreListKey}));
      forall x :: x in Visible(InsightsData, IgnoreListOf(after), after, hasKey) <==>
        x in InsightsData && Validation(x, after, hasKey)
  {
    var rec := copy - {IgnoreListKey};
    assert Lookup(rec, StorageLocationKey) == Lookup(copy, StorageLocationKey);
    WriteBack(st, keys, rec);
    var after := AllItems(Written(st, keys, rec));
    assert IgnoreListOf(after) == [];
    VisibleMembers(InsightsData, [], after, hasKey);
  }

  /** Switching a Local-mode store to Sync retires the browser-sync
      insight. */
  lemma SyncRetiresBrowserSyncInsight(st: Storage, keys: set<string>, hasKey: bool)
    requires Mode(st) == Local
    ensures var after := AllItems(Relocated(st, keys, Sync));
      InsightsData[2] !in Visible(InsightsData, IgnoreListOf(after), after, hasKey)
  {
    RelocateToSyncFromLocal(st, keys);
    var after := AllItems(Relocated(st, keys, Sync));
    VisibleMembers(InsightsData, IgnoreListOf(after), after, hasKey);
  }
}

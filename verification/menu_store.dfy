/** The menu's state: six preferences derived from the settings with
    defaults, and one setter per preference that sets the state field and
    the setting together and persists the settings record. */
module MenuStore {
  import opened Values
  import opened Settings
  import opened BackupProperties

  datatype MenuState = MenuState(
    zoom: int, useAutofill: bool, smartFilter: bool, enableContextMenu: bool,
    theme: Value, autolock: int)

  /** `Number(v) || d` */
  function NumberOr(v: Option<Value>, d: int): int {
    var n := NumberOf(v);
    if n.Some? && n.value != 0 then n.value else d
  }

  /** The theme used when none is stored. */
  function DefaultTheme(isSafari: bool): Value {
    Str(if isSafari then "flat" else "normal")
  }

  /** The initial state `getModule` derives from the settings it reads. */
  function InitialMenu(settings: Record, isSafari: bool): MenuState {
    MenuState(
      NumberOr(Lookup(settings, "zoom"), 100),
      Lookup(settings, "autofill") == Some(Bool(true)),
      Lookup(settings, "smartFilter") != Some(Bool(false)),
      Lookup(settings, "enableContextMenu") == Some(Bool(true)),
      if TruthyAt(settings, "theme") then settings["theme"] else DefaultTheme(isSafari),
      NumberOr(Lookup(settings, "autolock"), 0))
  }

  /** Settings that were never set: zoom 100, autofill and the context
      menu off, smart filter on, the browser's default theme, no auto-lock. */
  lemma MenuDefaults(isSafari: bool)
    ensures InitialMenu(map[], isSafari)
         == MenuState(100, false, true, false, Str(if isSafari then "flat" else "normal"), 0)
  {
  }

  /** Stored numbers and flags: a nonzero number is taken as it is, zero
      falls back to the default; only `true` turns autofill and the context
      menu on; only `false` turns the smart filter off. */
  lemma MenuStoredValues(settings: Record, isSafari: bool, zoom: int, autolock: int, b: bool)
    ensures Lookup(settings, "zoom") == Some(Num(zoom)) ==>
      InitialMenu(settings, isSafari).zoom == (if zoom != 0 then zoom else 100)
    ensures Lookup(settings, "autolock") == Some(Num(autolock)) ==>
      InitialMenu(settings, isSafari).autolock == autolock
    ensures Lookup(settings, "autofill") == Some(Str("true")) ==> !InitialMenu(settings, isSafari).useAutofill
    ensures Lookup(settings, "smartFilter") == Some(Num(0)) ==> InitialMenu(settings, isSafari).smartFilter
    ensures Lookup(settings, "enableContextMenu") == Some(Bool(b)) ==>
      InitialMenu(settings, isSafari).enableContextMenu == b
    ensures Lookup(settings, "theme") == Some(Str("")) ==>
      InitialMenu(settings, isSafari).theme == DefaultTheme(isSafari)
  {
  }

  class Menu {
    const store: UserSettings
    /** The snapshot `getModule` read; every setter edits and persists it. */
    var userSettings: Record
    var zoom: int
    var useAutofill: bool
    var smartFilter: bool
    var enableContextMenu: bool
    var theme: Value
    var autolock: int

    function State(): MenuState
      reads this
    {
      MenuState(zoom, useAutofill, smartFilter, enableContextMenu, theme, autolock)
    }

    /** `getModule()`, without the manifest version and the managed
        policies. */
    constructor (store: UserSettings, isSafari: bool)
      ensures this.store == store && userSettings == AllItems(store.State())
      ensures State() == InitialMenu(userSettings, isSafari)
    {
      var snap := AllItems(store.State());
      this.store := store;
      userSettings := snap;
      zoom := NumberOr(Lookup(snap, "zoom"), 100);
      useAutofill := Lookup(snap, "autofill") == Some(Bool(true));
      smartFilter := Lookup(snap, "smartFilter") != Some(Bool(false));
      enableContextMenu := Lookup(snap, "enableContextMenu") == Some(Bool(true));
      theme := if TruthyAt(snap, "theme") then snap["theme"] else DefaultTheme(isSafari);
      autolock := NumberOr(Lookup(snap, "autolock"), 0);
    }

    method SetZoom(value: int)
      modifies this, store
      ensures State() == old(State()).(zoom := value)
      ensures userSettings == old(userSettings)["zoom" := Num(value)]
      ensures store.State() == Written(old(store.State()), store.localOnly, userSettings)
    {
      zoom := value;
      userSettings := userSettings["zoom" := Num(value)];
      store.SetItems(userSettings);
    }

    method SetAutofill(value: bool)
      modifies this, store
      ensures State() == old(State()).(useAutofill := value)
      ensures userSettings == old(userSettings)["autofill" := Bool(value)]
      ensures store.State() == Written(old(store.State()), store.localOnly, userSettings)
    {
      useAutofill := value;
      userSettings := userSettings["autofill" := Bool(value)];
      store.SetItems(userSettings);
    }

    method SetSmartFilter(value: bool)
      modifies this, store
      ensures State() == old(State()).(smartFilter := value)
      ensures userSettings == old(userSettings)["smartFilter" := Bool(value)]
      ensures store.State() == Written(old(store.State()), store.localOnly, userSettings)
    {
      smartFilter := value;
      userSettings := userSettings["smartFilter" := Bool(value)];
      store.SetItems(userSettings);
    }

    method SetEnableContextMenu(value: bool)
      modifies this, store
      ensures State() == old(State()).(enableContextMenu := value)
      ensures userSettings == old(userSettings)["enableContextMenu" := Bool(value)]
      ensures store.State() == Written(old(store.State()), store.localOnly, userSettings)
    {
      enableContextMenu := value;
      userSettings := userSettings["enableContextMenu" := Bool(value)];
      store.SetItems(userSettings);
    }

    method SetTheme(value: string)
      modifies this, store
      ensures State() == old(State()).(theme := Str(value))
      ensures userSettings == old(userSettings)["theme" := Str(value)]
      ensures store.State() == Written(old(store.State()), store.localOnly, userSettings)
    {
      theme := Str(value);
      userSettings := userSettings["theme" := Str(value)];
      store.SetItems(userSettings);
    }

    method SetAutolock(value: int)
      modifies this, store
      ensures State() == old(State()).(autolock := value)
      ensures userSettings == old(userSettings)["autolock" := Num(value)]
      ensures store.State() == Written(old(store.State()), store.localOnly, userSettings)
    {
      autolock := value;
      userSettings := userSettings["autolock" := Num(value)];
      store.SetItems(userSettings);
    }
  }

  // ---------------------------------------------------------------------
  // What the next load of the menu sees.

  /** A setter's write, when the menu's copy still holds the store's
      storage preference, is what the next load reads. */
  lemma ReloadReadsCopy(st: Storage, keys: set<string>, copy: Record, k: string, v: Value)
    requires Coherent(st, keys) && k != StorageLocationKey
    requires Lookup(copy, StorageLocationKey) == Lookup(AllItems(st), StorageLocationKey)
    ensures AllItems(Written(st, keys, copy[k := v])) == copy[k := v]
  {
    assert Lookup(copy[k := v], StorageLocationKey) == Lookup(copy, StorageLocationKey);
    WriteBack(st, keys, copy[k := v]);
  }

  /** Each setter's value survives a reload, with the loading defaults
      applied, and no other preference moves: zero zoom reloads as 100, an
      empty theme reloads as the default theme. */
  lemma SettersSurviveReload(copy: Record, isSafari: bool, z: int, a: int, b: bool, t: string)
    ensures var m := InitialMenu(copy, isSafari);
      && InitialMenu(copy["zoom" := Num(z)], isSafari) == m.(zoom := if z != 0 then z else 100)
      && InitialMenu(copy["autolock" := Num(a)], isSafari) == m.(autolock := a)
      && InitialMenu(copy["autofill" := Bool(b)], isSafari) == m.(useAutofill := b)
      && InitialMenu(copy["smartFilter" := Bool(b)], isSafari) == m.(smartFilter := b)
      && InitialMenu(copy["enableContextMenu" := Bool(b)], isSafari) == m.(enableContextMenu := b)
      && InitialMenu(copy["theme" := Str(t)], isSafari) == m.(theme := if t != "" then Str(t) else DefaultTheme(isSafari))
  {
    ReloadKeepsOthers(copy, isSafari, "zoom", Num(z));
    ReloadKeepsOthers(copy, isSafari, "autolock", Num(a));
    ReloadKeepsOthers(copy, isSafari, "autofill", Bool(b));
    ReloadKeepsOthers(copy, isSafari, "smartFilter", Bool(b));
    ReloadKeepsOthers(copy, isSafari, "enableContextMenu", Bool(b));
    ReloadKeepsOthers(copy, isSafari, "theme", Str(t));
  }

  /** Writing one key leaves every preference read from another key as it
      was. */
  lemma ReloadKeepsOthers(copy: Record, isSafari: bool, k: string, v: Value)
    ensures var m, m' := InitialMenu(copy, isSafari), InitialMenu(copy[k := v], isSafari);
      && (k != "zoom" ==> m'.zoom == m.zoom)
      && (k != "autofill" ==> m'.useAutofill == m.useAutofill)
      && (k != "smartFilter" ==> m'.smartFilter == m.smartFilter)
      && (k != "enableContextMenu" ==> m'.enableContextMenu == m.enableContextMenu)
      && (k != "theme" ==> m'.theme == m.theme)
      && (k != "autolock" ==> m'.autolock == m.autolock)
  {
    assert k != "zoom" ==> Lookup(copy[k := v], "zoom") == Lookup(copy, "zoom");
    assert k != "autolock" ==> Lookup(copy[k := v], "autolock") == Lookup(copy, "autolock");
  }
}

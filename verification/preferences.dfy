/** The synced preference set, its defaults (defaults.js) and the shape of
    the synced key-value store that holds it. */
module Preferences {

  datatype Option<T> = None | Some(value: T)

  /** The value stored under a key, or the caller's default when the key is absent. */
  function GetOr<T>(o: Option<T>, default: T): T {
    match o
    case Some(v) => v
    case None => default
  }

  /** One value per synced key. `lastUsed` is "light", "dark" or "system";
      `prefersColorSchemeOverride` is "toggley" or "firefox" once normalised. */
  datatype Prefs = Prefs(
    lightTheme: string,
    darkTheme: string,
    lightColorOverride: bool,
    darkColorOverride: bool,
    lightColor: string,
    darkColor: string,
    lastUsed: string,
    prefersColorSchemeOverride: string)

  /** DEFAULT_PREFS. */
  const DefaultPrefs := Prefs(
    "firefox-compact-light@mozilla.org",
    "firefox-compact-dark@mozilla.org",
    false,
    false,
    "",
    "",
    "light",
    "toggley")

  predicate SchemeNormalised(s: string) {
    s == "firefox" || s == "toggley"
  }

  /** The colour-scheme selector's value as load and save store it: "firefox"
      only when it is exactly "firefox", otherwise "toggley". */
  function NormaliseScheme(s: string): (r: string)
    ensures SchemeNormalised(r)
    ensures r == "firefox" <==> s == "firefox"
  {
    if s == "firefox" then "firefox" else "toggley"
  }

  /** The saved-state invariant: an override is on exactly when its colour is set. */
  predicate OverridesConsistent(p: Prefs) {
    (p.lightColorOverride <==> p.lightColor != "") && (p.darkColorOverride <==> p.darkColor != "")
  }

  /** The theme that a `lastUsed` value selects: the dark theme for "dark",
      the light theme for anything else ("light", "system", ...). */
  function ThemeFor(lastUsed: string, lightTheme: string, darkTheme: string): string {
    if lastUsed == "dark" then darkTheme else lightTheme
  }

  /** The defaults are a preference set the preferences page accepts and
      would itself save, and restoring them selects the light theme. */
  lemma DefaultPrefsWellFormed()
    ensures DefaultPrefs.lightTheme != DefaultPrefs.darkTheme
    ensures !DefaultPrefs.lightColorOverride && !DefaultPrefs.darkColorOverride
    ensures OverridesConsistent(DefaultPrefs)
    ensures DefaultPrefs.lastUsed == "light"
    ensures ThemeFor(DefaultPrefs.lastUsed, DefaultPrefs.lightTheme, DefaultPrefs.darkTheme) == DefaultPrefs.lightTheme
    ensures SchemeNormalised(DefaultPrefs.prefersColorSchemeOverride)
    ensures NormaliseScheme(DefaultPrefs.prefersColorSchemeOverride) == DefaultPrefs.prefersColorSchemeOverride
  {
  }

  /** The synced store: each key is either absent or holds a value of its type. */
  datatype StoredPrefs = StoredPrefs(
    lightTheme: Option<string>,
    darkTheme: Option<string>,
    lightColorOverride: Option<bool>,
    darkColorOverride: Option<bool>,
    lightColor: Option<string>,
    darkColor: Option<string>,
    lastUsed: Option<string>,
    prefersColorSchemeOverride: Option<string>)

  /** The store after `clear()`. */
  const EmptyStore := StoredPrefs(None, None, None, None, None, None, None, None)

  /** The store after `clear()` followed by `set(p)` of every key. */
  function StoreAll(p: Prefs): StoredPrefs {
    StoredPrefs(Some(p.lightTheme), Some(p.darkTheme), Some(p.lightColorOverride),
                Some(p.darkColorOverride), Some(p.lightColor), Some(p.darkColor),
                Some(p.lastUsed), Some(p.prefersColorSchemeOverride))
  }

  /** `set` of the seven keys the preferences page saves: every key but `lastUsed`. */
  function WriteSettings(s: StoredPrefs, p: Prefs): StoredPrefs {
    StoreAll(p).(lastUsed := s.lastUsed)
  }

  /** `get(defaults)`: every key's stored value, or its default when absent. */
  function Read(s: StoredPrefs, defaults: Prefs): Prefs {
    Prefs(GetOr(s.lightTheme, defaults.lightTheme), GetOr(s.darkTheme, defaults.darkTheme),
          GetOr(s.lightColorOverride, defaults.lightColorOverride),
          GetOr(s.darkColorOverride, defaults.darkColorOverride),
          GetOr(s.lightColor, defaults.lightColor), GetOr(s.darkColor, defaults.darkColor),
          GetOr(s.lastUsed, defaults.lastUsed),
          GetOr(s.prefersColorSchemeOverride, defaults.prefersColorSchemeOverride))
  }

  /** Reading a cleared store yields exactly the defaults. */
  lemma ReadEmptyStore(defaults: Prefs)
    ensures Read(EmptyStore, defaults) == defaults
  {
  }

  /** Writing every key and reading back returns what was written, whatever the defaults. */
  lemma ReadStoreAll(p: Prefs, defaults: Prefs)
    ensures Read(StoreAll(p), defaults) == p
  {
  }

  /** Saving the seven settings keys and reading back returns what was saved,
      with `lastUsed` as it was before the save. */
  lemma ReadWriteSettings(s: StoredPrefs, p: Prefs, defaults: Prefs)
    ensures WriteSettings(s, p).lastUsed == s.lastUsed
    ensures Read(WriteSettings(s, p), defaults) == p.(lastUsed := Read(s, defaults).lastUsed)
  {
  }
}

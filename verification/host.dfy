/** The browser as this extension sees it: the installed add-ons, the synced
    preference store, the local schedule store and the toolbar icon. */
module Host {
  import opened Preferences

  /** An installed add-on as `management.getAll()` reports it; `kind` is its `type`. */
  datatype Extension = Extension(id: string, name: string, kind: string, enabled: bool)

  predicate IsTheme(e: Extension) {
    e.kind == "theme"
  }

  /** `management.get(id)` resolves: some installed add-on has this id. */
  predicate Installed(exts: seq<Extension>, id: string) {
    exists k :: 0 <= k < |exts| && exts[k].id == id
  }

  /** Some installed add-on with this id is a theme. */
  predicate InstalledTheme(exts: seq<Extension>, id: string) {
    exists k :: 0 <= k < |exts| && exts[k].id == id && IsTheme(exts[k])
  }

  /** The add-on list after `management.setEnabled(id, true)` on an installed theme. */
  function EnableAddon(exts: seq<Extension>, id: string): (r: seq<Extension>)
    requires InstalledTheme(exts, id)
    ensures |r| == |exts|
  {
    seq(|exts|, k requires 0 <= k < |exts| =>
      if exts[k].id == id then exts[k].(enabled := true)
      else if IsTheme(exts[k]) then exts[k].(enabled := false)
      else exts[k])
  }

  /** Enabling a theme keeps every add-on's identity; the add-ons with this id
      become enabled and every other theme is disabled (the browser applies
      one theme at a time); add-ons that are not themes are untouched. */
  lemma EnableAddonEffect(exts: seq<Extension>, id: string)
    requires InstalledTheme(exts, id)
    ensures var r := EnableAddon(exts, id);
            (forall k :: 0 <= k < |r| ==>
               r[k].id == exts[k].id && r[k].name == exts[k].name && r[k].kind == exts[k].kind) &&
            (forall k :: 0 <= k < |r| && exts[k].id == id ==> r[k].enabled) &&
            (forall k :: 0 <= k < |r| && IsTheme(r[k]) && r[k].id != id ==> !r[k].enabled) &&
            (forall k :: 0 <= k < |r| && !IsTheme(exts[k]) && exts[k].id != id ==> r[k] == exts[k])
  {
  }

  /** The colours `theme.getCurrent()` reports; either may be absent. The
      browser may report a colour as an RGB array, which the icon template
      turns into its text form; a colour here stands for that text. */
  datatype Palette = Palette(icons: Option<string>, toolbarText: Option<string>)

  /** The value under the local `themeSchedule` key; either field may be absent. */
  datatype StoredSchedule = StoredSchedule(light: Option<string>, dark: Option<string>)

  /** The two glyphs the toolbar button can show, and the colour they are stroked in. */
  datatype Glyph = Sun | Moon
  datatype Icon = Icon(glyph: Glyph, stroke: string)

  class Browser {
    var installed: seq<Extension>
    var sync: StoredPrefs
    var local: Option<StoredSchedule>
    var icon: Option<Icon>

    constructor (installed: seq<Extension>, sync: StoredPrefs, local: Option<StoredSchedule>)
      ensures this.installed == installed && this.sync == sync && this.local == local
      ensures icon == None
    {
      this.installed := installed;
      this.sync := sync;
      this.local := local;
      icon := None;
    }

    /** `management.setEnabled(id, true)`: the browser applies it only to theme
        add-ons, so it is rejected unless an installed theme has this id. */
    method SetEnabled(id: string) returns (ok: bool)
      modifies this`installed
      ensures ok == InstalledTheme(old(installed), id)
      ensures installed == if ok then EnableAddon(old(installed), id) else old(installed)
    {
      ok := InstalledTheme(installed, id);
      if ok {
        installed := EnableAddon(installed, id);
      }
    }
  }
}

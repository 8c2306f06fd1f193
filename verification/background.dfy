/** The background script: the toolbar toggle and the icon's mode, stroke
    colour and glyph. */
module Background {
  import opened Preferences
  import opened Host

  // ---------------------------------------------------------------- toggle

  /** The three keys `getThemePrefs` reads. */
  datatype ThemePrefs = ThemePrefs(lightTheme: string, darkTheme: string, lastUsed: string)

  /** The defaults `getThemePrefs` passes to the store. */
  const ThemePrefDefaults := ThemePrefs(
    "firefox-compact-light@mozilla.org", "firefox-compact-dark@mozilla.org", "light")

  /** `getThemePrefs`: stored values, with the compact themes and "light" for absent keys. */
  function GetThemePrefs(s: StoredPrefs): (tp: ThemePrefs)
    ensures s.lightTheme.None? ==> tp.lightTheme == "firefox-compact-light@mozilla.org"
    ensures s.darkTheme.None? ==> tp.darkTheme == "firefox-compact-dark@mozilla.org"
    ensures s.lastUsed.None? ==> tp.lastUsed == "light"
    ensures s.lightTheme.Some? ==> tp.lightTheme == s.lightTheme.value
    ensures s.darkTheme.Some? ==> tp.darkTheme == s.darkTheme.value
    ensures s.lastUsed.Some? ==> tp.lastUsed == s.lastUsed.value
  {
    ThemePrefs(GetOr(s.lightTheme, ThemePrefDefaults.lightTheme),
               GetOr(s.darkTheme, ThemePrefDefaults.darkTheme),
               GetOr(s.lastUsed, ThemePrefDefaults.lastUsed))
  }

  /** What a toggle does once both themes are found: the theme it enables and
      the `lastUsed` it records. */
  datatype Switch = Switch(enable: string, lastUsed: string)

  /** The toggle decision: from "light" to dark, from anything else to light;
      the enabled theme is always the one the new `lastUsed` selects. */
  function ToggleStep(tp: ThemePrefs): (sw: Switch)
    ensures sw.lastUsed == "light" || sw.lastUsed == "dark"
    ensures sw.lastUsed == "dark" <==> tp.lastUsed == "light"
    ensures sw.enable == ThemeFor(sw.lastUsed, tp.lightTheme, tp.darkTheme)
  {
    if tp.lastUsed == "light" then Switch(tp.darkTheme, "dark")
    else Switch(tp.lightTheme, "light")
  }

  /** Two toggles return `lastUsed` to where it was, from "light" or "dark";
      from any other value ("system") the first goes to "light" and the second to "dark". */
  lemma ToggleTwice(tp: ThemePrefs)
    ensures var once := tp.(lastUsed := ToggleStep(tp).lastUsed);
            var twice := ToggleStep(once).lastUsed;
            (tp.lastUsed == "light" || tp.lastUsed == "dark" ==> twice == tp.lastUsed) &&
            (tp.lastUsed != "light" && tp.lastUsed != "dark" ==> twice == "dark")
  {
  }

  /** `toggleTheme`: when either configured theme is missing nothing changes;
      otherwise the opposite theme is enabled and only then is `lastUsed`
      written. A rejected enable (the id names an add-on that is not a theme)
      throws before the write, so nothing changes either. */
  method ToggleTheme(b: Browser)
    modifies b`installed, b`sync
    ensures var tp := GetThemePrefs(old(b.sync));
            var found := Installed(old(b.installed), tp.lightTheme) && Installed(old(b.installed), tp.darkTheme);
            var sw := ToggleStep(tp);
            var enabled := found && InstalledTheme(old(b.installed), sw.enable);
            b.installed == (if enabled then EnableAddon(old(b.installed), sw.enable) else old(b.installed)) &&
            b.sync == (if enabled then old(b.sync).(lastUsed := Some(sw.lastUsed)) else old(b.sync))
  {
    var tp := GetThemePrefs(b.sync);
    var lightInfo := Installed(b.installed, tp.lightTheme);
    var darkInfo := Installed(b.installed, tp.darkTheme);
    if !lightInfo || !darkInfo {
      return;
    }
    if tp.lastUsed == "light" {
      var ok := b.SetEnabled(tp.darkTheme);
      if !ok {
        return;
      }
      b.sync := b.sync.(lastUsed := Some("dark"));
    } else {
      var ok := b.SetEnabled(tp.lightTheme);
      if !ok {
        return;
      }
      b.sync := b.sync.(lastUsed := Some("light"));
    }
  }

  // ---------------------------------------------------------------- icon

  datatype Mode = Light | Dark

  /** The six keys `updateIconColor` reads. */
  datatype IconPrefs = IconPrefs(
    lightTheme: string,
    darkTheme: string,
    lightColorOverride: bool,
    darkColorOverride: bool,
    lightColor: string,
    darkColor: string)

  /** The defaults `updateIconColor` passes to the store. */
  const IconPrefDefaults := IconPrefs(
    "firefox-compact-light@mozilla.org", "firefox-compact-dark@mozilla.org", false, false, "", "")

  /** The icon's reading of the store: stored values, defaults for absent keys. */
  function GetIconPrefs(s: StoredPrefs): (ip: IconPrefs)
    ensures s.lightTheme.None? ==> ip.lightTheme == "firefox-compact-light@mozilla.org"
    ensures s.darkTheme.None? ==> ip.darkTheme == "firefox-compact-dark@mozilla.org"
    ensures s.lightColorOverride.None? ==> !ip.lightColorOverride
    ensures s.darkColorOverride.None? ==> !ip.darkColorOverride
    ensures s.lightColor.None? ==> ip.lightColor == ""
    ensures s.darkColor.None? ==> ip.darkColor == ""
    ensures s.lightTheme.Some? ==> ip.lightTheme == s.lightTheme.value
    ensures s.darkTheme.Some? ==> ip.darkTheme == s.darkTheme.value
    ensures s.lightColorOverride.Some? ==> ip.lightColorOverride == s.lightColorOverride.value
    ensures s.darkColorOverride.Some? ==> ip.darkColorOverride == s.darkColorOverride.value
    ensures s.lightColor.Some? ==> ip.lightColor == s.lightColor.value
    ensures s.darkColor.Some? ==> ip.darkColor == s.darkColor.value
  {
    IconPrefs(GetOr(s.lightTheme, IconPrefDefaults.lightTheme),
              GetOr(s.darkTheme, IconPrefDefaults.darkTheme),
              GetOr(s.lightColorOverride, IconPrefDefaults.lightColorOverride),
              GetOr(s.darkColorOverride, IconPrefDefaults.darkColorOverride),
              GetOr(s.lightColor, IconPrefDefaults.lightColor),
              GetOr(s.darkColor, IconPrefDefaults.darkColor))
  }

  /** The background script's inline defaults agree with DEFAULT_PREFS. */
  lemma InlineDefaultsAgree()
    ensures ThemePrefDefaults == ThemePrefs(DefaultPrefs.lightTheme, DefaultPrefs.darkTheme, DefaultPrefs.lastUsed)
    ensures IconPrefDefaults == IconPrefs(DefaultPrefs.lightTheme, DefaultPrefs.darkTheme,
                                          DefaultPrefs.lightColorOverride, DefaultPrefs.darkColorOverride,
                                          DefaultPrefs.lightColor, DefaultPrefs.darkColor)
    ensures forall s :: GetThemePrefs(s) == ThemePrefs(Read(s, DefaultPrefs).lightTheme,
                                                       Read(s, DefaultPrefs).darkTheme,
                                                       Read(s, DefaultPrefs).lastUsed)
  {
  }

  predicate IsEnabledTheme(e: Extension) {
    IsTheme(e) && e.enabled
  }

  /** Index `i` holds the first enabled theme of the list. */
  predicate FirstEnabledAt(exts: seq<Extension>, i: int) {
    0 <= i < |exts| && IsEnabledTheme(exts[i]) &&
    forall k :: 0 <= k < i ==> !IsEnabledTheme(exts[k])
  }

  /** `themes.find(ext => ext.type === "theme" && ext.enabled)`, as an index. */
  function FirstEnabledTheme(exts: seq<Extension>): (r: Option<nat>)
    ensures r.Some? ==> FirstEnabledAt(exts, r.value)
    ensures r.None? ==> forall k :: 0 <= k < |exts| ==> !IsEnabledTheme(exts[k])
  {
    if exts == [] then None
    else if IsEnabledTheme(exts[0]) then Some(0)
    else match FirstEnabledTheme(exts[1..])
      case None => None
      case Some(i) => Some(i + 1)
  }

  /** The icon's mode: dark exactly when the first enabled theme is the
      configured dark theme; no enabled theme, the light theme or any other
      theme gives light. The dark test is made first. */
  function CurrentMode(exts: seq<Extension>, lightTheme: string, darkTheme: string): (m: Mode)
    ensures m == Dark <==> exists i :: FirstEnabledAt(exts, i) && exts[i].id == darkTheme
  {
    match FirstEnabledTheme(exts)
    case None => Light
    case Some(i) =>
      if exts[i].id == darkTheme then Dark
      else if exts[i].id == lightTheme then Light
      else Light
  }

  /** The last-resort stroke colour, chosen by the platform's dark preference. */
  function Fallback(systemPrefersDark: bool): string {
    if systemPrefersDark then "rgb(251,251,254)" else "rgb(91,91,102)"
  }

  /** The current mode's override is on and its colour is non-empty. */
  predicate OverrideApplies(m: Mode, ip: IconPrefs) {
    (m == Light && ip.lightColorOverride && ip.lightColor != "") ||
    (m == Dark && ip.darkColorOverride && ip.darkColor != "")
  }

  /** The stroke colour, by precedence: the current mode's override, then the
      theme's `icons` colour, then its `toolbar_text` colour, then the fallback. */
  function StrokeColor(m: Mode, ip: IconPrefs, colors: Palette, systemPrefersDark: bool): (c: string)
    ensures m == Light && ip.lightColorOverride && ip.lightColor != "" ==> c == ip.lightColor
    ensures m == Dark && ip.darkColorOverride && ip.darkColor != "" ==> c == ip.darkColor
    ensures !OverrideApplies(m, ip) && colors.icons.Some? ==> c == colors.icons.value
    ensures !OverrideApplies(m, ip) && colors.icons.None? && colors.toolbarText.Some? ==>
              c == colors.toolbarText.value
    ensures !OverrideApplies(m, ip) && colors.icons.None? && colors.toolbarText.None? ==>
              c == Fallback(systemPrefersDark)
  {
    var strokeColor := GetOr(colors.icons, GetOr(colors.toolbarText, Fallback(systemPrefersDark)));
    if m == Light && ip.lightColorOverride && ip.lightColor != "" then ip.lightColor
    else if m == Dark && ip.darkColorOverride && ip.darkColor != "" then ip.darkColor
    else strokeColor
  }

  /** The other mode's override never affects the stroke colour. */
  lemma OtherOverrideIgnored(ip: IconPrefs, colors: Palette, systemPrefersDark: bool,
                             flag: bool, color: string)
    ensures StrokeColor(Light, ip, colors, systemPrefersDark) ==
            StrokeColor(Light, ip.(darkColorOverride := flag, darkColor := color), colors, systemPrefersDark)
    ensures StrokeColor(Dark, ip, colors, systemPrefersDark) ==
            StrokeColor(Dark, ip.(lightColorOverride := flag, lightColor := color), colors, systemPrefersDark)
  {
  }

  /** The glyph for a mode; the mapping is inverted: dark mode shows the sun. */
  function GlyphFor(m: Mode): (g: Glyph)
    ensures g == Sun <==> m == Dark
  {
    if m == Dark then Sun else Moon
  }

  /** The icon `updateIconColor` draws for the given store, add-ons, current
      theme colours and platform dark preference. */
  function IconFor(ip: IconPrefs, exts: seq<Extension>, colors: Palette, systemPrefersDark: bool): Icon {
    var m := CurrentMode(exts, ip.lightTheme, ip.darkTheme);
    Icon(GlyphFor(m), StrokeColor(m, ip, colors, systemPrefersDark))
  }

  /** `updateIconColor`: sets the toolbar icon from the current state; the
      current theme's colours and the platform's dark preference are inputs. */
  method UpdateIconColor(b: Browser, colors: Palette, systemPrefersDark: bool)
    modifies b`icon
    ensures b.icon == Some(IconFor(GetIconPrefs(b.sync), b.installed, colors, systemPrefersDark))
  {
    var ip := GetIconPrefs(b.sync);
    var m := CurrentMode(b.installed, ip.lightTheme, ip.darkTheme);
    var strokeColor := StrokeColor(m, ip, colors, systemPrefersDark);
    var icon := Icon(GlyphFor(m), strokeColor);
    b.icon := Some(icon);
  }

  // ---------------------------------------------------------------- toggle and icon together

  /** After enabling an installed theme, the first enabled theme carries its id,
      so the icon's mode is dark exactly when that id is the dark theme's. */
  lemma ModeAfterEnabling(exts: seq<Extension>, id: string, lightTheme: string, darkTheme: string)
    requires InstalledTheme(exts, id)
    ensures CurrentMode(EnableAddon(exts, id), lightTheme, darkTheme) == if id == darkTheme then Dark else Light
  {
    var r := EnableAddon(exts, id);
    EnableAddonEffect(exts, id);
    var k :| 0 <= k < |exts| && exts[k].id == id && IsTheme(exts[k]);
    assert IsEnabledTheme(r[k]);
    match FirstEnabledTheme(r)
    case None =>
      assert false;
    case Some(i) =>
      assert r[i].id == id;
      if id != darkTheme {
        forall j | FirstEnabledAt(r, j) ensures r[j].id != darkTheme {
          assert j == i;
        }
      }
  }

  /** A successful toggle leaves the icon in the mode it recorded: when both
      configured ids are distinct installed themes, the mode the icon then
      resolves is dark exactly when the new `lastUsed` is "dark". */
  lemma IconFollowsToggle(exts: seq<Extension>, s: StoredPrefs)
    requires var tp := GetThemePrefs(s);
             Installed(exts, tp.lightTheme) && Installed(exts, tp.darkTheme) &&
             InstalledTheme(exts, ToggleStep(tp).enable) && tp.lightTheme != tp.darkTheme
    ensures var sw := ToggleStep(GetThemePrefs(s));
            var ip := GetIconPrefs(s.(lastUsed := Some(sw.lastUsed)));
            CurrentMode(EnableAddon(exts, sw.enable), ip.lightTheme, ip.darkTheme) ==
              if sw.lastUsed == "dark" then Dark else Light
  {
    var tp := GetThemePrefs(s);
    var sw := ToggleStep(tp);
    ModeAfterEnabling(exts, sw.enable, tp.lightTheme, tp.darkTheme);
  }
}

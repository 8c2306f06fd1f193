/** The preferences page: theme pickers, icon-colour overrides, the
    colour-scheme selector, and Save / Reset / Restore defaults. */
module Options {
  import opened Text
  import opened Preferences
  import opened Host
  import Background

  /** The validation messages, in the order the page collects them. */
  datatype SelectionError = ThemesNotDistinct | InvalidDarkColor | InvalidLightColor {
    function Rank(): nat {
      match this
      case ThemesNotDistinct => 0
      case InvalidDarkColor => 1
      case InvalidLightColor => 2
    }
  }

  /** The status area: nothing, the current validation errors, or the outcome
      of Save / Restore defaults. */
  datatype Notice =
    | NoNotice
    | ErrorList(errors: seq<SelectionError>)
    | Saved
    | SaveFailed
    | DefaultsRestored
    | RestoreFailed

  /** Which of the two form halves a handler belongs to: the light theme's
      controls or the dark theme's. */
  datatype Side = LightSide | DarkSide

  /** An entry of a theme picker: the theme's id and its display name. */
  datatype Choice = Choice(value: string, name: string)

  /** One mode's override controls: the checkbox, the colour input's text and
      whether the input's container is displayed. */
  datatype ColorField = ColorField(override: bool, input: string, shown: bool)

  // ---------------------------------------------------------------- validation

  /** `validateColorInput`: blank (after trimming) is valid; otherwise the CSS
      colour parser must accept the trimmed text. */
  function ValidColorInput(cssAccepts: string -> bool, input: string): bool {
    var value := Trim(input);
    if value == "" then true else cssAccepts(value)
  }

  /** What `validateColorInput` accepts: every all-white-space input, and a
      non-blank input exactly when the parser accepts its trimmed text. */
  lemma ColorInputValidity(cssAccepts: string -> bool, input: string)
    ensures AllSpace(input) ==> ValidColorInput(cssAccepts, input)
    ensures !AllSpace(input) ==> (ValidColorInput(cssAccepts, input) <==> cssAccepts(Trim(input)))
  {
    TrimBlankIff(input);
  }

  predicate FieldInvalid(cssAccepts: string -> bool, f: ColorField) {
    f.override && !ValidColorInput(cssAccepts, f.input)
  }

  /** Strictly increasing in rank: each rule at most once, in rule order. */
  predicate RankOrdered(errs: seq<SelectionError>) {
    forall i, j :: 0 <= i < j < |errs| ==> errs[i].Rank() < errs[j].Rank()
  }

  /** The failed rules, each once, in the order distinctness, dark colour, light colour. */
  function InRuleOrder(notDistinct: bool, darkBad: bool, lightBad: bool): (errs: seq<SelectionError>)
    ensures ThemesNotDistinct in errs <==> notDistinct
    ensures InvalidDarkColor in errs <==> darkBad
    ensures InvalidLightColor in errs <==> lightBad
    ensures RankOrdered(errs)
    ensures errs == [] <==> !notDistinct && !darkBad && !lightBad
  {
    (if notDistinct then [ThemesNotDistinct] else [])
    + (if darkBad then [InvalidDarkColor] else [])
    + (if lightBad then [InvalidLightColor] else [])
  }

  /** Every rule holds: distinct themes and no checked override with an invalid colour. */
  predicate FormValid(cssAccepts: string -> bool, lightSelect: string, darkSelect: string,
                      light: ColorField, dark: ColorField) {
    lightSelect != darkSelect && !FieldInvalid(cssAccepts, dark) && !FieldInvalid(cssAccepts, light)
  }

  /** The messages `validateSelections` collects. */
  function SelectionErrors(cssAccepts: string -> bool, lightSelect: string, darkSelect: string,
                           light: ColorField, dark: ColorField): seq<SelectionError> {
    InRuleOrder(lightSelect == darkSelect, FieldInvalid(cssAccepts, dark), FieldInvalid(cssAccepts, light))
  }

  /** One message per failed rule, in the order theme distinctness, dark
      colour, light colour; none exactly when the form is valid. */
  lemma SelectionErrorsMeaning(cssAccepts: string -> bool, lightSelect: string, darkSelect: string,
                               light: ColorField, dark: ColorField)
    ensures var errs := SelectionErrors(cssAccepts, lightSelect, darkSelect, light, dark);
            (ThemesNotDistinct in errs <==> lightSelect == darkSelect) &&
            (InvalidDarkColor in errs <==> FieldInvalid(cssAccepts, dark)) &&
            (InvalidLightColor in errs <==> FieldInvalid(cssAccepts, light)) &&
            RankOrdered(errs) &&
            (errs == [] <==> FormValid(cssAccepts, lightSelect, darkSelect, light, dark))
  {
  }

  /** Equal theme choices always block Save, and their message comes first. */
  lemma EqualSelectionsFirstError(cssAccepts: string -> bool, theme: string, light: ColorField, dark: ColorField)
    ensures var errs := SelectionErrors(cssAccepts, theme, theme, light, dark);
            errs != [] && errs[0] == ThemesNotDistinct
  {
  }

  // ---------------------------------------------------------------- loading

  predicate IsCandidate(e: Extension) {
    IsTheme(e) && e.id != "default-theme@mozilla.org"
  }

  /** The themes offered in the pickers: installed themes other than the
      browser's default theme, in installation-list order. */
  function Candidates(exts: seq<Extension>): (r: seq<Extension>)
    ensures |r| <= |exts|
    ensures forall e :: e in r <==> e in exts && IsCandidate(e)
  {
    if exts == [] then []
    else if IsCandidate(exts[0]) then [exts[0]] + Candidates(exts[1..])
    else Candidates(exts[1..])
  }

  /** Index `i` holds the first candidate of the list. */
  predicate FirstCandidateAt(exts: seq<Extension>, i: int) {
    0 <= i < |exts| && IsCandidate(exts[i]) &&
    forall k :: 0 <= k < i ==> !IsCandidate(exts[k])
  }

  /** The first offered theme is the first candidate in installation order. */
  lemma {:induction false} CandidatesFirst(exts: seq<Extension>)
    ensures var r := Candidates(exts);
            r != [] ==> exists i :: FirstCandidateAt(exts, i) && r[0] == exts[i]
  {
    if exts != [] && !IsCandidate(exts[0]) && Candidates(exts) != [] {
      CandidatesFirst(exts[1..]);
      var i :| FirstCandidateAt(exts[1..], i) && Candidates(exts[1..])[0] == exts[1..][i];
      assert FirstCandidateAt(exts, i + 1);
    }
  }

  /** Filtering keeps each candidate as often as it is installed and drops
      everything else. */
  lemma {:induction false} CandidatesCount(exts: seq<Extension>)
    ensures forall e :: multiset(Candidates(exts))[e] == if IsCandidate(e) then multiset(exts)[e] else 0
  {
    if exts != [] {
      CandidatesCount(exts[1..]);
      assert exts == [exts[0]] + exts[1..];
    }
  }

  /** Filtering keeps order: the candidates of a concatenation are the
      candidates of the first part followed by those of the second. */
  lemma {:induction false} CandidatesAppend(a: seq<Extension>, b: seq<Extension>)
    ensures Candidates(a + b) == Candidates(a) + Candidates(b)
  {
    if a == [] {
      assert a + b == b;
    } else {
      var ab := a + b;
      assert ab[0] == a[0] && ab[1..] == a[1..] + b;
      CandidatesAppend(a[1..], b);
      if IsCandidate(a[0]) {
        calc {
          Candidates(ab);
          [a[0]] + Candidates(a[1..] + b);
          [a[0]] + (Candidates(a[1..]) + Candidates(b));
          ([a[0]] + Candidates(a[1..])) + Candidates(b);
        }
      }
    }
  }

  function ChoiceFor(e: Extension): Choice {
    Choice(e.id, e.name)
  }

  /** The picker entries for a list of themes, one per theme, in order. */
  function ChoicesOf(themes: seq<Extension>): (cs: seq<Choice>)
    ensures |cs| == |themes|
  {
    if themes == [] then [] else ChoicesOf(themes[..|themes| - 1]) + [ChoiceFor(themes[|themes| - 1])]
  }

  /** Entry `k` of a picker carries theme `k`'s id as its value and its name. */
  lemma {:induction false} ChoicesOfEntries(themes: seq<Extension>)
    ensures var cs := ChoicesOf(themes);
            forall k :: 0 <= k < |cs| ==> cs[k].value == themes[k].id && cs[k].name == themes[k].name
  {
    if themes != [] {
      ChoicesOfEntries(themes[..|themes| - 1]);
    }
  }

  predicate HasValue(choices: seq<Choice>, v: string) {
    exists k :: 0 <= k < |choices| && choices[k].value == v
  }

  /** The restored selection: the stored id when it is offered, else the first
      entry's id, else "" when there is no entry. */
  function SelectedValue(stored: string, choices: seq<Choice>): (v: string)
    ensures HasValue(choices, stored) ==> v == stored
    ensures !HasValue(choices, stored) && choices != [] ==> v == choices[0].value
    ensures choices == [] ==> v == ""
    ensures v == "" || HasValue(choices, v)
  {
    if HasValue(choices, stored) then stored
    else if choices != [] then choices[0].value
    else ""
  }

  /** The override controls as loading shows a stored flag and colour. */
  function LoadedField(override: bool, color: string): ColorField {
    ColorField(override, color, override)
  }

  /** With no theme to offer, both pickers read "" and Save is blocked. */
  lemma NoCandidatesBlocksSave(cssAccepts: string -> bool, exts: seq<Extension>, p: Prefs)
    requires Candidates(exts) == []
    ensures var choices := ChoicesOf(Candidates(exts));
            ThemesNotDistinct in SelectionErrors(cssAccepts,
              SelectedValue(p.lightTheme, choices), SelectedValue(p.darkTheme, choices),
              LoadedField(p.lightColorOverride, p.lightColor), LoadedField(p.darkColorOverride, p.darkColor))
  {
  }

  // ---------------------------------------------------------------- saving

  /** Save's first step on one override: a blank input unchecks it and hides its container. */
  function NormaliseField(f: ColorField): (r: ColorField)
    ensures r.input == f.input
    ensures r.override <==> f.override && Trim(f.input) != ""
    ensures r.shown <==> f.shown && Trim(f.input) != ""
  {
    if Trim(f.input) == "" then f.(override := false, shown := false) else f
  }

  /** The colour stored for an override: the trimmed input when checked, else "". */
  function StoredColor(f: ColorField): string {
    if f.override then Trim(f.input) else ""
  }

  /** Unchecking a blank override never changes whether the form is valid. */
  lemma NormalisePreservesValidity(cssAccepts: string -> bool, f: ColorField)
    ensures FieldInvalid(cssAccepts, NormaliseField(f)) == FieldInvalid(cssAccepts, f)
  {
  }

  /** The preference values Save writes from the form (with the `lastUsed` it
      read, which it does not write). */
  function SavedPrefs(lightSelect: string, darkSelect: string, light: ColorField, dark: ColorField,
                      scheme: string, lastUsed: string): (p: Prefs)
    ensures p.lightTheme == lightSelect && p.darkTheme == darkSelect
    ensures OverridesConsistent(p)
    ensures p.lightColorOverride <==> light.override && Trim(light.input) != ""
    ensures p.darkColorOverride <==> dark.override && Trim(dark.input) != ""
    ensures p.lightColorOverride ==> p.lightColor == Trim(light.input)
    ensures p.darkColorOverride ==> p.darkColor == Trim(dark.input)
    ensures SchemeNormalised(p.prefersColorSchemeOverride)
    ensures p.prefersColorSchemeOverride == "firefox" <==> scheme == "firefox"
    ensures p.lastUsed == lastUsed
  {
    var l := NormaliseField(light);
    var d := NormaliseField(dark);
    Prefs(lightSelect, darkSelect, l.override, d.override, StoredColor(l), StoredColor(d),
          lastUsed, NormaliseScheme(scheme))
  }

  /** Loading saved preferences into the form and saving again writes the same
      values: Save is a fixpoint on what it stored. */
  lemma SaveLoadSave(lightSelect: string, darkSelect: string, light: ColorField, dark: ColorField,
                     scheme: string, lastUsed: string)
    ensures var p := SavedPrefs(lightSelect, darkSelect, light, dark, scheme, lastUsed);
            SavedPrefs(p.lightTheme, p.darkTheme,
                       LoadedField(p.lightColorOverride, p.lightColor),
                       LoadedField(p.darkColorOverride, p.darkColor),
                       NormaliseScheme(p.prefersColorSchemeOverride), lastUsed) == p
  {
    TrimIdempotent(light.input);
    TrimIdempotent(dark.input);
    var p := SavedPrefs(lightSelect, darkSelect, light, dark, scheme, lastUsed);
    TrimBlankIff(p.lightColor);
    TrimBlankIff(p.darkColor);
  }

  /** A valid form saves only colours the CSS parser accepts. */
  lemma SavedColorsParse(cssAccepts: string -> bool, lightSelect: string, darkSelect: string,
                         light: ColorField, dark: ColorField, scheme: string, lastUsed: string)
    requires FormValid(cssAccepts, lightSelect, darkSelect, light, dark)
    ensures var p := SavedPrefs(lightSelect, darkSelect, light, dark, scheme, lastUsed);
            p.lightTheme != p.darkTheme &&
            (p.lightColorOverride ==> cssAccepts(p.lightColor)) &&
            (p.darkColorOverride ==> cssAccepts(p.darkColor))
  {
  }

  // ---------------------------------------------------------------- the page

  class OptionsPage {
    const host: Browser
    /** The browser's CSS colour parser: does it accept this colour text? */
    const cssAccepts: string -> bool

    var lightChoices: seq<Choice>
    var darkChoices: seq<Choice>
    var lightSelect: string
    var darkSelect: string
    var light: ColorField
    var dark: ColorField
    var scheme: string
    var saveDisabled: bool
    var notice: Notice

    function CurrentErrors(): seq<SelectionError>
      reads this`lightSelect, this`darkSelect, this`light, this`dark
    {
      SelectionErrors(cssAccepts, lightSelect, darkSelect, light, dark)
    }

    /** The Save button is disabled exactly when the form has an error. */
    ghost predicate Valid()
      reads this`lightSelect, this`darkSelect, this`light, this`dark, this`saveDisabled
    {
      saveDisabled == !FormValid(cssAccepts, lightSelect, darkSelect, light, dark)
    }

    /** The form shows what the synced store holds, read with DEFAULT_PREFS. */
    ghost predicate ShowsStore()
      reads this`lightChoices, this`darkChoices, this`lightSelect, this`darkSelect,
            this`light, this`dark, this`scheme, host`sync, host`installed
    {
      var p := Read(host.sync, DefaultPrefs);
      var choices := ChoicesOf(Candidates(host.installed));
      lightChoices == choices && darkChoices == choices &&
      lightSelect == SelectedValue(p.lightTheme, choices) &&
      darkSelect == SelectedValue(p.darkTheme, choices) &&
      light == LoadedField(p.lightColorOverride, p.lightColor) &&
      dark == LoadedField(p.darkColorOverride, p.darkColor) &&
      scheme == NormaliseScheme(p.prefersColorSchemeOverride)
    }

    /** After a successful save or restore: the icon is drawn from the current
      state and the form shows the store. */
    ghost predicate Refreshed(colors: Palette, systemPrefersDark: bool)
      reads this`lightChoices, this`darkChoices, this`lightSelect, this`darkSelect,
            this`light, this`dark, this`scheme, host`sync, host`installed, host`icon
    {
      host.icon == Some(Background.IconFor(Background.GetIconPrefs(host.sync), host.installed,
                                           colors, systemPrefersDark)) &&
      ShowsStore()
    }

    /** Opening the page: empty controls, then `loadThemes`. The page runs
        `loadThemes` a second time on load; that call reads the same store and
        add-ons and so leaves the same state, and one call is modelled. */
    constructor (host: Browser, cssAccepts: string -> bool)
      ensures this.host == host && this.cssAccepts == cssAccepts
      ensures ShowsStore() && Valid()
      ensures notice == if saveDisabled then ErrorList(CurrentErrors()) else NoNotice
    {
      this.host := host;
      this.cssAccepts := cssAccepts;
      lightChoices, darkChoices := [], [];
      lightSelect, darkSelect := "", "";
      light, dark := ColorField(false, "", false), ColorField(false, "", false);
      scheme := "toggley";
      saveDisabled := false;
      notice := NoNotice;
      new;
      LoadThemes();
    }

    /** `validateSelections`: disables Save exactly when a rule fails and shows
      the failed rules' messages, or clears the status area. */
    method ValidateSelections()
      modifies this`saveDisabled, this`notice
      ensures Valid()
      ensures notice == if saveDisabled then ErrorList(CurrentErrors()) else NoNotice
    {
      var notDistinct := lightSelect == darkSelect;
      var darkBad := FieldInvalid(cssAccepts, dark);
      var lightBad := FieldInvalid(cssAccepts, light);
      var valid := true;
      var messages: seq<SelectionError> := [];
      if notDistinct {
        valid := false;
        messages := messages + [ThemesNotDistinct];
      }
      if darkBad {
        valid := false;
        messages := messages + [InvalidDarkColor];
      }
      if lightBad {
        valid := false;
        messages := messages + [InvalidLightColor];
      }
      assert messages == InRuleOrder(notDistinct, darkBad, lightBad);
      saveDisabled := !valid;
      if !valid {
        notice := ErrorList(messages);
      } else {
        notice := NoNotice;
      }
    }

    /** `loadThemes`: fills both pickers with the candidate themes, restores
      every control from the store and validates. */
    method LoadThemes()
      modifies this
      ensures ShowsStore() && Valid()
      ensures notice == if saveDisabled then ErrorList(CurrentErrors()) else NoNotice
    {
      var themes := Candidates(host.installed);
      var p := Read(host.sync, DefaultPrefs);
      FillPickers(themes);
      RestoreControls(p);
      ValidateSelections();
    }

    /** Restores the pickers' selections, the override controls and the
      colour-scheme selector from a preference set. */
    method RestoreControls(p: Prefs)
      modifies this`lightSelect, this`darkSelect, this`light, this`dark, this`scheme
      ensures lightSelect == SelectedValue(p.lightTheme, lightChoices)
      ensures darkSelect == SelectedValue(p.darkTheme, darkChoices)
      ensures light == LoadedField(p.lightColorOverride, p.lightColor)
      ensures dark == LoadedField(p.darkColorOverride, p.darkColor)
      ensures scheme == NormaliseScheme(p.prefersColorSchemeOverride)
    {
      lightSelect := SelectedValue(p.lightTheme, lightChoices);
      darkSelect := SelectedValue(p.darkTheme, darkChoices);
      light := LoadedField(p.lightColorOverride, p.lightColor);
      dark := LoadedField(p.darkColorOverride, p.darkColor);
      scheme := NormaliseScheme(p.prefersColorSchemeOverride);
    }

    /** Empties both pickers and appends one entry per theme to each, in order. */
    method FillPickers(themes: seq<Extension>)
      modifies this`lightChoices, this`darkChoices
      ensures lightChoices == ChoicesOf(themes) && darkChoices == lightChoices
    {
      lightChoices, darkChoices := [], [];
      for i := 0 to |themes|
        invariant lightChoices == ChoicesOf(themes[..i]) && darkChoices == lightChoices
      {
        var option := ChoiceFor(themes[i]);
        lightChoices := lightChoices + [option];
        darkChoices := darkChoices + [option];
        assert themes[..i + 1][..i] == themes[..i];
      }
      assert themes[..|themes|] == themes;
    }

    /** Save's first step: unchecks and hides every override whose input is blank. */
    method NormaliseOverrides()
      requires Valid()
      modifies this`light, this`dark
      ensures Valid()
      ensures light == NormaliseField(old(light)) && dark == NormaliseField(old(dark))
    {
      NormalisePreservesValidity(cssAccepts, light);
      NormalisePreservesValidity(cssAccepts, dark);
      light := NormaliseField(light);
      dark := NormaliseField(dark);
    }

    /** Save's first two steps: unchecks blank overrides, then writes the
      form's seven settings keys; returns the stored `lastUsed` ("light" when
      absent), which is read but not written. */
    method StoreForm() returns (lastUsed: string)
      requires Valid()
      modifies this`light, this`dark, host`sync
      ensures Valid()
      ensures light == NormaliseField(old(light)) && dark == NormaliseField(old(dark))
      ensures lastUsed == GetOr(old(host.sync.lastUsed), "light")
      ensures host.sync == WriteSettings(old(host.sync),
                SavedPrefs(lightSelect, darkSelect, old(light), old(dark), scheme, lastUsed))
    {
      NormaliseOverrides();
      var lightColorOverride := light.override;
      var darkColorOverride := dark.override;
      var lightColor := if lightColorOverride then Trim(light.input) else "";
      var darkColor := if darkColorOverride then Trim(dark.input) else "";
      var prefersColorSchemeOverride := NormaliseScheme(scheme);
      lastUsed := GetOr(host.sync.lastUsed, "light");
      host.sync := WriteSettings(host.sync, Prefs(lightSelect, darkSelect, lightColorOverride, darkColorOverride,
                                                  lightColor, darkColor, lastUsed, prefersColorSchemeOverride));
    }

    /** After a successful save or restore: recolours the icon, revalidates and
      reloads the form from the store. */
    method Refresh(colors: Palette, systemPrefersDark: bool)
      modifies this, host`icon
      ensures Refreshed(colors, systemPrefersDark) && Valid()
    {
      Background.UpdateIconColor(host, colors, systemPrefersDark);
      ValidateSelections();
      LoadThemes();
    }

    /** `saveOptions`: unchecks blank overrides, writes the seven settings keys
      (never `lastUsed`), enables the theme `lastUsed` selects, refreshes the
      icon and reloads the form. A rejected enable leaves the store written
      and reports the failure. */
    method SaveOptions(colors: Palette, systemPrefersDark: bool)
      requires Valid()
      modifies this, host`sync, host`installed, host`icon
      ensures Valid()
      ensures host.sync == WriteSettings(old(host.sync),
                SavedPrefs(old(lightSelect), old(darkSelect), old(light), old(dark), old(scheme),
                           GetOr(old(host.sync.lastUsed), "light")))
      ensures var target := ThemeFor(GetOr(old(host.sync.lastUsed), "light"), old(lightSelect), old(darkSelect));
              if InstalledTheme(old(host.installed), target) then
                host.installed == EnableAddon(old(host.installed), target) &&
                Refreshed(colors, systemPrefersDark) && notice == Saved
              else
                host.installed == old(host.installed) && host.icon == old(host.icon) &&
                light == NormaliseField(old(light)) && dark == NormaliseField(old(dark)) &&
                lightSelect == old(lightSelect) && darkSelect == old(darkSelect) &&
                lightChoices == old(lightChoices) && darkChoices == old(darkChoices) &&
                scheme == old(scheme) && notice == SaveFailed
    {
      var lastUsed := StoreForm();
      var themeToActivate := ThemeFor(lastUsed, lightSelect, darkSelect);
      var ok := host.SetEnabled(themeToActivate);
      if !ok {
        notice := SaveFailed;
        return;
      }
      Refresh(colors, systemPrefersDark);
      notice := Saved;
    }

    /** `defaultOptions`: clears the store, enables the default light theme,
      writes exactly DEFAULT_PREFS, refreshes the icon and reloads the form.
      A rejected enable leaves the store cleared and reports the failure. */
    method DefaultOptions(colors: Palette, systemPrefersDark: bool)
      requires Valid()
      modifies this, host`sync, host`installed, host`icon
      ensures Valid()
      ensures if InstalledTheme(old(host.installed), DefaultPrefs.lightTheme) then
                host.sync == StoreAll(DefaultPrefs) &&
                host.installed == EnableAddon(old(host.installed), DefaultPrefs.lightTheme) &&
                Refreshed(colors, systemPrefersDark) && notice == DefaultsRestored
              else
                host.sync == EmptyStore && host.installed == old(host.installed) &&
                host.icon == old(host.icon) &&
                lightChoices == old(lightChoices) && darkChoices == old(darkChoices) &&
                lightSelect == old(lightSelect) && darkSelect == old(darkSelect) &&
                light == old(light) && dark == old(dark) && scheme == old(scheme) &&
                saveDisabled == old(saveDisabled) && notice == RestoreFailed
    {
      host.sync := EmptyStore;
      var ok := host.SetEnabled(DefaultPrefs.lightTheme);
      if !ok {
        notice := RestoreFailed;
        return;
      }
      host.sync := StoreAll(DefaultPrefs);
      Refresh(colors, systemPrefersDark);
      notice := DefaultsRestored;
    }

    /** The change handler of either override checkbox: shows or hides the
      input, empties it when unchecked, and revalidates. */
    method OnOverrideChange(m: Side, isChecked: bool)
      modifies this`light, this`dark, this`saveDisabled, this`notice
      ensures Valid()
      ensures notice == if saveDisabled then ErrorList(CurrentErrors()) else NoNotice
      ensures var f := if m == LightSide then old(light) else old(dark);
              var g := ColorField(isChecked, if isChecked then f.input else "", isChecked);
              if m == LightSide then light == g && dark == old(dark)
              else dark == g && light == old(light)
    {
      if m == LightSide {
        light := light.(override := isChecked, shown := isChecked);
      } else {
        dark := dark.(override := isChecked, shown := isChecked);
      }
      ValidateSelections();
      if !isChecked {
        if m == LightSide {
          light := light.(input := "");
        } else {
          dark := dark.(input := "");
        }
        ValidateSelections();
      }
    }

    /** The input handler of either colour field: stores the text and revalidates. */
    method OnColorInput(m: Side, value: string)
      modifies this`light, this`dark, this`saveDisabled, this`notice
      ensures Valid()
      ensures notice == if saveDisabled then ErrorList(CurrentErrors()) else NoNotice
      ensures if m == LightSide then light == old(light).(input := value) && dark == old(dark)
              else dark == old(dark).(input := value) && light == old(light)
    {
      if m == LightSide {
        light := light.(input := value);
      } else {
        dark := dark.(input := value);
      }
      ValidateSelections();
    }

    /** The change handler of either theme picker: records the choice and revalidates. */
    method OnSelectChange(m: Side, value: string)
      modifies this`lightSelect, this`darkSelect, this`saveDisabled, this`notice
      ensures Valid()
      ensures notice == if saveDisabled then ErrorList(CurrentErrors()) else NoNotice
      ensures if m == LightSide then lightSelect == value && darkSelect == old(darkSelect)
              else darkSelect == value && lightSelect == old(lightSelect)
    {
      if m == LightSide {
        lightSelect := value;
      } else {
        darkSelect := value;
      }
      ValidateSelections();
    }

    /** The Reset button: discards the edits by reloading the form from the store. */
    method OnReset()
      modifies this
      ensures ShowsStore() && Valid()
      ensures notice == if saveDisabled then ErrorList(CurrentErrors()) else NoNotice
    {
      ValidateSelections();
      LoadThemes();
    }
  }
}

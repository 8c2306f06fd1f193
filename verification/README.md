# Toggley, modelled in Dafny

Toggley is a browser extension that switches between a light theme and a
dark theme. The toolbar button toggles between the two configured themes.
It redraws its own icon as a sun or a moon, in a stroke colour the user can
override for each mode. A preferences page chooses the two themes, the
icon-colour overrides and the colour-scheme setting. A schedule page stores
a light time and a dark time.

The model has one Dafny module per source file, plus two modules they share:

- `Text` is `String.prototype.trim`: the ECMAScript white-space set, and
  trimming as a leading and a trailing white-space run. Its lemmas prove what
  trimming keeps, when it yields nothing, and that it is idempotent.
- `Preferences` holds the preference record, `DEFAULT_PREFS` (defaults.js),
  and the synced store. The store has one optional slot per key.
  `clear`, `set` and `get(defaults)` are modelled as functions on that store.
- `Host` is the browser as the extension sees it. A `Browser` object holds:
  - the installed add-ons;
  - the synced store;
  - the local `themeSchedule` value;
  - the toolbar icon.

  `management.get(id)` succeeds exactly when an add-on with that id is
  installed, whatever its kind. `management.setEnabled(id, true)` applies
  only to themes: it is rejected unless an installed theme has that id.
  Otherwise it enables that theme and disables every other theme (the
  browser shows one theme at a time).
- `Background` (background.js) covers:
  - `getThemePrefs` and the toggle decision;
  - the `toggleTheme` method;
  - the icon's mode, stroke colour and glyph, and the `updateIconColor` method;
  - lemmas tying a toggle to the mode the icon then shows.
- `Options` (options.js) covers:
  - colour and form validation, the ordered error list, and the candidate
    themes with their selection fallback;
  - save normalisation and the values Save writes;
  - an `OptionsPage` class with the page's controls and its handlers.

  The page's invariant `Valid()` says that the Save button is disabled exactly
  when a rule fails. `ShowsStore()` says that the form shows what the store
  holds.
- `Settings` (settings.js) covers:
  - the schedule defaults and the two checks Save makes, in order;
  - a `SchedulePage` class whose Save clears both message elements, reports
    the first failed check or writes the schedule, and reports the write's
    outcome.

The browser's CSS colour parser is a parameter of the options page,
`cssAccepts`. The current theme's colours and the platform's dark preference
are parameters of `UpdateIconColor`.

## Model

| member | source | states |
|---|---|---|
| `Text.TrimEnds` | options.js:65 | a non-empty trimmed value starts and ends with a non-white-space character |
| `Text.TrimIsMiddle` | options.js:65 | the trimmed value is a contiguous part of the input, and everything cut off around it is white space |
| `Text.TrimBlankIff` | options.js:67 | an input trims to "" exactly when it is all white space |
| `Text.TrimIdempotent` | options.js:187-188 | trimming a trimmed value changes nothing, so a stored colour is already trimmed |
| `Text.LeadingSpaceRun` | options.js:65 | the leading run trim removes is all white space and is maximal |
| `Text.TrailingSpaceRun` | options.js:65 | the trailing run trim removes is all white space and is maximal |
| `Preferences.NormaliseScheme` | options.js:190 | the colour-scheme value is always "firefox" or "toggley", and it is "firefox" exactly when the input is exactly "firefox" |
| `Preferences.DefaultPrefsWellFormed` | defaults.js:2-11 | the default theme ids differ, both overrides are off with empty colours (override iff colour holds), lastUsed is "light" and selects the light theme, and the scheme is already normalised |
| `Preferences.ReadEmptyStore` | options.js:222 | reading a cleared store yields exactly the defaults |
| `Preferences.ReadStoreAll` | options.js:228 | after every key of a preference set is written, reading returns that set, whatever the defaults |
| `Preferences.ReadWriteSettings` | options.js:193-198 | the seven keys Save writes read back as written, and lastUsed keeps its old value |
| `Host.EnableAddonEffect` | background.js:21 | enabling an installed theme keeps every add-on's id, name and kind, enables it, disables every other theme and leaves add-ons that are not themes as they were |
| `Host.Browser.SetEnabled` | options.js:202 | the request succeeds exactly when an installed theme has the id, and only then changes the add-on list, as EnableAddon describes |
| `Background.GetThemePrefs` | background.js:1-9 | an absent key reads as its default (firefox-compact-light@mozilla.org, firefox-compact-dark@mozilla.org, "light"); a present key reads as stored |
| `Background.ToggleStep` | background.js:20-26 | the new lastUsed is "dark" exactly when the old one is "light", otherwise "light"; the enabled theme is the one the new lastUsed selects |
| `Background.ToggleTwice` | background.js:20-26 | two toggles bring "light" and "dark" back to themselves; any other value ends at "dark" |
| `Background.ToggleTheme` | background.js:11-27 | when either configured theme is not installed, or the one to enable is not a theme and the browser rejects it, nothing changes; otherwise the opposite theme is enabled and only lastUsed is written |
| `Background.GetIconPrefs` | background.js:32-46 | absent keys read as the compact themes, overrides off and empty colours; present keys, theme ids, override flags and colours alike, read as stored |
| `Background.InlineDefaultsAgree` | defaults.js:3-9 | the background script's inline defaults equal the matching fields of DEFAULT_PREFS, so getThemePrefs reads the store exactly as a read with DEFAULT_PREFS would |
| `Background.FirstEnabledTheme` | background.js:50 | the result is the index of the first enabled theme, or none when no theme is enabled |
| `Background.CurrentMode` | background.js:53-61 | the mode is dark exactly when the first enabled theme has the dark theme's id; otherwise it is light |
| `Background.StrokeColor` | background.js:66-75 | the current mode's override colour wins when its flag is on and its colour is non-empty; then the theme's icons colour, then toolbar_text, then rgb(251,251,254) on a dark platform or rgb(91,91,102) otherwise |
| `Background.OtherOverrideIgnored` | background.js:71-75 | the other mode's override flag and colour never change the stroke colour |
| `Background.GlyphFor` | background.js:84 | the sun is drawn exactly in dark mode |
| `Background.UpdateIconColor` | background.js:31-89 | the icon becomes the glyph and stroke colour for the stored preferences, the installed add-ons, the theme colours and the platform preference |
| `Background.ModeAfterEnabling` | background.js:50-61 | after an installed theme is enabled, the icon's mode is dark exactly when that theme is the configured dark theme |
| `Background.IconFollowsToggle` | background.js:20-26 | with two distinct installed ids and the one to enable an installed theme (the toggle's success case), the icon's mode after a toggle is dark exactly when the recorded lastUsed is "dark" |
| `Options.ColorInputValidity` | options.js:64-80 | an all-white-space input is valid; any other input is valid exactly when the parser accepts its trimmed value |
| `Options.InRuleOrder` | options.js:84-99 | each failed rule appears once, in the order distinctness, dark colour, light colour; the list is empty exactly when no rule failed |
| `Options.SelectionErrorsMeaning` | options.js:82-101 | there is a distinctness message iff the selections are equal, and a colour message iff that override is checked and its input is invalid; messages are in rule order; the list is empty iff the form is valid |
| `Options.EqualSelectionsFirstError` | options.js:86-89 | equal theme selections always produce an error, whatever else the form holds, and it comes first |
| `Options.Candidates` | options.js:112-113 | the offered themes are exactly the installed themes other than default-theme@mozilla.org |
| `Options.CandidatesFirst` | options.js:112-113 | the first offered theme is the first installed theme that is not default-theme@mozilla.org, which is the fallback a picker shows |
| `Options.CandidatesCount` | options.js:112-113 | filtering keeps every candidate as many times as it is installed and drops every other add-on |
| `Options.CandidatesAppend` | options.js:112-113 | filtering keeps installation order: the candidates of two lists joined are the candidates of each, joined |
| `Options.ChoicesOfEntries` | options.js:131-139 | a picker has one entry per theme, in order, with the theme's id as value and its name as label |
| `Options.SelectedValue` | options.js:142-143 | a selection is the stored id when offered, else the first entry's id, else "" when nothing is offered; the result is always "" or an offered id |
| `Options.NoCandidatesBlocksSave` | options.js:142-143 | with no candidate theme both pickers read "", so the distinctness rule fails and Save is blocked |
| `Options.NormaliseField` | options.js:176-183 | a blank input unchecks its override and hides its container; the input text is kept |
| `Options.NormalisePreservesValidity` | options.js:176-183 | normalising an override never changes whether it makes the form invalid |
| `Options.SavedPrefs` | options.js:185-198 | Save writes the selected ids; each override is on iff it was checked with a non-blank input; each stored colour is the trimmed input when its override is on and "" otherwise; the scheme is normalised; lastUsed is the value read |
| `Options.SaveLoadSave` | options.js:146-154 | loading saved values into the form and saving again writes the same values |
| `Options.SavedColorsParse` | options.js:185-188 | a valid form saves distinct themes and only colours the parser accepts |
| `Options.OptionsPage.constructor` | options.js:282 | opening the page (the second loadThemes call at options.js:290 reloads the same store into the same state, so one load is modelled) leaves the form showing the store, with Save enabled exactly when the form is valid, and the status list holding the ordered errors when it is not and nothing otherwise |
| `Options.OptionsPage.ValidateSelections` | options.js:82-108 | Save is disabled exactly when a rule fails; the status list holds the failed rules' messages in rule order, or nothing |
| `Options.OptionsPage.LoadThemes` | options.js:110-167 | both pickers list the candidates, the selections fall back as SelectedValue says, the overrides, colours and scheme come from the store, and the form is validated |
| `Options.OptionsPage.FillPickers` | options.js:126-139 | both pickers are emptied, then get one entry per theme, in order |
| `Options.OptionsPage.RestoreControls` | options.js:142-154 | the selections, override controls and scheme selector are restored from a preference set |
| `Options.OptionsPage.NormaliseOverrides` | options.js:175-183 | each blank override is unchecked and hidden, and Save stays enabled exactly when the form is valid |
| `Options.OptionsPage.StoreForm` | options.js:175-198 | the form is normalised, and the store then holds the seven saved values with lastUsed untouched; the lastUsed read ("light" when absent) is returned |
| `Options.OptionsPage.Refresh` | options.js:204-212 | the icon is redrawn from the new state and the form shows the store again |
| `Options.OptionsPage.SaveOptions` | options.js:169-218 | the store holds SavedPrefs of the form; the theme lastUsed selects is enabled; on success the icon and form are refreshed and "Saved" is shown; a rejected enable leaves the add-ons, icon, pickers, their entries and the scheme as they were, keeps the normalised colour inputs, and reports failure |
| `Options.OptionsPage.DefaultOptions` | options.js:220-244 | the store is cleared; if the default light theme can be enabled, the store holds exactly DEFAULT_PREFS and the icon and form are refreshed; otherwise the store stays cleared, the add-ons, icon and every form control keep their values, and failure is reported |
| `Options.OptionsPage.OnOverrideChange` | options.js:246-266 | the override takes the checkbox state and its container follows it; unchecking empties the input; the form is revalidated |
| `Options.OptionsPage.OnColorInput` | options.js:268-275 | the input takes the typed text and the form is revalidated |
| `Options.OptionsPage.OnSelectChange` | options.js:277-279 | the picker takes the chosen id and the form is revalidated |
| `Options.OptionsPage.OnReset` | options.js:284-287 | the edits are discarded: the form shows the store again, Save is enabled exactly when it is valid and the status list holds the ordered errors or nothing |
| `Settings.TimeOrDefault` | settings.js:11-12 | a stored non-empty time is shown as is; an absent or empty one shows the default |
| `Settings.LoadedTimes` | settings.js:9-13 | a missing schedule or field loads as 06:00 for light and 18:00 for dark; loaded times are never empty |
| `Settings.CheckSchedule` | settings.js:27-37 | an empty time is reported as missing, before the equality check; equal non-empty times are reported as the same; otherwise the schedule is accepted |
| `Settings.AcceptedScheduleReloads` | settings.js:39-43 | an accepted schedule, once stored, loads back as the same two times |
| `Settings.LoadedTimesNeverMissing` | settings.js:9-13 | Save right after loading never reports a missing time |
| `Settings.SchedulePage.constructor` | settings.js:1-13 | opening the page fills the inputs from the local store |
| `Settings.SchedulePage.Load` | settings.js:9-13 | the inputs show the stored times, or the defaults |
| `Settings.SchedulePage.ClearMessages` | settings.js:21-24 | every given message element is emptied and hidden, and its class is kept |
| `Settings.SchedulePage.OnSave` | settings.js:16-56 | both messages are cleared first; a failed check shows its error and stores nothing; an accepted schedule is stored verbatim and reported as saved, or reported as failed when the write fails |

## Left out

- Rendering is left out: status divs, colours, input background colouring and
  the forced-reflow trick. `Notice` keeps only what the status area reports;
  each validation message is represented by its `SelectionError` value, not
  its text.
  The success notice's timed removal is not modelled, nor is the schedule
  page's auto-hide timer.
- The CSS colour parser is the parameter `cssAccepts`. It runs in the
  browser, so the model does not define it.
- The SVG markup, its base64 encoding and `setIcon`: the icon is modelled as
  the chosen glyph and stroke colour.
- `browser.*` calls are modelled as state of `Browser`: the sync and local
  stores and the add-on list. The theme colours (`theme.getCurrent`) and
  `matchMedia` are parameters. Listener registration and `getBackgroundPage`
  are not modelled.
- Asynchronous ordering and the `console.error` logging in the catch blocks
  are left out. Each handler runs to completion as one step.
- The page inserts each status message directly after the status element
  (options.js:48), so several error messages appear on screen in the reverse
  of the order the status list holds. The list keeps rule order; the display
  order is not modelled.
- `hideStatus` and `persistentErrorShown` are left out, because nothing in
  the page calls them.
- Failures of the synced store's `get`, `set` and `clear` are not modelled.
  Only a rejected `setEnabled` leads to the failure reports.
- Values of the wrong type under a synced key are not modelled: each key holds
  a value of its own type or is absent.
- The scheduled light/dark switching, context menus and alarms are not part
  of this model. The schedule page only stores the two times.
- Options.OptionsPage.SaveOptions: the icon is always refreshed. The source's
  guard that the background page and its `updateIconColor` exist is assumed
  to hold.
- Options.OptionsPage.DefaultOptions: the icon is always refreshed, under the
  same assumption as SaveOptions.

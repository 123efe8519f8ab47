# Theme controller of the agora-academy page script

This project models the light/dark theme controller at the top of `script.js`.
The controller keeps four pieces of page state:

- the root element's `data-theme` attribute;
- the text of the theme icon;
- the `"theme"` entry of `localStorage`;
- the `theme-changing` class on the body, which is added for the CSS
  transition and removed again by a 500 ms timer.

The controller works as follows:

- On page load, `getInitialTheme` picks the starting theme. A truthy stored value wins; otherwise the
  system dark-mode preference decides. `applyTheme` then renders that theme.
- `applyTheme` always does four things: it adds the transition class; it sets the attribute to `"dark"`
  or removes it; it sets the matching icon; and it stores its argument verbatim. It also schedules one
  removal of the transition class.
- A click on the toggle calls `toggleTheme`. It reads the attribute and applies the other theme.
- When the system preference changes, the handler applies the reported theme, but only when nothing
  truthy is stored.

The project has three files:

- `theme_model.dfy` (module `ThemeModel`) describes the page as a value, `Page`. It holds the
  attribute, icon text, storage map, body class set and the number of pending removal timers. There is
  one function per operation, and `Step`/`Run` handle the page's events one after another.
- `theme_controller.dfy` (module `Controller`) holds the class `ThemeController`. Its fields are that
  page state, and its methods update them in place, as the script does. Each method's `ensures` ties
  the new state to the `ThemeModel` function it performs.
- `theme_properties.dfy` (module `ThemeProperties`) holds lemmas over single operations and over
  whole event traces.

Three behaviours of the script that the model keeps as they are:

- The script adds the transition class on every `applyTheme`, including page load and
  system-driven changes (script.js:44, 75, 85).
- It always re-writes storage at load, even when the theme came from storage (script.js:56, 75).
- It accepts any truthy stored string (script.js:29-30), not only `"light"`/`"dark"`. Such a string
  renders the light theme but stays in storage (`UnknownStoredValueRendersLight`).

## Model

| member | source | states |
|---|---|---|
| ThemeModel.RenderedTheme | script.js:67-69 | the theme read back from the page is always `"light"` or `"dark"`; it is `"dark"` exactly when the attribute is `"dark"` |
| ThemeModel.InitialTheme | script.js:26-36 | a truthy stored value is returned verbatim; otherwise the result is `"dark"` exactly when the system prefers dark and `"light"` otherwise; the result is never empty |
| ThemeModel.Apply | script.js:42-62 | the page is well rendered afterwards: the attribute is absent or `"dark"` and the icon matches it; `"dark"` is rendered exactly when the argument is `"dark"`; storage holds the argument verbatim, and other keys are untouched; the transition class is added; exactly one removal is scheduled |
| ThemeModel.Toggle | script.js:67-71 | the rendered theme changes; storage then names the rendered theme, and other keys are untouched; the transition class is added and one removal is scheduled |
| ThemeModel.OnSystemChange | script.js:81-87 | with a truthy stored value the page is unchanged; otherwise the reported theme is rendered and stored, other keys are untouched, the transition class is added and one removal is scheduled |
| ThemeModel.RemoveTransition | script.js:59-61 | the transition class is gone, other classes stay, and exactly one fewer removal is pending; attribute, icon and storage are unchanged |
| ThemeModel.PageLoad | script.js:73-75 | after load, the page is consistent, the transition class is on, and storage holds the resolved initial theme, which is truthy |
| Controller.ThemeController.constructor | script.js:73-75 | the controller's state is the loaded page |
| Controller.ThemeController.ApplyTheme | script.js:42-62 | the in-place updates produce exactly `Apply` of the previous state |
| Controller.ThemeController.ToggleTheme | script.js:67-71 | the new state is `Toggle` of the old one; the rendered theme is the opposite one, and storage agrees with it |
| Controller.ThemeController.OnSystemThemeChange | script.js:83-87 | the new state is `OnSystemChange` of the old one; nothing changes when a truthy value is stored |
| Controller.ThemeController.RemoveThemeChanging | script.js:59-61 | the new state is `RemoveTransition` of the old one; attribute, icon and storage are unchanged |
| ThemeProperties.LoadFollowsSystemWhenNothingStored | script.js:33-35 | with nothing truthy stored, load renders dark exactly when the system prefers dark, shows the matching icon, and stores that theme |
| ThemeProperties.LoadKeepsStoredPreference | script.js:28-31 | with a truthy stored value, load does not depend on the system preference; storage ends up exactly as it was; dark is rendered exactly when `"dark"` is stored |
| ThemeProperties.UnknownStoredValueRendersLight | script.js:28-31 | a stored value other than `"light"`/`"dark"` renders light but stays stored, so page and storage disagree |
| ThemeProperties.ToggleTwiceRestores | script.js:67-71 | starting from a well-rendered page whose storage agrees with it, two toggles restore the attribute, the icon and the whole storage map |
| ThemeProperties.ToggleTwiceReplacesUnknownValue | script.js:69-70 | a stored value other than `"light"`/`"dark"` is not restored by two toggles |
| ThemeProperties.ToggleIsInvolutionOnTheme | script.js:67-71 | toggling flips the rendered theme, and toggling twice restores it |
| ThemeProperties.StepPreservesConsistent | script.js:42-87 | every event keeps the page consistent: well rendered, and the transition class is present only while a removal is pending |
| ThemeProperties.RunPreservesConsistent | script.js:42-87 | the same holds for any trace of events |
| ThemeProperties.StepKeepsPreference | script.js:56 | no event of the script makes a truthy stored value falsy |
| ThemeProperties.RunKeepsPreference | script.js:56 | without outside edits, a truthy stored value stays truthy over any trace |
| ThemeProperties.RunKeepsStorageInSync | script.js:56 | once storage names the rendered theme, it keeps doing so until storage is edited from outside |
| ThemeProperties.ClicksDecideTheme | script.js:67-87 | with a stored preference, the theme after a trace depends only on the parity of its toggle clicks |
| ThemeProperties.LoadedPageIgnoresSystemChanges | script.js:74-87 | after page load, and after any trace without outside storage edits, a system preference change leaves the page unchanged |
| ThemeProperties.ClearedStorageFollowsSystem | script.js:84-85 | after storage is cleared, a system change renders and stores the reported theme |
| ThemeProperties.PendingRemovalsClearClass | script.js:59-61 | once every pending removal has run, the transition class is gone and attribute, icon and storage are unchanged |
| ThemeProperties.EarlierRemovalEndsLaterTransition | script.js:59-61 | a removal scheduled by an earlier toggle takes the class away while a later one is still pending, because removals are never cancelled |

## Left out

- The falling-digit animation (script.js:89-144): it consists of random sampling, window geometry,
  element creation and timers, and has no theme state.
- The wiring: DOM lookups and `addEventListener` (script.js:4-6, 78, 81-83) are not modelled.
  Clicks and preference changes are method calls or `Event`s.
- `localStorage` and `matchMedia` are foreign APIs. Storage is a `map<string, string>` field.
  The system preference is a `bool` parameter. Their failure paths are not modelled: if `getItem`
  throws (script.js:28) the script stops before script.js:75 and registers no listener, and if
  `setItem` throws (script.js:56) the transition class stays on with no removal scheduled.
- Timers are not real time. `setTimeout(…, 500)` is a count of pending removals, and the model can
  fire one at any point. A timer event with nothing pending does nothing.
- Edits of storage made outside the script (another tab, the user) are an `Event`, `StorageEdited`.
  They are not part of the script itself.
- Other attributes of the root element, other DOM state, and the icon's UTF-16 encoding are not
  modelled. The icon is a string of Unicode scalar values.
- The timer callback `RemoveThemeChanging` requires that a removal is pending. A timer callback
  can only run after it has been scheduled.

# Interaction core of a single-page document-viewer shell

This project models the state machine behind `script.js`. That script drives a portfolio page laid out like an editor. The page has tabs (projects, tools, blog), each with a trigger in the tab bar and a content panel. It also has a command palette overlay that keyboard shortcuts open and close, a sidebar that can be resized by dragging, and a light/dark theme that is saved in local storage.

The model has five pieces, one module each, and one object that combines them:

- `Tabs` is the tab controller: `switchTab` re-marks every trigger and every panel, renders the tab's body when both the body element and the tab's content exist, and redraws the two cosmetic diff counters.
- `Keyboard` is the `keydown` router. It is one ordered decision procedure (`Route`) from a key event to an action.
- `Resizer` is the resize session: `isResizing` and the sidebar's inline width, under mousedown, mousemove and mouseup.
- `ThemePref` is the theme preference: the dark flag, the toggle's icon name and the `theme` storage slot. It covers `toggleTheme` and the saved-theme step at startup.
- `Script.Shell` is a class whose fields are the state the handlers share. Its methods are the handlers. Each method's postcondition ties the new state to the specification function of its component and states that the other components are unchanged. `Shell.Valid()` is the invariant every handler preserves: counters in range, sidebar width unset or within [250, 600], and the stored theme in agreement with the dark flag.

The markdown renderer is kept symbolic. A rendered body is the value `RenderedCode(md)`, which stands for `<code>` + `marked.parse(md)` + `</code>`. `Math.random()` is injected as a real number `u` with 0 ≤ u < 1, and each counter is `floor(u * n)`.

Three behaviours of the script are worth stating plainly:

- A pointer position outside [250, 600] is ignored and the previous width is kept. It is not clamped to the range (script.js:188-190).
- Only `p`, `t` and `b` are shortcut keys. There is no `d`/`dayjob` entry (script.js:163-173).
- Exclusivity of the active tab is not built in. Exactly one trigger and one panel become active only when the page has exactly one of each for the requested tab (`Tabs.SwitchIsExclusive`). An unknown tab name leaves none active.

## Model

| member | source | states |
|---|---|---|
| `Tabs.Marked` | script.js:67-81 | each element keeps its key and order and is active exactly when its key is the requested one; no earlier flag survives |
| `Tabs.MarkedActiveCount` | script.js:67-81 | after re-marking, the number of active elements equals the number of elements carrying the requested key |
| `Tabs.UniqueKeyCount` | script.js:67-81 | with one element per key, a key occurs at most once, and exactly once when some element has it |
| `Tabs.AbsentKeyCount` | script.js:67-81 | a key no element has occurs zero times, so an unknown tab leaves nothing active |
| `Tabs.LoadBody` | script.js:84-87 | only the body `tab-body` is rewritten, only when it exists and `content[tab]` is truthy, and it gets the code-wrapped rendering of that content; otherwise no body changes |
| `Tabs.Draw` | script.js:90-91 | `Math.floor(Math.random() * n)` lies in 0 .. n-1 |
| `Tabs.Switch` | script.js:66-94 | `switchTab`: trigger flags follow `data-tab`, panel flags follow `tab + "-content"`, the body update is `LoadBody`, additions lie in [0,19] and deletions in [0,9] |
| `Tabs.SwitchIsExclusive` | script.js:67-81 | with unique keys, exactly one trigger and one panel are active after switching to a tab the page has, and none after switching to an unknown one |
| `Tabs.SwitchForgetsHistory` | script.js:67-81 | the result of a switch does not depend on which elements were active before |
| `Tabs.SwitchTwice` | script.js:66-94 | switching to the same tab again changes only the counters |
| `Keyboard.LowerChar` | script.js:163 | lower-casing maps `A`-`Z` to `a`-`z`, 32 code points down, and leaves every other character alone |
| `Keyboard.ToLower` | script.js:163 | `toLowerCase` keeps the length and lower-cases each character |
| `Keyboard.ShortcutTab` | script.js:163-173 | a mapped key is a single character and maps to projects, tools or blog |
| `Keyboard.ShortcutKeys` | script.js:163-173 | `p`/`P`, `t`/`T` and `b`/`B`, and only those six keys, map to projects, tools and blog |
| `Keyboard.Route` | script.js:140-174 | text-input targets give only Ignore or Close; Toggle exactly for Ctrl/Meta with key `k` outside text inputs; Close exactly for Escape; a tab switch only outside text inputs and only to a shortcut tab |
| `Keyboard.RouteLetters` | script.js:163-173 | outside text inputs, and apart from the chord and Escape, each of the three letters in either case switches to its tab, and only that letter does |
| `Keyboard.RouteIgnores` | script.js:140-174 | exactly which events the router ignores: in a text input every key but Escape; elsewhere every key that is not the chord, Escape or a shortcut letter |
| `Resizer.Step` | script.js:179-198 | mousedown starts the session and mouseup ends it (a no-op when idle); the width changes only on a move while resizing, to an x in [250,600]; a bounded width stays bounded |
| `Resizer.RunStaysBounded` | script.js:184-191 | over any sequence of pointer events, a width that starts unset or in [250,600] stays so |
| `Resizer.IdleSessionIgnoresPointer` | script.js:184-198 | without a mousedown, moves and mouseups leave an idle session unchanged |
| `Resizer.RunWidthComesFromMove` | script.js:184-191 | the width after any sequence of events is the old one or the accepted x of one of its move events |
| `ThemePref.Load` | script.js:117-122 | only a stored value of exactly `"dark"` turns dark mode on and sets the icon to `moon`; any other value leaves the page unchanged |
| `ThemePref.Toggle` | script.js:104-112 | the mode flips; the slot holds `"dark"` when dark and `"light"` otherwise; the icon is `moon` when dark and `sun` when light; store and flag agree; a later session loading the slot comes up in the same mode |
| `ThemePref.LoadIsConsistent` | script.js:117-122 | whatever the slot holds, the loaded page is dark exactly when the slot holds `"dark"`, and store and flag agree |
| `ThemePref.ToggleTwice` | script.js:104-112 | toggling twice restores the mode |
| `Script.Shell.constructor` | script.js:117-122 | page load: the saved theme is applied, the start tab `projects` is opened (script.js:221), the palette is closed and no resize is in progress (script.js:177); the invariant holds |
| `Script.Shell.SwitchTab` | script.js:66-94 | the tab state becomes `Tabs.Switch` of the old one; palette, resize session and theme are unchanged; the invariant is preserved |
| `Script.Shell.MarkTriggers` | script.js:67-73 | the in-place loop over the triggers yields `Marked(old triggers, tab)` |
| `Script.Shell.MarkPanels` | script.js:75-81 | the in-place loop over the panels yields `Marked(old panels, tab + "-content")` |
| `Script.Shell.ToggleTheme` | script.js:104-112 | the theme becomes `ThemePref.Toggle` of the old one and nothing else changes |
| `Script.Shell.LoadSavedTheme` | script.js:117-122 | the theme becomes `ThemePref.Load` of the old one and nothing else changes |
| `Script.Shell.TogglePalette` | script.js:125-127 | palette visibility flips and nothing else changes |
| `Script.Shell.ClosePalette` | script.js:129-131 | the palette is closed and nothing else changes |
| `Script.Shell.PaletteClick` | script.js:133-137 | a click on the background closes the palette; a click on inner content leaves it as it was |
| `Script.Shell.KeyDown` | script.js:140-174 | the tab state changes only on a `SwitchTo` route, and then by `Tabs.Switch`; the palette toggles, closes or stays as routed; resize session and theme never change |
| `Script.Shell.MouseDown` | script.js:179-182 | the session becomes `Resizer.Step(old, Down)`: resizing is on and the width is kept |
| `Script.Shell.MouseMove` | script.js:184-191 | the session becomes `Resizer.Step(old, Move(clientX))` |
| `Script.Shell.MouseUp` | script.js:193-198 | the session becomes `Resizer.Step(old, Up)`: resizing is off |
| `Script.FreshLoad` | script.js:116-122 | with nothing saved the page comes up light, on `projects`, with projects' body rendered when it exists and has content, the palette closed and no resize in progress |
| `Script.ChordTwice` | script.js:150-154 | the Ctrl/Meta-`k` chord pressed twice restores palette visibility and changes no tab |
| `Script.CloseIsIdempotent` | script.js:129-160 | Escape (on the page or in a text input), the close button and a background click each leave the palette closed, however often they are repeated |
| `Script.ToolsThenTyping` | script.js:142-168 | `t` on the page switches to tools; `t` in a text input afterwards changes neither the tab nor the palette |
| `Script.PaletteRoundTrip` | script.js:133-160 | the chord opens the palette; a background click closes it; the chord opens it again; Escape closes it |

## Left out

- `lucide.createIcons()` (script.js:2, 111, 121) is a foreign icon library. Only the `data-lucide` value is modelled.
- `marked.parse` (script.js:86) is a foreign renderer and is kept symbolic. The literal content strings (script.js:16-63) are a constructor parameter, because only which keys they have matters. A key inherited from `Object.prototype` (such as `toString`) would be truthy in the script but is absent from the model.
- `Math.random()` (script.js:90-91) is an injected real in [0, 1). Floating-point rounding of `u * 20` and `u * 10` is not modelled. The counters are kept as integers, not as the `+n` and `-n` display strings.
- `updateCommitInfo` and its 15-minute timer (script.js:201-209, 222, 225) are left out. They do locale date formatting on a timer and hold no logic to verify.
- DOM lookup and listener wiring (script.js:5-13, 97-101, 212-218) are left out. Trigger and sidebar-link clicks call `switchTab` with the element's `data-tab`, which is modelled as `Shell.SwitchTab`. A `.tab-trigger` without a `data-tab` attribute is not modelled, and every trigger key is a string.
- `e.preventDefault()` (script.js:151) and the `resizing` class on the body (script.js:181, 196) are left out, because they have no effect on the modelled state.
- The served page's initial state comes from HTML that is not part of this model. The model takes the palette as hidden, the page as light, the sidebar's inline width as unset, and the theme icon as a constructor parameter.
- `localStorage` is modelled as the one `theme` slot, as an optional string. A store that throws on access (storage disabled or full) is not modelled.
- `Keyboard.ToLower` folds only the ASCII letters. That is enough for the three shortcut letters: no other character lower-cases to `p`, `t` or `b`.
- `Keyboard.KeyEvent` carries the target's tag name only. Other editable targets, such as `contenteditable` elements, are not treated as text inputs, and neither does the script treat them so.
- `Resizer` takes `clientX` as an integer. Fractional pointer coordinates are not modelled.

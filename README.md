# Browser-pane window manager, modelled in Dafny

The program opens a window that holds a configurable number of embedded-browser
panes, one below the other in a scroll area, plus a theme selector. Each pane
(`BrowserWindow`) has a URL entry field, an "Open URL" button and a browser
surface. The manager (`WindowManager`) has a spin box with the range 1 to 10. Each
change of its value rebuilds the panes. The rebuild saves every old pane's entry
text, detaches every old pane, and creates that many fresh panes. Pane `i` is seeded
with saved text `i`, or with the empty string when there is no saved text at that
index. A pane's "current URL" is its entry text, not the page its browser surface
shows.

The model has four modules:

- `Panes` (pane.dfy): the `Pane` class. It holds the entry text and the list of
  strings handed to the browser surface's `load`. The module also defines
  `Snapshot`, which lists the current URLs of a sequence of panes, and `Without`,
  which removes a pane from the scroll frame's layout.
- `Themes` (themes.dfy): the combo box items, the three fixed style sheets and
  the index-to-theme mapping.
- `Manager` (manager.dfy): the `WindowManager` class and the pure rebuild rule
  `Seeds(urls, n)`. It is the list of entry texts that a rebuild of `n` panes
  from the saved `urls` produces. The module also holds the lemmas about that
  rule: prefix kept on shrink, blanks appended on grow, two rebuilds in a row.
- `Scenario` (scenario.dfy): a client of the manager. It drives three steps using
  only the manager's contracts: grow to three panes and type a URL into each
  without opening it, shrink to one pane, grow back to two.

The spin box's `valueChanged` signal is modelled by `SetSpinValue`. This follows
Qt's `QSpinBox`: the value is clamped to the range, and a rebuild runs only when
the value actually changes. The scroll frame's layout is the field `container`.
Detaching a pane (`setParent(None)`) removes it from `container`.

The source's `isinstance(win, BrowserWindow)` filter when saving texts never
removes anything. `windows` only ever receives `BrowserWindow`s, and in the model
it has type `seq<Pane>`. So `Snapshot` has no filter.

## Model

| member | source | states |
|---|---|---|
| `Panes.Pane.constructor` | assign5.py:8-29 | a new pane's entry text equals its seed; a non-empty seed is loaded exactly once, an empty seed loads nothing |
| `Panes.Pane.SetText` | assign5.py:28 | replacing the entry text issues no load |
| `Panes.Pane.LoadUrl` | assign5.py:31-33 | the entry text is appended verbatim to the browser's loads; the entry text is unchanged |
| `Panes.SeedLoads` | assign5.py:27-29 | the loads of a fresh pane: none for an empty seed, exactly one (the seed itself) otherwise |
| `Panes.Snapshot` | assign5.py:35-36 | one entry per pane, in index order; entry `i` is pane `i`'s entry text (its current URL) |
| `Panes.Without` | assign5.py:86 | detaching a pane keeps every other widget of the layout and drops every occurrence of that pane |
| `Panes.WithoutAbsent` | assign5.py:85-87 | detaching a pane that is not in the layout changes nothing |
| `Themes.ItemIndex` | assign5.py:54 | each theme has a combo box position below 3 |
| `Themes.ThemeAt` | assign5.py:73-79 | an index selects a theme exactly when it is 0, 1 or 2, and then it selects the theme at that position |
| `Themes.StyleSheet` | assign5.py:74-79 | every theme's style sheet is one of the three fixed sheets |
| `Themes.ThemeRoundTrip` | assign5.py:54 | selecting a theme's position gives back that theme |
| `Themes.StyleSheetInjective` | assign5.py:74-79 | distinct themes install distinct style sheets |
| `Themes.EverySheetHasOneItem` | assign5.py:74-79 | each of the three style sheets comes from exactly one theme, so no fourth state exists |
| `Manager.Clamp` | assign5.py:58-60 | the spin box value always lies in [1,10] and equals the requested value when that is in range |
| `Manager.Seeds` | assign5.py:91-94 | a rebuild of `n` panes produces exactly `n` entry texts |
| `Manager.SeedsAt` | assign5.py:92 | new pane `i` gets saved text `i` when `i` is below the number of saved texts, and `""` otherwise |
| `Manager.SeedsShrink` | assign5.py:91-92 | rebuilding with no more panes than saved texts yields exactly the first `n` saved texts |
| `Manager.SeedsGrow` | assign5.py:91-92 | rebuilding with more panes keeps every saved text at its index and appends empty texts |
| `Manager.RebuildTwice` | assign5.py:82-94 | two rebuilds in a row without edits: the second sees only the texts the first kept |
| `Manager.RebuildSameCount` | assign5.py:82-94 | rebuilding with an unchanged count and no edits reproduces the same texts |
| `Manager.WindowManager.constructor` | assign5.py:39-43 | a new manager has `urls == []`, no style sheet, spin value 1 and exactly one fresh pane whose text is empty and which has loaded nothing |
| `Manager.WindowManager.ChangeTheme` | assign5.py:73-79 | indices 0, 1, 2 install their theme's fixed sheet; any other index leaves the style sheet untouched |
| `Manager.WindowManager.UpdateWindows` | assign5.py:81-95 | `urls` becomes the old panes' texts when panes existed and is kept otherwise; afterwards there are `count` distinct fresh panes, their texts are `Seeds(urls, count)`, each has loaded only its non-empty seed, no old pane remains, and the layout holds exactly the new panes |
| `Manager.WindowManager.DetachAll` | assign5.py:85-87 | after every old pane is detached, the layout is empty |
| `Manager.WindowManager.SetSpinValue` | assign5.py:58-61 | the value is clamped to [1,10]; an unchanged value rebuilds nothing; a changed value saves the old texts and rebuilds from them |
| `Scenario.TypeIntoPanes` | assign5.py:35-36 | after the user types into each pane, the current URLs are the typed texts even though nothing was loaded |
| `Scenario.ThreeTypedPanes` | assign5.py:81-95 | from a new manager, growing to three panes and typing gives three panes with the typed texts |
| `Scenario.Shrink` | assign5.py:82-94 | reducing the pane count keeps the prefix of the current texts |
| `Scenario.Grow` | assign5.py:82-94 | increasing the pane count keeps every current text at its index; the added panes are empty and have loaded nothing |
| `Scenario.ShrinkThenGrow` | assign5.py:81-95 | three typed panes shrunk to one give `["http://a"]`; grown back to two they give `["http://a", ""]`, and the added pane has loaded nothing |

## Left out

- Rendering, networking and URL parsing by `QWebEngineView`/`QUrl` (assign5.py:23, 33). The browser surface is external. Its `load` is modelled only as appending the string to `Pane.loads`.
- Layout, fixed sizes, labels, the scroll area and window geometry (assign5.py:13-25, 46-69). They are pure widget wiring.
- `deleteLater` (assign5.py:87). Deferred destruction depends on the event loop. A detached pane is modelled only as removed from `windows` and from the layout (`container`).
- Signal and slot wiring and the `__main__` event loop (assign5.py:20, 55, 61, 97-101). `UpdateWindows`, `SetSpinValue`, `ChangeTheme` and `LoadUrl` are called directly.
- The contents of the style sheets beyond their being three fixed, distinct strings. CSS is not interpreted.
- The `initial_url=None` default of `BrowserWindow` (assign5.py:8). The manager always passes a string, and `None` and `""` behave the same under `if initial_url:`, so the seed is a `string`.
- The initial theme. The combo box starts at "Light", but `change_theme` only runs when the index changes, so a new manager has no style sheet (`styleSheet == ""`).

# keyhac-config keymap model

A Dafny model of a personal keyhac configuration (`config.py`). keyhac is a
keyboard-remapping host for Windows. The model covers the parts of the file
that have behaviour worth stating:

- **Window keymaps as tables** (`keymap.dfy`, module `Keymaps`). A window keymap
  maps an input chord (`"C-m"`) to a binding. A binding is one output chord, a
  macro of chords, a multi-stroke prefix with its second-stroke table, a raw
  virtual-key code, or a focus-or-launch command tag. The configuration fills a
  table by item assignment, so a table builder is modelled as an ordered
  sequence of `Write`s folded over a `map` by `Apply`. On every chord the last
  write wins. `LastWrite` is an independent reference reading that scans the
  writes from the end. `ApplyLookup` proves that the two agree.
- **The weblike layer** (`weblike.dfy`, module `Weblike`). This is
  `set_keymap_weblike`: 24 browser-style editing bindings, including the `C-x`
  multi-stroke prefix. It is modelled as a pure transform `Keymap -> Keymap`
  with its exact post-state, its frame and its idempotence.
- **The Emacs window test** (`classifier.dfy`, module `EmacsClassifier`). This is
  `check_func_emacs`. `IsEmacsWindow` states the test declaratively. The method
  `CheckFuncEmacs` follows the Python's order: class name first, then the
  host-list membership test, then the title's `startswith` test. It writes
  list `in` and `startswith` out as explicit scans (`ListContains`,
  `HasPrefix`). Its contract says it agrees with `IsEmacsWindow` on every
  window.
- **The registered keymaps** (`config.dfy`, module `Config`). These are the
  keymap part of `configure` as pure data: the global table, Firefox,
  Thunderbird, Emacs, and Slack. The Slack table is the weblike layer with
  Slack's overrides written after it.

`wrappers.dfy` holds the `Option` datatype.

The title test at config.py:59 is only `startswith("Emacs ")`, so a title of
exactly `"Emacs"` does not match (`TitleExamples`).

## Model

| member | source | states |
|---|---|---|
| Keymaps.Apply | config.py:2-30 | Running a sequence of item assignments binds exactly the chords bound before plus the chords assigned. Every chord that is not assigned keeps its binding. |
| Keymaps.LastWrite | config.py:106-114 | The reference reading of a sequence of assignments gives a chord a binding exactly when the chord is assigned. That binding is one the sequence actually assigns to it. |
| Keymaps.ApplyLookup | config.py:106-114 | Last write wins: after the assignments, each assigned chord holds the binding of its last assignment. Every other chord holds what it held before. |
| Keymaps.ApplyIsUnion | config.py:1-30 | The effect of a builder does not depend on the table it writes into. The result is the old table overlaid with what the builder writes into an empty table. |
| Keymaps.ApplyIdempotent | config.py:1-30 | Running any builder twice on a table gives the same table as running it once. |
| Keymaps.ApplyConcat | config.py:106-114 | Layering: writing a base layer and then an override layer equals writing their concatenation. |
| Keymaps.OverrideWins | config.py:107-114 | An override layer applied after a base layer determines every chord it writes, whatever the base layer wrote there. |
| Keymaps.LaterWriteWins | config.py:2-30 | An assignment that no later assignment to the same chord follows decides that chord's final binding. |
| Keymaps.DistinctPostState | config.py:2-30 | When no chord is assigned twice, every assigned chord ends up holding exactly its assigned binding. |
| Weblike.WeblikeWritesDistinct | config.py:2-30 | The weblike layer assigns no chord twice. |
| Weblike.WeblikeKeysCount | config.py:2-30 | The weblike layer binds exactly 24 different chords. |
| Weblike.SetKeymapWeblike | config.py:1-30 | After the weblike layer, the table binds the old chords plus the 24 listed chords. Each listed chord holds exactly its listed binding. Every unlisted chord keeps its prior binding. |
| Weblike.WeblikeBindings | config.py:2-29 | Whatever the table held before, `C-m` is `Enter`, `C-w` is `C-x`, `C-y` is `C-v`, `C-a` is `Home` and `A-Minus` is `C-S-t`. `C-u` is the macro `Home, S-End, C-x` and `C-k` is the macro `S-End, C-x`. |
| Weblike.WeblikePrefixCx | config.py:23-25 | `C-x` is a multi-stroke prefix whose second-stroke table has exactly two entries: `C-g` to `Esc` and `C-h` to `C-a`. |
| Weblike.WeblikeFrame | config.py:1-30 | A chord outside the 24 keeps its binding, or stays unbound. |
| Weblike.WeblikeIdempotent | config.py:1-30 | Applying the weblike layer twice gives a table equal to applying it once. |
| EmacsClassifier.IsEmacsWindow | config.py:38-59 | The declarative window test that the classifier lemmas are stated about: class name `Emacs`, or a listed host process with a title beginning `Emacs `. |
| EmacsClassifier.ListContains | config.py:39-54 | The linear scan reports true exactly when the process name is one of the listed host names. |
| EmacsClassifier.HasPrefix | config.py:59 | The character scan reports true exactly when the title begins with the prefix. A title shorter than the prefix is rejected. |
| EmacsClassifier.CheckFuncEmacs | config.py:33-60 | The window test is true exactly when the class name is `Emacs`, or when the process is a listed X-server or WSLg host and the title begins with `Emacs ` (trailing space included). |
| EmacsClassifier.ClassNameSuffices | config.py:38 | A window of class `Emacs` matches whatever its process name and title. |
| EmacsClassifier.UnlistedHostNeverMatches | config.py:38-54 | A window whose class is not `Emacs` and whose process is not a listed host never matches, whatever its title. |
| EmacsClassifier.ListedHostNeedsTitle | config.py:55-59 | Under a listed host, a window whose class is not `Emacs` matches exactly when its title begins with `Emacs `. |
| EmacsClassifier.TitleExamples | config.py:59 | The title test is case-sensitive and needs the trailing space: `Emacs` and `emacs x` are rejected, `Emacs foo` is accepted. An unlisted process is rejected even with that title. |
| Config.Configure | config.py:79-114 | The configuration registers five window keymaps. |
| Config.GlobalLayer | config.py:79-88 | Writing the global assignments binds the old chords plus the eight global chords. Each global chord holds exactly its listed binding, and every other chord keeps its binding. |
| Config.GlobalBindings | config.py:79-88 | Whatever the table held before, `W-Semicolon` is `W-Up` and `W-q` is `A-F4`. `W-h`, `W-t`, `W-Minus`, `W-b` and `W-m` activate Firefox, Windows Terminal, Slack, KeePassXC and Thunderbird. `W-n` activates the window the Emacs test picks. |
| Config.GlobalKeysCount | config.py:79-88 | The global table binds eight different chords. |
| Config.GlobalTable | config.py:79-88 | The table the global registration holds is exactly the global assignments written into an empty table, so `GlobalLayer` and `GlobalBindings` describe it. |
| Config.MozillaTables | config.py:90-101 | Firefox and Thunderbird get the same table: the weblike layer on an empty table, binding exactly the 24 weblike chords. |
| Config.EmacsTable | config.py:103-104 | The Emacs table binds `C-m` to `Enter` and nothing else. |
| Config.SlackTable | config.py:106-114 | The Slack table equals the weblike layer on an empty table with the Slack overrides written after it. |
| Config.SlackWritesAvoidWeblike | config.py:107-114 | No Slack override chord is one of the weblike chords. |
| Config.SlackLayer | config.py:106-114 | The weblike layer followed by the Slack overrides binds the old, weblike and override chords. Each override chord holds exactly its override, and every chord neither layer writes keeps its binding. |
| Config.SlackOverrides | config.py:108-114 | After the layering, `A-j` is `A-S-Down`, `A-k` is `A-S-Up`, `A-t` is `A-Up`, `A-n` is `A-Down` and `Enter` is `C-Enter`. The raw codes `29` and `28` are stored verbatim for `C-Comma` and `C-Period`. |
| Config.SlackKeepsWeblike | config.py:106-114 | Every weblike binding survives in the Slack layering unchanged. |
| Config.SlackKeys | config.py:106-114 | The Slack layering binds the old chords, the weblike chords and the override chords, and nothing else. On a table binding none of them it adds exactly 31 chords. |

## Left out

- Host display and behaviour settings (config.py:64-75): clipboard-history hook, editor, font, theme. These are calls into the host with nothing to state.
- What `ActivateWindowCommand` does (config.py:83-88). It finds and focuses a window, or launches a program. The host implements it, so the model records only an `Activate` tag naming the executable or the Emacs test.
- How the host picks the window a keymap applies to, and how it dispatches chords at run time, including the two-stroke state of the `C-x` prefix (config.py:79, 92-94, 98-100, 103, 106). The registration conditions are kept as data, and nothing is proved about them.
- Chord grammar. Chords are opaque strings. `"29"` and `"28"` are modelled directly as `Raw` codes. The host reads a string of digits as a virtual-key code, and that parsing is not modelled.
- The `C-x` sub-table (config.py:23-25) is built by three statements in the source: create the prefix table, then assign two entries into it. The model writes the finished `MultiStroke` binding in one step. Nothing reads the table between those statements, and each call creates a fresh prefix table.
- Config.Configure: its own contract states only the number of registrations. What each registered table contains is stated by `GlobalTable` (with `GlobalLayer` and `GlobalBindings`), `GlobalKeysCount`, `MozillaTables`, `EmacsTable` and `SlackTable` (with `SlackLayer` and `SlackOverrides`).

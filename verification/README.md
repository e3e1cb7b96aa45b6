# alt:V Easy Launch — config rewrite and settings model

A Dafny model of the logic inside the alt:V Easy Launch window (`main.py`).
The launcher is a small form with three widgets: a folder path, a branch
combo (`release`, `rc`, `dev`) and a debug checkbox. Pressing Launch does three things:

- It rewrites the `debug` key of `altv.toml` in the chosen folder.
- It rewrites the `branch` key of the same file.
- It issues a `start` command for `altv.exe` if that file exists.

The window's own settings are written to `settings.json` on close and read back at start-up.

Modules:

- `TomlRewrite` (`toml_rewrite.dfy`): the rewrite that both call sites share,
  `RewriteKey(lines, key, value)`. Every line whose raw text starts with `key`
  becomes `key = value` plus a newline. Every other line is kept at its index.
  Lemmas cover length, positional preservation, exact replacement,
  idempotence, the fixed-point condition, the absent key, the count of key
  lines, and commutation of two rewrites whose keys are not prefixes of each other.
- `Branches` (`branches.dfy`): the combo's three branch texts.
- `Options` (`options.dfy`): an optional-value type.
- `Launcher` (`launcher.dfy`): `ToggleDebugMode` and `SwitchBranch` over a
  file that is `Missing` or `Present(lines)`. A missing file yields the
  error and no write. `Launch` runs both rewrites and the `altv.exe` check.
- `SettingsStore` (`settings_store.dfy`): the settings record and the
  document written on close. Loading has the branch validation and the
  defaults for missing keys. Save then load is the identity.

Notes on behaviour:

- Matching is `startswith` on the untrimmed line. An indented `  debug = x`
  is left alone, and `debugger = 1` is replaced.
- A key that no line carries is not appended.
- `Launch` does not stop when `altv.toml` is missing. Each rewrite reports
  its own error (so two errors are shown), and the `start` command is still issued if `altv.exe` exists.
- There are no named profiles, no import/export and no XML graphics
  patching in this code. The settings are one record.

## Model

| member | source | states |
|---|---|---|
| TomlRewrite.StartsWithMeansPrefix | main.py:64 | the untrimmed `startswith` test: a line starts with the key exactly when it is the key followed by the rest of the line |
| TomlRewrite.KeyLine | main.py:65 | the replacement text starts with the key and ends with a newline, so it is itself matched by a later rewrite |
| TomlRewrite.RewriteKey | main.py:61-67 | same number of lines as the input; each line starting with the key becomes `key = value\n`; every other line is unchanged at its index |
| TomlRewrite.RewriteLeavesOnlyNewValue | main.py:63-67 | after the rewrite every line that carries the key holds the one new replacement line |
| TomlRewrite.RewriteIdempotent | main.py:63-67 | rewriting twice with the same key and value equals rewriting once |
| TomlRewrite.RewriteFixedPoint | main.py:63-67 | the rewrite leaves the lines unchanged if and only if every matching line already equals the replacement |
| TomlRewrite.RewriteAbsentKey | main.py:61-67 | when no line starts with the key the output equals the input; nothing is appended |
| TomlRewrite.RewriteKeepsMatchCount | main.py:84-89 | the number of lines carrying the key is the same before and after, so the key is never duplicated or dropped |
| TomlRewrite.RewriteDistributes | main.py:63-67 | each line is decided on its own: rewriting a concatenation gives the concatenation of the rewrites |
| TomlRewrite.RewriteCommutes | main.py:85-89 | two rewrites whose keys are not prefixes of each other give the same lines in either order |
| TomlRewrite.PrefixesOfOneLine | main.py:64 | two prefixes that one line starts with are prefixes of each other |
| TomlRewrite.IndentedLineKept | main.py:64 | the prefix test does not trim: `  debug = x` is not rewritten |
| TomlRewrite.LongerKeyReplaced | main.py:64-65 | a line `debugger = 1` starts with `debug` and is replaced by `debug = true` |
| Branches.Name | main.py:30 | every branch's text is one of the combo's three items |
| Branches.FromText | main.py:113-114 | a stored text selects a branch exactly when it is one of `release`, `rc`, `dev`, and then the branch with that text |
| Branches.FromTextName | main.py:113-114 | reading back a branch's own text selects that branch |
| Launcher.Lower | main.py:65 | lower-casing keeps the length and lowers each ASCII capital, keeping every other character |
| Launcher.DebugValue | main.py:62-65 | the printed checkbox state (`True`/`False`) lower-cased is `true` for a checked box and `false` otherwise |
| Launcher.Message | main.py:55 | the error dialog text names the missing file first: `altv.toml ...` for the config (also main.py:78), `altv.exe ...` for the executable (main.py:102) |
| Launcher.DebugLine | main.py:64-65 | the debug replacement is exactly `debug = true\n` or `debug = false\n`, and the first exactly when the box is checked |
| Launcher.BranchLine | main.py:86-87 | the branch replacement is one of the three lines `branch = "<name>"\n`, with the combo text between the quotes |
| Launcher.ToggleDebugMode | main.py:50-70 | missing file: one `altv.toml` error dialog and the file stays missing; present file: no error, same length, `debug` lines replaced by the checkbox line, others kept |
| Launcher.SwitchBranch | main.py:72-92 | missing file: one `altv.toml` error dialog and no write; present file: no error, same length, `branch` lines replaced by the quoted combo text, others kept |
| Launcher.KeysDisjoint | main.py:64 | neither of `debug` and `branch` is a prefix of the other |
| Launcher.Launch | main.py:94-105 | the `start` command is issued exactly when `altv.exe` exists; a missing `altv.toml` gives two `altv.toml` error dialogs and no write, and a missing `altv.exe` one more dialog; otherwise `debug` and `branch` lines get their new lines and all other lines are kept |
| Launcher.LaunchOrderIrrelevant | main.py:94-96 | running the branch rewrite before the debug rewrite would write the same file |
| Launcher.RelaunchKeepsFile | main.py:94-96 | a second launch with the same widget state leaves the file as the first launch wrote it |
| SettingsStore.Save | main.py:117-124 | the saved document has exactly the keys `folder_path`, `branch`, `debug_mode`, and its branch text is a combo item |
| SettingsStore.Load | main.py:107-115 | a missing file changes nothing; a parsed object loads exactly when its path is a string or null and its debug entry a boolean or integer; a missing or null path gives `''`, a string path is taken as is; the box is checked exactly by `true` or a non-zero integer, so a missing flag gives false; the branch is taken only if it is a combo text, otherwise the current selection stays; a file that is not a JSON object aborts |
| SettingsStore.Startup | main.py:11-15 | without a settings file the widgets keep their initial state; a loaded file sets the path and the checkbox from its entries as `Load` does; the branch is the stored text when it is one of `release`, `rc`, `dev`, and `release` (the combo's first entry) otherwise; a file that is not a JSON object aborts |
| SettingsStore.SaveLoadRoundTrip | main.py:107-124 | loading a saved document restores the same folder path, branch and debug flag, whatever was selected before |
| SettingsStore.LoadEmptyDocument | main.py:111-115 | an empty document resets the path to `''` and the flag to false and keeps the branch selection |
| SettingsStore.LoadNullPathNumericFlag | main.py:111-115 | a null path gives `''` and a `debug_mode` of `1` checks the box, without aborting |
| SettingsStore.StartupSelectsStoredBranch | main.py:112-114 | a settings file holding only `"branch": "dev"` starts the window with `dev` selected, an empty path and the box unchecked |
| SettingsStore.LoadRejectsUnknownBranch | main.py:112-114 | a stored branch that is not a combo text never changes the selection |
| SettingsStore.LoadSaveLoad | main.py:107-124 | saving what was loaded and loading it again gives the same result |

## Left out

- PyQt widgets, layout, the folder dialog and the message box (main.py:17-48, main.py:130-136). Widget values are parameters, and the error dialogs are the list of their texts.
- File I/O: `os.path.join`, `os.path.exists` and line reading and writing. `altv.toml` is modelled as `Missing` or the list of its lines, so text-mode newline translation and the split into lines are not modelled.
- JSON encoding and decoding. The settings file is modelled as `Absent`, `NotAnObject` or a parsed map from key to value (`Text`, `Flag`, `Number`, `Null` or any `Other` value). `NotAnObject` stands both for text that is not JSON and for valid JSON whose top level is not an object, such as `[]`, where `settings.get` (main.py:111) fails.
- SettingsStore.Load: follows the toolkit's conversions only for the cases it names. A null `folder_path` gives an empty path and an integer `debug_mode` checks the box when non-zero. Any other non-string path, and a `debug_mode` that is a string, null, float, array or object, is modelled as an aborting error; the toolkit's handling of those is not modelled.
- Launcher.Launch: `startIssued` only says that `os.system('start ...')` (main.py:105) is called. Starting the process is an operating-system side effect. The path is passed to `start` unquoted, so for a folder with a space in its name the game may not start even though `altv.exe` exists; the model does not follow how the shell splits the command.
- Launcher.Lower: lowers ASCII capitals only, where the host language's `lower()` covers all of Unicode. It is only applied to `True` and `False`, so the written value is the same.
- `closeEvent` and `main()` (main.py:126-144): event-loop wiring. Closing the window is `Save`.
- `browse_folder_path` (main.py:45-48): a file dialog that only sets the folder path.

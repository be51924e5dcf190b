# screen-brightness-wrapper in Dafny

A model of the single-monitor brightness controller of `screen_bright_wrapper.py`.
The controller keeps a configuration dictionary (loaded from a YAML file), clamps
requested brightness values to the range 0..100, applies a value by running a
platform-specific external tool (`ScreenBright.exe` on Windows, `ddcctl` on macOS),
stores the applied value under `brightness` and saves the dictionary back to the file.
At start-up `check_config` fills in `brightness` (default 50) and `debug` (default
`False`) when they are missing or null.

Files:

- `values.dfy` (module `Values`): the scalar values a configuration can hold
  (`Null`, `Bool`, `Int`, `Str`), the dictionary type, `dict.get` and the integer
  reading of a value that Python's `+` uses (a boolean counts as 0 or 1).
- `brightness.dfy` (module `Brightness`): the constants and `clamp_brightness`, with
  idempotence, nearest-value, monotonicity and non-expansiveness lemmas.
- `decimal.dfy` (module `Decimal`): `str(n)` for integers, the text passed to the
  external tools, with a reading function and the round-trip lemma.
- `config.dfy` (module `ConfigOps`): what `set_brightness`, `change_brightness` and
  `check_config` do to the dictionary, as functions, and the lemmas about them.
- `controller.dfy` (module `Controller`): the `MonitorController` class. Its field
  `config` is the dictionary; the ghost field `saved` records every document written
  by `save_config`; the ghost field `issued` records every external command run.
  The operating system is a constructor parameter (`platform.system()`), and the
  loaded document is one too (`None` when the file does not exist).

The program controls one monitor on one host.

## Model

| member | source | states |
|---|---|---|
| Brightness.Clamp | screen_bright_wrapper.py:14-22 | the result lies in [0, 100]; it is the input when the input is in range, exactly 100 above the range and exactly 0 below it |
| Brightness.ClampIdempotent | screen_bright_wrapper.py:14-22 | clamping a clamped value returns it unchanged |
| Brightness.ClampIsNearest | screen_bright_wrapper.py:14-22 | the clamped value is at least as close to the request as any in-range value |
| Brightness.ClampNonExpansive | screen_bright_wrapper.py:14-22 | two requests clamp to values no further apart than the requests |
| Brightness.ClampMonotone | screen_bright_wrapper.py:14-22 | a larger request never clamps to a smaller brightness |
| Decimal.NatToString | screen_bright_wrapper.py:53-55 | the rendered text is non-empty, all digits, and has no leading zero unless the value is 0 |
| Decimal.IntToString | screen_bright_wrapper.py:53-55 | the rendered text is non-empty and starts with a minus sign exactly for negative values |
| Decimal.DigitsValueOfNatToString | screen_bright_wrapper.py:53-55 | the digits rendered for a natural number denote that number |
| Decimal.ParseIntOfIntToString | screen_bright_wrapper.py:53-55 | the text rendered for any integer reads back as that integer |
| Decimal.IntToStringInjective | screen_bright_wrapper.py:53-55 | distinct values are rendered as distinct text |
| ConfigOps.SetConfig | screen_bright_wrapper.py:45-58 | fails with `KeyError('brightness')` exactly when no brightness is stored; otherwise stores the clamped value under `brightness` and keeps every other key and value |
| ConfigOps.ChangeConfig | screen_bright_wrapper.py:60-65 | `KeyError` without a stored brightness, `TypeError` when it is null or a string, otherwise stores the clamped sum of the old value and the change and keeps everything else |
| ConfigOps.ChangeFromBool | screen_bright_wrapper.py:61-64 | a boolean stored brightness is added as 0 or 1, so the change succeeds and stores the clamped integer sum |
| ConfigOps.SetStoresInRange | screen_bright_wrapper.py:50-57 | after a successful set the stored brightness is an integer in [0, 100] |
| ConfigOps.SetIdempotent | screen_bright_wrapper.py:45-58 | setting the same brightness twice gives the configuration of setting it once |
| ConfigOps.ChangeByZeroKeepsConfig | screen_bright_wrapper.py:60-65 | a change by 0 from an in-range integer brightness leaves the configuration unchanged |
| ConfigOps.ChangeMovesAtMost | screen_bright_wrapper.py:60-65 | from an in-range integer brightness a change by `d` succeeds and moves the stored brightness by at most `abs(d)` |
| ConfigOps.SetAndChangeKeepFilled | screen_bright_wrapper.py:45-65 | once both `brightness` and `debug` are non-null, a set always succeeds and set and change keep both non-null |
| ConfigOps.FillDefaultsAt | screen_bright_wrapper.py:67-72 | every key with a default is present afterwards: its old value when that was non-null, the default otherwise |
| ConfigOps.FillDefaultsElsewhere | screen_bright_wrapper.py:67-72 | a key without a default keeps its presence and its value |
| ConfigOps.FillDefaultsIdempotent | screen_bright_wrapper.py:67-72 | filling defaults a second time changes nothing |
| ConfigOps.CheckConfigSpec | screen_bright_wrapper.py:67-72 | afterwards `brightness` and `debug` are present and non-null, missing or null ones become 50 and `False`, non-null ones and all other keys are unchanged |
| ConfigOps.CheckedConfigAcceptsSet | screen_bright_wrapper.py:36-46 | after the start-up `check_config`, reading the old brightness in `set_brightness` cannot raise |
| ConfigOps.CheckedConfigChange | screen_bright_wrapper.py:60-65 | after `check_config`, a change raises exactly when the loaded brightness is a string, and then it raises `TypeError` |
| Controller.BrightnessCommand | screen_bright_wrapper.py:52-55 | a command exists exactly on Windows and macOS, runs `ScreenBright.exe` or `ddcctl` respectively, and its last argument reads back as the brightness |
| Controller.StartConfig | screen_bright_wrapper.py:30-36 | the start-up configuration (loaded, or empty without a file, then completed by `check_config`) has non-null `brightness` and `debug` |
| Controller.MonitorController.constructor | screen_bright_wrapper.py:26-36 | the configuration is the loaded one (empty when there is no file) completed by `check_config`; nothing has been saved or run |
| Controller.MonitorController.RunCommand | screen_bright_wrapper.py:52-55 | the platform's command for the value is run and the configuration is not touched |
| Controller.MonitorController.SaveConfig | screen_bright_wrapper.py:79-82 | the document written equals the in-memory configuration |
| Controller.MonitorController.SetBrightness | screen_bright_wrapper.py:45-58 | on `KeyError` nothing changes, nothing is run or saved; otherwise the stored brightness is the clamped request, only `brightness` changes, the command for the clamped value is run once and the new configuration is saved, also when the value did not change |
| Controller.MonitorController.ChangeBrightness | screen_bright_wrapper.py:60-65 | fails with the error of `ChangeConfig` leaving everything unchanged, or stores the clamped sum, runs its command and saves |
| Controller.MonitorController.CheckConfig | screen_bright_wrapper.py:67-72 | the loop leaves `brightness` and `debug` present and non-null with the defaults where they were missing or null, and every other key unchanged |
| Controller.ChangeFromCommandLine | screen_bright_wrapper.py:92-98 | start-up then one change by a step in [-100, 100]: it fails only with `TypeError` and only for a string brightness, leaving the start-up configuration with nothing run or saved; on success the stored brightness is the in-range clamp of the step plus the start-up brightness, the one command run is the one for that value, and the one saved document is the configuration |

## Left out

- The subprocess calls themselves: the external tool is recorded as a command in `issued`; its exit status is ignored by the source, and a failure to launch it (which would raise before the value is stored) is not modelled.
- Controller.MonitorController.RunCommand: does not model a launch failure of the external tool; the command is always taken to run.
- YAML parsing and writing, the file system, `init_config_file` and the `FileNotFoundError` handling beyond "no file means an empty dictionary": these are I/O. Persistence is the ghost `saved` history.
- A YAML document that is not a mapping with string keys (an empty file loads as `None`, which makes `check_config` raise), and configuration values that are floats, lists or nested mappings: the value type holds only null, booleans, integers and strings.
- Logging and the `debug`-driven logging level: output only.
- Argument parsing: the command-line step is a parameter, restricted to the range that `argparse` accepts.
- `master.py` and `slave.py`: a TCP client that sends the step as text and a TCP server that applies it; network plumbing, and the server imports a class that is not part of this model.
- Decimal.ParseInt: reads only an optional minus sign followed by digits, which is what `str` produces; it is the inverse used to state what the command arguments carry, not a model of Python's `int()`.

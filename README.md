# qtcreator-helloworld build script, modelled in Dafny

The repository's Cargo build script (`build.rs`) bootstraps a Qt Creator
plugin build. Its `main`:

1. runs `git submodule update --init --recursive`, always;
2. resolves `QMAKE_PATH` from two sources. One is the value fixed when the
   script was compiled (`option_env!`). The other is the value read when
   the script runs, after `dotenv()` has loaded a local `.env` file. An
   empty value counts as absent. The run-time value wins. If neither gives
   a path, the script fails with a message naming `QMAKE_PATH`;
3. runs `<qmake_path> --version` to check that qmake works;
4. computes `<CARGO_MANIFEST_DIR>/deps`;
5. calls the three stages `add_clang_link`, `compile_clang` and
   `compile_qtcreator`. Their bodies are empty in this version.

Every subprocess goes through `run`, which returns only when the process
exits with a successful status. Every other outcome goes through `fail`,
which panics, so nothing runs after a failure.

Files:

- `text.dfy` (module `Text`): `Option` with Rust's `or`, and the substring
  predicate `Contains` with its lemmas.
- `process.dfy` (module `Process`): invocations, spawn results, `fail`,
  the classification done by `run`, and `Run` itself. It also has the
  `Command` builder as a class and the `Host` class. `Host` holds the
  operating system's answer to every spawn and the list of spawns tried.
- `build.dfy` (module `Build`): QMAKE_PATH resolution, the path join, the
  specification function `Pipeline` for `main`, the method `BuildScript` proved
  against it, and the three stage stubs.

Outside effects are parameters:

- The host's answer to each spawn is a fixed function
  `Invocation -> SpawnResult`.
- The compile-time value, the run-time value of `QMAKE_PATH` and
  `CARGO_MANIFEST_DIR` are inputs of `Pipeline` and `BuildScript`.
- A panic is the value `Aborted(message)`. The method returns it at once,
  so no later statement runs.

## Model

| member | source | states |
|---|---|---|
| `Process.Fail` | build.rs:81-83 | the run diverges (a panic) and the panic message contains the reason given |
| `Process.NotInstalledHint` | build.rs:71-72 | the hint added for a missing program contains the program's name and "not installed?" |
| `Process.Classify` | build.rs:68-78 | returns normally exactly when the process spawned and its exit status is success; a spawn error's message carries "failed to execute command: " and the error; a bad status's message carries "command did not execute successfully, got: " and the status |
| `Process.NotFoundNamesProgram` | build.rs:70-74 | a NotFound spawn error panics with a message naming the program and saying "not installed?"; any other spawn error gives the same report without the hint |
| `Process.Command.constructor` | build.rs:9 | a new command has the given program and no arguments |
| `Process.Command.Args` | build.rs:10 | appends the arguments in order; the program is unchanged |
| `Process.Command.Arg` | build.rs:42 | appends one argument; the program is unchanged |
| `Process.Host.Status` | build.rs:68 | records exactly one spawn attempt of the command and returns the host's answer for it |
| `Process.Run` | build.rs:64-79 | spawns the command exactly once and ends as the classification of the host's answer says |
| `Build.NonEmpty` | build.rs:15-21 | yields a value exactly when the source had a non-empty one, and then that same value |
| `Build.QmakePath` | build.rs:14-35 | resolves exactly when one source is non-empty; the result is never empty; a non-empty run-time value is chosen over the compile-time one; otherwise a non-empty compile-time value is chosen |
| `Build.EmptyIsAbsent` | build.rs:25-31 | an empty value from either source resolves exactly as an absent one |
| `Build.QmakeUndefinedNamesVariable` | build.rs:36-37 | the failure reason for an unresolved path names `QMAKE_PATH` |
| `Build.Join` | build.rs:45 | the joined path starts with the base, ends with the name, and has one `/` between them unless the base is empty or already ends in `/` |
| `Build.Pipeline` | build.rs:7-49 | the first spawn is `git submodule update --init --recursive`; at most two spawns; every spawn except the last succeeded, so none follows a failure; the qmake check is issued exactly when git succeeded and the path resolved, and it runs the resolved path with the single argument `--version`; the run finishes exactly when both spawns succeeded, with the dependency folder `<manifest>/deps`; every abort carries a message produced by `fail` |
| `Build.GitFailureStopsRun` | build.rs:9-11 | a failed submodule update aborts the run with run's report and no other spawn |
| `Build.QmakeCheckFailureIsRunsReport` | build.rs:41-42 | a qmake check that exits unsuccessfully or cannot be spawned aborts the run after the two spawns with run's report for `qmake` |
| `Build.MissingQmakePathStopsRun` | build.rs:34-38 | with both sources absent or empty, only the git spawn happens and the panic message names `QMAKE_PATH` |
| `Build.QmakeNotFoundStopsRun` | build.rs:40-42 | when the resolved qmake cannot be found, the run aborts after the two spawns with a message naming `qmake` and saying "not installed?" |
| `Build.AddClangLink` | build.rs:60-62 | the stage issues no spawn |
| `Build.CompileClang` | build.rs:56-58 | the stage issues no spawn |
| `Build.CompileQtcreator` | build.rs:51-54 | the stage issues no spawn |
| `Build.BuildScript` | build.rs:7-49 | `main` step by step: the spawns it adds to the host's record are exactly those of `Pipeline`, in order, and it ends as `Pipeline` says |

## Left out

- The plugin sources under `plugin/` are left out. They are Qt Creator UI code (menu action, message box, plugin lifecycle) over a framework that is not modelled.
- Real process spawning is left out. `Command::status` becomes the host's fixed answer for each invocation. The same command always gets the same answer; `main` never issues the same command twice.
- The `println!("running: …")` log line that `run` prints is left out. `Host.issued` records the attempt instead.
- Loading the `.env` file is left out, including how `dotenv` decides whether to override a variable that is already set. So are the `option_env!` and `env!` macros. Their results are inputs. `std::env::var` failing, whether the variable is missing or not Unicode, is the input `None`.
- `Process.Fail`: the panic text is built as `"\n" + reason + "\n\nbuild script failed, must exit now"`, but the contract states only that the message contains the reason. How Rust's panic machinery prints it is not modelled.
- How an `io::Error` and an `ExitStatus` print is not modelled. Each is an opaque string. `ExitStatus` success is "exit code 0", as on Unix. A status with no code, ended by a signal, is never success.
- `ErrorKind` is reduced to NotFound and every other kind. Only that distinction is made in `run`.
- `Build.Join` models `PathBuf::join` of a relative name with the POSIX separator only. Windows prefixes and separators are not modelled.
- The three stages have empty bodies in this version. The model has them issue nothing and invents no behaviour. There is no symlink creation, no idempotency check, no cmake or qmake build, no CPU-count parallelism and no environment change.
- The stage stubs' comments mention a clang symlink and two builds. The code implements none of them, so the model has none. The submodule update runs unconditionally, with no presence check. The `cmake` crate is imported but never run. The two QMAKE_PATH sources are the compile-time value and the run-time (`.env`-loaded) value.

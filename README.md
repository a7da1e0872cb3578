# limbo_sim regression harness: a Dafny model of its decision layer

The harness (`src/main.rs`) reads a table of known simulator bugs. Each row has an issue number, a
commit list and simulator options. For every row, the harness:

- checks out the first listed commit;
- creates `results/<issue>`;
- resets the cargo build cache;
- records the commit in `commit.txt`;
- runs the simulator 100 times under a time limit.

Each run leaves its captured output and an exit-code token in `results/<issue>/run_<i>`.

This project models that program as an **effect trace**. The model takes these inputs:

- the `TIMEOUT_SECS` variable;
- the deserialised rows;
- the answers of the outside world.

From them it computes the ordered list of actions the program performs:

- `Shell` — a command run to completion;
- `CreateDirAll`;
- `WriteFile`, a full overwrite;
- `Spawn`;
- `WaitFor` — the timed wait.

Views of a trace give the final file tree (`Files`, a map in which later writes win), the directories created, the
files written, the commands spawned and the directories touched. The properties are stated over these views.

The outside world is the `World` value:

- the result of `git checkout` for the row at position `k`;
- the result of `cargo cache -a` for that row;
- for run `i` of that row, either a spawn error, or the two captured outputs together with what the timed wait
  reported: an exit status with an optional code, the limit reached, or an error.

Every combination of answers is allowed. So no operation needs a precondition on them.

Modules:

- `Wrappers` holds `Option` and `Result`.
- `Text` holds the Rust string operations the program relies on:
  - `str::trim` with Unicode White_Space;
  - `split(", ").next()`;
  - `to_string` of unsigned and signed integers;
  - `parse::<u64>` (an optional `+`, digits only, at most 2^64 - 1).
- `Effects` holds the actions, the paths (lists of components) and the views of a trace. It also has lemmas about
  traces built from parts (`Concat`).
- `Records` covers:
  - the table row;
  - the time limit, with default 600;
  - extraction of the first commit;
  - the options default;
  - the skip rule;
  - reading of the table, where the first bad row aborts.
- `Supervisor` is `run_simulation`. It covers the outcome of one run, the artifacts it writes, in which order, and
  the exit-code token.
- `Driver` is `main`. It covers the issue pipeline with its early exits (`ProcessIssue`), the loop over the 100
  runs (`RunIssue`), the loop over the rows (`RunBatch`) and the whole program (`RunMain`). Each method builds its
  trace step by step and is proved equal to a declarative trace function.
- `PipelineProperties` holds the guarantees about the result tree.

The code and the harness's written design disagree in two places. The model follows the code in both:

- The design says every run directory always holds all three artifacts. The code writes no `stdout.txt` after a
  spawn error or a wait error. Because of this, an older `stdout.txt` in the same directory survives, whether it
  comes from an earlier invocation or from an earlier row with the same issue number (`FailedRunKeepsOldStdout`).
  A run that ends in an exit or a timeout does replace all three (`SavedRunOverwrites`).
- The design records the commit before the cache reset. The code writes `commit.txt` only after the reset succeeded.
  So a row whose cache reset fails writes no `commit.txt` and creates no run directory. When that row is the only
  one of its issue, the batch leaves no file under `results/<issue>` (`BatchCacheResetFailureLeavesEmptyDir`). Files
  left there by an earlier invocation are not part of the model, which starts from an empty tree.

Note also that the commit is written exactly as extracted, which is untrimmed, followed by one newline.

Nothing in the code makes issue numbers unique across rows. The per-row guarantees about files therefore carry over
to the whole batch only for an issue that has a single row (`BatchIssueFiles`).

## Model

| member | source | states |
|---|---|---|
| Text.TrimStartSuffix | src/main.rs:153 | trimming the front keeps the suffix that starts at the first non-whitespace character; everything dropped is whitespace |
| Text.TrimEndPrefix | src/main.rs:153 | trimming the back keeps the prefix that ends at the last non-whitespace character; everything dropped is whitespace |
| Text.TrimEmptyIffAllWhitespace | src/main.rs:153 | `trim().is_empty()` holds exactly when every character is Unicode whitespace (both directions) |
| Text.FirstTokenIsPrefixBeforeSeparator | src/main.rs:149 | the first piece of `split(", ")` is a prefix with no separator inside it, and is either the whole string or is followed by a separator |
| Text.FirstTokenUnique | src/main.rs:149 | those three properties determine the first piece: any prefix that has them is the first piece |
| Text.NatToDecimal | src/main.rs:172 | the decimal text of an issue or run number is nonempty and made of digits |
| Text.NatToDecimalNoLeadingZero | src/main.rs:172 | the decimal text is the shortest one: it starts with '0' exactly for zero, which is "0" |
| Text.NatDecimalRoundTrip | src/main.rs:172 | reading back the decimal text of `n` gives `n` |
| Text.NatToDecimalInjective | src/main.rs:184 | different numbers give different names, so `results/<a>` and `results/<b>` and likewise `run_<i>` and `run_<j>` differ |
| Text.IntToDecimal | src/main.rs:107-110 | an exit code's text is nonempty digits, with a leading '-' exactly for negative codes |
| Text.IntToDecimalValue | src/main.rs:107-110 | the text's digits, after the '-' of a negative code, read back as the code's magnitude |
| Text.IntToDecimalInjective | src/main.rs:109 | different exit codes give different texts |
| Text.ParseU64 | src/main.rs:133 | a parsed value is always below 2^64 |
| Text.ParseU64RoundTrip | src/main.rs:133 | every 64-bit value's decimal text, with or without '+', parses back to it |
| Text.ParseU64AcceptsDigits | src/main.rs:133 | every nonempty run of digits worth less than 2^64, with or without '+', is accepted with its value, leading zeros included |
| Text.ParseU64Examples | src/main.rs:133 | the empty text and a lone '+' are rejected; "0600" reads as 600 |
| Text.ParseU64RejectsOverflow | src/main.rs:133 | digit text worth 2^64 or more does not parse, with or without '+' and with leading zeros (no wrap-around) |
| Text.ParseU64RejectsNonDigit | src/main.rs:133 | text with a non-digit, apart from one leading '+', does not parse (so no sign, no spaces) |
| Records.TimeoutSecs | src/main.rs:131-134 | the limit is the parsed `u64` when the variable is present and parses, and 600 otherwise |
| Records.TimeoutSecsRoundTrip | src/main.rs:131-134 | any 64-bit limit written in decimal is taken as given |
| Records.FirstCommit | src/main.rs:146-149 | definition of the extracted commit; characterised by `FirstCommitMeaning` |
| Records.FirstCommitMeaning | src/main.rs:146-149 | the commit is absent exactly when `Commit IDs` is; a present cell always yields a possibly empty token: the prefix up to the first ", ", or the whole cell |
| Records.Opts | src/main.rs:151 | the options are the `Opts` cell, or "" when it is empty |
| Records.SkipsIssue | src/main.rs:153 | definition of the skip test (commit absent or trimming to nothing); characterised by `SkipRule` |
| Records.SkipRule | src/main.rs:153-156 | a row is skipped exactly when `Commit IDs` is empty or its first token is all whitespace; a cell starting with ", " is always skipped |
| Records.CollectRecords | src/main.rs:139-142 | all rows in order when every row reads; otherwise the error of the first bad row |
| Supervisor.Classify | src/main.rs:52-65 | definition of a run's outcome; characterised by `ClassifyOutcome` |
| Supervisor.ClassifyOutcome | src/main.rs:88-127 | the output is saved exactly when the spawn succeeded and the wait did not fail; a timeout exactly when the wait reported the limit; a completed run carries the wait's exit code |
| Supervisor.ExitCodeToken | src/main.rs:62 | definition of the `exit_code.txt` token (lines 107-110, 121 and 125 too); characterised by `ExitCodeTokenMeaning` |
| Supervisor.RunTrace | src/main.rs:45-127 | definition of one run's actions; characterised by `RunArtifacts`, `RunEffectOrder`, `RunCreatesDirSpawnsOnce` and `RunStaysInDir` |
| Supervisor.RunSimulation | src/main.rs:45-127 | the step-by-step `run_simulation` produces exactly the run trace of its inputs |
| Supervisor.ExitCodeTokenMeaning | src/main.rs:98-127 | the token is the decimal code for an exit with a code; "-1 timed out" exactly on timeout; "-2" exactly for a spawn error, a wait error, an exit without a code, or exit code -2; different codes give different tokens |
| Supervisor.PreludeViews | src/main.rs:46-96 | before any artifact, a run creates only its directory, spawns only its command and writes nothing |
| Supervisor.ArtifactViews | src/main.rs:98-127 | the artifact writes, by outcome: stdout, stderr, exit code after an exit or a timeout; stderr ("error: " + message) and exit code after a spawn or wait error |
| Supervisor.SavedArtifactViews | src/main.rs:99-122 | after an exit or a timeout the three files hold the captured stdout, the captured stderr and the token, written in that order |
| Supervisor.ErrorArtifactViews | src/main.rs:60-64 | after a spawn or wait error only `stderr.txt` ("error: " + message) and `exit_code.txt` are written, in that order |
| Supervisor.ArtifactFiles | src/main.rs:98-127 | the files the artifact writes leave, by name, with `stdout.txt` present exactly when the output is saved |
| Supervisor.RunArtifacts | src/main.rs:45-127 | a run's files lie among its three artifact paths; `stderr.txt` and `exit_code.txt` always exist with their contents per outcome; `stdout.txt` exists exactly after an exit or a timeout and then holds the captured stdout |
| Supervisor.FailedRunKeepsOldStdout | src/main.rs:60-64 | a run that fails to spawn or to wait leaves an existing `stdout.txt` of its directory as it was, next to the error text and "-2" |
| Supervisor.SavedRunOverwrites | src/main.rs:99-122 | after an exit or a timeout the three artifacts hold this run's stdout, stderr and token, whatever an earlier run into the directory left |
| Supervisor.RunCreatesDirSpawnsOnce | src/main.rs:46-57 | a run creates exactly its own directory and spawns exactly its command, once |
| Supervisor.RunEffectOrder | src/main.rs:46-127 | a run starts by creating its directory and writes stdout (when saved), stderr and exit code in that order |
| Supervisor.RunStaysInDir | src/main.rs:46-127 | a run waits exactly when its spawn succeeded, and creates and writes only inside its directory |
| Supervisor.NamesDiffer | src/main.rs:48-50 | the three artifact paths of a directory are distinct |
| Driver.CheckedRun | src/main.rs:30-43 | `checked_run(..).is_ok()`: the shell launched and the command exited with code 0, as `status()?` plus `success()`; characterised by `CheckedRunMeaning` |
| Driver.CheckedRunMeaning | src/main.rs:30-43 | a command succeeds exactly when it launched and exited with code 0 |
| Driver.StageOf | src/main.rs:153-178 | definition of how far a row gets: skipped, checkout failed, cache reset failed, or ran; characterised by `SkippedIssueDoesNothing` and `IssueTouchesOnlyItsDir` |
| Driver.IssueTrace | src/main.rs:153-190 | definition of one row's actions by stage; characterised by `CheckoutFailureLeavesNothing`, `CacheResetFailureLeavesEmptyDir`, `RanTrace` and `FullySuccessfulIssue` |
| Driver.ProcessIssue | src/main.rs:144-190 | the loop body with its `continue`s produces exactly the issue trace of its row and answers |
| Driver.RunIssue | src/main.rs:182-190 | the run loop produces exactly runs 1 to 100 in order, run `i` into `run_<i>` |
| Driver.RunBatch | src/main.rs:144-191 | the record loop produces exactly the rows' traces one after the other |
| Driver.RunMain | src/main.rs:130-194 | a table that cannot be opened, or any bad row, ends the program with that error before any action; otherwise the batch trace under the parsed time limit |
| Effects.FilesWithin | src/main.rs:144-191 | every file a log leaves lies inside any directory that holds all the log's writes |
| Effects.JoinInjective | src/main.rs:184 | joining different names onto one directory gives different paths |
| PipelineProperties.WithinOneIssueDir | src/main.rs:172 | no path lies inside the directories of two different issues |
| PipelineProperties.RunDirInjective | src/main.rs:184 | run directories with different indices differ |
| PipelineProperties.RunFileInjective | src/main.rs:184 | a file of run `i` is a file of run `j` only when `i == j` and the names agree |
| PipelineProperties.CommitFileNotRunFile | src/main.rs:180 | `commit.txt` is not a file of any run directory |
| PipelineProperties.RunsCreateNumberedDirs | src/main.rs:182-184 | the runs create exactly `run_1` to `run_100`, contiguous and in increasing order |
| PipelineProperties.RunsSpawnCommand | src/main.rs:185-189 | every run spawns the same command, once |
| PipelineProperties.RunsStayInIssueDir | src/main.rs:182-190 | the runs create and write nothing outside the issue directory |
| PipelineProperties.OtherRunsMissFile | src/main.rs:189 | no run writes a file of another run's directory |
| PipelineProperties.OtherRunsMissFiles | src/main.rs:182-190 | the same, for all runs but run `i` at once |
| PipelineProperties.RunFilesKept | src/main.rs:182-190 | after all runs, the files of `run_<i>` are exactly what run `i` left there |
| PipelineProperties.RunMissesCommitFile | src/main.rs:189 | no run writes the issue's `commit.txt` |
| PipelineProperties.RunsLeaveCommitFile | src/main.rs:180-190 | after all runs `commit.txt` is still not among the run files |
| PipelineProperties.SkippedIssueDoesNothing | src/main.rs:153-156 | a row produces no action at all (no checkout, directory or run) exactly when it is skipped |
| PipelineProperties.CheckoutFailureLeavesNothing | src/main.rs:164-170 | after a failed checkout the checkout is the row's only action: nothing is created, written or spawned, and `results/<issue>` is untouched |
| PipelineProperties.CacheResetFailureLeavesEmptyDir | src/main.rs:172-178 | after a failed cache reset the row's actions are checkout, `results/<issue>` and the reset: it writes no file (no `commit.txt`), creates no run directory and spawns no run |
| PipelineProperties.PreparedTraceEffects | src/main.rs:164-180 | a prepared issue creates only its directory and leaves only `commit.txt`, holding the commit and a newline |
| PipelineProperties.PreparedStaysInDir | src/main.rs:172-180 | the preparing actions create and write only inside `results/<issue>` |
| PipelineProperties.RanTrace | src/main.rs:164-190 | a fully prepared row is checkout, issue directory, cache reset, `commit.txt`, then its runs |
| PipelineProperties.FullySuccessfulIssue | src/main.rs:180-190 | on full success the directories are `results/<issue>` then `run_1` to `run_100` in order; the simulation command is spawned 100 times; `commit.txt` is the untrimmed commit and one newline |
| PipelineProperties.RowSimCommand | src/main.rs:185-188 | the command is the fixed template, followed by the options when `Opts` is present |
| PipelineProperties.FullySuccessfulIssueArtifacts | src/main.rs:182-190 | on full success every `run_<i>` ends with `stderr.txt` and the token of run `i`'s outcome, and with `stdout.txt` exactly after an exit or a timeout, both outputs then as captured; after a spawn or wait error `stderr.txt` holds "error: " + the message |
| PipelineProperties.RanRunFile | src/main.rs:180-190 | on full success a file of `run_<i>` holds what run `i` left in it |
| PipelineProperties.IssueStaysInIssueDir | src/main.rs:164-190 | a row creates and writes only inside its own `results/<issue>` |
| PipelineProperties.IssueTouchesOnlyItsDir | src/main.rs:164-178 | a row touches `results/<id>` exactly when it is issue `id`, is not skipped and its checkout succeeded |
| PipelineProperties.IssueRunCount | src/main.rs:164-190 | a row spawns 100 runs when fully prepared and none otherwise |
| PipelineProperties.BatchRowInPlace | src/main.rs:144-191 | each row's actions appear whole, between those of the rows before and after it, whatever happened to earlier rows |
| PipelineProperties.BatchIssueDirs | src/main.rs:144-178 | `results/<id>` is touched exactly when some row is issue `id`, is not skipped and was checked out |
| PipelineProperties.BatchIssueFiles | src/main.rs:144-191 | for an issue with a single row, the files the whole batch leaves under `results/<issue>` are exactly that row's, with the same contents |
| PipelineProperties.BatchCacheResetFailureLeavesEmptyDir | src/main.rs:172-178 | in the batch, the single row of an issue whose cache reset failed leaves no file at all under `results/<issue>` |
| PipelineProperties.BatchFullySuccessfulIssue | src/main.rs:180-190 | in the batch, the single fully prepared row of an issue leaves `commit.txt` with its commit and in every `run_<i>` the token of run `i`, its captured outputs after an exit or a timeout, and "error: " + the message in `stderr.txt` after a spawn or wait error |
| PipelineProperties.ConcatSpawnCount | src/main.rs:182-190 | a log of parts, each spawning 100 runs or none, spawns 100 per part that runs |
| PipelineProperties.BatchRunCount | src/main.rs:144-191 | the batch spawns 100 simulations for every fully prepared row and no others |

## Left out

- The operating system: `sh -c`, `git checkout`, `cargo cache -a`, spawning the simulator, and the exit statuses and
  captured outputs. These are foreign calls. Their results are the `World` input, and commands appear in the trace
  only as text.
- The two drain threads and their shared buffers. This is concurrency; the captured outputs are input strings.
- How the time limit is enforced, including killing the child at the limit. This is library behaviour. The wait
  appears as a `WaitFor(limit)` action followed by one of the three wait results.
- The conversion of the limit through chrono. A `TIMEOUT_SECS` above `i64::MAX` becomes negative under `as i64`,
  and a large one makes `Duration::seconds` or `to_std` panic. This is foreign library behaviour: the model accepts
  every `u64` limit and passes it on unchanged.
- CSV reading and serde deserialisation, including the fixed file name `LimboBugs.csv`. These are foreign
  libraries. The model takes the outcome of opening the file and of each row as input.
- Filesystem failures and the `unwrap`/`?` on `create_dir_all` and `fs::write`. That is I/O. Directory creation and
  writes always succeed in the model, and the file tree starts empty.
- The fact that a run directory is created with its parents is not recorded: the model has no directory tree, only
  files and the list of created paths.
- UTF-8 decoding of the captured output, whose errors are ignored. That is I/O; the outputs are input strings.
- `println!` progress lines. These are output only.
- Issue numbers are unbounded (`nat`) rather than `usize`. Serde rejects out-of-range values, and such rows appear as
  row errors in the input.
- The width of the exit code. `status.code()` comes from the process-control library, which is not part of this
  model. The code is any integer, and the token is its signed decimal text.
- The contents of a tree left by an earlier invocation. The model starts from an empty tree, so the batch lemmas
  speak only of what this invocation writes. `FailedRunKeepsOldStdout` and `SavedRunOverwrites` describe a run
  that follows arbitrary earlier writes.

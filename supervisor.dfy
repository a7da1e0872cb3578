/**
 * The run supervisor, `run_simulation`: one supervised execution of the simulation command,
 * its outcome and the artifacts it leaves in its run directory.
 * Spawning, the two output-draining threads and the timed wait are operating-system
 * behaviour; their results are the input `RunInput`.
 */
module Supervisor {
  import opened Wrappers
  import opened Text
  import opened Effects

  /**
   * A process's exit status; `code()` is absent when the process was ended by a signal. The
   * width of the code is the process-control library's and is not fixed here: any integer.
   */
  datatype ExitStatus = ExitStatus(code: Option<int>) {
    /** `ExitStatus::success`: the process exited with code 0. */
    predicate Success() {
      code == Some(0)
    }
  }

  /** What the timed wait on a spawned child reports. */
  datatype WaitResult =
    | Finished(status: ExitStatus)   // `Ok(Some(status))`: the child exited within the limit
    | LimitReached                   // `Ok(None)`: the limit elapsed and the child was terminated
    | WaitError(message: string)     // `Err(e)`, with the display text of `e`

  /**
   * What the operating system does during one run: the spawn fails with an error, or the
   * child runs, its two outputs are captured into strings and the timed wait reports.
   */
  datatype RunInput =
    | SpawnError(message: string)
    | Spawned(stdout: string, stderr: string, wait: WaitResult)

  /** The classified outcome of one run. */
  datatype RunOutcome =
    | Completed(code: Option<int>)
    | TimedOut
    | SpawnFailed(message: string)
    | WaitFailed(message: string)

  const STDOUT_FILE := "stdout.txt"
  const STDERR_FILE := "stderr.txt"
  const EXIT_CODE_FILE := "exit_code.txt"
  const TIMED_OUT_TOKEN := "-1 timed out"
  const FAILURE_TOKEN := "-2"

  function Classify(input: RunInput): RunOutcome {
    match input
    case SpawnError(m) => SpawnFailed(m)
    case Spawned(_, _, Finished(status)) => Completed(status.code)
    case Spawned(_, _, LimitReached) => TimedOut
    case Spawned(_, _, WaitError(m)) => WaitFailed(m)
  }

  /**
   * The output is saved exactly when the child was spawned and the wait did not fail, and
   * the run counts as timed out exactly when the wait reported the limit.
   */
  lemma ClassifyOutcome(input: RunInput)
    ensures SavesOutput(Classify(input)) <==> input.Spawned? && !input.wait.WaitError?
    ensures Classify(input).TimedOut? <==> input.Spawned? && input.wait.LimitReached?
    ensures Classify(input).Completed? ==> input.Spawned? && input.wait == Finished(ExitStatus(Classify(input).code))
  {
  }

  /** The text of `exit_code.txt` for an outcome. */
  function ExitCodeToken(o: RunOutcome): string {
    match o
    case Completed(Some(c)) => IntToDecimal(c)
    case Completed(None) => FAILURE_TOKEN
    case TimedOut => TIMED_OUT_TOKEN
    case SpawnFailed(_) => FAILURE_TOKEN
    case WaitFailed(_) => FAILURE_TOKEN
  }

  /** The outcomes after which the captured output is saved: the child ran to exit or was killed at the limit. */
  predicate SavesOutput(o: RunOutcome) {
    o.Completed? || o.TimedOut?
  }

  /** The writes that record outcome `o` in `dir`, given the captured outputs. */
  function ArtifactWrites(dir: Path, o: RunOutcome, out: string, err: string): seq<Effect> {
    if SavesOutput(o) then
      [WriteFile(Join(dir, STDOUT_FILE), out),
       WriteFile(Join(dir, STDERR_FILE), err),
       WriteFile(Join(dir, EXIT_CODE_FILE), ExitCodeToken(o))]
    else
      [WriteFile(Join(dir, STDERR_FILE), "error: " + o.message),
       WriteFile(Join(dir, EXIT_CODE_FILE), ExitCodeToken(o))]
  }

  function CapturedStdout(input: RunInput): string {
    if input.Spawned? then input.stdout else ""
  }

  function CapturedStderr(input: RunInput): string {
    if input.Spawned? then input.stderr else ""
  }

  /**
   * The effects of one supervised run: create the run directory, spawn the command, wait
   * with the time limit when the spawn succeeded, then record the outcome.
   */
  function RunTrace(cmd: string, limitSecs: nat, dir: Path, input: RunInput): seq<Effect> {
    Prelude(cmd, limitSecs, dir, input)
    + ArtifactWrites(dir, Classify(input), CapturedStdout(input), CapturedStderr(input))
  }

  /** The effects of a run before any artifact is written. */
  function Prelude(cmd: string, limitSecs: nat, dir: Path, input: RunInput): seq<Effect> {
    if input.Spawned? then [CreateDirAll(dir), Spawn(cmd), WaitFor(limitSecs)]
    else [CreateDirAll(dir), Spawn(cmd)]
  }

  /** `run_simulation(cmd, timeout_secs, output_dir)`, with the operating system's answers in `input`. */
  method RunSimulation(cmd: string, timeoutSecs: nat, outputDir: Path, input: RunInput)
    returns (effects: seq<Effect>)
    ensures effects == RunTrace(cmd, timeoutSecs, outputDir, input)
  {
    effects := [CreateDirAll(outputDir)];
    var stdoutPath := Join(outputDir, STDOUT_FILE);
    var stderrPath := Join(outputDir, STDERR_FILE);
    var exitCodePath := Join(outputDir, EXIT_CODE_FILE);

    effects := effects + [Spawn(cmd)];
    if input.SpawnError? {
      effects := effects + [WriteFile(stderrPath, "error: " + input.message)];
      effects := effects + [WriteFile(exitCodePath, "-2")];
      return;
    }

    effects := effects + [WaitFor(timeoutSecs)];
    match input.wait {
      case Finished(status) =>
        effects := effects + [WriteFile(stdoutPath, input.stdout)];
        effects := effects + [WriteFile(stderrPath, input.stderr)];
        var token := match status.code
          case Some(c) => IntToDecimal(c)
          case None => "-2";
        effects := effects + [WriteFile(exitCodePath, token)];
      case LimitReached =>
        effects := effects + [WriteFile(stdoutPath, input.stdout)];
        effects := effects + [WriteFile(stderrPath, input.stderr)];
        effects := effects + [WriteFile(exitCodePath, "-1 timed out")];
      case WaitError(e) =>
        effects := effects + [WriteFile(stderrPath, "error: " + e)];
        effects := effects + [WriteFile(exitCodePath, "-2")];
    }
  }

  /**
   * The exit-code token separates outcomes as far as the text allows: a decimal code
   * determines the exit code, the timeout token is never a decimal code, and every outcome
   * without a code reads "-2".
   */
  lemma ExitCodeTokenMeaning(o: RunOutcome, o': RunOutcome)
    ensures o.Completed? && o.code.Some? ==> ExitCodeToken(o) == IntToDecimal(o.code.value)
    ensures (o.Completed? && o.code.Some? && o'.Completed? && o'.code.Some?
             && ExitCodeToken(o) == ExitCodeToken(o')) ==> o == o'
    ensures ExitCodeToken(o) == TIMED_OUT_TOKEN <==> o.TimedOut?
    ensures ExitCodeToken(o) == FAILURE_TOKEN <==>
              o.SpawnFailed? || o.WaitFailed? || o == Completed(None) || o == Completed(Some(-2))
  {
    if o.Completed? && o.code.Some? {
      var s := IntToDecimal(o.code.value);
      assert s != TIMED_OUT_TOKEN by {
        assert TIMED_OUT_TOKEN[2] == ' ';
        if |s| > 2 { assert IsDigit(s[2]); }
      }
      if s == FAILURE_TOKEN {
        assert IntToDecimal(-2) == FAILURE_TOKEN;
        IntToDecimalInjective(o.code.value, -2);
      }
      if o'.Completed? && o'.code.Some? && s == ExitCodeToken(o') {
        IntToDecimalInjective(o.code.value, o'.code.value);
      }
    }
    if o == Completed(Some(-2)) {
      assert IntToDecimal(-2) == FAILURE_TOKEN;
    }
  }

  lemma PreludeViews(cmd: string, limitSecs: nat, dir: Path, input: RunInput)
    ensures var t := Prelude(cmd, limitSecs, dir, input);
            && Files(t) == map[] && Written(t) == []
            && DirsCreated(t) == [dir] && SpawnedCommands(t) == [cmd]
  {
    if input.Spawned? {
      ViewsOfThree(CreateDirAll(dir), Spawn(cmd), WaitFor(limitSecs));
    } else {
      ViewsOfTwo(CreateDirAll(dir), Spawn(cmd));
    }
  }

  lemma ArtifactViews(dir: Path, o: RunOutcome, out: string, err: string)
    ensures var t := ArtifactWrites(dir, o, out, err);
            && DirsCreated(t) == [] && SpawnedCommands(t) == []
            && Written(t) == (if SavesOutput(o) then [Join(dir, STDOUT_FILE)] else [])
                             + [Join(dir, STDERR_FILE), Join(dir, EXIT_CODE_FILE)]
            && Files(t) == if SavesOutput(o) then
                             map[Join(dir, STDOUT_FILE) := out, Join(dir, STDERR_FILE) := err,
                                 Join(dir, EXIT_CODE_FILE) := ExitCodeToken(o)]
                           else
                             map[Join(dir, STDERR_FILE) := "error: " + o.message,
                                 Join(dir, EXIT_CODE_FILE) := ExitCodeToken(o)]
  {
    if SavesOutput(o) {
      SavedArtifactViews(dir, o, out, err);
    } else {
      ErrorArtifactViews(dir, o, out, err);
    }
  }

  lemma SavedArtifactViews(dir: Path, o: RunOutcome, out: string, err: string)
    requires SavesOutput(o)
    ensures var t := ArtifactWrites(dir, o, out, err);
            && DirsCreated(t) == [] && SpawnedCommands(t) == []
            && Written(t) == [Join(dir, STDOUT_FILE), Join(dir, STDERR_FILE), Join(dir, EXIT_CODE_FILE)]
            && Files(t) == map[Join(dir, STDOUT_FILE) := out, Join(dir, STDERR_FILE) := err,
                               Join(dir, EXIT_CODE_FILE) := ExitCodeToken(o)]
  {
    var t := ArtifactWrites(dir, o, out, err);
    ViewsOfThree(t[0], t[1], t[2]);
    assert t == [t[0], t[1], t[2]];
  }

  lemma ErrorArtifactViews(dir: Path, o: RunOutcome, out: string, err: string)
    requires !SavesOutput(o)
    ensures var t := ArtifactWrites(dir, o, out, err);
            && DirsCreated(t) == [] && SpawnedCommands(t) == []
            && Written(t) == [Join(dir, STDERR_FILE), Join(dir, EXIT_CODE_FILE)]
            && Files(t) == map[Join(dir, STDERR_FILE) := "error: " + o.message,
                               Join(dir, EXIT_CODE_FILE) := ExitCodeToken(o)]
  {
    var t := ArtifactWrites(dir, o, out, err);
    ViewsOfTwo(t[0], t[1]);
    assert t == [t[0], t[1]];
  }

  /** The files a run leaves in its directory: which artifacts exist for each outcome, and what they hold. */
  lemma RunArtifacts(cmd: string, limitSecs: nat, dir: Path, input: RunInput)
    ensures var f := Files(RunTrace(cmd, limitSecs, dir, input));
            var o := Classify(input);
            && (forall p :: p in f ==>
                  p == Join(dir, STDOUT_FILE) || p == Join(dir, STDERR_FILE) || p == Join(dir, EXIT_CODE_FILE))
            && Join(dir, EXIT_CODE_FILE) in f && f[Join(dir, EXIT_CODE_FILE)] == ExitCodeToken(o)
            && Join(dir, STDERR_FILE) in f
            && f[Join(dir, STDERR_FILE)] == (if SavesOutput(o) then input.stderr else "error: " + o.message)
            && (Join(dir, STDOUT_FILE) in f <==> SavesOutput(o))
            && (SavesOutput(o) ==> f[Join(dir, STDOUT_FILE)] == input.stdout)
  {
    var o := Classify(input);
    var w := ArtifactWrites(dir, o, CapturedStdout(input), CapturedStderr(input));
    FilesConcat(Prelude(cmd, limitSecs, dir, input), w);
    PreludeViews(cmd, limitSecs, dir, input);
    ArtifactFiles(dir, o, CapturedStdout(input), CapturedStderr(input));
  }

  /** The files the artifact writes leave, by name. */
  lemma ArtifactFiles(dir: Path, o: RunOutcome, out: string, err: string)
    ensures var f := Files(ArtifactWrites(dir, o, out, err));
            && (forall p :: p in f ==>
                  p == Join(dir, STDOUT_FILE) || p == Join(dir, STDERR_FILE) || p == Join(dir, EXIT_CODE_FILE))
            && Join(dir, EXIT_CODE_FILE) in f && f[Join(dir, EXIT_CODE_FILE)] == ExitCodeToken(o)
            && Join(dir, STDERR_FILE) in f
            && f[Join(dir, STDERR_FILE)] == (if SavesOutput(o) then err else "error: " + o.message)
            && (Join(dir, STDOUT_FILE) in f <==> SavesOutput(o))
            && (SavesOutput(o) ==> f[Join(dir, STDOUT_FILE)] == out)
  {
    NamesDiffer(dir);
    ArtifactViews(dir, o, out, err);
  }

  /**
   * A run that fails to spawn or to wait does not touch `stdout.txt`: whatever an earlier
   * run into the same directory left there survives, next to this run's error text and "-2".
   */
  lemma FailedRunKeepsOldStdout(before: seq<Effect>, cmd: string, limitSecs: nat, dir: Path, input: RunInput)
    requires !SavesOutput(Classify(input))
    ensures var f := Files(before + RunTrace(cmd, limitSecs, dir, input));
            var p := Join(dir, STDOUT_FILE);
            && (p in f <==> p in Files(before))
            && (p in f ==> f[p] == Files(before)[p])
            && Join(dir, STDERR_FILE) in f && f[Join(dir, STDERR_FILE)] == "error: " + Classify(input).message
            && Join(dir, EXIT_CODE_FILE) in f && f[Join(dir, EXIT_CODE_FILE)] == FAILURE_TOKEN
  {
    RunArtifacts(cmd, limitSecs, dir, input);
    FilesConcat(before, RunTrace(cmd, limitSecs, dir, input));
  }

  /**
   * A run that ends in an exit or a timeout overwrites all three artifacts: whatever an earlier
   * run into the same directory left there, they now hold this run's output and token.
   */
  lemma SavedRunOverwrites(before: seq<Effect>, cmd: string, limitSecs: nat, dir: Path, input: RunInput)
    requires SavesOutput(Classify(input))
    ensures var f := Files(before + RunTrace(cmd, limitSecs, dir, input));
            && Join(dir, STDOUT_FILE) in f && f[Join(dir, STDOUT_FILE)] == input.stdout
            && Join(dir, STDERR_FILE) in f && f[Join(dir, STDERR_FILE)] == input.stderr
            && Join(dir, EXIT_CODE_FILE) in f && f[Join(dir, EXIT_CODE_FILE)] == ExitCodeToken(Classify(input))
  {
    RunArtifacts(cmd, limitSecs, dir, input);
    FilesConcat(before, RunTrace(cmd, limitSecs, dir, input));
  }

  /** A run creates its own directory and spawns the command, once each. */
  lemma RunCreatesDirSpawnsOnce(cmd: string, limitSecs: nat, dir: Path, input: RunInput)
    ensures var t := RunTrace(cmd, limitSecs, dir, input);
            DirsCreated(t) == [dir] && SpawnedCommands(t) == [cmd]
  {
    var o := Classify(input);
    var pre := Prelude(cmd, limitSecs, dir, input);
    var w := ArtifactWrites(dir, o, CapturedStdout(input), CapturedStderr(input));
    DirsCreatedConcat(pre, w);
    SpawnedCommandsConcat(pre, w);
    PreludeViews(cmd, limitSecs, dir, input);
    ArtifactViews(dir, o, CapturedStdout(input), CapturedStderr(input));
  }

  /**
   * A run starts by creating its directory and writes `stdout.txt` (when the child ran to
   * exit or timeout), then `stderr.txt`, then `exit_code.txt`.
   */
  lemma RunEffectOrder(cmd: string, limitSecs: nat, dir: Path, input: RunInput)
    ensures var t := RunTrace(cmd, limitSecs, dir, input);
            && t[0] == CreateDirAll(dir)
            && Written(t) == (if SavesOutput(Classify(input)) then [Join(dir, STDOUT_FILE)] else [])
                             + [Join(dir, STDERR_FILE), Join(dir, EXIT_CODE_FILE)]
  {
    var o := Classify(input);
    WrittenConcat(Prelude(cmd, limitSecs, dir, input), ArtifactWrites(dir, o, CapturedStdout(input), CapturedStderr(input)));
    PreludeViews(cmd, limitSecs, dir, input);
    ArtifactViews(dir, o, CapturedStdout(input), CapturedStderr(input));
  }

  /** A run waits exactly when its spawn succeeded, and creates and writes only inside its own directory. */
  lemma RunStaysInDir(cmd: string, limitSecs: nat, dir: Path, input: RunInput)
    ensures var t := RunTrace(cmd, limitSecs, dir, input);
            && (WaitFor(limitSecs) in t <==> input.Spawned?)
            && AllWithin(t, dir)
  {
    var t := RunTrace(cmd, limitSecs, dir, input);
    var pre := Prelude(cmd, limitSecs, dir, input);
    var w := ArtifactWrites(dir, Classify(input), CapturedStdout(input), CapturedStderr(input));
    assert forall i :: 0 <= i < |w| ==> w[i].WriteFile? && Within(w[i].path, dir);
    assert forall i :: 0 <= i < |t| ==> t[i] == if i < |pre| then pre[i] else w[i - |pre|];
  }

  /** The three artifact paths of one directory are distinct. */
  lemma NamesDiffer(dir: Path)
    ensures Join(dir, STDOUT_FILE) != Join(dir, STDERR_FILE)
    ensures Join(dir, STDOUT_FILE) != Join(dir, EXIT_CODE_FILE)
    ensures Join(dir, STDERR_FILE) != Join(dir, EXIT_CODE_FILE)
  {
    if Join(dir, STDOUT_FILE) == Join(dir, STDERR_FILE) { JoinInjective(dir, STDOUT_FILE, STDERR_FILE); }
    if Join(dir, STDOUT_FILE) == Join(dir, EXIT_CODE_FILE) { JoinInjective(dir, STDOUT_FILE, EXIT_CODE_FILE); }
    if Join(dir, STDERR_FILE) == Join(dir, EXIT_CODE_FILE) { JoinInjective(dir, STDERR_FILE, EXIT_CODE_FILE); }
  }
}

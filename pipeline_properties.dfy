/**
 * What the issue pipeline and the batch driver guarantee about the result tree: which rows
 * leave no trace, which directories exist, how the runs are numbered and what each run
 * directory holds.
 */
module PipelineProperties {
  import opened Text
  import opened Effects
  import opened Supervisor
  import opened Records
  import opened Driver

  // ---------------------------------------------------------------------------
  // Paths

  /** No path lies inside the directories of two different issues. */
  lemma WithinOneIssueDir(p: Path, a: nat, b: nat)
    requires Within(p, IssueDir(a)) && Within(p, IssueDir(b))
    ensures a == b
  {
    assert IssueDir(a)[1] == p[1] == IssueDir(b)[1];
    NatToDecimalInjective(a, b);
  }

  /** Run directories of one issue with different indices are different. */
  lemma RunDirInjective(d: Path, i: nat, j: nat)
    requires RunDir(d, i) == RunDir(d, j)
    ensures i == j
  {
    JoinInjective(d, "run_" + NatToDecimal(i), "run_" + NatToDecimal(j));
    assert NatToDecimal(i) == ("run_" + NatToDecimal(i))[4..];
    assert NatToDecimal(j) == ("run_" + NatToDecimal(j))[4..];
    NatToDecimalInjective(i, j);
  }

  /** A file of run `i` is a file of run `j` only when `i == j` and the names agree. */
  lemma RunFileInjective(d: Path, i: nat, a: string, j: nat, b: string)
    ensures Join(RunDir(d, i), a) == Join(RunDir(d, j), b) ==> i == j && a == b
  {
    var p := Join(RunDir(d, i), a);
    if p == Join(RunDir(d, j), b) {
      assert RunDir(d, i) == p[..|d| + 1] == RunDir(d, j);
      RunDirInjective(d, i, j);
      JoinInjective(RunDir(d, i), a, b);
    }
  }

  /** `commit.txt` is not a file of any run directory. */
  lemma CommitFileNotRunFile(d: Path, i: nat, name: string)
    ensures Join(d, COMMIT_FILE) != Join(RunDir(d, i), name)
  {
  }

  // ---------------------------------------------------------------------------
  // The runs of one issue

  /** Runs 1 to RUNS_PER_ISSUE create exactly the directories `run_1` to `run_100`, in that order. */
  lemma RunsCreateNumberedDirs(d: Path, cmd: string, limitSecs: nat, k: nat, world: World)
    ensures DirsCreated(Concat(RunTraces(d, cmd, limitSecs, k, world)))
            == seq(RUNS_PER_ISSUE, j requires 0 <= j => RunDir(d, j + 1))
  {
    var runs := RunTraces(d, cmd, limitSecs, k, world);
    var dirs := seq(RUNS_PER_ISSUE, j requires 0 <= j => RunDir(d, j + 1));
    forall j | 0 <= j < |runs|
      ensures DirsCreated(runs[j]) == [dirs[j]]
    {
      RunCreatesDirSpawnsOnce(cmd, limitSecs, RunDir(d, j + 1), world.run(k, j + 1));
    }
    ConcatDirs(runs, dirs);
  }

  /** Every run spawns the same command, once. */
  lemma RunsSpawnCommand(d: Path, cmd: string, limitSecs: nat, k: nat, world: World)
    ensures SpawnedCommands(Concat(RunTraces(d, cmd, limitSecs, k, world))) == seq(RUNS_PER_ISSUE, j => cmd)
  {
    var runs := RunTraces(d, cmd, limitSecs, k, world);
    forall j | 0 <= j < |runs|
      ensures SpawnedCommands(runs[j]) == [cmd]
    {
      RunCreatesDirSpawnsOnce(cmd, limitSecs, RunDir(d, j + 1), world.run(k, j + 1));
    }
    ConcatSpawns(runs, cmd);
  }

  /** The runs create and write nothing outside the issue directory. */
  lemma RunsStayInIssueDir(d: Path, cmd: string, limitSecs: nat, k: nat, world: World)
    ensures AllWithin(Concat(RunTraces(d, cmd, limitSecs, k, world)), d)
  {
    var runs := RunTraces(d, cmd, limitSecs, k, world);
    forall j | 0 <= j < |runs|
      ensures AllWithin(runs[j], d)
    {
      RunStaysInDir(cmd, limitSecs, RunDir(d, j + 1), world.run(k, j + 1));
      AllWithinWider(runs[j], RunDir(d, j + 1), d);
    }
    ConcatAllWithin(runs, d);
  }

  /** A file named inside `run_<i>` is written by no run but run `i`. */
  lemma OtherRunsMissFile(d: Path, cmd: string, limitSecs: nat, k: nat, world: World, i: nat, name: string, j: nat)
    requires j != i
    ensures Join(RunDir(d, i), name) !in Files(RunTrace(cmd, limitSecs, RunDir(d, j), world.run(k, j)))
  {
    RunArtifacts(cmd, limitSecs, RunDir(d, j), world.run(k, j));
    RunFileInjective(d, i, name, j, STDOUT_FILE);
    RunFileInjective(d, i, name, j, STDERR_FILE);
    RunFileInjective(d, i, name, j, EXIT_CODE_FILE);
  }

  /** The same, for every run of the issue but run `i`. */
  lemma OtherRunsMissFiles(d: Path, cmd: string, limitSecs: nat, k: nat, world: World, i: nat, name: string)
    requires 1 <= i
    ensures var runs := RunTraces(d, cmd, limitSecs, k, world);
            forall j :: 0 <= j < |runs| && j != i - 1 ==> Join(RunDir(d, i), name) !in Files(runs[j])
  {
    var runs := RunTraces(d, cmd, limitSecs, k, world);
    forall j | 0 <= j < |runs| && j != i - 1
      ensures Join(RunDir(d, i), name) !in Files(runs[j])
    {
      OtherRunsMissFile(d, cmd, limitSecs, k, world, i, name, j + 1);
    }
  }

  /** After all runs, the files of `run_<i>` are exactly those run `i` left: no other run touches them. */
  lemma RunFilesKept(d: Path, cmd: string, limitSecs: nat, k: nat, world: World, i: nat, name: string)
    requires 1 <= i <= RUNS_PER_ISSUE
    ensures var p := Join(RunDir(d, i), name);
            var all := Files(Concat(RunTraces(d, cmd, limitSecs, k, world)));
            var own := Files(RunTrace(cmd, limitSecs, RunDir(d, i), world.run(k, i)));
            (p in all <==> p in own) && (p in own ==> all[p] == own[p])
  {
    var runs := RunTraces(d, cmd, limitSecs, k, world);
    OtherRunsMissFiles(d, cmd, limitSecs, k, world, i, name);
    ConcatFileFrom(runs, i - 1, Join(RunDir(d, i), name));
    assert runs[i - 1] == RunTrace(cmd, limitSecs, RunDir(d, i), world.run(k, i));
  }

  /** Run `j` does not write the issue's `commit.txt`. */
  lemma RunMissesCommitFile(d: Path, cmd: string, limitSecs: nat, j: nat, input: RunInput)
    ensures Join(d, COMMIT_FILE) !in Files(RunTrace(cmd, limitSecs, RunDir(d, j), input))
  {
    RunArtifacts(cmd, limitSecs, RunDir(d, j), input);
    CommitFileNotRunFile(d, j, STDOUT_FILE);
    CommitFileNotRunFile(d, j, STDERR_FILE);
    CommitFileNotRunFile(d, j, EXIT_CODE_FILE);
  }

  /** No run writes `commit.txt`. */
  lemma RunsLeaveCommitFile(d: Path, cmd: string, limitSecs: nat, k: nat, world: World)
    ensures Join(d, COMMIT_FILE) !in Files(Concat(RunTraces(d, cmd, limitSecs, k, world)))
  {
    var runs := RunTraces(d, cmd, limitSecs, k, world);
    forall j | 0 <= j < |runs|
      ensures Join(d, COMMIT_FILE) !in Files(runs[j])
    {
      RunMissesCommitFile(d, cmd, limitSecs, j + 1, world.run(k, j + 1));
    }
    ConcatFileAbsent(runs, Join(d, COMMIT_FILE));
  }

  // ---------------------------------------------------------------------------
  // One issue

  /** The stages after which `results/<issue>` exists. */
  predicate CreatesIssueDir(stage: Stage) {
    stage == CacheResetFailed || stage == Ran
  }

  /** The runs of a row. */
  function IssueRuns(row: IssueRow, k: nat, limitSecs: nat, world: World): seq<seq<Effect>> {
    RunTraces(IssueDir(row.issue), SimCommand(Opts(row)), limitSecs, k, world)
  }

  /** The four effects before the runs of a fully prepared issue. */
  function PreparedTrace(row: IssueRow): seq<Effect>
    requires row.commitIds.Some?
  {
    var commit := FirstCommit(row.commitIds).value;
    [Shell(CheckoutCommand(commit)), CreateDirAll(IssueDir(row.issue)), Shell(CACHE_RESET_COMMAND),
     WriteFile(Join(IssueDir(row.issue), COMMIT_FILE), commit + "\n")]
  }

  /** A row leaves no effect at all (no checkout, no directory, no run) exactly when it is skipped. */
  lemma SkippedIssueDoesNothing(row: IssueRow, k: nat, limitSecs: nat, world: World)
    ensures IssueTrace(row, k, limitSecs, world) == [] <==> StageOf(row, k, world) == Skipped
    ensures StageOf(row, k, world) == Skipped <==> SkipsIssue(FirstCommit(row.commitIds))
  {
  }

  /** A failed checkout is the only effect of its row: nothing is created, written or spawned. */
  lemma CheckoutFailureLeavesNothing(row: IssueRow, k: nat, limitSecs: nat, world: World)
    requires !SkipsIssue(FirstCommit(row.commitIds)) && !CheckedRun(world.checkout(k))
    ensures var t := IssueTrace(row, k, limitSecs, world);
            && t == [Shell(CheckoutCommand(FirstCommit(row.commitIds).value))]
            && DirsCreated(t) == [] && Written(t) == [] && SpawnedCommands(t) == []
            && !TouchesDir(t, IssueDir(row.issue))
  {
    ViewsOfOne(Shell(CheckoutCommand(FirstCommit(row.commitIds).value)));
  }

  /**
   * After a failed cache reset the row writes nothing into the `results/<issue>` it created:
   * no `commit.txt`, no run directory and no run.
   */
  lemma CacheResetFailureLeavesEmptyDir(row: IssueRow, k: nat, limitSecs: nat, world: World)
    requires !SkipsIssue(FirstCommit(row.commitIds)) && CheckedRun(world.checkout(k))
    requires !CheckedRun(world.cacheReset(k))
    ensures var t := IssueTrace(row, k, limitSecs, world);
            && t == [Shell(CheckoutCommand(FirstCommit(row.commitIds).value)),
                     CreateDirAll(IssueDir(row.issue)), Shell(CACHE_RESET_COMMAND)]
            && DirsCreated(t) == [IssueDir(row.issue)] && Written(t) == [] && Files(t) == map[]
            && SpawnedCommands(t) == []
  {
    ViewsOfThree(Shell(CheckoutCommand(FirstCommit(row.commitIds).value)),
                 CreateDirAll(IssueDir(row.issue)), Shell(CACHE_RESET_COMMAND));
  }

  lemma PreparedTraceEffects(row: IssueRow)
    requires row.commitIds.Some?
    ensures var t := PreparedTrace(row);
            && DirsCreated(t) == [IssueDir(row.issue)]
            && SpawnedCommands(t) == []
            && Files(t) == map[Join(IssueDir(row.issue), COMMIT_FILE) := FirstCommit(row.commitIds).value + "\n"]
  {
    var commit := FirstCommit(row.commitIds).value;
    var dir := IssueDir(row.issue);
    var e0, e1, e2 := Shell(CheckoutCommand(commit)), CreateDirAll(dir), Shell(CACHE_RESET_COMMAND);
    var e3 := WriteFile(Join(dir, COMMIT_FILE), commit + "\n");
    assert PreparedTrace(row) == [e0, e1, e2] + [e3];
    ViewsOfThree(e0, e1, e2);
    ViewsOfOne(e3);
    ViewsConcat([e0, e1, e2], [e3]);
  }

  lemma PreparedStaysInDir(row: IssueRow)
    requires row.commitIds.Some?
    ensures AllWithin(PreparedTrace(row), IssueDir(row.issue))
  {
  }

  /** The effects of a fully prepared row: the four preparing effects, then the runs. */
  lemma RanTrace(row: IssueRow, k: nat, limitSecs: nat, world: World)
    requires StageOf(row, k, world) == Ran
    ensures row.commitIds.Some?
    ensures IssueTrace(row, k, limitSecs, world) == PreparedTrace(row) + Concat(IssueRuns(row, k, limitSecs, world))
  {
  }

  /**
   * A fully prepared issue: after the checkout, the issue directory and the cache reset,
   * `commit.txt` holds the untrimmed commit and one newline, and runs 1 to RUNS_PER_ISSUE
   * follow in increasing order, each in its own `run_<i>` and each spawning the simulation
   * command with the row's options.
   */
  lemma FullySuccessfulIssue(row: IssueRow, k: nat, limitSecs: nat, world: World)
    requires StageOf(row, k, world) == Ran
    ensures var t := IssueTrace(row, k, limitSecs, world);
            var dir := IssueDir(row.issue);
            && DirsCreated(t) == [dir] + seq(RUNS_PER_ISSUE, j requires 0 <= j => RunDir(dir, j + 1))
            && SpawnedCommands(t) == seq(RUNS_PER_ISSUE, j => SimCommand(Opts(row)))
            && Join(dir, COMMIT_FILE) in Files(t)
            && Files(t)[Join(dir, COMMIT_FILE)] == FirstCommit(row.commitIds).value + "\n"
  {
    var dir := IssueDir(row.issue);
    var cmd := SimCommand(Opts(row));
    var runs := Concat(IssueRuns(row, k, limitSecs, world));
    RanTrace(row, k, limitSecs, world);
    PreparedTraceEffects(row);
    ViewsConcat(PreparedTrace(row), runs);
    RunsCreateNumberedDirs(dir, cmd, limitSecs, k, world);
    RunsSpawnCommand(dir, cmd, limitSecs, k, world);
    RunsLeaveCommitFile(dir, cmd, limitSecs, k, world);
  }

  /** The simulation command of a row: the fixed template alone when `Opts` is empty, else followed by it. */
  lemma RowSimCommand(row: IssueRow)
    ensures row.opts.None? ==> SimCommand(Opts(row)) == SIM_COMMAND_PREFIX
    ensures row.opts.Some? ==> SimCommand(Opts(row)) == SIM_COMMAND_PREFIX + row.opts.value
  {
    assert SIM_COMMAND_PREFIX + "" == SIM_COMMAND_PREFIX;
  }

  /**
   * In a fully prepared issue, every run directory `run_<i>` ends up with `stderr.txt` and an
   * `exit_code.txt` that encodes run i's outcome, and with `stdout.txt` exactly when the child
   * ran to exit or timeout, in which case both captured outputs are saved as they were.
   */
  lemma FullySuccessfulIssueArtifacts(row: IssueRow, k: nat, limitSecs: nat, world: World, i: nat)
    requires StageOf(row, k, world) == Ran
    requires 1 <= i <= RUNS_PER_ISSUE
    ensures var f := Files(IssueTrace(row, k, limitSecs, world));
            var rd := RunDir(IssueDir(row.issue), i);
            var o := Classify(world.run(k, i));
            && Join(rd, EXIT_CODE_FILE) in f && f[Join(rd, EXIT_CODE_FILE)] == ExitCodeToken(o)
            && Join(rd, STDERR_FILE) in f
            && (Join(rd, STDOUT_FILE) in f <==> SavesOutput(o))
            && (SavesOutput(o) ==> f[Join(rd, STDOUT_FILE)] == world.run(k, i).stdout
                                   && f[Join(rd, STDERR_FILE)] == world.run(k, i).stderr)
            && (!SavesOutput(o) ==> f[Join(rd, STDERR_FILE)] == "error: " + o.message)
  {
    var dir := IssueDir(row.issue);
    var cmd := SimCommand(Opts(row));
    var rd := RunDir(dir, i);
    RunArtifacts(cmd, limitSecs, rd, world.run(k, i));
    NamesDiffer(rd);
    RanRunFile(row, k, limitSecs, world, i, EXIT_CODE_FILE);
    RanRunFile(row, k, limitSecs, world, i, STDERR_FILE);
    RanRunFile(row, k, limitSecs, world, i, STDOUT_FILE);
  }

  /** In a fully prepared issue, a file of `run_<i>` holds what run `i` left in it. */
  lemma RanRunFile(row: IssueRow, k: nat, limitSecs: nat, world: World, i: nat, name: string)
    requires StageOf(row, k, world) == Ran
    requires 1 <= i <= RUNS_PER_ISSUE
    ensures var dir := IssueDir(row.issue);
            var p := Join(RunDir(dir, i), name);
            var f := Files(IssueTrace(row, k, limitSecs, world));
            var own := Files(RunTrace(SimCommand(Opts(row)), limitSecs, RunDir(dir, i), world.run(k, i)));
            (p in f <==> p in own) && (p in own ==> f[p] == own[p])
  {
    var dir := IssueDir(row.issue);
    var runs := Concat(IssueRuns(row, k, limitSecs, world));
    RanTrace(row, k, limitSecs, world);
    PreparedTraceEffects(row);
    FilesConcat(PreparedTrace(row), runs);
    CommitFileNotRunFile(dir, i, name);
    RunFilesKept(dir, SimCommand(Opts(row)), limitSecs, k, world, i, name);
  }

  /** Everything a row creates or writes lies inside its own `results/<issue>`. */
  lemma IssueStaysInIssueDir(row: IssueRow, k: nat, limitSecs: nat, world: World)
    ensures AllWithin(IssueTrace(row, k, limitSecs, world), IssueDir(row.issue))
  {
    if StageOf(row, k, world) == Ran {
      var dir := IssueDir(row.issue);
      RanTrace(row, k, limitSecs, world);
      PreparedStaysInDir(row);
      RunsStayInIssueDir(dir, SimCommand(Opts(row)), limitSecs, k, world);
      AllWithinConcat(PreparedTrace(row), Concat(IssueRuns(row, k, limitSecs, world)), dir);
    }
  }

  /** A row touches `results/<id>` exactly when it is issue `id` and its checkout succeeded. */
  lemma IssueTouchesOnlyItsDir(row: IssueRow, k: nat, limitSecs: nat, world: World, id: nat)
    ensures TouchesDir(IssueTrace(row, k, limitSecs, world), IssueDir(id)) <==>
            row.issue == id && CreatesIssueDir(StageOf(row, k, world))
  {
    var t := IssueTrace(row, k, limitSecs, world);
    if TouchesDir(t, IssueDir(id)) {
      var i :| 0 <= i < |t| && Touches(t[i], IssueDir(id));
      IssueStaysInIssueDir(row, k, limitSecs, world);
      WithinOneIssueDir(t[i].path, id, row.issue);
    }
    if row.issue == id && CreatesIssueDir(StageOf(row, k, world)) {
      assert t[1] == CreateDirAll(IssueDir(id));
      assert Touches(t[1], IssueDir(id));
    }
  }

  /** A row spawns RUNS_PER_ISSUE simulations when fully prepared, and none otherwise. */
  lemma IssueRunCount(row: IssueRow, k: nat, limitSecs: nat, world: World)
    ensures |SpawnedCommands(IssueTrace(row, k, limitSecs, world))| ==
            if StageOf(row, k, world) == Ran then RUNS_PER_ISSUE else 0
  {
    match StageOf(row, k, world)
    case Skipped =>
    case CheckoutFailed => CheckoutFailureLeavesNothing(row, k, limitSecs, world);
    case CacheResetFailed => CacheResetFailureLeavesEmptyDir(row, k, limitSecs, world);
    case Ran => FullySuccessfulIssue(row, k, limitSecs, world);
  }

  // ---------------------------------------------------------------------------
  // The batch

  /**
   * Row `k` contributes its own effects, unchanged, between those of the rows before it and
   * those of the rows after it: what happened to earlier rows does not stop or alter it.
   */
  lemma BatchRowInPlace(records: seq<IssueRow>, limitSecs: nat, world: World, k: nat)
    requires k < |records|
    ensures var issues := IssueTraces(records, limitSecs, world);
            BatchTrace(records, limitSecs, world)
            == Concat(issues[..k]) + IssueTrace(records[k], k, limitSecs, world) + Concat(issues[k + 1..])
  {
    ConcatSplit(IssueTraces(records, limitSecs, world), k);
  }

  /**
   * `results/<id>` is touched by the batch exactly when some row is issue `id`, is not
   * skipped and was checked out: a skipped row or a failed checkout leaves no directory,
   * whatever the other rows do.
   */
  lemma BatchIssueDirs(records: seq<IssueRow>, limitSecs: nat, world: World, id: nat)
    ensures TouchesDir(BatchTrace(records, limitSecs, world), IssueDir(id)) <==>
            exists k :: 0 <= k < |records| && records[k].issue == id && CreatesIssueDir(StageOf(records[k], k, world))
  {
    var issues := IssueTraces(records, limitSecs, world);
    ConcatTouches(issues, IssueDir(id));
    forall k | 0 <= k < |records|
      ensures TouchesDir(issues[k], IssueDir(id)) <==> records[k].issue == id && CreatesIssueDir(StageOf(records[k], k, world))
    {
      IssueTouchesOnlyItsDir(records[k], k, limitSecs, world, id);
    }
  }

  /** No other row of the table has the issue number of row `k`. */
  predicate UniqueIssue(records: seq<IssueRow>, k: nat)
    requires k < |records|
  {
    forall j :: 0 <= j < |records| && j != k ==> records[j].issue != records[k].issue
  }

  /**
   * When row `k` is the only row of its issue, the files under `results/<issue>` that the whole
   * batch leaves are exactly those row `k` leaves, with the same contents.
   */
  lemma BatchIssueFiles(records: seq<IssueRow>, limitSecs: nat, world: World, k: nat, p: Path)
    requires k < |records| && UniqueIssue(records, k)
    requires Within(p, IssueDir(records[k].issue))
    ensures var f, own := Files(BatchTrace(records, limitSecs, world)), Files(IssueTrace(records[k], k, limitSecs, world));
            && (p in f <==> p in own)
            && (p in own ==> f[p] == own[p])
  {
    var issues := IssueTraces(records, limitSecs, world);
    forall j | 0 <= j < |issues| && j != k
      ensures p !in Files(issues[j])
    {
      IssueStaysInIssueDir(records[j], j, limitSecs, world);
      FilesWithin(issues[j], IssueDir(records[j].issue), p);
      if Within(p, IssueDir(records[j].issue)) {
        WithinOneIssueDir(p, records[j].issue, records[k].issue);
      }
    }
    ConcatFileFrom(issues, k, p);
  }

  /**
   * In the batch, a row that is the only one of its issue and whose cache reset failed leaves
   * `results/<issue>` without any file: no `commit.txt` and nothing of any run.
   */
  lemma BatchCacheResetFailureLeavesEmptyDir(records: seq<IssueRow>, limitSecs: nat, world: World, k: nat, p: Path)
    requires k < |records| && UniqueIssue(records, k)
    requires StageOf(records[k], k, world) == CacheResetFailed
    requires Within(p, IssueDir(records[k].issue))
    ensures p !in Files(BatchTrace(records, limitSecs, world))
  {
    CacheResetFailureLeavesEmptyDir(records[k], k, limitSecs, world);
    BatchIssueFiles(records, limitSecs, world, k, p);
  }

  /**
   * In the batch, a fully prepared row that is the only one of its issue leaves `commit.txt`
   * holding its commit, and in every `run_<i>` the artifacts of run `i`.
   */
  lemma BatchFullySuccessfulIssue(records: seq<IssueRow>, limitSecs: nat, world: World, k: nat, i: nat)
    requires k < |records| && UniqueIssue(records, k)
    requires StageOf(records[k], k, world) == Ran
    requires 1 <= i <= RUNS_PER_ISSUE
    ensures var row, f := records[k], Files(BatchTrace(records, limitSecs, world));
            var dir := IssueDir(row.issue);
            var rd, o := RunDir(dir, i), Classify(world.run(k, i));
            && Join(dir, COMMIT_FILE) in f && f[Join(dir, COMMIT_FILE)] == FirstCommit(row.commitIds).value + "\n"
            && Join(rd, EXIT_CODE_FILE) in f && f[Join(rd, EXIT_CODE_FILE)] == ExitCodeToken(o)
            && Join(rd, STDERR_FILE) in f
            && (Join(rd, STDOUT_FILE) in f <==> SavesOutput(o))
            && (SavesOutput(o) ==> f[Join(rd, STDOUT_FILE)] == world.run(k, i).stdout
                                   && f[Join(rd, STDERR_FILE)] == world.run(k, i).stderr)
            && (!SavesOutput(o) ==> f[Join(rd, STDERR_FILE)] == "error: " + o.message)
  {
    var row := records[k];
    var dir := IssueDir(row.issue);
    var rd := RunDir(dir, i);
    FullySuccessfulIssue(row, k, limitSecs, world);
    FullySuccessfulIssueArtifacts(row, k, limitSecs, world, i);
    BatchIssueFiles(records, limitSecs, world, k, Join(dir, COMMIT_FILE));
    BatchIssueFiles(records, limitSecs, world, k, Join(rd, EXIT_CODE_FILE));
    BatchIssueFiles(records, limitSecs, world, k, Join(rd, STDERR_FILE));
    BatchIssueFiles(records, limitSecs, world, k, Join(rd, STDOUT_FILE));
  }

  /** The number of `true` entries. */
  function CountTrue(flags: seq<bool>): nat {
    if flags == [] then 0 else CountTrue(flags[..|flags| - 1]) + (if flags[|flags| - 1] then 1 else 0)
  }

  /** Which rows are fully prepared. */
  function PreparedRows(records: seq<IssueRow>, world: World): seq<bool> {
    seq(|records|, k requires 0 <= k < |records| => StageOf(records[k], k, world) == Ran)
  }

  /** When part `j` spawns RUNS_PER_ISSUE commands if `flags[j]` and none otherwise, the log spawns that many per flag set. */
  lemma {:induction false} ConcatSpawnCount(parts: seq<seq<Effect>>, flags: seq<bool>)
    requires |flags| == |parts|
    requires forall j :: 0 <= j < |parts| ==> |SpawnedCommands(parts[j])| == if flags[j] then RUNS_PER_ISSUE else 0
    ensures |SpawnedCommands(Concat(parts))| == RUNS_PER_ISSUE * CountTrue(flags)
  {
    if parts != [] {
      var n := |parts|;
      ConcatSpawnCount(parts[..n - 1], flags[..n - 1]);
      SpawnedCommandsConcat(Concat(parts[..n - 1]), parts[n - 1]);
    }
  }

  /** The batch spawns RUNS_PER_ISSUE simulations for every fully prepared row and no others. */
  lemma BatchRunCount(records: seq<IssueRow>, limitSecs: nat, world: World)
    ensures |SpawnedCommands(BatchTrace(records, limitSecs, world))| == RUNS_PER_ISSUE * CountTrue(PreparedRows(records, world))
  {
    var issues := IssueTraces(records, limitSecs, world);
    var flags := PreparedRows(records, world);
    forall k | 0 <= k < |records|
      ensures |SpawnedCommands(issues[k])| == if flags[k] then RUNS_PER_ISSUE else 0
    {
      IssueRunCount(records[k], k, limitSecs, world);
    }
    ConcatSpawnCount(issues, flags);
  }
}

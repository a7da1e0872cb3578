/**
 * The batch driver and the issue pipeline of `main`: for every row of the issue table, check
 * out its commit, create its result directory, reset the build cache, record the commit and
 * run the simulation `RUNS_PER_ISSUE` times. The results of the external commands come from
 * a `World`, indexed by the row's position so that every row can see different results.
 */
module Driver {
  import opened Wrappers
  import opened Text
  import opened Effects
  import opened Supervisor
  import opened Records

  const RUNS_PER_ISSUE: nat := 100
  const CACHE_RESET_COMMAND := "cargo cache -a"
  const SIM_COMMAND_PREFIX := "RUST_LOG=limbo_sim=debug cargo run --bin limbo_sim -- "
  const COMMIT_FILE := "commit.txt"

  /** The result of running a command through `sh -c` to completion. */
  datatype CommandResult =
    | LaunchError(message: string)   // the shell could not be started
    | Exited(status: ExitStatus)

  /** `checked_run(..).is_ok()`: the shell started and the command exited successfully. */
  predicate CheckedRun(r: CommandResult) {
    r.Exited? && r.status.Success()
  }

  /** A command succeeds exactly when the shell started and the command exited with code 0. */
  lemma CheckedRunMeaning(r: CommandResult)
    ensures CheckedRun(r) <==> r == Exited(ExitStatus(Some(0)))
  {
  }

  /**
   * The answers of the outside world: the checkout and the cache reset of the row at position
   * `k`, and run `i` of that row.
   */
  datatype World = World(
    checkout: nat -> CommandResult,
    cacheReset: nat -> CommandResult,
    run: (nat, nat) -> RunInput)

  function CheckoutCommand(commit: string): string {
    "git checkout " + commit
  }

  /** The simulation command of every run of an issue: a fixed template followed by the options. */
  function SimCommand(opts: string): string {
    SIM_COMMAND_PREFIX + opts
  }

  /** `results/<issue>`. */
  function IssueDir(issue: nat): Path {
    ["results", NatToDecimal(issue)]
  }

  /** `<issue dir>/run_<i>`. */
  function RunDir(issueDir: Path, i: nat): Path {
    Join(issueDir, "run_" + NatToDecimal(i))
  }

  /** How far the pipeline gets with one row. */
  datatype Stage = Skipped | CheckoutFailed | CacheResetFailed | Ran

  function StageOf(row: IssueRow, k: nat, world: World): Stage {
    if SkipsIssue(FirstCommit(row.commitIds)) then Skipped
    else if !CheckedRun(world.checkout(k)) then CheckoutFailed
    else if !CheckedRun(world.cacheReset(k)) then CacheResetFailed
    else Ran
  }

  /** The effects of runs 1 to RUNS_PER_ISSUE of an issue: entry `j` is run `j + 1`. */
  function RunTraces(issueDir: Path, cmd: string, limitSecs: nat, k: nat, world: World): seq<seq<Effect>> {
    seq(RUNS_PER_ISSUE, j requires 0 <= j => RunTrace(cmd, limitSecs, RunDir(issueDir, j + 1), world.run(k, j + 1)))
  }

  /** The effects of the row at position `k`, by the stage the pipeline reaches. */
  function IssueTrace(row: IssueRow, k: nat, limitSecs: nat, world: World): seq<Effect> {
    match StageOf(row, k, world)
    case Skipped => []
    case CheckoutFailed => [Shell(CheckoutCommand(FirstCommit(row.commitIds).value))]
    case CacheResetFailed =>
      [Shell(CheckoutCommand(FirstCommit(row.commitIds).value)),
       CreateDirAll(IssueDir(row.issue)),
       Shell(CACHE_RESET_COMMAND)]
    case Ran =>
      var commit := FirstCommit(row.commitIds).value;
      var dir := IssueDir(row.issue);
      [Shell(CheckoutCommand(commit)), CreateDirAll(dir), Shell(CACHE_RESET_COMMAND),
       WriteFile(Join(dir, COMMIT_FILE), commit + "\n")]
      + Concat(RunTraces(dir, SimCommand(Opts(row)), limitSecs, k, world))
  }

  /** The effects of every row, by position. */
  function IssueTraces(records: seq<IssueRow>, limitSecs: nat, world: World): seq<seq<Effect>> {
    seq(|records|, k requires 0 <= k < |records| => IssueTrace(records[k], k, limitSecs, world))
  }

  /** The effects of the whole batch: the rows one after the other, in table order. */
  function BatchTrace(records: seq<IssueRow>, limitSecs: nat, world: World): seq<Effect> {
    Concat(IssueTraces(records, limitSecs, world))
  }

  /** The body of the loop over the records in `main`; each `continue` is an early return. */
  method ProcessIssue(record: IssueRow, k: nat, timeoutSecs: nat, world: World) returns (effects: seq<Effect>)
    ensures effects == IssueTrace(record, k, timeoutSecs, world)
  {
    effects := [];
    var issueId := record.issue;
    var commit := FirstCommit(record.commitIds);
    var opts := record.opts.UnwrapOr("");
    if commit.None? || Trim(commit.value) == [] {
      return;
    }
    var commitStr := commit.value;

    effects := effects + [Shell("git checkout " + commitStr)];
    if !CheckedRun(world.checkout(k)) {
      return;
    }

    var issueDir: Path := ["results", NatToDecimal(issueId)];   // PathBuf::from("results/<id>")
    effects := effects + [CreateDirAll(issueDir)];

    effects := effects + [Shell("cargo cache -a")];
    if !CheckedRun(world.cacheReset(k)) {
      return;
    }

    effects := effects + [WriteFile(Join(issueDir, "commit.txt"), commitStr + "\n")];

    var runs := RunIssue(issueDir, opts, timeoutSecs, k, world);
    effects := effects + runs;
  }

  /** The loop `for i in 1..=RUNS_PER_ISSUE` of `main`: run `i` writes into `<issue dir>/run_<i>`. */
  method RunIssue(issueDir: Path, opts: string, timeoutSecs: nat, k: nat, world: World) returns (effects: seq<Effect>)
    ensures effects == Concat(RunTraces(issueDir, SimCommand(opts), timeoutSecs, k, world))
  {
    ghost var runs := RunTraces(issueDir, SimCommand(opts), timeoutSecs, k, world);
    effects := [];
    for i := 1 to RUNS_PER_ISSUE + 1
      invariant effects == Concat(runs[..i - 1])
    {
      var runDir := Join(issueDir, "run_" + NatToDecimal(i));
      var cmd := "RUST_LOG=limbo_sim=debug cargo run --bin limbo_sim -- " + opts;
      var runEffects := RunSimulation(cmd, timeoutSecs, runDir, world.run(k, i));
      ConcatPrefixStep(runs, i);
      effects := effects + runEffects;
    }
    assert runs[..RUNS_PER_ISSUE] == runs;
  }

  /** The loop over the records in `main`: every row in table order, whatever happened to the previous ones. */
  method RunBatch(records: seq<IssueRow>, timeoutSecs: nat, world: World) returns (effects: seq<Effect>)
    ensures effects == BatchTrace(records, timeoutSecs, world)
  {
    ghost var issues := IssueTraces(records, timeoutSecs, world);
    effects := [];
    for k := 0 to |records|
      invariant effects == Concat(issues[..k])
    {
      var issueEffects := ProcessIssue(records[k], k, timeoutSecs, world);
      ConcatPrefixStep(issues, k + 1);
      effects := effects + issueEffects;
    }
    assert issues[..|records|] == issues;
  }

  /** The rows of a table that read without error. */
  function RecordsOf(rows: seq<Result<IssueRow, string>>): seq<IssueRow>
    requires forall i :: 0 <= i < |rows| ==> rows[i].Ok?
  {
    seq(|rows|, i requires 0 <= i < |rows| => rows[i].value)
  }

  /**
   * `main`: read the time limit, read the whole table (the file failing to open or any row
   * failing to deserialise ends the program with that error before anything else happens),
   * then process every record.
   */
  method RunMain(timeoutEnv: Option<string>, table: Result<seq<Result<IssueRow, string>>, string>, world: World)
    returns (r: Result<seq<Effect>, string>)
    ensures table.Err? ==> r == Err(table.error)
    ensures r.Ok? <==> table.Ok? && forall i :: 0 <= i < |table.value| ==> table.value[i].Ok?
    ensures r.Ok? ==> r.value == BatchTrace(RecordsOf(table.value), TimeoutSecs(timeoutEnv), world)
    ensures table.Ok? && r.Err? ==>
      exists i :: 0 <= i < |table.value| && table.value[i] == Err(r.error)
                  && forall j :: 0 <= j < i ==> table.value[j].Ok?
  {
    var timeoutSecs := TimeoutSecs(timeoutEnv);
    if table.Err? {
      return Err(table.error);
    }
    var records := CollectRecords(table.value);
    if records.Err? {
      return Err(records.error);
    }
    assert records.value == RecordsOf(table.value);
    var effects := RunBatch(records.value, timeoutSecs, world);
    return Ok(effects);
  }
}

/**
 * The issue table and the configuration of the batch: the rows as deserialised, how a row's
 * commit and options are normalised, when an issue is skipped, and the time limit.
 */
module Records {
  import opened Wrappers
  import opened Text

  const DEFAULT_TIMEOUT_SECS: nat := 600

  /** One row of the issue table: `Issue`, `Commit IDs` and `Opts`, the last two possibly empty cells. */
  datatype IssueRow = IssueRow(issue: nat, commitIds: Option<string>, opts: Option<string>)

  /**
   * The `TIMEOUT_SECS` environment variable read as a `u64`; absent (or not Unicode) and
   * unparseable values fall back to the default.
   */
  function TimeoutSecs(env: Option<string>): (secs: nat)
    ensures secs < U64_LIMIT
    ensures env.Some? && ParseU64(env.value).Some? ==> secs == ParseU64(env.value).value
    ensures env.None? || ParseU64(env.value).None? ==> secs == DEFAULT_TIMEOUT_SECS
  {
    match env
    case None => DEFAULT_TIMEOUT_SECS
    case Some(s) => ParseU64(s).UnwrapOr(DEFAULT_TIMEOUT_SECS)
  }

  /** Any 64-bit limit written in decimal is taken as given. */
  lemma TimeoutSecsRoundTrip(n: nat)
    requires n < U64_LIMIT
    ensures TimeoutSecs(Some(NatToDecimal(n))) == n
  {
    ParseU64RoundTrip(n);
  }

  /**
   * The commit to check out: the first piece of `Commit IDs` split on ", ". It is absent
   * exactly when the cell is, and otherwise is the prefix before the first separator.
   */
  function FirstCommit(commitIds: Option<string>): Option<string> {
    match commitIds
    case None => None
    case Some(s) => Some(FirstToken(s))
  }

  /**
   * The commit is absent exactly when `Commit IDs` is; a present cell always gives a token,
   * possibly empty: its prefix before the first ", ", or the whole cell when there is none.
   */
  lemma FirstCommitMeaning(commitIds: Option<string>)
    ensures FirstCommit(commitIds).Some? <==> commitIds.Some?
    ensures commitIds.Some? ==>
              var s, c := commitIds.value, FirstCommit(commitIds).value;
              && c <= s
              && (forall i :: 0 <= i < |c| ==> !SeparatorAt(s, i))
              && (c == s || SeparatorAt(s, |c|))
  {
    if commitIds.Some? {
      FirstTokenIsPrefixBeforeSeparator(commitIds.value);
    }
  }

  /** The options passed to the simulator: `Opts`, or the empty string when the cell is empty. */
  function Opts(row: IssueRow): (opts: string)
    ensures row.opts.Some? ==> opts == row.opts.value
    ensures row.opts.None? ==> opts == ""
  {
    row.opts.UnwrapOr("")
  }

  /** The issue is skipped when its commit is missing or trims to nothing. */
  predicate SkipsIssue(commit: Option<string>) {
    commit.None? || Trim(commit.value) == []
  }

  /**
   * A row is skipped exactly when `Commit IDs` is empty or its first token is made only of
   * whitespace, for instance when the cell starts with ", ".
   */
  lemma SkipRule(row: IssueRow)
    ensures SkipsIssue(FirstCommit(row.commitIds)) <==>
      row.commitIds.None? ||
      forall i :: 0 <= i < |FirstToken(row.commitIds.value)| ==> IsWhitespace(FirstToken(row.commitIds.value)[i])
    ensures row.commitIds.Some? && SeparatorAt(row.commitIds.value, 0) ==> SkipsIssue(FirstCommit(row.commitIds))
  {
    if row.commitIds.Some? {
      TrimEmptyIffAllWhitespace(FirstToken(row.commitIds.value));
    }
  }

  /**
   * Reading the table: each row is deserialised in order and the first bad row aborts with
   * its error; otherwise all the rows, in order.
   */
  method CollectRecords(rows: seq<Result<IssueRow, string>>) returns (r: Result<seq<IssueRow>, string>)
    ensures r.Ok? <==> forall i :: 0 <= i < |rows| ==> rows[i].Ok?
    ensures r.Ok? ==> |r.value| == |rows| && forall i :: 0 <= i < |rows| ==> rows[i] == Ok(r.value[i])
    ensures r.Err? ==> exists i :: 0 <= i < |rows| && rows[i] == Err(r.error)
                                  && forall j :: 0 <= j < i ==> rows[j].Ok?
  {
    var records: seq<IssueRow> := [];
    for i := 0 to |rows|
      invariant |records| == i
      invariant forall j :: 0 <= j < i ==> rows[j] == Ok(records[j])
    {
      if rows[i].Err? {
        return Err(rows[i].error);
      }
      records := records + [rows[i].value];
    }
    return Ok(records);
  }
}

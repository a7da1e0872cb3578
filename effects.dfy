/**
 * The actions the harness performs on the outside world, as an ordered log, and the views
 * of a log that the properties speak about: the final file contents, the directories
 * created, the processes spawned and the paths under a directory that were touched.
 */
module Effects {

  /**
   * A path as its list of components: `results/7/run_3/stdout.txt` is
   * `["results", "7", "run_3", "stdout.txt"]`. Every component the harness builds is free of '/'.
   */
  type Path = seq<string>

  /** One action of the harness, in the order it happens. */
  datatype Effect =
    | Shell(command: string)                    // `sh -c command`, output discarded, waited for
    | CreateDirAll(path: Path)                  // `fs::create_dir_all(path)`
    | WriteFile(path: Path, contents: string)   // `fs::write`: create or truncate, write all
    | Spawn(command: string)                    // `sh -c command` with both outputs piped
    | WaitFor(limitSecs: nat)                   // timed wait that kills the child at the limit

  /** `dir.join(name)`. */
  function Join(dir: Path, name: string): Path {
    dir + [name]
  }

  /** Joining different names onto one directory gives different paths. */
  lemma JoinInjective(dir: Path, a: string, b: string)
    requires Join(dir, a) == Join(dir, b)
    ensures a == b
  {
    assert a == Join(dir, a)[|dir|];
  }

  /** The file a single effect leaves: one entry for a write, none otherwise. */
  function FileOf(e: Effect): map<Path, string> {
    if e.WriteFile? then map[e.path := e.contents] else map[]
  }

  function DirOf(e: Effect): seq<Path> {
    if e.CreateDirAll? then [e.path] else []
  }

  function WriteOf(e: Effect): seq<Path> {
    if e.WriteFile? then [e.path] else []
  }

  function SpawnOf(e: Effect): seq<string> {
    if e.Spawn? then [e.command] else []
  }

  /** The files present after the log, with their final contents: a later write replaces an earlier one. */
  function Files(t: seq<Effect>): map<Path, string> {
    if t == [] then map[] else Files(t[..|t| - 1]) + FileOf(t[|t| - 1])
  }

  /** The paths passed to `create_dir_all`, in order. */
  function DirsCreated(t: seq<Effect>): seq<Path> {
    if t == [] then [] else DirsCreated(t[..|t| - 1]) + DirOf(t[|t| - 1])
  }

  /** The paths written, in order. */
  function Written(t: seq<Effect>): seq<Path> {
    if t == [] then [] else Written(t[..|t| - 1]) + WriteOf(t[|t| - 1])
  }

  /** The commands spawned under supervision, in order. */
  function SpawnedCommands(t: seq<Effect>): seq<string> {
    if t == [] then [] else SpawnedCommands(t[..|t| - 1]) + SpawnOf(t[|t| - 1])
  }

  /** Path `p` is the directory `d` itself or lies below it. */
  predicate Within(p: Path, d: Path) {
    d <= p
  }

  /** The effect creates or writes something inside directory `d`. */
  predicate Touches(e: Effect, d: Path) {
    (e.CreateDirAll? || e.WriteFile?) && Within(e.path, d)
  }

  /** Some effect of the log creates or writes something inside directory `d`. */
  predicate TouchesDir(t: seq<Effect>, d: Path) {
    exists i :: 0 <= i < |t| && Touches(t[i], d)
  }

  /** Every directory created and every file written by the log lies inside `d`. */
  predicate AllWithin(t: seq<Effect>, d: Path) {
    forall i :: 0 <= i < |t| && (t[i].CreateDirAll? || t[i].WriteFile?) ==> Within(t[i].path, d)
  }

  lemma UnionAssoc(x: map<Path, string>, y: map<Path, string>, z: map<Path, string>)
    ensures x + y + z == x + (y + z)
  {
  }

  lemma {:induction false} FilesConcat(a: seq<Effect>, b: seq<Effect>)
    ensures Files(a + b) == Files(a) + Files(b)
    decreases |b|
  {
    if b == [] {
      assert a + b == a;
      assert Files(a) + map[] == Files(a);
    } else {
      var b' := b[..|b| - 1];
      var e := b[|b| - 1];
      assert (a + b)[..|a + b| - 1] == a + b';
      FilesConcat(a, b');
      UnionAssoc(Files(a), Files(b'), FileOf(e));
    }
  }

  lemma {:induction false} DirsCreatedConcat(a: seq<Effect>, b: seq<Effect>)
    ensures DirsCreated(a + b) == DirsCreated(a) + DirsCreated(b)
    decreases |b|
  {
    if b == [] {
      assert a + b == a;
    } else {
      assert (a + b)[..|a + b| - 1] == a + b[..|b| - 1];
      DirsCreatedConcat(a, b[..|b| - 1]);
    }
  }

  lemma {:induction false} WrittenConcat(a: seq<Effect>, b: seq<Effect>)
    ensures Written(a + b) == Written(a) + Written(b)
    decreases |b|
  {
    if b == [] {
      assert a + b == a;
    } else {
      assert (a + b)[..|a + b| - 1] == a + b[..|b| - 1];
      WrittenConcat(a, b[..|b| - 1]);
    }
  }

  lemma {:induction false} SpawnedCommandsConcat(a: seq<Effect>, b: seq<Effect>)
    ensures SpawnedCommands(a + b) == SpawnedCommands(a) + SpawnedCommands(b)
    decreases |b|
  {
    if b == [] {
      assert a + b == a;
    } else {
      assert (a + b)[..|a + b| - 1] == a + b[..|b| - 1];
      SpawnedCommandsConcat(a, b[..|b| - 1]);
    }
  }

  /** Each view of a log split in two is the views of the two parts, joined. */
  lemma ViewsConcat(a: seq<Effect>, b: seq<Effect>)
    ensures Files(a + b) == Files(a) + Files(b)
    ensures DirsCreated(a + b) == DirsCreated(a) + DirsCreated(b)
    ensures Written(a + b) == Written(a) + Written(b)
    ensures SpawnedCommands(a + b) == SpawnedCommands(a) + SpawnedCommands(b)
  {
    FilesConcat(a, b);
    DirsCreatedConcat(a, b);
    WrittenConcat(a, b);
    SpawnedCommandsConcat(a, b);
  }

  lemma ViewsOfOne(e: Effect)
    ensures Files([e]) == FileOf(e) && DirsCreated([e]) == DirOf(e)
    ensures Written([e]) == WriteOf(e) && SpawnedCommands([e]) == SpawnOf(e)
  {
    assert [e][..0] == [];
    assert map[] + FileOf(e) == FileOf(e);
  }

  lemma ViewsOfTwo(e0: Effect, e1: Effect)
    ensures Files([e0, e1]) == FileOf(e0) + FileOf(e1)
    ensures DirsCreated([e0, e1]) == DirOf(e0) + DirOf(e1)
    ensures Written([e0, e1]) == WriteOf(e0) + WriteOf(e1)
    ensures SpawnedCommands([e0, e1]) == SpawnOf(e0) + SpawnOf(e1)
  {
    assert [e0, e1] == [e0] + [e1];
    ViewsOfOne(e0);
    ViewsOfOne(e1);
    ViewsConcat([e0], [e1]);
  }

  lemma ViewsOfThree(e0: Effect, e1: Effect, e2: Effect)
    ensures Files([e0, e1, e2]) == FileOf(e0) + FileOf(e1) + FileOf(e2)
    ensures DirsCreated([e0, e1, e2]) == DirOf(e0) + DirOf(e1) + DirOf(e2)
    ensures Written([e0, e1, e2]) == WriteOf(e0) + WriteOf(e1) + WriteOf(e2)
    ensures SpawnedCommands([e0, e1, e2]) == SpawnOf(e0) + SpawnOf(e1) + SpawnOf(e2)
  {
    assert [e0, e1, e2] == [e0, e1] + [e2];
    ViewsOfTwo(e0, e1);
    ViewsOfOne(e2);
    ViewsConcat([e0, e1], [e2]);
  }

  lemma TouchesDirConcat(a: seq<Effect>, b: seq<Effect>, d: Path)
    ensures TouchesDir(a + b, d) <==> TouchesDir(a, d) || TouchesDir(b, d)
  {
    if TouchesDir(a + b, d) {
      var i :| 0 <= i < |a + b| && Touches((a + b)[i], d);
      if i >= |a| {
        assert b[i - |a|] == (a + b)[i];
      }
    }
    if TouchesDir(a, d) {
      var i :| 0 <= i < |a| && Touches(a[i], d);
      assert (a + b)[i] == a[i];
    }
    if TouchesDir(b, d) {
      var i :| 0 <= i < |b| && Touches(b[i], d);
      assert (a + b)[|a| + i] == b[i];
    }
  }

  lemma AllWithinConcat(a: seq<Effect>, b: seq<Effect>, d: Path)
    requires AllWithin(a, d) && AllWithin(b, d)
    ensures AllWithin(a + b, d)
  {
    forall i | 0 <= i < |a + b| && ((a + b)[i].CreateDirAll? || (a + b)[i].WriteFile?)
      ensures Within((a + b)[i].path, d)
    {
      if i >= |a| {
        assert (a + b)[i] == b[i - |a|];
      }
    }
  }

  // ---------------------------------------------------------------------------
  // Logs made of parts

  /** The logs of `parts`, one after the other. */
  function Concat(parts: seq<seq<Effect>>): seq<Effect> {
    if parts == [] then [] else Concat(parts[..|parts| - 1]) + parts[|parts| - 1]
  }

  /** The parts before position `n` followed by part `n`. */
  lemma ConcatPrefixStep(parts: seq<seq<Effect>>, n: nat)
    requires 0 < n <= |parts|
    ensures Concat(parts[..n]) == Concat(parts[..n - 1]) + parts[n - 1]
  {
    assert parts[..n][..n - 1] == parts[..n - 1];
  }

  /** When part `j` creates exactly `dirs[j]`, the whole log creates `dirs`, in order. */
  lemma {:induction false} ConcatDirs(parts: seq<seq<Effect>>, dirs: seq<Path>)
    requires |dirs| == |parts|
    requires forall j :: 0 <= j < |parts| ==> DirsCreated(parts[j]) == [dirs[j]]
    ensures DirsCreated(Concat(parts)) == dirs
  {
    if parts != [] {
      var n := |parts|;
      var front, last := parts[..n - 1], parts[n - 1];
      ConcatDirs(front, dirs[..n - 1]);
      DirsCreatedConcat(Concat(front), last);
      assert dirs == dirs[..n - 1] + [dirs[n - 1]];
    }
  }

  /** When every part spawns `cmd` once, the whole log spawns it once per part. */
  lemma {:induction false} ConcatSpawns(parts: seq<seq<Effect>>, cmd: string)
    requires forall j :: 0 <= j < |parts| ==> SpawnedCommands(parts[j]) == [cmd]
    ensures SpawnedCommands(Concat(parts)) == seq(|parts|, j => cmd)
  {
    if parts != [] {
      var n := |parts|;
      ConcatSpawns(parts[..n - 1], cmd);
      SpawnedCommandsConcat(Concat(parts[..n - 1]), parts[n - 1]);
      assert seq(n - 1, j => cmd) + [cmd] == seq(n, j => cmd);
    }
  }

  /** The whole log touches `d` exactly when one of its parts does. */
  lemma {:induction false} ConcatTouches(parts: seq<seq<Effect>>, d: Path)
    ensures TouchesDir(Concat(parts), d) <==> exists j :: 0 <= j < |parts| && TouchesDir(parts[j], d)
  {
    if parts != [] {
      var n := |parts|;
      var front := parts[..n - 1];
      ConcatTouches(front, d);
      TouchesDirConcat(Concat(front), parts[n - 1], d);
      if exists j :: 0 <= j < n && TouchesDir(parts[j], d) {
        var j :| 0 <= j < n && TouchesDir(parts[j], d);
        if j < n - 1 {
          assert front[j] == parts[j];
        }
      }
      if exists j :: 0 <= j < n - 1 && TouchesDir(front[j], d) {
        var j :| 0 <= j < n - 1 && TouchesDir(front[j], d);
        assert parts[j] == front[j];
      }
    }
  }

  /** If every part stays inside `d`, so does the whole log. */
  lemma {:induction false} ConcatAllWithin(parts: seq<seq<Effect>>, d: Path)
    requires forall j :: 0 <= j < |parts| ==> AllWithin(parts[j], d)
    ensures AllWithin(Concat(parts), d)
  {
    if parts != [] {
      var n := |parts|;
      ConcatAllWithin(parts[..n - 1], d);
      AllWithinConcat(Concat(parts[..n - 1]), parts[n - 1], d);
    }
  }

  /** A path no part writes is not a file of the whole log. */
  lemma {:induction false} ConcatFileAbsent(parts: seq<seq<Effect>>, p: Path)
    requires forall j :: 0 <= j < |parts| ==> p !in Files(parts[j])
    ensures p !in Files(Concat(parts))
  {
    if parts != [] {
      var n := |parts|;
      ConcatFileAbsent(parts[..n - 1], p);
      FilesConcat(Concat(parts[..n - 1]), parts[n - 1]);
    }
  }

  /** A path only part `i` writes holds, in the whole log, what part `i` left in it. */
  lemma {:induction false} ConcatFileFrom(parts: seq<seq<Effect>>, i: nat, p: Path)
    requires i < |parts|
    requires forall j :: 0 <= j < |parts| && j != i ==> p !in Files(parts[j])
    ensures p in Files(Concat(parts)) <==> p in Files(parts[i])
    ensures p in Files(parts[i]) ==> Files(Concat(parts))[p] == Files(parts[i])[p]
  {
    var n := |parts|;
    FilesConcat(Concat(parts[..n - 1]), parts[n - 1]);
    if i == n - 1 {
      ConcatFileAbsent(parts[..n - 1], p);
    } else {
      ConcatFileFrom(parts[..n - 1], i, p);
    }
  }

  /** Joining two lists of parts joins their logs. */
  lemma {:induction false} ConcatAppend(a: seq<seq<Effect>>, b: seq<seq<Effect>>)
    ensures Concat(a + b) == Concat(a) + Concat(b)
    decreases |b|
  {
    if b == [] {
      assert a + b == a;
    } else {
      var n := |b|;
      assert (a + b)[..|a + b| - 1] == a + b[..n - 1];
      ConcatAppend(a, b[..n - 1]);
    }
  }

  /** Part `i` sits, whole, between the parts before it and the parts after it. */
  lemma ConcatSplit(parts: seq<seq<Effect>>, i: nat)
    requires i < |parts|
    ensures Concat(parts) == Concat(parts[..i]) + parts[i] + Concat(parts[i + 1..])
  {
    assert parts == parts[..i + 1] + parts[i + 1..];
    ConcatAppend(parts[..i + 1], parts[i + 1..]);
    ConcatPrefixStep(parts, i + 1);
  }

  /** Every file a log leaves was written by one of its effects, so it lies wherever the log writes. */
  lemma {:induction false} FilesWithin(t: seq<Effect>, d: Path, p: Path)
    ensures AllWithin(t, d) && p in Files(t) ==> Within(p, d)
  {
    if t != [] {
      var n := |t|;
      var front := t[..n - 1];
      FilesWithin(front, d, p);
      if AllWithin(t, d) {
        assert forall i :: 0 <= i < |front| ==> front[i] == t[i];
      }
    }
  }

  /** A log that stays inside `inner` stays inside every directory that contains `inner`. */
  lemma AllWithinWider(t: seq<Effect>, inner: Path, outer: Path)
    requires outer <= inner && AllWithin(t, inner)
    ensures AllWithin(t, outer)
  {
    forall i | 0 <= i < |t| && (t[i].CreateDirAll? || t[i].WriteFile?)
      ensures Within(t[i].path, outer)
    {
      assert Within(t[i].path, inner);
    }
  }
}

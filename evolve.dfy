/**
 * The multi-run driver: plans one output folder per run from a single time
 * string, runs the search `numRuns` times in order, and after each run of a
 * multi-run batch copies the run's artifacts into its folder and clears the
 * logs. The search engine and the logger's clear step are collaborators passed
 * in as functions on the file map; every other effect is a step of a plan
 * (`BatchSteps`), and the disk after any executed prefix of the plan is given by
 * `Replay`.
 */
module Evolve {
  import opened Wrappers
  import opened Text
  import opened Decimal
  import opened FileSystem

  const ConfigPath: Path := "data/config.ini"
  const LiveDataPrefix: Path := "workspace"
  const LiveDatas: seq<string> :=
    ["alllivedata.log", "bestlivedata.log", "maplivedata.log", "poplivedata.log", "violinlivedata.log", "waveformlivedata.log"]

  // ---------------------------------------------------------------------
  // copy_file and copy_tree
  // ---------------------------------------------------------------------

  /** What a copy leaves behind, and whether it raised. */
  datatype Outcome = Outcome(disk: Disk, ok: bool)

  /**
   * copy_file(src, dest): os.makedirs(os.path.dirname(dest)) and then
   * shutil.copy. An empty dirname makes os.makedirs raise; a missing source
   * makes the copy raise after the directories were made.
   */
  function CopyFileSpec(disk: Disk, src: Path, dest: Path): Outcome
  {
    var parent := Dirname(dest);
    if parent == "" then Outcome(disk, false)
    else
      var made := Disk(disk.files, disk.dirs + Ancestors(parent));
      if src !in made.files then Outcome(made, false)
      else Outcome(Disk(made.files[dest := made.files[src]], made.dirs), true)
  }

  /** copy_tree(src, dest): os.makedirs(os.path.dirname(dest)) and then shutil.copytree. */
  function CopyTreeSpec(disk: Disk, src: Path, dest: Path): Outcome
  {
    var parent := Dirname(dest);
    if parent == "" then Outcome(disk, false)
    else
      var made := Disk(disk.files, disk.dirs + Ancestors(parent));
      if src !in made.dirs then Outcome(made, false)
      else Outcome(CopiedTree(made, src, dest), true)
  }

  /**
   * copy_file succeeds exactly when `dest` has a parent and `src` is a file;
   * then `dest` holds `src`'s content, its parent is a directory, and no other
   * file changes.
   */
  lemma CopyFileEffect(disk: Disk, src: Path, dest: Path)
    ensures var r := CopyFileSpec(disk, src, dest);
      (r.ok <==> Dirname(dest) != "" && src in disk.files)
      && (r.ok ==> dest in r.disk.files && r.disk.files[dest] == disk.files[src] && Dirname(dest) in r.disk.dirs)
      && r.disk.files.Keys <= disk.files.Keys + {dest}
      && (forall k :: k in disk.files && k != dest ==> k in r.disk.files && r.disk.files[k] == disk.files[k])
      && disk.dirs <= r.disk.dirs
  {
  }

  /**
   * copy_tree succeeds exactly when `dest` has a parent and `src` is a
   * directory; then `dest` is a directory holding a copy of every file under
   * `src`, and only files under `dest` change.
   */
  lemma CopyTreeEffect(disk: Disk, src: Path, dest: Path)
    ensures var r := CopyTreeSpec(disk, src, dest);
      (r.ok <==> Dirname(dest) != "" && src in disk.dirs + Ancestors(Dirname(dest)))
      && (r.ok ==> dest in r.disk.dirs
                   && forall k :: k in disk.files && HasPrefix(k, src + "/") ==>
                        Rebase(k, src, dest) in r.disk.files && r.disk.files[Rebase(k, src, dest)] == disk.files[k])
      && (forall k :: k in disk.files && !HasPrefix(k, dest + "/") ==> k in r.disk.files && r.disk.files[k] == disk.files[k])
      && (forall k :: k in r.disk.files ==> k in disk.files || HasPrefix(k, dest + "/"))
  {
  }

  method CopyFile(fs: Fs, src: Path, dest: Path) returns (ok: bool)
    modifies fs
    ensures Outcome(fs.State(), ok) == CopyFileSpec(old(fs.State()), src, dest)
  {
    var parent := Dirname(dest);
    if parent == "" {
      return false;
    }
    fs.MakeDirs(parent);
    ok := fs.Copy(src, dest);
  }

  method CopyTree(fs: Fs, src: Path, dest: Path) returns (ok: bool)
    modifies fs
    ensures Outcome(fs.State(), ok) == CopyTreeSpec(old(fs.State()), src, dest)
  {
    var parent := Dirname(dest);
    if parent == "" {
      return false;
    }
    fs.MakeDirs(parent);
    ok := fs.CopyTree(src, dest);
  }

  // ---------------------------------------------------------------------
  // Run folders
  // ---------------------------------------------------------------------

  /** runs_dir.joinpath(time_string + " NUM" + str(run)) */
  function RunFolder(runsDir: Path, timeString: string, run: int): Path
  {
    Join(runsDir, timeString + " NUM" + IntToString(run))
  }

  /** The folders planned for a batch: one per run when there is more than one run, else none. */
  function RunFolders(numRuns: int, runsDir: Path, timeString: string): seq<Path>
  {
    if numRuns > 1 then seq(numRuns, i => RunFolder(runsDir, timeString, i)) else []
  }

  datatype LogLine = Info(level: nat, text: string) | Event(level: nat, text: string)

  /** What the planning step logs: a header, then each folder. */
  function PlanLog(numRuns: int, runsDir: Path, timeString: string): seq<LogLine>
  {
    var folders := RunFolders(numRuns, runsDir, timeString);
    if numRuns > 1 then
      [Info(1, "Will output " + IntToString(numRuns) + " runs to these folders:")]
      + seq(|folders|, i requires 0 <= i < |folders| => Event(1, folders[i]))
    else []
  }

  /** Plans the run folders from one time string, logging each. */
  method PlanRunFolders(numRuns: int, runsDir: Path, timeString: string) returns (runFolders: seq<Path>, log: seq<LogLine>)
    ensures runFolders == RunFolders(numRuns, runsDir, timeString)
    ensures log == PlanLog(numRuns, runsDir, timeString)
  {
    runFolders := [];
    log := [];
    if numRuns > 1 {
      log := [Info(1, "Will output " + IntToString(numRuns) + " runs to these folders:")];
      for run := 0 to numRuns
        invariant runFolders == seq(run, i => RunFolder(runsDir, timeString, i))
        invariant log == [Info(1, "Will output " + IntToString(numRuns) + " runs to these folders:")]
                         + seq(run, i requires 0 <= i < run => Event(1, runFolders[i]))
      {
        var folder := RunFolder(runsDir, timeString, run);
        runFolders := runFolders + [folder];
        log := log + [Event(1, folder)];
      }
    }
  }

  /** Exactly `numRuns` folders when there is more than one run, otherwise none. */
  lemma RunFoldersCount(numRuns: int, runsDir: Path, timeString: string)
    ensures |RunFolders(numRuns, runsDir, timeString)| == (if numRuns > 1 then numRuns else 0)
    ensures forall i :: 0 <= i < |RunFolders(numRuns, runsDir, timeString)| ==>
              RunFolders(numRuns, runsDir, timeString)[i] == RunFolder(runsDir, timeString, i)
  {
  }

  /** Joining two names that start alike onto one directory keeps them apart. */
  lemma JoinCancel(a: Path, x: string, y: string)
    requires |x| > 0 && |y| > 0 && x[0] == y[0]
    requires Join(a, x) == Join(a, y)
    ensures x == y
  {
    if x[0] == '/' || a == "" {
    } else if a[|a| - 1] == '/' {
      assert x == (a + x)[|a|..] && y == (a + y)[|a|..];
    } else {
      assert x == (a + "/" + x)[|a| + 1..] && y == (a + "/" + y)[|a| + 1..];
    }
  }

  /** Names that share the time string and differ in the run number stay apart. */
  lemma RunNameCancel(timeString: string, s: string, t: string)
    requires timeString + " NUM" + s == timeString + " NUM" + t
    ensures s == t
  {
    var p := timeString + " NUM";
    assert s == (p + s)[|p|..] && t == (p + t)[|p|..];
  }

  /** Every run gets its own folder. */
  lemma RunFolderInjective(runsDir: Path, timeString: string, i: int, j: int)
    ensures RunFolder(runsDir, timeString, i) == RunFolder(runsDir, timeString, j) <==> i == j
  {
    if RunFolder(runsDir, timeString, i) == RunFolder(runsDir, timeString, j) {
      var x := timeString + " NUM" + IntToString(i);
      var y := timeString + " NUM" + IntToString(j);
      assert x[0] == y[0] by {
        if |timeString| > 0 { assert x[0] == timeString[0] == y[0]; } else { assert x[0] == ' ' == y[0]; }
      }
      JoinCancel(runsDir, x, y);
      RunNameCancel(timeString, IntToString(i), IntToString(j));
      IntToStringInjective(i, j);
    }
  }

  /** All planned folders are distinct and, for a plain directory and time string, sit directly in the runs directory. */
  lemma RunFoldersShape(numRuns: int, runsDir: Path, timeString: string)
    ensures var f := RunFolders(numRuns, runsDir, timeString);
      forall i, j :: 0 <= i < j < |f| ==> f[i] != f[j]
    ensures runsDir != "" && runsDir[|runsDir| - 1] != '/' && '/' !in timeString ==>
              forall i :: 0 <= i < |RunFolders(numRuns, runsDir, timeString)| ==>
                Dirname(RunFolders(numRuns, runsDir, timeString)[i]) == runsDir
  {
    var f := RunFolders(numRuns, runsDir, timeString);
    forall i, j | 0 <= i < j < |f| ensures f[i] != f[j] {
      RunFolderInjective(runsDir, timeString, i, j);
    }
    if runsDir != "" && runsDir[|runsDir| - 1] != '/' && '/' !in timeString {
      forall i | 0 <= i < |f| ensures Dirname(f[i]) == runsDir {
        RunFolderParent(runsDir, timeString, i);
      }
    }
  }

  lemma RunFolderParent(runsDir: Path, timeString: string, run: int)
    requires runsDir != "" && runsDir[|runsDir| - 1] != '/' && '/' !in timeString
    ensures Dirname(RunFolder(runsDir, timeString, run)) == runsDir
  {
    var digits := IntToString(run);
    IntToStringAlphabet(run);
    var name := timeString + " NUM" + digits;
    assert '/' !in name by {
      assert forall k :: 0 <= k < |name| ==> name[k] in timeString || name[k] in " NUM" || name[k] in digits;
    }
    JoinName(runsDir, name);
  }

  /** A planned folder is a plain directory name and never the live-data directory itself. */
  lemma RunFolderIsCaptureTarget(runsDir: Path, timeString: string, run: int)
    ensures var f := RunFolder(runsDir, timeString, run);
      f != "" && f[|f| - 1] != '/' && f != LiveDataPrefix
  {
    var digits := IntToString(run);
    IntToStringAlphabet(run);
    var name := timeString + " NUM" + digits;
    var f := RunFolder(runsDir, timeString, run);
    JoinEndsWith(runsDir, name);
    var at := |f| - |name|;
    assert f[|f| - 1] == name[|name| - 1] == digits[|digits| - 1];
    assert f[at + |timeString|] == name[|timeString|] == ' ';
    assert ' ' !in LiveDataPrefix;
  }

  /** Joining always ends with the joined name. */
  lemma JoinEndsWith(a: Path, b: Path)
    ensures |Join(a, b)| >= |b| && Join(a, b)[|Join(a, b)| - |b|..] == b
  {
  }

  // ---------------------------------------------------------------------
  // The plan of a batch
  // ---------------------------------------------------------------------

  datatype Action =
    | Log(line: LogLine)
    | Populate
    | Evolve
    | CopyFileAction(src: Path, dest: Path)
    | CopyTreeAction(src: Path, dest: Path)
    | ClearLogs
  {
    predicate IsCopy() { CopyFileAction? || CopyTreeAction? }
    predicate IsEngine() { Populate? || Evolve? }
  }

  /** One effect of the run loop, tagged with the run it belongs to. */
  datatype Step = Step(run: nat, action: Action)

  function StartLine(run: nat): LogLine
  {
    Info(1, "Starting run #" + IntToString(run + 1))
  }

  function CompletedLine(run: nat): LogLine
  {
    Info(1, "Completed run #" + IntToString(run + 1))
  }

  /** The copies into a run's folder: the config, the best circuit, the asc tree, and the six live-data logs. */
  function CaptureCopies(folder: Path, bestFile: Path, ascDirectory: Path): seq<Action>
  {
    ArtifactCopies(folder, bestFile, ascDirectory) + LiveDataCopies(folder)
  }

  function ArtifactCopies(folder: Path, bestFile: Path, ascDirectory: Path): seq<Action>
  {
    [CopyFileAction(ConfigPath, Join(folder, "config.ini")),
     CopyFileAction(bestFile, Join(folder, "best.asc")),
     CopyTreeAction(ascDirectory, Join(folder, "experiment_asc"))]
  }

  /** Each live-data log copied from the workspace into the folder under its own name. */
  function LiveDataCopies(folder: Path): seq<Action>
  {
    seq(|LiveDatas|, k requires 0 <= k < |LiveDatas| =>
      CopyFileAction(Join(LiveDataPrefix, LiveDatas[k]), Join(folder, LiveDatas[k])))
  }

  function EngineActions(run: nat): seq<Action>
  {
    [Log(StartLine(run)), Populate, Evolve]
  }

  function CaptureActions(run: nat, folder: Path, bestFile: Path, ascDirectory: Path): seq<Action>
  {
    [Log(CompletedLine(run))] + CaptureCopies(folder, bestFile, ascDirectory) + [ClearLogs]
  }

  /** Everything run `run` does, in order; only a multi-run batch captures. */
  function RunActions(run: nat, numRuns: int, folder: Path, bestFile: Path, ascDirectory: Path): seq<Action>
  {
    EngineActions(run) + (if numRuns > 1 then CaptureActions(run, folder, bestFile, ascDirectory) else [])
  }

  /** The folder of run `run`; only consulted for a multi-run batch. */
  function FolderOf(run: nat, numRuns: int, runFolders: seq<Path>): Path
  {
    if numRuns > 1 && run < |runFolders| then runFolders[run] else ""
  }

  /** The actions of every run of the batch, one entry per run. */
  function Plan(numRuns: int, runFolders: seq<Path>, bestFile: Path, ascDirectory: Path): (p: seq<seq<Action>>)
    ensures |p| == if numRuns > 0 then numRuns else 0
  {
    seq(if numRuns > 0 then numRuns else 0, r requires r >= 0 =>
      RunActions(r, numRuns, FolderOf(r, numRuns, runFolders), bestFile, ascDirectory))
  }

  function Tag(run: nat, actions: seq<Action>): (s: seq<Step>)
    ensures |s| == |actions|
  {
    seq(|actions|, k requires 0 <= k < |actions| => Step(run, actions[k]))
  }

  /** The runs' actions one after the other, each tagged with its run. */
  function Flatten(runs: seq<seq<Action>>): seq<Step>
  {
    if runs == [] then [] else Flatten(runs[..|runs| - 1]) + Tag(|runs| - 1, runs[|runs| - 1])
  }

  /** The whole run loop. */
  function BatchSteps(numRuns: int, runFolders: seq<Path>, bestFile: Path, ascDirectory: Path): seq<Step>
  {
    Flatten(Plan(numRuns, runFolders, bestFile, ascDirectory))
  }

  /** The actions of the steps that belong to run `r`, in order. */
  function OfRun(steps: seq<Step>, r: nat): seq<Action>
  {
    if steps == [] then []
    else OfRun(steps[..|steps| - 1], r) + (if steps[|steps| - 1].run == r then [steps[|steps| - 1].action] else [])
  }

  /** The engine's calls, in order. */
  function EngineCalls(steps: seq<Step>): seq<Step>
  {
    if steps == [] then []
    else EngineCalls(steps[..|steps| - 1]) + (if steps[|steps| - 1].action.IsEngine() then [steps[|steps| - 1]] else [])
  }

  /** populate then evolve, once per run, runs in order. */
  function EngineSchedule(k: nat): seq<Step>
  {
    if k == 0 then [] else EngineSchedule(k - 1) + [Step(k - 1, Populate), Step(k - 1, Evolve)]
  }

  lemma TagAppend(run: nat, a: seq<Action>, b: seq<Action>)
    ensures Tag(run, a + b) == Tag(run, a) + Tag(run, b)
  {
  }

  lemma TagAppend4(run: nat, a: seq<Action>, b: seq<Action>, c: seq<Action>, d: seq<Action>)
    ensures Tag(run, a + b + c + d) == Tag(run, a) + Tag(run, b) + Tag(run, c) + Tag(run, d)
  {
    TagAppend(run, a + b + c, d);
    TagAppend(run, a + b, c);
    TagAppend(run, a, b);
  }

  lemma {:induction false} OfRunAppend(a: seq<Step>, b: seq<Step>, r: nat)
    ensures OfRun(a + b, r) == OfRun(a, r) + OfRun(b, r)
    decreases |b|
  {
    if b == [] {
      assert a + b == a;
    } else {
      assert (a + b)[..|a + b| - 1] == a + b[..|b| - 1];
      OfRunAppend(a, b[..|b| - 1], r);
    }
  }

  lemma {:induction false} OfRunTag(run: nat, actions: seq<Action>, r: nat)
    ensures OfRun(Tag(run, actions), r) == if run == r then actions else []
    decreases |actions|
  {
    if actions != [] {
      var init := actions[..|actions| - 1];
      assert Tag(run, actions)[..|actions| - 1] == Tag(run, init);
      OfRunTag(run, init, r);
      assert init + [actions[|actions| - 1]] == actions;
    }
  }

  /** Picking run `r`'s steps out of the flattened runs gives back run `r`'s actions. */
  lemma {:induction false} OfRunFlatten(runs: seq<seq<Action>>, r: nat)
    ensures OfRun(Flatten(runs), r) == if r < |runs| then runs[r] else []
  {
    if runs != [] {
      var init := runs[..|runs| - 1];
      var last := Tag(|runs| - 1, runs[|runs| - 1]);
      assert Flatten(runs) == Flatten(init) + last;
      OfRunFlatten(init, r);
      OfRunAppend(Flatten(init), last, r);
      OfRunTag(|runs| - 1, runs[|runs| - 1], r);
      if r < |init| {
        assert OfRun(Flatten(runs), r) == init[r] + [];
        assert init[r] == runs[r];
      } else if r == |init| {
        assert OfRun(Flatten(runs), r) == [] + runs[r];
      } else {
        assert OfRun(Flatten(runs), r) == [] + [];
      }
    }
  }

  /** Flattened runs never go back to an earlier run. */
  lemma {:induction false} FlattenInOrder(runs: seq<seq<Action>>)
    ensures forall i :: 0 <= i < |Flatten(runs)| ==> Flatten(runs)[i].run < |runs|
    ensures forall i, j :: 0 <= i <= j < |Flatten(runs)| ==> Flatten(runs)[i].run <= Flatten(runs)[j].run
  {
    if runs != [] {
      var init := runs[..|runs| - 1];
      FlattenInOrder(init);
      var prev := Flatten(init);
      var last := Tag(|runs| - 1, runs[|runs| - 1]);
      var s := prev + last;
      assert Flatten(runs) == s;
      forall i | 0 <= i < |s| ensures s[i].run < |runs| {
        if i < |prev| { assert s[i] == prev[i]; } else { assert s[i] == last[i - |prev|]; }
      }
      forall i, j | 0 <= i <= j < |s| ensures s[i].run <= s[j].run {
        if i < |prev| { assert s[i] == prev[i]; } else { assert s[i] == last[i - |prev|]; }
        if j < |prev| { assert s[j] == prev[j]; } else { assert s[j] == last[j - |prev|]; }
      }
    }
  }

  lemma {:induction false} EngineCallsAppend(a: seq<Step>, b: seq<Step>)
    ensures EngineCalls(a + b) == EngineCalls(a) + EngineCalls(b)
    decreases |b|
  {
    if b == [] {
      assert a + b == a;
    } else {
      assert (a + b)[..|a + b| - 1] == a + b[..|b| - 1];
      EngineCallsAppend(a, b[..|b| - 1]);
    }
  }

  lemma {:induction false} NoEngineCalls(run: nat, actions: seq<Action>)
    requires forall k :: 0 <= k < |actions| ==> !actions[k].IsEngine()
    ensures EngineCalls(Tag(run, actions)) == []
    decreases |actions|
  {
    if actions != [] {
      var init := actions[..|actions| - 1];
      assert Tag(run, actions)[..|actions| - 1] == Tag(run, init);
      NoEngineCalls(run, init);
    }
  }

  /** A run whose only engine actions are its leading populate and evolve calls the engine exactly that way. */
  lemma EngineCallsOfRun(run: nat, line: LogLine, rest: seq<Action>)
    requires forall k :: 0 <= k < |rest| ==> !rest[k].IsEngine()
    ensures EngineCalls(Tag(run, [Log(line), Populate, Evolve] + rest)) == [Step(run, Populate), Step(run, Evolve)]
  {
    var head := [Log(line), Populate, Evolve];
    TagAppend(run, head, rest);
    EngineCallsAppend(Tag(run, head), Tag(run, rest));
    NoEngineCalls(run, rest);
    var t := Tag(run, head);
    assert t == [Step(run, Log(line)), Step(run, Populate), Step(run, Evolve)];
    assert t[..2][..1] == t[..1] && t[..1][..0] == [];
    assert EngineCalls(t[..1]) == [];
    assert EngineCalls(t[..2]) == [Step(run, Populate)];
  }

  lemma CaptureNoEngine(run: nat, folder: Path, bestFile: Path, ascDirectory: Path)
    ensures var c := CaptureActions(run, folder, bestFile, ascDirectory);
      forall k :: 0 <= k < |c| ==> !c[k].IsEngine()
  {
  }

  /** Every run calls the engine exactly twice: populate, then evolve. */
  lemma RunEngineCalls(run: nat, numRuns: int, folder: Path, bestFile: Path, ascDirectory: Path)
    ensures EngineCalls(Tag(run, RunActions(run, numRuns, folder, bestFile, ascDirectory))) == [Step(run, Populate), Step(run, Evolve)]
  {
    var rest := if numRuns > 1 then CaptureActions(run, folder, bestFile, ascDirectory) else [];
    CaptureNoEngine(run, folder, bestFile, ascDirectory);
    EngineCallsOfRun(run, StartLine(run), rest);
  }

  lemma {:induction false} EngineCallsOfPlan(numRuns: int, runFolders: seq<Path>, bestFile: Path, ascDirectory: Path, k: nat)
    requires k <= |Plan(numRuns, runFolders, bestFile, ascDirectory)|
    ensures EngineCalls(Flatten(Plan(numRuns, runFolders, bestFile, ascDirectory)[..k])) == EngineSchedule(k)
  {
    if k > 0 {
      var p := Plan(numRuns, runFolders, bestFile, ascDirectory);
      EngineCallsOfPlan(numRuns, runFolders, bestFile, ascDirectory, k - 1);
      assert p[..k][..k - 1] == p[..k - 1];
      EngineCallsAppend(Flatten(p[..k - 1]), Tag(k - 1, p[k - 1]));
      RunEngineCalls(k - 1, numRuns, FolderOf(k - 1, numRuns, runFolders), bestFile, ascDirectory);
    }
  }

  /** The search engine populates and then evolves, exactly once per run, runs in increasing order. */
  lemma EnginePerRun(numRuns: int, runFolders: seq<Path>, bestFile: Path, ascDirectory: Path)
    ensures EngineCalls(BatchSteps(numRuns, runFolders, bestFile, ascDirectory)) == EngineSchedule(if numRuns > 0 then numRuns else 0)
  {
    var p := Plan(numRuns, runFolders, bestFile, ascDirectory);
    EngineCallsOfPlan(numRuns, runFolders, bestFile, ascDirectory, |p|);
    assert p[..|p|] == p;
  }

  /** The schedule has 2k calls: call 2r populates run r and call 2r + 1 evolves it. */
  lemma {:induction false} EngineScheduleShape(k: nat)
    ensures |EngineSchedule(k)| == 2 * k
    ensures forall r :: 0 <= r < k ==> EngineSchedule(k)[2 * r] == Step(r, Populate) && EngineSchedule(k)[2 * r + 1] == Step(r, Evolve)
  {
    if k > 0 {
      EngineScheduleShape(k - 1);
    }
  }

  /** The steps of the batch never go back to an earlier run, and every step belongs to one of its runs. */
  lemma RunsInOrder(numRuns: int, runFolders: seq<Path>, bestFile: Path, ascDirectory: Path)
    ensures var s := BatchSteps(numRuns, runFolders, bestFile, ascDirectory);
      forall i, j :: 0 <= i <= j < |s| ==> s[i].run <= s[j].run < numRuns
  {
    FlattenInOrder(Plan(numRuns, runFolders, bestFile, ascDirectory));
  }

  /** In a multi-run batch, picking run r's steps out of the whole loop gives exactly run r's actions on folder r. */
  lemma RunCapture(numRuns: int, runFolders: seq<Path>, bestFile: Path, ascDirectory: Path, r: nat)
    requires numRuns > 1 && |runFolders| >= numRuns && r < numRuns
    ensures OfRun(BatchSteps(numRuns, runFolders, bestFile, ascDirectory), r) == RunActions(r, numRuns, runFolders[r], bestFile, ascDirectory)
  {
    OfRunFlatten(Plan(numRuns, runFolders, bestFile, ascDirectory), r);
    assert Plan(numRuns, runFolders, bestFile, ascDirectory)[r] == RunActions(r, numRuns, runFolders[r], bestFile, ascDirectory);
  }

  /**
   * In a multi-run batch a run does, in order: its start line, populate,
   * evolve, its completion line, the nine copies into its folder, and one
   * ClearLogs as its last step, so the logs are never cleared before a copy.
   */
  lemma MultiRunActions(run: nat, numRuns: int, folder: Path, bestFile: Path, ascDirectory: Path)
    requires numRuns > 1
    ensures RunActions(run, numRuns, folder, bestFile, ascDirectory)
            == [Log(StartLine(run)), Populate, Evolve, Log(CompletedLine(run))] + CaptureCopies(folder, bestFile, ascDirectory) + [ClearLogs]
  {
    var c := CaptureCopies(folder, bestFile, ascDirectory);
    assert [Log(StartLine(run)), Populate, Evolve] + ([Log(CompletedLine(run))] + c + [ClearLogs])
        == [Log(StartLine(run)), Populate, Evolve, Log(CompletedLine(run))] + c + [ClearLogs];
  }

  lemma ClearLogsOncePerRun(run: nat, numRuns: int, folder: Path, bestFile: Path, ascDirectory: Path)
    requires numRuns > 1
    ensures var s := RunActions(run, numRuns, folder, bestFile, ascDirectory);
      |s| > 0 && s[|s| - 1] == ClearLogs
      && (forall i :: 0 <= i < |s| - 1 ==> s[i] != ClearLogs)
      && (forall i :: 0 <= i < |s| && s[i].IsCopy() ==> i < |s| - 1)
  {
    MultiRunActions(run, numRuns, folder, bestFile, ascDirectory);
    CaptureCopiesAreCopies(folder, bestFile, ascDirectory);
    ClearLogsLast([Log(StartLine(run)), Populate, Evolve, Log(CompletedLine(run))] + CaptureCopies(folder, bestFile, ascDirectory));
  }

  lemma CaptureCopiesAreCopies(folder: Path, bestFile: Path, ascDirectory: Path)
    ensures forall k :: 0 <= k < |CaptureCopies(folder, bestFile, ascDirectory)| ==> CaptureCopies(folder, bestFile, ascDirectory)[k].IsCopy()
  {
  }

  lemma ClearLogsLast(pre: seq<Action>)
    requires forall k :: 0 <= k < |pre| ==> pre[k] != ClearLogs
    ensures var s := pre + [ClearLogs];
      (forall i :: 0 <= i < |s| - 1 ==> s[i] != ClearLogs) && (forall i :: 0 <= i < |s| && s[i].IsCopy() ==> i < |s| - 1)
  {
  }

  /** A batch of at most one run copies nothing and never clears the logs. */
  lemma SingleRunCapturesNothing(numRuns: int, runFolders: seq<Path>, bestFile: Path, ascDirectory: Path)
    requires numRuns <= 1
    ensures forall s :: s in BatchSteps(numRuns, runFolders, bestFile, ascDirectory) ==> !s.action.IsCopy() && s.action != ClearLogs
  {
    var p := Plan(numRuns, runFolders, bestFile, ascDirectory);
    if numRuns == 1 {
      assert p[..0] == [];
      assert p[0] == EngineActions(0) + [];
      assert BatchSteps(numRuns, runFolders, bestFile, ascDirectory) == Flatten(p[..0]) + Tag(0, p[0]);
    }
  }

  /** The live-data copies read from the workspace and land in the run's folder under the same names, all distinct. */
  lemma LiveDataCopiesShape(folder: Path)
    requires folder != "" && folder[|folder| - 1] != '/'
    ensures var c := LiveDataCopies(folder);
      |c| == 6
      && (forall k :: 0 <= k < 6 ==>
            (c[k].CopyFileAction? && c[k].src == LiveDataPrefix + "/" + LiveDatas[k]
             && c[k].dest == folder + "/" + LiveDatas[k] && Dirname(c[k].dest) == folder))
      && (forall i, j :: 0 <= i < j < 6 ==> c[i].dest != c[j].dest)
  {
    var c := LiveDataCopies(folder);
    forall k | 0 <= k < 6
      ensures c[k].src == LiveDataPrefix + "/" + LiveDatas[k] && c[k].dest == folder + "/" + LiveDatas[k] && Dirname(c[k].dest) == folder
    {
      LiveDataCopyShape(folder, k);
    }
    forall i, j | 0 <= i < j < 6 ensures c[i].dest != c[j].dest {
      LiveDestsApart(folder, i, j);
    }
  }

  lemma LiveDataCopyShape(folder: Path, k: nat)
    requires folder != "" && folder[|folder| - 1] != '/'
    requires k < 6
    ensures var c := LiveDataCopies(folder)[k];
      c.src == LiveDataPrefix + "/" + LiveDatas[k] && c.dest == folder + "/" + LiveDatas[k] && Dirname(c.dest) == folder
  {
    LiveDataName(k);
    JoinName(LiveDataPrefix, LiveDatas[k]);
    JoinName(folder, LiveDatas[k]);
  }

  /** The live-data names start with distinct letters. */
  lemma LiveDataInitials(i: nat, j: nat)
    requires i < j < 6
    ensures LiveDatas[i][0] != LiveDatas[j][0]
  {
    var initials := ['a', 'b', 'm', 'p', 'v', 'w'];
    forall k | 0 <= k < 6 ensures LiveDatas[k][0] == initials[k] {
      LiveDataName(k);
    }
  }

  lemma LiveDataName(k: nat)
    requires k < 6
    ensures LiveDatas[k] != "" && '/' !in LiveDatas[k]
    ensures LiveDatas[k][0] == ['a', 'b', 'm', 'p', 'v', 'w'][k]
  {
  }

  // ---------------------------------------------------------------------
  // Executing the plan
  // ---------------------------------------------------------------------

  /**
   * The collaborators the driver calls but the model does not define:
   * CircuitPopulation.populate and CircuitPopulation.evolve (given the run
   * number and the files) and Logger.clear_logs (given the files); each
   * gives the new files, or `None` when it raises.
   */
  datatype Collaborators = Collaborators(
    populate: (nat, map<Path, string>) -> Option<map<Path, string>>,
    evolve: (nat, map<Path, string>) -> Option<map<Path, string>>,
    clearLogs: map<Path, string> -> Option<map<Path, string>>)

  /** The effect of one step; false when it raised. */
  function ExecStep(env: Collaborators, disk: Disk, s: Step): Outcome
  {
    match s.action
    case Log(_) => Outcome(disk, true)
    case Populate =>
      (match env.populate(s.run, disk.files)
       case None => Outcome(disk, false)
       case Some(f) => Outcome(Disk(f, disk.dirs), true))
    case Evolve =>
      (match env.evolve(s.run, disk.files)
       case None => Outcome(disk, false)
       case Some(f) => Outcome(Disk(f, disk.dirs), true))
    case CopyFileAction(src, dest) => CopyFileSpec(disk, src, dest)
    case CopyTreeAction(src, dest) => CopyTreeSpec(disk, src, dest)
    case ClearLogs =>
      (match env.clearLogs(disk.files)
       case None => Outcome(disk, false)
       case Some(f) => Outcome(Disk(f, disk.dirs), true))
  }

  /** Performing steps in order; the first step that raises ends the script. */
  function Replay(env: Collaborators, disk: Disk, trace: seq<Step>): Outcome
  {
    if trace == [] then Outcome(disk, true)
    else
      var before := Replay(env, disk, trace[..|trace| - 1]);
      if before.ok then ExecStep(env, before.disk, trace[|trace| - 1]) else before
  }

  predicate IsPrefix<T(==)>(a: seq<T>, b: seq<T>)
  {
    |a| <= |b| && b[..|a|] == a
  }

  /** A trace that stopped early: a nonempty prefix of the plan whose steps before the last all succeeded. */
  predicate FailedPrefix(env: Collaborators, d0: Disk, trace: seq<Step>, plan: seq<Step>)
  {
    IsPrefix(trace, plan) && trace != [] && Replay(env, d0, trace[..|trace| - 1]).ok
  }

  lemma FailedPrefixExtend(env: Collaborators, d0: Disk, trace: seq<Step>, plan: seq<Step>, more: seq<Step>)
    requires FailedPrefix(env, d0, trace, plan)
    ensures FailedPrefix(env, d0, trace, plan + more)
  {
    assert (plan + more)[..|trace|] == plan[..|trace|];
  }

  /** Replaying a concatenation replays the second part from where the first left off. */
  lemma {:induction false} ReplayAppend(env: Collaborators, disk: Disk, a: seq<Step>, b: seq<Step>)
    ensures Replay(env, disk, a + b)
            == if Replay(env, disk, a).ok then Replay(env, Replay(env, disk, a).disk, b) else Replay(env, disk, a)
    decreases |b|
  {
    if b == [] {
      assert a + b == a;
    } else {
      assert (a + b)[..|a + b| - 1] == a + b[..|b| - 1];
      ReplayAppend(env, disk, a, b[..|b| - 1]);
      if !Replay(env, disk, a).ok {
        ReplayStaysFailed(env, disk, a, a + b);
      }
    }
  }

  /** Once a step raised, no later step runs. */
  lemma {:induction false} ReplayStaysFailed(env: Collaborators, disk: Disk, a: seq<Step>, b: seq<Step>)
    requires IsPrefix(a, b) && !Replay(env, disk, a).ok
    ensures Replay(env, disk, b) == Replay(env, disk, a)
    decreases |b|
  {
    if |b| > |a| {
      assert b[..|b| - 1][..|a|] == a;
      ReplayStaysFailed(env, disk, a, b[..|b| - 1]);
    } else {
      assert b == b[..|a|];
    }
  }

  predicate FileCopies(steps: seq<Step>)
  {
    forall k :: 0 <= k < |steps| ==> steps[k].action.CopyFileAction?
  }

  /** A path that no copy writes keeps its content through a run of successful file copies. */
  lemma {:induction false} CopiesFrame(env: Collaborators, disk: Disk, steps: seq<Step>, p: Path)
    requires FileCopies(steps) && Replay(env, disk, steps).ok
    requires forall k :: 0 <= k < |steps| ==> steps[k].action.dest != p
    ensures p in Replay(env, disk, steps).disk.files <==> p in disk.files
    ensures p in disk.files ==> Replay(env, disk, steps).disk.files[p] == disk.files[p]
  {
    if steps != [] {
      var init := steps[..|steps| - 1];
      var last := steps[|steps| - 1];
      CopiesFrame(env, disk, init, p);
      CopyFileEffect(Replay(env, disk, init).disk, last.action.src, last.action.dest);
    }
  }

  /**
   * After a run of successful file copies to distinct destinations, none of
   * which is also a source, every destination holds what its source held
   * before the first copy.
   */
  lemma {:induction false} CopiesLand(env: Collaborators, disk: Disk, steps: seq<Step>)
    requires FileCopies(steps) && Replay(env, disk, steps).ok
    requires forall i, j :: 0 <= i < j < |steps| ==> steps[i].action.dest != steps[j].action.dest
    requires forall i, j :: 0 <= i < |steps| && 0 <= j < |steps| ==> steps[i].action.src != steps[j].action.dest
    ensures forall k :: 0 <= k < |steps| ==>
              steps[k].action.src in disk.files
              && steps[k].action.dest in Replay(env, disk, steps).disk.files
              && Replay(env, disk, steps).disk.files[steps[k].action.dest] == disk.files[steps[k].action.src]
  {
    if steps != [] {
      var init := steps[..|steps| - 1];
      var last := steps[|steps| - 1];
      var mid := Replay(env, disk, init).disk;
      CopiesSplit(steps);
      CopiesLand(env, disk, init);
      CopiesFrame(env, disk, init, last.action.src);
      assert Replay(env, disk, steps) == CopyFileSpec(mid, last.action.src, last.action.dest);
      CopyStep(mid, last.action.src, last.action.dest);
      assert steps == init + [last];
      LandOneMore(disk.files, mid.files, Replay(env, disk, steps).disk.files, init, last);
    }
  }

  /** What the conditions on a run of copies say about all but its last copy. */
  lemma CopiesSplit(steps: seq<Step>)
    requires steps != [] && FileCopies(steps)
    requires forall i, j :: 0 <= i < j < |steps| ==> steps[i].action.dest != steps[j].action.dest
    requires forall i, j :: 0 <= i < |steps| && 0 <= j < |steps| ==> steps[i].action.src != steps[j].action.dest
    ensures var init := steps[..|steps| - 1]; var last := steps[|steps| - 1];
      FileCopies(init) && last.action.CopyFileAction?
      && (forall i, j :: 0 <= i < j < |init| ==> init[i].action.dest != init[j].action.dest)
      && (forall i, j :: 0 <= i < |init| && 0 <= j < |init| ==> init[i].action.src != init[j].action.dest)
      && (forall k :: 0 <= k < |init| ==> init[k].action.dest != last.action.src && init[k].action.dest != last.action.dest)
  {
    var init := steps[..|steps| - 1];
    assert forall k :: 0 <= k < |init| ==> init[k] == steps[k];
  }

  /** The map reasoning behind one more copy: earlier destinations keep what they got, and the new one gets its source. */
  lemma LandOneMore(before: map<Path, string>, mid: map<Path, string>, after: map<Path, string>, init: seq<Step>, last: Step)
    requires FileCopies(init) && last.action.CopyFileAction?
    requires forall k :: 0 <= k < |init| ==>
               init[k].action.src in before && init[k].action.dest in mid && mid[init[k].action.dest] == before[init[k].action.src]
    requires forall k :: 0 <= k < |init| ==> init[k].action.dest != last.action.dest
    requires last.action.src in before && last.action.src in mid && mid[last.action.src] == before[last.action.src]
    requires after == mid[last.action.dest := mid[last.action.src]]
    ensures var steps := init + [last];
      FileCopies(steps) && forall k :: 0 <= k < |steps| ==>
        steps[k].action.src in before && steps[k].action.dest in after && after[steps[k].action.dest] == before[steps[k].action.src]
  {
    var steps := init + [last];
    forall k | 0 <= k < |steps| ensures steps[k].action.CopyFileAction? {
      if k < |init| { assert steps[k] == init[k]; } else { assert steps[k] == last; }
    }
    forall k | 0 <= k < |steps|
      ensures steps[k].action.src in before && steps[k].action.dest in after && after[steps[k].action.dest] == before[steps[k].action.src]
    {
      if k < |init| { assert steps[k] == init[k]; } else { assert steps[k] == last; }
    }
  }

  lemma CopyStep(disk: Disk, src: Path, dest: Path)
    requires CopyFileSpec(disk, src, dest).ok
    ensures src in disk.files
    ensures CopyFileSpec(disk, src, dest).disk.files == disk.files[dest := disk.files[src]]
  {
  }

  /** Two paths joined from plain directories and names are equal only when both parts are. */
  lemma JoinedApart(a: Path, b: Path, n: Path, m: Path)
    requires a != "" && a[|a| - 1] != '/' && b != "" && b[|b| - 1] != '/'
    requires n != "" && '/' !in n && m != "" && '/' !in m
    requires Join(a, n) == Join(b, m)
    ensures a == b && n == m
  {
    JoinName(a, n);
    JoinName(b, m);
    assert n == (a + "/" + n)[|a| + 1..] && m == (b + "/" + m)[|b| + 1..];
  }

  /**
   * After a run's live-data copies succeed (into a folder other than the
   * workspace itself), the folder holds each live-data log as the workspace
   * held it.
   */
  lemma LiveDataLands(env: Collaborators, disk: Disk, run: nat, folder: Path)
    requires folder != "" && folder[|folder| - 1] != '/' && folder != LiveDataPrefix
    ensures var r := Replay(env, disk, Tag(run, LiveDataCopies(folder)));
      r.ok ==> forall k :: 0 <= k < 6 ==>
        Join(LiveDataPrefix, LiveDatas[k]) in disk.files && Join(folder, LiveDatas[k]) in r.disk.files
        && r.disk.files[Join(folder, LiveDatas[k])] == disk.files[Join(LiveDataPrefix, LiveDatas[k])]
  {
    var steps := Tag(run, LiveDataCopies(folder));
    if Replay(env, disk, steps).ok {
      LiveDataStepsApart(run, folder);
      CopiesLand(env, disk, steps);
      forall k | 0 <= k < 6
        ensures steps[k].action == CopyFileAction(Join(LiveDataPrefix, LiveDatas[k]), Join(folder, LiveDatas[k]))
      {
      }
    }
  }

  /** The live-data capture of a planned run folder, when it succeeds, lands every log in that folder. */
  lemma PlannedLiveDataLands(env: Collaborators, disk: Disk, runsDir: Path, timeString: string, run: nat)
    ensures var folder := RunFolder(runsDir, timeString, run);
      var r := Replay(env, disk, Tag(run, LiveDataCopies(folder)));
      r.ok ==> forall k :: 0 <= k < 6 ==>
        Join(LiveDataPrefix, LiveDatas[k]) in disk.files && Join(folder, LiveDatas[k]) in r.disk.files
        && r.disk.files[Join(folder, LiveDatas[k])] == disk.files[Join(LiveDataPrefix, LiveDatas[k])]
  {
    RunFolderIsCaptureTarget(runsDir, timeString, run);
    LiveDataLands(env, disk, run, RunFolder(runsDir, timeString, run));
  }

  /** The live-data copies write distinct paths, none of which is read by another. */
  lemma LiveDataStepsApart(run: nat, folder: Path)
    requires folder != "" && folder[|folder| - 1] != '/' && folder != LiveDataPrefix
    ensures var steps := Tag(run, LiveDataCopies(folder));
      FileCopies(steps)
      && (forall i, j :: 0 <= i < j < |steps| ==> steps[i].action.dest != steps[j].action.dest)
      && (forall i, j :: 0 <= i < |steps| && 0 <= j < |steps| ==> steps[i].action.src != steps[j].action.dest)
  {
    var steps := Tag(run, LiveDataCopies(folder));
    forall i, j | 0 <= i < j < |steps| ensures steps[i].action.dest != steps[j].action.dest {
      LiveDestsApart(folder, i, j);
    }
    forall i, j | 0 <= i < |steps| && 0 <= j < |steps| ensures steps[i].action.src != steps[j].action.dest {
      LiveSourceNotDest(folder, i, j);
    }
  }

  lemma LiveDestsApart(folder: Path, i: nat, j: nat)
    requires folder != "" && folder[|folder| - 1] != '/'
    requires i < j < 6
    ensures LiveDataCopies(folder)[i].dest != LiveDataCopies(folder)[j].dest
  {
    LiveDataCopyShape(folder, i);
    LiveDataCopyShape(folder, j);
    LiveDataInitials(i, j);
    assert LiveDataCopies(folder)[i].dest[|folder| + 1] == LiveDatas[i][0];
    assert LiveDataCopies(folder)[j].dest[|folder| + 1] == LiveDatas[j][0];
  }

  lemma LiveSourceNotDest(folder: Path, i: nat, j: nat)
    requires folder != "" && folder[|folder| - 1] != '/' && folder != LiveDataPrefix
    requires i < 6 && j < 6
    ensures LiveDataCopies(folder)[i].src != LiveDataCopies(folder)[j].dest
  {
    LiveDataName(i);
    LiveDataName(j);
    var src := Join(LiveDataPrefix, LiveDatas[i]);
    var dest := Join(folder, LiveDatas[j]);
    assert LiveDataCopies(folder)[i].src == src && LiveDataCopies(folder)[j].dest == dest;
    if src == dest {
      JoinedApart(LiveDataPrefix, folder, LiveDatas[i], LiveDatas[j]);
    }
  }

  /** Performs one step on the disk and records it. */
  method Perform(fs: Fs, env: Collaborators, ghost d0: Disk, trace: seq<Step>, step: Step) returns (trace': seq<Step>, ok: bool)
    requires Replay(env, d0, trace) == Outcome(fs.State(), true)
    modifies fs
    ensures trace' == trace + [step]
    ensures Replay(env, d0, trace') == Outcome(fs.State(), ok)
  {
    trace' := trace + [step];
    assert trace'[..|trace'| - 1] == trace;
    match step.action {
      case Log(_) =>
        ok := true;
      case Populate =>
        ok := fs.Replace(env.populate(step.run, fs.files));
      case Evolve =>
        ok := fs.Replace(env.evolve(step.run, fs.files));
      case CopyFileAction(src, dest) =>
        ok := CopyFile(fs, src, dest);
      case CopyTreeAction(src, dest) =>
        ok := CopyTree(fs, src, dest);
      case ClearLogs =>
        ok := fs.Replace(env.clearLogs(fs.files));
    }
  }

  /** Performs the next step of `plan`, keeping the executed trace a prefix of it. */
  method Next(fs: Fs, env: Collaborators, ghost d0: Disk, trace: seq<Step>, ghost plan: seq<Step>, step: Step)
    returns (trace': seq<Step>, ok: bool)
    requires Replay(env, d0, trace) == Outcome(fs.State(), true)
    requires IsPrefix(trace, plan) && |trace| < |plan| && plan[|trace|] == step
    modifies fs
    ensures |trace'| == |trace| + 1
    ensures Replay(env, d0, trace') == Outcome(fs.State(), ok)
    ensures IsPrefix(trace', plan)
    ensures !ok ==> FailedPrefix(env, d0, trace', plan)
  {
    trace', ok := Perform(fs, env, d0, trace, step);
    assert trace'[..|trace'| - 1] == trace;
    assert plan[..|trace'|] == plan[..|trace|] + [plan[|trace|]];
  }

  /** The k-th action of a run's plan sits k steps after the trace it extends. */
  lemma PlanIndex(trace: seq<Step>, run: nat, acts: seq<Action>, k: nat)
    requires k < |acts|
    ensures IsPrefix(trace, trace + Tag(run, acts))
    ensures |trace| + k < |trace + Tag(run, acts)| && (trace + Tag(run, acts))[|trace| + k] == Step(run, acts[k])
  {
    assert (trace + Tag(run, acts))[..|trace|] == trace;
  }

  /** Logs the start of a run, then populate and evolve. */
  method RunEngine(fs: Fs, env: Collaborators, ghost d0: Disk, trace: seq<Step>, run: nat)
    returns (trace': seq<Step>, ok: bool)
    requires Replay(env, d0, trace) == Outcome(fs.State(), true)
    modifies fs
    ensures Replay(env, d0, trace') == Outcome(fs.State(), ok)
    ensures ok ==> trace' == trace + Tag(run, EngineActions(run))
    ensures !ok ==> FailedPrefix(env, d0, trace', trace + Tag(run, EngineActions(run)))
  {
    ghost var plan := trace + Tag(run, EngineActions(run));
    trace', ok := Next(fs, env, d0, trace, plan, Step(run, Log(StartLine(run))));
    if !ok { return; }
    trace', ok := Next(fs, env, d0, trace', plan, Step(run, Populate));
    if !ok { return; }
    trace', ok := Next(fs, env, d0, trace', plan, Step(run, Evolve));
    assert trace' == plan[..|plan|] == plan;
  }

  /** Where each action of the capture sits. */
  lemma CaptureActionsAt(run: nat, folder: Path, bestFile: Path, ascDirectory: Path)
    ensures var c := CaptureActions(run, folder, bestFile, ascDirectory);
      |c| == 11
      && c[0] == Log(CompletedLine(run))
      && c[1] == CopyFileAction(ConfigPath, Join(folder, "config.ini"))
      && c[2] == CopyFileAction(bestFile, Join(folder, "best.asc"))
      && c[3] == CopyTreeAction(ascDirectory, Join(folder, "experiment_asc"))
      && (forall k :: 0 <= k < 6 ==> c[4 + k] == CopyFileAction(Join(LiveDataPrefix, LiveDatas[k]), Join(folder, LiveDatas[k])))
      && c[10] == ClearLogs
  {
  }

  /** Copies each live-data log from the workspace into the run's folder: the next six steps of `plan`. */
  method CopyLiveData(fs: Fs, env: Collaborators, ghost d0: Disk, trace: seq<Step>, ghost plan: seq<Step>, run: nat, folder: Path)
    returns (trace': seq<Step>, ok: bool)
    requires Replay(env, d0, trace) == Outcome(fs.State(), true)
    requires IsPrefix(trace, plan) && |trace| + 6 <= |plan|
    requires forall k :: 0 <= k < 6 ==>
               plan[|trace| + k] == Step(run, CopyFileAction(Join(LiveDataPrefix, LiveDatas[k]), Join(folder, LiveDatas[k])))
    modifies fs
    ensures Replay(env, d0, trace') == Outcome(fs.State(), ok)
    ensures IsPrefix(trace', plan)
    ensures ok ==> |trace'| == |trace| + 6
    ensures !ok ==> FailedPrefix(env, d0, trace', plan)
  {
    trace' := trace;
    ok := true;
    for k := 0 to |LiveDatas|
      invariant Replay(env, d0, trace') == Outcome(fs.State(), true)
      invariant |trace'| == |trace| + k && IsPrefix(trace', plan)
    {
      var dataPath := LiveDatas[k];
      var path := Join(LiveDataPrefix, dataPath);
      var newPath := Join(folder, dataPath);
      trace', ok := Next(fs, env, d0, trace', plan, Step(run, CopyFileAction(path, newPath)));
      if !ok { return; }
    }
  }

  /** Logs the completion of a run, copies its artifacts into its folder and clears the logs. */
  method CaptureRun(fs: Fs, env: Collaborators, ghost d0: Disk, trace: seq<Step>,
                    run: nat, folder: Path, bestFile: Path, ascDirectory: Path)
    returns (trace': seq<Step>, ok: bool)
    requires Replay(env, d0, trace) == Outcome(fs.State(), true)
    modifies fs
    ensures Replay(env, d0, trace') == Outcome(fs.State(), ok)
    ensures ok ==> trace' == trace + Tag(run, CaptureActions(run, folder, bestFile, ascDirectory))
    ensures !ok ==> FailedPrefix(env, d0, trace', trace + Tag(run, CaptureActions(run, folder, bestFile, ascDirectory)))
  {
    ghost var plan := trace + Tag(run, CaptureActions(run, folder, bestFile, ascDirectory));
    CapturePlan(trace, run, folder, bestFile, ascDirectory);
    trace', ok := Next(fs, env, d0, trace, plan, Step(run, Log(CompletedLine(run))));
    trace', ok := Next(fs, env, d0, trace', plan, Step(run, CopyFileAction(ConfigPath, Join(folder, "config.ini"))));
    if !ok { return; }
    trace', ok := Next(fs, env, d0, trace', plan, Step(run, CopyFileAction(bestFile, Join(folder, "best.asc"))));
    if !ok { return; }
    trace', ok := Next(fs, env, d0, trace', plan, Step(run, CopyTreeAction(ascDirectory, Join(folder, "experiment_asc"))));
    if !ok { return; }
    trace', ok := CopyLiveData(fs, env, d0, trace', plan, run, folder);
    if !ok { return; }
    trace', ok := Next(fs, env, d0, trace', plan, Step(run, ClearLogs));
    assert trace' == plan[..|plan|] == plan;
  }

  /** Where each step of a run's capture sits after the trace it extends. */
  lemma CapturePlan(trace: seq<Step>, run: nat, folder: Path, bestFile: Path, ascDirectory: Path)
    ensures var plan := trace + Tag(run, CaptureActions(run, folder, bestFile, ascDirectory));
      IsPrefix(trace, plan) && |plan| == |trace| + 11
      && plan[|trace|] == Step(run, Log(CompletedLine(run)))
      && plan[|trace| + 1] == Step(run, CopyFileAction(ConfigPath, Join(folder, "config.ini")))
      && plan[|trace| + 2] == Step(run, CopyFileAction(bestFile, Join(folder, "best.asc")))
      && plan[|trace| + 3] == Step(run, CopyTreeAction(ascDirectory, Join(folder, "experiment_asc")))
      && (forall k :: 0 <= k < 6 ==>
            plan[|trace| + 4 + k] == Step(run, CopyFileAction(Join(LiveDataPrefix, LiveDatas[k]), Join(folder, LiveDatas[k]))))
      && plan[|trace| + 10] == Step(run, ClearLogs)
  {
    var acts := CaptureActions(run, folder, bestFile, ascDirectory);
    CaptureActionsAt(run, folder, bestFile, ascDirectory);
    PlanIndex(trace, run, acts, 0);
    PlanIndex(trace, run, acts, 1);
    PlanIndex(trace, run, acts, 2);
    PlanIndex(trace, run, acts, 3);
    forall k | 0 <= k < 6
      ensures (trace + Tag(run, acts))[|trace| + 4 + k]
              == Step(run, CopyFileAction(Join(LiveDataPrefix, LiveDatas[k]), Join(folder, LiveDatas[k])))
    {
      PlanIndex(trace, run, acts, 4 + k);
    }
    PlanIndex(trace, run, acts, 10);
  }

  /** One iteration of the run loop: start, populate, evolve, and for a multi-run batch the capture. */
  method ExecuteRun(fs: Fs, env: Collaborators, ghost d0: Disk, trace: seq<Step>,
                    run: nat, numRuns: int, folder: Path, bestFile: Path, ascDirectory: Path)
    returns (trace': seq<Step>, ok: bool)
    requires Replay(env, d0, trace) == Outcome(fs.State(), true)
    modifies fs
    ensures Replay(env, d0, trace') == Outcome(fs.State(), ok)
    ensures ok ==> trace' == trace + Tag(run, RunActions(run, numRuns, folder, bestFile, ascDirectory))
    ensures !ok ==> FailedPrefix(env, d0, trace', trace + Tag(run, RunActions(run, numRuns, folder, bestFile, ascDirectory)))
  {
    ghost var rest := if numRuns > 1 then CaptureActions(run, folder, bestFile, ascDirectory) else [];
    TagAppend(run, EngineActions(run), rest);
    ghost var afterEngine := trace + Tag(run, EngineActions(run));
    assert trace + Tag(run, RunActions(run, numRuns, folder, bestFile, ascDirectory)) == afterEngine + Tag(run, rest);
    trace', ok := RunEngine(fs, env, d0, trace, run);
    if !ok {
      FailedPrefixExtend(env, d0, trace', afterEngine, Tag(run, rest));
      return;
    }
    if numRuns > 1 {
      trace', ok := CaptureRun(fs, env, d0, trace', run, folder, bestFile, ascDirectory);
    } else {
      assert trace' == trace' + Tag(run, rest);
    }
  }

  lemma FailedPrefixWithin(env: Collaborators, d0: Disk, trace: seq<Step>, plan: seq<Step>, whole: seq<Step>)
    requires FailedPrefix(env, d0, trace, plan) && IsPrefix(plan, whole)
    ensures FailedPrefix(env, d0, trace, whole)
  {
    assert whole[..|trace|] == whole[..|plan|][..|trace|];
  }

  lemma PlanAt(numRuns: int, runFolders: seq<Path>, bestFile: Path, ascDirectory: Path, run: nat)
    requires run < |Plan(numRuns, runFolders, bestFile, ascDirectory)|
    requires numRuns > 1 ==> |runFolders| >= numRuns
    ensures Plan(numRuns, runFolders, bestFile, ascDirectory)[run]
            == RunActions(run, numRuns, if numRuns > 1 then runFolders[run] else "", bestFile, ascDirectory)
  {
  }

  lemma FlattenSnoc(runs: seq<seq<Action>>, k: nat)
    requires k < |runs|
    ensures Flatten(runs[..k + 1]) == Flatten(runs[..k]) + Tag(k, runs[k])
  {
    assert runs[..k + 1][..k] == runs[..k];
  }

  /** A failure inside run k is a failure inside the whole batch. */
  lemma FailedInBatch(env: Collaborators, d0: Disk, trace: seq<Step>, runs: seq<seq<Action>>, k: nat)
    requires k < |runs|
    requires FailedPrefix(env, d0, trace, Flatten(runs[..k]) + Tag(k, runs[k]))
    ensures FailedPrefix(env, d0, trace, Flatten(runs))
  {
    FlattenSnoc(runs, k);
    FlattenPrefix(runs, k + 1);
    FailedPrefixWithin(env, d0, trace, Flatten(runs[..k + 1]), Flatten(runs));
  }

  /** The steps of the first k runs come first in the batch. */
  lemma {:induction false} FlattenPrefix(runs: seq<seq<Action>>, k: nat)
    requires k <= |runs|
    ensures IsPrefix(Flatten(runs[..k]), Flatten(runs))
    decreases |runs|
  {
    if k < |runs| {
      var init := runs[..|runs| - 1];
      assert runs[..k] == init[..k];
      FlattenPrefix(init, k);
      var whole := Flatten(init) + Tag(|runs| - 1, runs[|runs| - 1]);
      assert whole[..|Flatten(init)|] == Flatten(init);
      assert whole[..|Flatten(runs[..k])|] == Flatten(init)[..|Flatten(runs[..k])|];
    } else {
      assert runs[..k] == runs;
    }
  }

  /**
   * The run loop. It performs the batch's steps in order; when a step raises,
   * the script stops there, so the trace is a prefix of the plan whose last
   * step raised. The disk is always the replay of the trace.
   */
  method RunBatch(fs: Fs, env: Collaborators, numRuns: int, runFolders: seq<Path>, bestFile: Path, ascDirectory: Path)
    returns (trace: seq<Step>, ok: bool)
    requires numRuns > 1 ==> |runFolders| >= numRuns
    modifies fs
    ensures Replay(env, old(fs.State()), trace) == Outcome(fs.State(), ok)
    ensures ok ==> trace == BatchSteps(numRuns, runFolders, bestFile, ascDirectory)
    ensures !ok ==> FailedPrefix(env, old(fs.State()), trace, BatchSteps(numRuns, runFolders, bestFile, ascDirectory))
  {
    ghost var d0 := fs.State();
    trace := [];
    ok := true;
    var run := 0;
    while run < numRuns
      invariant 0 <= run && (numRuns > 0 ==> run <= numRuns)
      invariant Replay(env, d0, trace) == Outcome(fs.State(), true)
      invariant trace == StepsBefore(run, numRuns, runFolders, bestFile, ascDirectory)
    {
      var folder := if numRuns > 1 then runFolders[run] else "";
      var t, runOk := ExecuteRun(fs, env, d0, trace, run, numRuns, folder, bestFile, ascDirectory);
      if !runOk {
        BatchFailure(env, d0, t, trace, run, numRuns, runFolders, bestFile, ascDirectory);
        return t, false;
      }
      BatchAdvance(trace, run, numRuns, runFolders, bestFile, ascDirectory);
      trace := t;
      run := run + 1;
    }
    BatchDone(run, numRuns, runFolders, bestFile, ascDirectory);
  }

  /** The steps of the runs before `run`. */
  function StepsBefore(run: nat, numRuns: int, runFolders: seq<Path>, bestFile: Path, ascDirectory: Path): seq<Step>
  {
    var plan := Plan(numRuns, runFolders, bestFile, ascDirectory);
    Flatten(plan[..if run <= |plan| then run else |plan|])
  }

  lemma BatchAdvance(trace: seq<Step>, run: nat, numRuns: int, runFolders: seq<Path>, bestFile: Path, ascDirectory: Path)
    requires numRuns > 1 ==> |runFolders| >= numRuns
    requires run < numRuns
    requires trace == StepsBefore(run, numRuns, runFolders, bestFile, ascDirectory)
    ensures trace + Tag(run, RunActions(run, numRuns, if numRuns > 1 then runFolders[run] else "", bestFile, ascDirectory))
            == StepsBefore(run + 1, numRuns, runFolders, bestFile, ascDirectory)
  {
    PlanAt(numRuns, runFolders, bestFile, ascDirectory, run);
    FlattenSnoc(Plan(numRuns, runFolders, bestFile, ascDirectory), run);
  }

  lemma BatchFailure(env: Collaborators, d0: Disk, t: seq<Step>, trace: seq<Step>,
                     run: nat, numRuns: int, runFolders: seq<Path>, bestFile: Path, ascDirectory: Path)
    requires numRuns > 1 ==> |runFolders| >= numRuns
    requires run < numRuns
    requires trace == StepsBefore(run, numRuns, runFolders, bestFile, ascDirectory)
    requires FailedPrefix(env, d0, t, trace + Tag(run, RunActions(run, numRuns, if numRuns > 1 then runFolders[run] else "", bestFile, ascDirectory)))
    ensures FailedPrefix(env, d0, t, BatchSteps(numRuns, runFolders, bestFile, ascDirectory))
  {
    PlanAt(numRuns, runFolders, bestFile, ascDirectory, run);
    FailedInBatch(env, d0, t, Plan(numRuns, runFolders, bestFile, ascDirectory), run);
  }

  lemma BatchDone(run: nat, numRuns: int, runFolders: seq<Path>, bestFile: Path, ascDirectory: Path)
    requires run >= numRuns && (numRuns > 0 ==> run <= numRuns)
    ensures StepsBefore(run, numRuns, runFolders, bestFile, ascDirectory) == BatchSteps(numRuns, runFolders, bestFile, ascDirectory)
  {
    var plan := Plan(numRuns, runFolders, bestFile, ascDirectory);
    assert plan[..|plan|] == plan;
  }

  // ---------------------------------------------------------------------
  // Captured folders are not rolled back
  // ---------------------------------------------------------------------

  /** `p` is absent from both file maps, or present in both with the same content. */
  predicate SameAt(a: map<Path, string>, b: map<Path, string>, p: Path)
  {
    (p in a <==> p in b) && (p in a ==> a[p] == b[p])
  }

  /** A collaborator call either raised or left every path under `dir` as it was. */
  ghost predicate SparesDir(m: map<Path, string>, result: Option<map<Path, string>>, dir: Path)
  {
    result.Some? ==> forall p :: HasPrefix(p, dir + "/") ==> SameAt(m, result.value, p)
  }

  /**
   * The engine and the logger keep out of `dir`: populate and evolve work on
   * the workspace logs and the best file, clear_logs on the workspace logs.
   */
  ghost predicate CollaboratorsSpare(env: Collaborators, dir: Path)
  {
    (forall run: nat, m: map<Path, string> :: SparesDir(m, env.populate(run, m), dir) && SparesDir(m, env.evolve(run, m), dir))
    && (forall m: map<Path, string> :: SparesDir(m, env.clearLogs(m), dir))
  }

  /** Every copy the action makes lands under `dir`. */
  predicate WritesUnder(a: Action, dir: Path)
  {
    match a
    case CopyFileAction(_, dest) => HasPrefix(dest, dir + "/")
    case CopyTreeAction(_, dest) => HasPrefix(dest, dir + "/")
    case _ => true
  }

  /** A path under a directory that lies under `dir` lies under `dir`. */
  lemma UnderUnder(p: Path, d: Path, dir: Path)
    requires HasPrefix(d, dir + "/")
    ensures HasPrefix(p, d + "/") ==> HasPrefix(p, dir + "/")
  {
    if HasPrefix(p, d + "/") {
      assert p[..|dir| + 1] == p[..|d| + 1][..|dir| + 1];
    }
  }

  /**
   * A step whose copies land under `other` leaves a path under `dir` alone
   * when the path is not also under `other`.
   */
  lemma ExecStepSpares(env: Collaborators, disk: Disk, s: Step, dir: Path, other: Path, p: Path)
    requires CollaboratorsSpare(env, dir) && HasPrefix(p, dir + "/")
    requires WritesUnder(s.action, other) && !HasPrefix(p, other + "/")
    ensures SameAt(disk.files, ExecStep(env, disk, s).disk.files, p)
  {
    match s.action {
      case Log(_) =>
      case Populate =>
        assert SparesDir(disk.files, env.populate(s.run, disk.files), dir);
      case Evolve =>
        assert SparesDir(disk.files, env.evolve(s.run, disk.files), dir);
      case ClearLogs =>
        assert SparesDir(disk.files, env.clearLogs(disk.files), dir);
      case CopyFileAction(src, dest) =>
        CopyFileEffect(disk, src, dest);
      case CopyTreeAction(src, dest) =>
        CopyTreeEffect(disk, src, dest);
        UnderUnder(p, dest, other);
    }
  }

  /** Every step of `t` from position `n` on leaves `p` alone, on any disk. */
  ghost predicate StepsSpare(env: Collaborators, t: seq<Step>, n: nat, p: Path)
  {
    forall i: int, disk: Disk :: n <= i < |t| ==> SameAt(disk.files, ExecStep(env, disk, t[i]).disk.files, p)
  }

  /** Steps that leave `p` alone leave it alone when replayed, whether they succeed or raise. */
  lemma {:induction false} ReplaySpares(env: Collaborators, d0: Disk, t: seq<Step>, n: nat, p: Path)
    requires n <= |t| && StepsSpare(env, t, n, p)
    ensures SameAt(Replay(env, d0, t[..n]).disk.files, Replay(env, d0, t).disk.files, p)
    decreases |t|
  {
    if |t| > n {
      var init := t[..|t| - 1];
      assert init[..n] == t[..n];
      assert forall i :: n <= i < |init| ==> init[i] == t[i];
      ReplaySpares(env, d0, init, n, p);
    } else {
      assert t[..n] == t;
    }
  }

  /** The part of `p` before its first '/'. */
  function FirstName(p: Path): (name: Path)
    ensures '/' !in name
  {
    if p == [] || p[0] == '/' then [] else [p[0]] + FirstName(p[1..])
  }

  lemma {:induction false} FirstNameOf(name: Path, rest: Path)
    requires '/' !in name
    ensures FirstName(name + "/" + rest) == name
  {
    if name == [] {
      assert name + "/" + rest == "/" + rest;
    } else {
      assert (name + "/" + rest)[0] == name[0];
      assert (name + "/" + rest)[1..] == name[1..] + "/" + rest;
      FirstNameOf(name[1..], rest);
    }
  }

  /** Every run folder is one base followed by the run's number. */
  lemma RunFolderSplit(runsDir: Path, timeString: string, run: int)
    ensures var x := timeString + " NUM";
      var head := if x[0] == '/' || runsDir == "" then "" else if runsDir[|runsDir| - 1] == '/' then runsDir else runsDir + "/";
      RunFolder(runsDir, timeString, run) == head + x + IntToString(run)
  {
    var x := timeString + " NUM";
    assert (x + IntToString(run))[0] == x[0];
  }

  /** No path lies in the folders of two different runs. */
  lemma RunFoldersApart(runsDir: Path, timeString: string, r: int, q: int, p: Path)
    ensures HasPrefix(p, RunFolder(runsDir, timeString, r) + "/") && HasPrefix(p, RunFolder(runsDir, timeString, q) + "/") ==> r == q
  {
    if HasPrefix(p, RunFolder(runsDir, timeString, r) + "/") && HasPrefix(p, RunFolder(runsDir, timeString, q) + "/") {
      RunFolderSplit(runsDir, timeString, r);
      RunFolderSplit(runsDir, timeString, q);
      var x := timeString + " NUM";
      var head := if x[0] == '/' || runsDir == "" then "" else if runsDir[|runsDir| - 1] == '/' then runsDir else runsDir + "/";
      IntToStringAlphabet(r);
      IntToStringAlphabet(q);
      NamesAfterBase(p, head + x, IntToString(r), IntToString(q));
      IntToStringInjective(r, q);
    }
  }

  /** Two slash-free names that both follow `base` and precede a '/' in one path are the same name. */
  lemma NamesAfterBase(p: Path, base: Path, a: Path, b: Path)
    requires '/' !in a && '/' !in b
    ensures HasPrefix(p, base + a + "/") && HasPrefix(p, base + b + "/") ==> a == b
  {
    if HasPrefix(p, base + a + "/") && HasPrefix(p, base + b + "/") {
      var rest := p[|base|..];
      assert rest[..|a| + 1] == p[..|base| + |a| + 1][|base|..] == a + "/";
      assert rest[..|b| + 1] == p[..|base| + |b| + 1][|base|..] == b + "/";
      assert rest == a + "/" + rest[|a| + 1..];
      assert rest == b + "/" + rest[|b| + 1..];
      FirstNameOf(a, rest[|a| + 1..]);
      FirstNameOf(b, rest[|b| + 1..]);
    }
  }

  /** A run's copies all land in its folder. */
  lemma RunActionsWriteUnder(run: nat, numRuns: int, folder: Path, bestFile: Path, ascDirectory: Path)
    requires folder != "" && folder[|folder| - 1] != '/'
    ensures forall a :: a in RunActions(run, numRuns, folder, bestFile, ascDirectory) ==> WritesUnder(a, folder)
  {
    JoinUnder(folder, "config.ini");
    JoinUnder(folder, "best.asc");
    JoinUnder(folder, "experiment_asc");
    assert forall a :: a in ArtifactCopies(folder, bestFile, ascDirectory) ==> WritesUnder(a, folder);
    LiveDataCopiesUnder(folder);
  }

  lemma LiveDataCopiesUnder(folder: Path)
    requires folder != "" && folder[|folder| - 1] != '/'
    ensures forall a :: a in LiveDataCopies(folder) ==> WritesUnder(a, folder)
  {
    forall k | 0 <= k < |LiveDatas| ensures WritesUnder(LiveDataCopies(folder)[k], folder) {
      LiveDataName(k);
      JoinUnder(folder, LiveDatas[k]);
    }
  }

  lemma JoinUnder(folder: Path, name: Path)
    requires folder != "" && folder[|folder| - 1] != '/'
    requires name != "" && name[0] != '/'
    ensures HasPrefix(Join(folder, name), folder + "/")
  {
    assert Join(folder, name) == folder + "/" + name;
  }

  /** The steps of the flattened runs after the first `n` runs belong to the later runs, with those runs' actions. */
  lemma {:induction false} FlattenLater(runs: seq<seq<Action>>, n: nat)
    requires n <= |runs|
    ensures |Flatten(runs[..n])| <= |Flatten(runs)|
    ensures forall i :: |Flatten(runs[..n])| <= i < |Flatten(runs)| ==>
              n <= Flatten(runs)[i].run < |runs| && Flatten(runs)[i].action in runs[Flatten(runs)[i].run]
    decreases |runs|
  {
    if n < |runs| {
      var init := runs[..|runs| - 1];
      var k := |runs| - 1;
      var tag := Tag(k, runs[k]);
      assert runs[..n] == init[..n];
      FlattenLater(init, n);
      assert Flatten(runs) == Flatten(init) + tag;
      forall i | |Flatten(init)| <= i < |Flatten(runs)|
        ensures Flatten(runs)[i] == Step(k, runs[k][i - |Flatten(init)|])
      {
      }
      forall i | |Flatten(runs[..n])| <= i < |Flatten(init)|
        ensures Flatten(runs)[i] == Flatten(init)[i] && init[Flatten(init)[i].run] == runs[Flatten(init)[i].run]
      {
      }
    } else {
      assert runs[..n] == runs;
    }
  }

  /**
   * What run r captured stays: in a multi-run batch, once the steps of runs
   * 0 to r have been replayed, replaying any further part of the plan,
   * whether it succeeds or stops at a step that raised, leaves every path in
   * run r's folder as it was, as long as the engine and the logger keep out
   * of that folder.
   */
  lemma CapturedFolderKept(env: Collaborators, d0: Disk, numRuns: int, runsDir: Path, timeString: string,
                           bestFile: Path, ascDirectory: Path, r: nat, t: seq<Step>, p: Path)
    requires r < numRuns && numRuns > 1
    requires CollaboratorsSpare(env, RunFolder(runsDir, timeString, r))
    requires HasPrefix(p, RunFolder(runsDir, timeString, r) + "/")
    requires var folders := RunFolders(numRuns, runsDir, timeString);
      IsPrefix(StepsBefore(r + 1, numRuns, folders, bestFile, ascDirectory), t)
      && IsPrefix(t, BatchSteps(numRuns, folders, bestFile, ascDirectory))
    ensures var folders := RunFolders(numRuns, runsDir, timeString);
      SameAt(Replay(env, d0, StepsBefore(r + 1, numRuns, folders, bestFile, ascDirectory)).disk.files, Replay(env, d0, t).disk.files, p)
  {
    var folders := RunFolders(numRuns, runsDir, timeString);
    var plan := Plan(numRuns, folders, bestFile, ascDirectory);
    var done := StepsBefore(r + 1, numRuns, folders, bestFile, ascDirectory);
    var n := |done|;
    assert done == Flatten(plan[..r + 1]);
    FlattenLater(plan, r + 1);
    assert t[..n] == done;
    forall i: int, disk: Disk | n <= i < |t| ensures SameAt(disk.files, ExecStep(env, disk, t[i]).disk.files, p) {
      var s := t[i];
      assert s == Flatten(plan)[i];
      var q := s.run;
      var folder := RunFolder(runsDir, timeString, q);
      assert plan[q] == RunActions(q, numRuns, folder, bestFile, ascDirectory);
      RunFolderIsCaptureTarget(runsDir, timeString, q);
      RunActionsWriteUnder(q, numRuns, folder, bestFile, ascDirectory);
      RunFoldersApart(runsDir, timeString, r, q, p);
      ExecStepSpares(env, disk, s, RunFolder(runsDir, timeString, r), folder, p);
    }
    ReplaySpares(env, d0, t, n, p);
  }

  // ---------------------------------------------------------------------
  // The final report
  // ---------------------------------------------------------------------

  const CompletedMessage: string := "Evolution has completed successfully"
  const FoldersMessage: string := "Runs are in these folders:"

  /** What the script logs once every run has finished. */
  function FinalReport(numRuns: int, runFolders: seq<Path>): seq<LogLine>
  {
    [Event(0, CompletedMessage)]
    + if numRuns > 1 then [Event(0, FoldersMessage)] + seq(|runFolders|, i requires 0 <= i < |runFolders| => Event(0, runFolders[i])) else []
  }

  method ReportCompletion(numRuns: int, runFolders: seq<Path>) returns (log: seq<LogLine>)
    ensures log == FinalReport(numRuns, runFolders)
  {
    log := [Event(0, CompletedMessage)];
    if numRuns > 1 {
      log := log + [Event(0, FoldersMessage)];
      for i := 0 to |runFolders|
        invariant log == [Event(0, CompletedMessage), Event(0, FoldersMessage)]
                         + seq(i, k requires 0 <= k < i => Event(0, runFolders[k]))
      {
        log := log + [Event(0, runFolders[i])];
      }
    }
  }

  /**
   * The report always opens with the completion line; it lists the planned
   * folders, every one and in planning order, exactly when the batch has more
   * than one run.
   */
  lemma ReportListsFolders(numRuns: int, runsDir: Path, timeString: string)
    ensures var report := FinalReport(numRuns, RunFolders(numRuns, runsDir, timeString));
      report[0] == Event(0, CompletedMessage)
      && (numRuns > 1 <==> |report| > 1)
      && (numRuns > 1 ==> |report| == numRuns + 2 && report[1] == Event(0, FoldersMessage)
                          && forall i :: 0 <= i < numRuns ==> report[i + 2] == Event(0, RunFolder(runsDir, timeString, i)))
  {
  }

  // ---------------------------------------------------------------------
  // The whole script
  // ---------------------------------------------------------------------

  /**
   * evolve.py after reading the configuration: plan the folders, run the
   * loop, and, when every run finished, log the report. The log returned is
   * the planning log followed by the report; the per-run lines are the Log
   * steps of the trace.
   */
  method EvolveScript(fs: Fs, env: Collaborators, numRuns: int, runsDir: Path, timeString: string,
                      bestFile: Path, ascDirectory: Path)
    returns (runFolders: seq<Path>, log: seq<LogLine>, trace: seq<Step>, ok: bool)
    modifies fs
    ensures runFolders == RunFolders(numRuns, runsDir, timeString)
    ensures Replay(env, old(fs.State()), trace) == Outcome(fs.State(), ok)
    ensures ok ==> trace == BatchSteps(numRuns, runFolders, bestFile, ascDirectory)
    ensures ok ==> log == PlanLog(numRuns, runsDir, timeString) + FinalReport(numRuns, runFolders)
    ensures !ok ==> FailedPrefix(env, old(fs.State()), trace, BatchSteps(numRuns, runFolders, bestFile, ascDirectory))
                    && log == PlanLog(numRuns, runsDir, timeString)
  {
    runFolders, log := PlanRunFolders(numRuns, runsDir, timeString);
    RunFoldersCount(numRuns, runsDir, timeString);
    trace, ok := RunBatch(fs, env, numRuns, runFolders, bestFile, ascDirectory);
    if ok {
      var report := ReportCompletion(numRuns, runFolders);
      log := log + report;
    }
  }
}

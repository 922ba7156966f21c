/**
 * The second half of the batch generator: the bash script that runs every
 * generated config through the evolution entry point. The script is a fixed
 * head, one guarded command block per yielded config path, and a tail that
 * reports how many commands were written. `DecodeScript` reads a script back
 * into its config paths and its command count; it is the reference the
 * script text is checked against.
 */
module ShellDriver {
  import opened Wrappers
  import opened Text
  import opened Decimal
  import opened Templates
  import opened FileSystem
  import opened Sweeps

  const ScriptName: Path := "runGeneratedConfigs.sh"
  const ScriptPath: Path := "data" + "/" + ScriptName
  const ResultsOutputDirectory: Path := "data/GeneratedConfigsResults"

  const ScriptHead: string :=
    "#!/bin/bash\n# make sure this was generated from the BitstreamEvolution folder at the base of this directory.\n\n# This variables stores the number or errors that occour\nErrorCounter = 0\nFailedCommands = ''\n\n\n#Run Commands, log if they fail.\n"

  // ---------------------------------------------------------------------
  // The three templates
  // ---------------------------------------------------------------------

  const CommandPrefix: string := "python3 src/evolve.py -c "

  /** evolve_command_base */
  const EvolveCommandBase: Template :=
    [Lit(CommandPrefix), Hole("config_path"), Lit(" -d "), Hole("description"), Lit(" -o "), Hole("output_directory")]

  /** The text between the two copies of the command in a block, and after the second. */
  const WrapperMiddle: string := "\n   || ((ErrorCounter+=1)) && FailedCommands+=$'"
  const WrapperEnd: string := " \\n'\n\n"

  /** bash_command_wrapper_logic: run the command; on failure count it and remember it. */
  const WrapperLogic: Template := [Hole("command"), Lit(WrapperMiddle), Hole("command"), Lit(WrapperEnd)]

  const TailPrefix: string :=
    "\n" + "# Print out the results of the Tests\necho \"\"\necho \"=================================== RESULTS ====================================\"\necho \"\"\necho \"Commands That Failed:\"\necho \"$FailedCommands\"\n\necho \"$ErrorCounter of "
  const TailSuffix: string := " " + "commands Failed\"\necho \"The commands that failed are listed above.\"\n"

  /** bash_tail */
  const TailBase: Template := [Lit(TailPrefix), Hole("num_commands"), Lit(TailSuffix)]

  /** The -d argument: the config path inside double quotes, so that it stays one shell word. */
  function Description(configPath: Path): string
  {
    "\"running config at: " + configPath + "\""
  }

  function EvolveCommand(configPath: Path): string
  {
    var b := map["config_path" := configPath, "description" := Description(configPath),
                 "output_directory" := ResultsOutputDirectory];
    CommandHolesBound(b);
    Render(EvolveCommandBase, b).value
  }

  lemma CommandHolesBound(b: Bindings)
    requires "config_path" in b && "description" in b && "output_directory" in b
    ensures Render(EvolveCommandBase, b).Success?
  {
    var t := EvolveCommandBase;
    assert Render(t[6..], b).Success?;
    assert Render(t[5..], b).Success?;
    assert Render(t[4..], b).Success?;
    assert Render(t[3..], b).Success?;
    assert Render(t[2..], b).Success?;
    assert Render(t[1..], b).Success?;
  }

  /** The evolve command for one config: its path after -c, the description after -d, the results directory after -o. */
  lemma EvolveCommandText(configPath: Path)
    ensures EvolveCommand(configPath)
            == CommandPrefix + (configPath + (" -d " + (Description(configPath) + (" -o " + ResultsOutputDirectory))))
  {
    var t := EvolveCommandBase;
    var b := map["config_path" := configPath, "description" := Description(configPath),
                 "output_directory" := ResultsOutputDirectory];
    assert Render(t[6..], b) == Success("");
    assert ResultsOutputDirectory + "" == ResultsOutputDirectory;
    assert Render(t[5..], b) == Success(ResultsOutputDirectory);
    assert Render(t[4..], b) == Success(" -o " + ResultsOutputDirectory);
    assert Render(t[3..], b) == Success(Description(configPath) + (" -o " + ResultsOutputDirectory));
    assert Render(t[2..], b) == Success(" -d " + (Description(configPath) + (" -o " + ResultsOutputDirectory)));
    assert Render(t[1..], b) == Success(configPath + (" -d " + (Description(configPath) + (" -o " + ResultsOutputDirectory))));
  }

  /** One guarded command of the script. */
  function Block(configPath: Path): string
  {
    var b := map["command" := EvolveCommand(configPath)];
    WrapperHolesBound(b);
    Render(WrapperLogic, b).value
  }

  lemma WrapperHolesBound(b: Bindings)
    requires "command" in b
    ensures Render(WrapperLogic, b).Success?
  {
    var t := WrapperLogic;
    assert Render(t[4..], b).Success?;
    assert Render(t[3..], b).Success?;
    assert Render(t[2..], b).Success?;
    assert Render(t[1..], b).Success?;
  }

  /** A block is the command, the failure bookkeeping, and the command again as the text to remember. */
  lemma BlockText(configPath: Path)
    ensures Block(configPath) == EvolveCommand(configPath) + (WrapperMiddle + (EvolveCommand(configPath) + WrapperEnd))
  {
    var t := WrapperLogic;
    var c := EvolveCommand(configPath);
    var b := map["command" := c];
    assert Render(t[4..], b) == Success("");
    assert WrapperEnd + "" == WrapperEnd;
    assert Render(t[3..], b) == Success(WrapperEnd);
    assert Render(t[2..], b) == Success(c + WrapperEnd);
    assert Render(t[1..], b) == Success(WrapperMiddle + (c + WrapperEnd));
  }

  /** The script's tail for `numCommands` commands. */
  function Tail(numCommands: int): string
  {
    var b := map["num_commands" := IntToString(numCommands)];
    TailHolesBound(b);
    Render(TailBase, b).value
  }

  lemma TailHolesBound(b: Bindings)
    requires "num_commands" in b
    ensures Render(TailBase, b).Success?
  {
    var t := TailBase;
    assert Render(t[3..], b).Success?;
    assert Render(t[2..], b).Success?;
    assert Render(t[1..], b).Success?;
  }

  /** The tail reports the command count between its two fixed parts. */
  lemma TailText(numCommands: int)
    ensures Tail(numCommands) == TailPrefix + (IntToString(numCommands) + TailSuffix)
  {
    var t := TailBase;
    var b := map["num_commands" := IntToString(numCommands)];
    assert Render(t[3..], b) == Success("");
    assert Render(t[2..], b) == Success(TailSuffix + "");
    assert TailSuffix + "" == TailSuffix;
    assert Render(t[1..], b) == Success(IntToString(numCommands) + TailSuffix);
  }

  /** The blocks for the yielded paths, in the order they were yielded. */
  function Blocks(paths: seq<Path>): string
  {
    if paths == [] then "" else Block(paths[0]) + Blocks(paths[1..])
  }

  /** The whole script for the yielded paths: head, one block per path, and the tail with their number. */
  function Script(paths: seq<Path>): string
  {
    ScriptHead + Blocks(paths) + Tail(|paths|)
  }

  /** One more path appends one more block. */
  lemma {:induction false} BlocksSnoc(paths: seq<Path>, p: Path)
    ensures Blocks(paths + [p]) == Blocks(paths) + Block(p)
  {
    if paths == [] {
      assert [] + [p] == [p];
      assert Blocks([p]) == Block(p) + Blocks([]);
    } else {
      assert (paths + [p])[0] == paths[0];
      assert (paths + [p])[1..] == paths[1..] + [p];
      BlocksSnoc(paths[1..], p);
    }
  }

  // ---------------------------------------------------------------------
  // Reading a script back
  // ---------------------------------------------------------------------

  /** Reads blocks off the front of `s` while they are well formed; returns their paths and what is left. */
  function DecodeBlocks(s: string): (r: (seq<Path>, string))
    ensures |r.1| <= |s|
    decreases |s|
  {
    if HasPrefix(s, CommandPrefix) then
      var p := TakeWord(s[|CommandPrefix|..]);
      var block := Block(p);
      BlockNonEmpty(p);
      if HasPrefix(s, block) then
        var rest := DecodeBlocks(s[|block|..]);
        ([p] + rest.0, rest.1)
      else ([], s)
    else ([], s)
  }

  lemma BlockNonEmpty(p: Path)
    ensures |Block(p)| > 0
  {
    BlockText(p);
  }

  /**
   * Reads the tail: its fixed opening, the count as one word of digits,
   * and the fixed closing after it; gives the count it reports.
   */
  function DecodeTail(s: string): Option<int>
  {
    if HasPrefix(s, TailPrefix) then
      var rest := s[|TailPrefix|..];
      var word := TakeWord(rest);
      match ParseInt(word)
      case Some(n) => if rest[|word|..] == TailSuffix then Some(n) else None
      case None => None
    else None
  }

  /** Reads a whole script: its config paths and the command count in its tail. */
  function DecodeScript(s: string): Option<(seq<Path>, int)>
  {
    if HasPrefix(s, ScriptHead) then
      var blocks := DecodeBlocks(s[|ScriptHead|..]);
      match DecodeTail(blocks.1)
      case Some(n) => Some((blocks.0, n))
      case None => None
    else None
  }

  /** After the command prefix, a block (and anything behind it) reads as its config path followed by a space. */
  lemma BlockWord(p: Path, r: string)
    requires ' ' !in p
    ensures HasPrefix(Block(p) + r, CommandPrefix)
    ensures TakeWord((Block(p) + r)[|CommandPrefix|..]) == p
  {
    BlockText(p);
    EvolveCommandText(p);
    var after := " -d " + (Description(p) + (" -o " + ResultsOutputDirectory));
    var mid := WrapperMiddle + (EvolveCommand(p) + WrapperEnd);
    Regroup(CommandPrefix, p, after, mid, r);
    Slices(CommandPrefix, p + (after + mid + r));
    TakeWordOfWord(p, after + mid + r);
  }

  /** Re-brackets a five-part concatenation; a lemma so the step is proved apart from the text facts around it. */
  lemma Regroup(a: string, b: string, c: string, d: string, e: string)
    ensures (a + (b + c)) + d + e == a + (b + (c + d + e))
  {
  }

  /** The tail cannot be mistaken for another block. */
  lemma TailIsNoBlock(n: int)
    ensures !HasPrefix(Tail(n), CommandPrefix)
  {
    TailText(n);
    assert Tail(n)[0] == '\n';
  }

  /** Every block of `Blocks(paths) + r` is read back, and reading stops at `r`. */
  lemma {:induction false} DecodeBlocksRoundTrip(paths: seq<Path>, r: string)
    requires forall i :: 0 <= i < |paths| ==> ' ' !in paths[i]
    requires !HasPrefix(r, CommandPrefix)
    ensures DecodeBlocks(Blocks(paths) + r) == (paths, r)
  {
    if paths == [] {
      assert Blocks(paths) + r == r;
    } else {
      var p := paths[0];
      var rest := Blocks(paths[1..]) + r;
      Assoc(Block(p), Blocks(paths[1..]), r);
      DecodeBlocksStep(p, rest);
      DecodeBlocksRoundTrip(paths[1..], r);
      assert [p] + paths[1..] == paths;
    }
  }

  /** A block in front of `rest` is read as its path, and reading goes on with `rest`. */
  lemma DecodeBlocksStep(p: Path, rest: string)
    requires ' ' !in p
    ensures DecodeBlocks(Block(p) + rest) == ([p] + DecodeBlocks(rest).0, DecodeBlocks(rest).1)
  {
    BlockWord(p, rest);
    Slices(Block(p), rest);
  }

  /** Whatever DecodeBlocks reads is exactly those blocks followed by the remainder. */
  lemma {:induction false} DecodeBlocksSound(s: string)
    ensures Blocks(DecodeBlocks(s).0) + DecodeBlocks(s).1 == s
    decreases |s|
  {
    if HasPrefix(s, CommandPrefix) {
      var p := TakeWord(s[|CommandPrefix|..]);
      var block := Block(p);
      BlockNonEmpty(p);
      if HasPrefix(s, block) {
        var tail := s[|block|..];
        DecodeBlocksSound(tail);
        var rest := DecodeBlocks(tail);
        assert DecodeBlocks(s) == ([p] + rest.0, rest.1);
        BlocksCons(p, rest.0);
        assert s == block + tail;
        Assoc(block, Blocks(rest.0), rest.1);
      }
    }
  }

  lemma BlocksCons(p: Path, paths: seq<Path>)
    ensures Blocks([p] + paths) == Block(p) + Blocks(paths)
  {
    assert ([p] + paths)[1..] == paths;
  }

  lemma DecodeTailRoundTrip(n: int)
    ensures DecodeTail(Tail(n)) == Some(n)
  {
    TailText(n);
    IntToStringAlphabet(n);
    IntToStringRoundTrip(n);
    var s := Tail(n);
    assert s[..|TailPrefix|] == TailPrefix;
    assert s[|TailPrefix|..] == IntToString(n) + TailSuffix;
    TakeWordOfWord(IntToString(n), TailSuffix);
    Slices(IntToString(n), TailSuffix);
  }

  /**
   * The script for the yielded paths reads back as exactly those paths, in
   * order, with the tail reporting their number: one command per config.
   */
  lemma ScriptRoundTrip(paths: seq<Path>)
    requires forall i :: 0 <= i < |paths| ==> ' ' !in paths[i]
    ensures DecodeScript(Script(paths)) == Some((paths, |paths|))
  {
    var s := Script(paths);
    assert s == ScriptHead + (Blocks(paths) + Tail(|paths|));
    assert s[..|ScriptHead|] == ScriptHead;
    assert s[|ScriptHead|..] == Blocks(paths) + Tail(|paths|);
    TailIsNoBlock(|paths|);
    DecodeBlocksRoundTrip(paths, Tail(|paths|));
    DecodeTailRoundTrip(|paths|);
  }

  /** A script that reads back is the head, the blocks read, and the tail for the count read. */
  lemma DecodeScriptSound(s: string)
    ensures DecodeScript(s).Some? ==>
              s == ScriptHead + Blocks(DecodeScript(s).value.0) + Tail(DecodeScript(s).value.1)
  {
    if DecodeScript(s).Some? {
      var body := s[|ScriptHead|..];
      var blocks := DecodeBlocks(body);
      var n := DecodeScript(s).value.1;
      DecodeBlocksSound(body);
      DecodeTailSound(blocks.1);
      PrefixSplit(s, ScriptHead);
      Assoc(ScriptHead, Blocks(blocks.0), blocks.1);
    }
  }

  /** A tail that reads back is the tail the script writes for the count read. */
  lemma DecodeTailSound(t: string)
    ensures DecodeTail(t).Some? ==> t == Tail(DecodeTail(t).value)
  {
    if DecodeTail(t).Some? {
      var rest := t[|TailPrefix|..];
      var word := TakeWord(rest);
      var n := ParseInt(word).value;
      assert DecodeTail(t) == Some(n);
      assert t == TailPrefix + rest by { PrefixSplit(t, TailPrefix); }
      assert word == IntToString(n) by { ParseIntSound(word); }
      assert rest == word + TailSuffix;
      TailText(n);
    }
  }

  lemma PrefixSplit(s: string, h: string)
    requires HasPrefix(s, h)
    ensures s == h + s[|h|..]
  {
  }

  // ---------------------------------------------------------------------
  // Writing the script
  // ---------------------------------------------------------------------

  /**
   * The synthesis loop: open the script for writing, write the head, one
   * block per path with a running command count, then the tail with that count.
   */
  method SynthesizeScript(fs: Fs, scriptPath: Path, paths: seq<Path>) returns (commandCount: int)
    requires ParentExists(fs.State(), scriptPath)
    modifies fs
    ensures commandCount == |paths|
    ensures fs.files == old(fs.files)[scriptPath := Script(paths)] && fs.dirs == old(fs.dirs)
  {
    WriteHead(fs, scriptPath);
    commandCount := WriteBlocks(fs, scriptPath, paths);
    fs.Append(scriptPath, Tail(commandCount));
  }

  /** Opening the script for writing empties it; the head is its first write. */
  method WriteHead(fs: Fs, scriptPath: Path)
    requires ParentExists(fs.State(), scriptPath)
    modifies fs
    ensures fs.files == old(fs.files)[scriptPath := ScriptHead] && fs.dirs == old(fs.dirs)
  {
    fs.Write(scriptPath, "");
    fs.Append(scriptPath, ScriptHead);
    assert "" + ScriptHead == ScriptHead;
  }

  /** The loop over the yielded paths: one block each, counted. */
  method WriteBlocks(fs: Fs, scriptPath: Path, paths: seq<Path>) returns (commandCount: int)
    requires scriptPath in fs.files
    modifies fs
    ensures commandCount == |paths|
    ensures fs.files == old(fs.files)[scriptPath := old(fs.files)[scriptPath] + Blocks(paths)] && fs.dirs == old(fs.dirs)
  {
    ghost var head := fs.files[scriptPath];
    assert paths[..0] == [] && head + "" == head;
    commandCount := 0;
    for i := 0 to |paths|
      invariant commandCount == i
      invariant fs.files == old(fs.files)[scriptPath := head + Blocks(paths[..i])] && fs.dirs == old(fs.dirs)
    {
      fs.Append(scriptPath, Block(paths[i]));
      assert paths[..i + 1] == paths[..i] + [paths[i]];
      BlocksSnoc(paths[..i], paths[i]);
      Assoc(head, Blocks(paths[..i]), Block(paths[i]));
      commandCount := commandCount + 1;
    }
    assert paths[..|paths|] == paths;
  }

  /** Associativity of concatenation, as a lemma so each use is proved apart from the surrounding context. */
  lemma Assoc(a: string, b: string, c: string)
    ensures a + b + c == a + (b + c)
  {
  }


  // ---------------------------------------------------------------------
  // The whole generator script
  // ---------------------------------------------------------------------

  /** The script does not live under the configs directory, so no sweep ever writes it. */
  lemma ScriptNotGenerated(s: Sweep)
    ensures ScriptPath !in Paths(SweepWrites(s))
  {
    SweepPathsWritten(s);
    assert !HasPrefix(ScriptPath, GeneratedConfigsDir + "/") by {
      assert ScriptPath[5] != (GeneratedConfigsDir + "/")[5];
    }
  }

  /**
   * Writing a file no write touches commutes with the writes: one script
   * write can move past the config writes. Applied once per block, this is
   * the step behind `LazyOrderSameFiles`.
   */
  lemma {:induction false} WritesCommute(files: map<Path, string>, w: seq<Write>, p: Path, text: string)
    requires p !in Paths(w)
    ensures ApplyWrites(files[p := text], w) == ApplyWrites(files, w)[p := text]
  {
    if w != [] {
      var init := w[..|w| - 1];
      assert p != Paths(w)[|w| - 1];
      assert p !in Paths(init) by {
        forall i | 0 <= i < |init| ensures Paths(init)[i] != p { assert Paths(init)[i] == Paths(w)[i]; }
      }
      WritesCommute(files, init, p, text);
    }
  }

  /** Performing writes never removes a file. */
  lemma {:induction false} ApplyWritesKeepsFiles(files: map<Path, string>, w: seq<Write>)
    ensures files.Keys <= ApplyWrites(files, w).Keys
    decreases |w|
  {
    if w != [] {
      ApplyWritesKeepsFiles(files, w[..|w| - 1]);
    }
  }

  /**
   * The files in the order the source produces them when the generator is
   * lazy: the script is opened and its head written first, then each config
   * write is followed at once by the block that names it.
   */
  function InterleavedFiles(files: map<Path, string>, w: seq<Write>): (r: map<Path, string>)
    ensures ScriptPath in r
  {
    if w == [] then files[ScriptPath := ScriptHead]
    else
      var x := w[|w| - 1];
      var f := InterleavedFiles(files, w[..|w| - 1])[x.path := x.content];
      f[ScriptPath := f[ScriptPath] + Block(x.path)]
  }

  /**
   * The files generate_configs.py leaves, in its own order. A sweep wrapped
   * in `repeat` drains its inner generator before the first path is yielded,
   * so all its config writes come right after the head; any other sweep
   * alternates config writes and blocks. The tail comes last.
   */
  function LazyBatchFiles(files: map<Path, string>, s: Sweep): map<Path, string>
  {
    var ps := SweepPaths(s);
    match s
    case RepeatSweep(_, _) =>
      var f := ApplyWrites(files[ScriptPath := ScriptHead], SweepWrites(s));
      ApplyWritesKeepsFiles(files[ScriptPath := ScriptHead], SweepWrites(s));
      f[ScriptPath := f[ScriptPath] + Blocks(ps) + Tail(|ps|)]
    case _ =>
      var f := InterleavedFiles(files, SweepWrites(s));
      f[ScriptPath := f[ScriptPath] + Tail(|ps|)]
  }

  /** Alternating config writes and blocks gives the writes' files plus the head and the blocks of their paths. */
  lemma {:induction false} InterleavedIsDrained(files: map<Path, string>, w: seq<Write>)
    requires ScriptPath !in Paths(w)
    ensures InterleavedFiles(files, w) == ApplyWrites(files, w)[ScriptPath := ScriptHead + Blocks(Paths(w))]
    decreases |w|
  {
    if w == [] {
      assert Blocks(Paths(w)) == "";
      assert ScriptHead + "" == ScriptHead;
    } else {
      var init := w[..|w| - 1];
      var x := w[|w| - 1];
      assert Paths(w) == Paths(init) + [x.path];
      assert x.path != ScriptPath by { assert Paths(w)[|w| - 1] == x.path; }
      InterleavedIsDrained(files, init);
      var a := ApplyWrites(files, init);
      var before := ScriptHead + Blocks(Paths(init));
      var after := before + Block(x.path);
      assert InterleavedFiles(files, w) == a[ScriptPath := before][x.path := x.content][ScriptPath := after];
      UpdatePastOther(a, ScriptPath, before, x.path, x.content, after);
      assert after == ScriptHead + Blocks(Paths(w)) by {
        BlocksSnoc(Paths(init), x.path);
        Assoc(ScriptHead, Blocks(Paths(init)), Block(x.path));
      }
      assert ApplyWrites(files, w) == a[x.path := x.content];
    }
  }

  /** An entry overwritten later does not matter, whatever other key was set in between. */
  lemma UpdatePastOther(m: map<Path, string>, k: Path, v: string, j: Path, u: string, v': string)
    requires k != j
    ensures m[k := v][j := u][k := v'] == m[j := u][k := v']
  {
  }

  /**
   * Writing the script lazily, in the source's order, leaves the same files as
   * draining the generator first and then writing the script, which is what
   * `GenerateBatch` does.
   */
  lemma LazyOrderSameFiles(files: map<Path, string>, s: Sweep)
    ensures LazyBatchFiles(files, s) == ApplyWrites(files, SweepWrites(s))[ScriptPath := Script(SweepPaths(s))]
  {
    ScriptNotGenerated(s);
    match s {
      case RepeatSweep(_, _) =>
        DrainedFirstSame(files, SweepWrites(s), SweepPaths(s));
      case SensitivitySweep =>
        InterleavedThenTail(files, SweepWrites(s));
      case PulseCountSweep(_, _, _) =>
        InterleavedThenTail(files, SweepWrites(s));
    }
  }

  /** The head written before all config writes, the blocks and tail after them. */
  lemma DrainedFirstSame(files: map<Path, string>, w: seq<Write>, ps: seq<Path>)
    requires ScriptPath !in Paths(w)
    ensures var f := ApplyWrites(files[ScriptPath := ScriptHead], w);
      ScriptPath in f && f[ScriptPath := f[ScriptPath] + Blocks(ps) + Tail(|ps|)] == ApplyWrites(files, w)[ScriptPath := Script(ps)]
  {
    WritesCommute(files, w, ScriptPath, ScriptHead);
  }

  /** The interleaved writes followed by the tail. */
  lemma InterleavedThenTail(files: map<Path, string>, w: seq<Write>)
    requires ScriptPath !in Paths(w)
    ensures var f := InterleavedFiles(files, w);
      f[ScriptPath := f[ScriptPath] + Tail(|w|)] == ApplyWrites(files, w)[ScriptPath := Script(Paths(w))]
  {
    InterleavedIsDrained(files, w);
  }

  /** "data" is made with the configs directory, and the results directory is not one of its ancestors. */
  lemma DataIsAncestor()
    ensures "data" in Ancestors(GeneratedConfigsDir)
    ensures ResultsOutputDirectory !in Ancestors(GeneratedConfigsDir)
  {
    assert GeneratedConfigsDir[4] == '/' && GeneratedConfigsDir[..4] == "data";
  }

  /** The script's parent directory is "data". */
  lemma ScriptParent()
    ensures Dirname(ScriptPath) == "data"
  {
    assert '/' !in ScriptName;
    JoinName("data", ScriptName);
  }

  /** os.makedirs guarded by os.path.isdir: on a closed disk the directories afterwards are the same either way. */
  method EnsureDir(fs: Fs, d: Path)
    requires d != ""
    requires d in fs.dirs ==> Ancestors(d) <= fs.dirs
    modifies fs
    ensures fs.dirs == old(fs.dirs) + Ancestors(d) && fs.files == old(fs.files)
  {
    if d !in fs.dirs {
      fs.MakeDirs(d);
    }
  }

  /**
   * generate_configs.py as a whole: make the two directories when they are
   * missing, drain the selected generator, and write the script; the result is
   * the number of commands the script runs.
   */
  method GenerateBatch(fs: Fs, sweep: Sweep) returns (commandCount: int)
    requires DirsClosed(fs.State())
    modifies fs
    ensures commandCount == |SweepPaths(sweep)|
    ensures fs.files == ApplyWrites(old(fs.files), SweepWrites(sweep))[ScriptPath := Script(SweepPaths(sweep))]
    ensures fs.dirs == old(fs.dirs) + Ancestors(GeneratedConfigsDir) + Ancestors(ResultsOutputDirectory)
  {
    DataIsAncestor();
    ghost var dirs0 := fs.dirs;
    assert GeneratedConfigsDir in dirs0 ==> Ancestors(GeneratedConfigsDir) <= dirs0;
    EnsureDir(fs, GeneratedConfigsDir);
    assert ResultsOutputDirectory in fs.dirs ==> ResultsOutputDirectory in dirs0;
    assert ResultsOutputDirectory in dirs0 ==> Ancestors(ResultsOutputDirectory) <= dirs0;
    EnsureDir(fs, ResultsOutputDirectory);
    var paths := RunSweep(fs, sweep);
    ScriptParent();
    assert "data" in fs.dirs;
    commandCount := SynthesizeScript(fs, ScriptPath, paths);
  }

  /** The script generate_configs.py leaves behind reads back as the sweep's paths and their number. */
  lemma GeneratedScriptReadsBack(sweep: Sweep)
    ensures DecodeScript(Script(SweepPaths(sweep))) == Some((SweepPaths(sweep), |SweepPaths(sweep)|))
  {
    SweepPathsWritten(sweep);
    var ps := SweepPaths(sweep);
    forall i | 0 <= i < |ps| ensures ' ' !in ps[i] {
      assert ps[i] in Paths(SweepWrites(sweep));
    }
    ScriptRoundTrip(ps);
  }

  /** The sweep the script selects: targets 40000, 20000, 20000, sensitive fitness only. */
  const ShippedSweep: Sweep := PulseCountSweep([40000, 20000, 20000], false, true)

  /**
   * The shipped sweep yields three paths, the repeated target twice, so the
   * script runs three commands over two distinct config files.
   */
  lemma ShippedSweepShape()
    ensures |SweepPaths(ShippedSweep)| == 3
    ensures SweepPaths(ShippedSweep)[1] == SweepPaths(ShippedSweep)[2] != SweepPaths(ShippedSweep)[0]
    ensures SweepPaths(ShippedSweep)[0] == PulseCountConfigPath(40000, SensitivePulseCount)
  {
    var targets := [40000, 20000, 20000];
    SensitiveOnlyPath(targets, 0);
    SensitiveOnlyPath(targets, 1);
    SensitiveOnlyPath(targets, 2);
    PulseCountConfigPathInjective(40000, SensitivePulseCount, 20000, SensitivePulseCount);
  }

  /** With only SENSITIVE enabled, the sweep yields one path per target, in order. */
  lemma SensitiveOnlyPath(targets: seq<int>, i: nat)
    requires i < |targets|
    ensures |SweepPaths(PulseCountSweep(targets, false, true))| == |targets|
    ensures SweepPaths(PulseCountSweep(targets, false, true))[i] == PulseCountConfigPath(targets[i], SensitivePulseCount)
  {
    var plan := PulseCountPlan(targets, false, true);
    var fs := EnabledFunctions(false, true);
    assert |fs| == 1 && fs[0] == SensitivePulseCount;
    PulseCountPlanLength(targets, false, true);
    assert plan[i] == PulseCountRun(targets[i], SensitivePulseCount) by {
      PulseCountPlanCell(targets, false, true, i, 0);
      assert i * |fs| + 0 == i;
    }
    var w := PulseCountWrites(plan);
    assert SweepPaths(PulseCountSweep(targets, false, true)) == Paths(w);
    assert w[i] == PulseCountWrite(plan[i]);
  }
}

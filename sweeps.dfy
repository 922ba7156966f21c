/**
 * The config-sweep half of the batch generator: two sweep generators that
 * render a fixed template into a file whose name is derived from the sweep
 * value, yielding that file's path, and the `repeat` combinator. A generator
 * is modelled by the sequence of writes it performs (each write is followed
 * by yielding its path) and by a method that performs them on the disk.
 */
module Sweeps {
  import opened Wrappers
  import opened Text
  import opened Decimal
  import opened Templates
  import opened FileSystem

  const BaseConfigPath: Path := "data/config.ini"
  const GeneratedConfigsDir: Path := "data/GeneratedConfigs"

  /** One generated config file: where it goes and what it holds. */
  datatype Write = Write(path: Path, content: string)

  /** The paths a sequence of writes yields, in order. */
  function Paths(w: seq<Write>): (ps: seq<Path>)
    ensures |ps| == |w| && forall i :: 0 <= i < |w| ==> ps[i] == w[i].path
  {
    seq(|w|, i requires 0 <= i < |w| => w[i].path)
  }

  /** The files after performing the writes in order (a later write to a path overwrites). */
  function ApplyWrites(files: map<Path, string>, w: seq<Write>): map<Path, string>
  {
    if w == [] then files else ApplyWrites(files, w[..|w| - 1])[w[|w| - 1].path := w[|w| - 1].content]
  }

  /** Every write to the same path carries the same content. */
  predicate ConsistentWrites(w: seq<Write>)
  {
    forall i, j :: 0 <= i < |w| && 0 <= j < |w| && w[i].path == w[j].path ==> w[i].content == w[j].content
  }

  /**
   * What a run of consistent writes leaves on disk: every written path holds its
   * content, no other path is created, and every other path is untouched.
   */
  lemma {:induction false} ApplyConsistentWrites(files: map<Path, string>, w: seq<Write>)
    requires ConsistentWrites(w)
    ensures forall i :: 0 <= i < |w| ==> w[i].path in ApplyWrites(files, w) && ApplyWrites(files, w)[w[i].path] == w[i].content
    ensures forall p :: p in ApplyWrites(files, w) <==> p in files || p in Paths(w)
    ensures forall p :: p in files && p !in Paths(w) ==> ApplyWrites(files, w)[p] == files[p]
  {
    if w != [] {
      var init := w[..|w| - 1];
      assert ConsistentWrites(init) by {
        forall i, j | 0 <= i < |init| && 0 <= j < |init| && init[i].path == init[j].path
          ensures init[i].content == init[j].content
        {
          assert init[i] == w[i] && init[j] == w[j];
        }
      }
      ApplyConsistentWrites(files, init);
      forall p ensures p in Paths(w) <==> p in Paths(init) || p == w[|w| - 1].path {
        if p in Paths(w) {
          var i :| 0 <= i < |w| && Paths(w)[i] == p;
          if i < |w| - 1 { assert Paths(init)[i] == p; }
        }
        if p in Paths(init) {
          var i :| 0 <= i < |init| && Paths(init)[i] == p;
          assert Paths(w)[i] == p;
        }
        if p == w[|w| - 1].path { assert Paths(w)[|w| - 1] == p; }
      }
      forall i | 0 <= i < |w| - 1
        ensures ApplyWrites(files, w)[w[i].path] == w[i].content
      {
        assert init[i] == w[i];
      }
    }
  }

  lemma PathsAppend(w: seq<Write>, v: seq<Write>)
    ensures Paths(w + v) == Paths(w) + Paths(v)
  {
  }

  /** Performing `w` then `v` is performing `w + v`. */
  lemma {:induction false} ApplyWritesAppend(files: map<Path, string>, w: seq<Write>, v: seq<Write>)
    ensures ApplyWrites(files, w + v) == ApplyWrites(ApplyWrites(files, w), v)
    decreases |v|
  {
    if v == [] {
      assert w + v == w;
    } else {
      var v' := v[..|v| - 1];
      assert (w + v)[..|w + v| - 1] == w + v';
      ApplyWritesAppend(files, w, v');
    }
  }

  // ---------------------------------------------------------------------
  // Python's range(start, stop, step) for a positive step
  // ---------------------------------------------------------------------

  /** How many values `range(start, stop, step)` produces. */
  function RangeLength(start: int, stop: int, step: int): nat
    requires step > 0
  {
    if start >= stop then 0 else (stop - start + step - 1) / step
  }

  /** `range(start, stop, step)`: the values `start + step * i` for successive `i`. */
  function Range(start: int, stop: int, step: int): seq<int>
    requires step > 0
  {
    seq(RangeLength(start, stop, step), i => start + step * i)
  }

  lemma MulMonotone(step: int, i: int, j: int)
    requires step >= 0 && i <= j
    ensures step * i <= step * j
  {
    assert step * j - step * i == step * (j - i);
  }

  /** The range holds exactly the values of that form that lie below `stop` (and none skipped). */
  lemma RangeBelowStop(start: int, stop: int, step: int, i: nat)
    requires step > 0
    ensures i < |Range(start, stop, step)| <==> start + step * i < stop
  {
    var n := RangeLength(start, stop, step);
    if start < stop {
      var x := stop - start + step - 1;
      assert x == step * n + x % step && 0 <= x % step < step;
      if i < n {
        MulMonotone(step, i, n - 1);
        assert step * (n - 1) == step * n - step;
      } else {
        MulMonotone(step, n, i);
      }
    } else {
      MulMonotone(step, 0, i);
    }
  }

  // ---------------------------------------------------------------------
  // sensitivity_config_generator
  // ---------------------------------------------------------------------

  const SensitivityConfigBase: Template :=
    [Lit("[TOP-LEVEL PARAMETERS]\nbase_config = "), Hole("base_config_path"),
     Lit("\n\n[FITNESS SENSITIVITY PARAMETERS]\n"), Lit("test_circuit = data/saved_bests/"), Hole("circuit_id"),
     Lit(".asc\n")]

  /** The config for one saved circuit: the template with the base config and the circuit id filled in. */
  function SensitivityConfig(circuitId: int): string
  {
    var b := map["base_config_path" := BaseConfigPath, "circuit_id" := IntToString(circuitId)];
    SensitivityHolesBound(b);
    Render(SensitivityConfigBase, b).value
  }

  lemma SensitivityHolesBound(b: Bindings)
    requires "base_config_path" in b && "circuit_id" in b
    ensures Render(SensitivityConfigBase, b).Success?
  {
    var t := SensitivityConfigBase;
    assert t[1..][1..][1..][1..][1..][1..] == [];
  }

  /** sensitivity_config_base.format(...): every placeholder is bound, so the text is the template with both values in. */
  lemma SensitivityConfigText(circuitId: int)
    ensures SensitivityConfig(circuitId)
            == "[TOP-LEVEL PARAMETERS]\nbase_config = " + (BaseConfigPath
               + ("\n\n[FITNESS SENSITIVITY PARAMETERS]\n" + TestCircuitLine(circuitId)))
  {
    var t := SensitivityConfigBase;
    assert t[1..][1..][1..][1..][1..][1..] == [];
    assert ".asc\n" + "" == ".asc\n";
  }

  function SensitivityConfigPath(circuitId: int): Path
  {
    Join(GeneratedConfigsDir, IntToString(circuitId) + ".ini")
  }

  /** The circuit ids the sweep visits: 10, 20, ..., 500. */
  function CircuitIds(): seq<int>
  {
    Range(10, 510, 10)
  }

  /** The write the sweep performs for one circuit id. */
  function SensitivityWrite(circuitId: int): Write
  {
    Write(SensitivityConfigPath(circuitId), SensitivityConfig(circuitId))
  }

  function SensitivityWrites(ids: seq<int>): seq<Write>
  {
    seq(|ids|, i requires 0 <= i < |ids| => SensitivityWrite(ids[i]))
  }

  lemma SensitivityWritesSnoc(ids: seq<int>, i: nat)
    requires i < |ids|
    ensures SensitivityWrites(ids[..i + 1]) == SensitivityWrites(ids[..i]) + [SensitivityWrite(ids[i])]
  {
  }

  /** The sweep visits exactly fifty circuits, 10 apart and increasing. */
  lemma CircuitIdsShape()
    ensures |CircuitIds()| == 50
    ensures forall i :: 0 <= i < 50 ==> CircuitIds()[i] == 10 * (i + 1)
  {
  }

  /** Joining a plain file name onto the configs directory. */
  lemma ConfigsDirJoin(name: Path)
    requires name != "" && '/' !in name
    ensures Join(GeneratedConfigsDir, name) == GeneratedConfigsDir + "/" + name
    ensures Dirname(Join(GeneratedConfigsDir, name)) == GeneratedConfigsDir
  {
    JoinName(GeneratedConfigsDir, name);
  }

  /** Equal strings with a common prefix and suffix have equal middles. */
  lemma Middle(pre: string, a: string, b: string, post: string)
    requires pre + (a + post) == pre + (b + post)
    ensures a == b
  {
    assert a + post == (pre + (a + post))[|pre|..];
    assert b + post == (pre + (b + post))[|pre|..];
    assert a == (a + post)[..|a|];
    assert b == (b + post)[..|b|];
  }

  /** A sensitivity path is `data/GeneratedConfigs/<id>.ini`. */
  lemma SensitivityConfigPathForm(circuitId: int)
    ensures SensitivityConfigPath(circuitId) == GeneratedConfigsDir + "/" + (IntToString(circuitId) + ".ini")
    ensures Dirname(SensitivityConfigPath(circuitId)) == GeneratedConfigsDir
  {
    IntToStringAlphabet(circuitId);
    ConfigsDirJoin(IntToString(circuitId) + ".ini");
  }

  /** Different circuits get different files. */
  lemma SensitivityConfigPathInjective(a: int, b: int)
    ensures SensitivityConfigPath(a) == SensitivityConfigPath(b) <==> a == b
  {
    SensitivityConfigPathForm(a);
    SensitivityConfigPathForm(b);
    if SensitivityConfigPath(a) == SensitivityConfigPath(b) {
      Middle(GeneratedConfigsDir + "/", IntToString(a), IntToString(b), ".ini");
    }
    IntToStringInjective(a, b);
  }

  /** The line of a sensitivity config that names the saved circuit under test. */
  function TestCircuitLine(circuitId: int): string
  {
    "test_circuit = data/saved_bests/" + (IntToString(circuitId) + ".asc\n")
  }

  /** Each sensitivity config names its circuit on the test_circuit line. */
  lemma SensitivityConfigNamesCircuit(circuitId: int)
    ensures Contains(SensitivityConfig(circuitId), TestCircuitLine(circuitId))
  {
    SensitivityConfigText(circuitId);
    ContainsLast("[TOP-LEVEL PARAMETERS]\nbase_config = ", BaseConfigPath, "\n\n[FITNESS SENSITIVITY PARAMETERS]\n",
                 TestCircuitLine(circuitId));
  }

  lemma ContainsLast(a: string, b: string, c: string, v: string)
    ensures Contains(a + (b + (c + v)), v)
  {
    var s := a + (b + (c + v));
    assert s == (a + b + c) + v;
    assert HasPrefix(s[|a + b + c|..], v);
  }

  /**
   * The sensitivity sweep writes fifty distinct files, for circuits 10 to 500 in
   * increasing order, and each names its saved circuit on the test_circuit line.
   */
  lemma SensitivitySweepShape()
    ensures var w := SensitivityWrites(CircuitIds());
      |w| == 50
      && (forall i :: 0 <= i < 50 ==> w[i].path == GeneratedConfigsDir + "/" + (IntToString(10 * (i + 1)) + ".ini"))
      && (forall i :: 0 <= i < 50 ==> Contains(w[i].content, TestCircuitLine(10 * (i + 1))))
      && (forall i, j :: 0 <= i < j < 50 ==> w[i].path != w[j].path)
  {
    var ids := CircuitIds();
    var w := SensitivityWrites(ids);
    CircuitIdsShape();
    forall i | 0 <= i < 50
      ensures w[i].path == GeneratedConfigsDir + "/" + (IntToString(10 * (i + 1)) + ".ini")
      ensures Contains(w[i].content, TestCircuitLine(10 * (i + 1)))
    {
      assert w[i] == SensitivityWrite(ids[i]);
      SensitivityConfigPathForm(ids[i]);
      SensitivityConfigNamesCircuit(ids[i]);
    }
    forall i, j | 0 <= i < j < 50 ensures w[i].path != w[j].path {
      SensitivityConfigPathInjective(ids[i], ids[j]);
    }
  }

  lemma SensitivityWritesConsistent(ids: seq<int>)
    ensures ConsistentWrites(SensitivityWrites(ids))
  {
    var w := SensitivityWrites(ids);
    forall i, j | 0 <= i < |w| && 0 <= j < |w| && w[i].path == w[j].path ensures w[i].content == w[j].content {
      SensitivityConfigPathInjective(ids[i], ids[j]);
    }
  }

  /** sensitivity_config_generator: one config per circuit id, in order; yields the paths. */
  method SensitivityConfigGenerator(fs: Fs) returns (paths: seq<Path>)
    requires GeneratedConfigsDir in fs.dirs
    modifies fs
    ensures paths == Paths(SensitivityWrites(CircuitIds()))
    ensures fs.files == ApplyWrites(old(fs.files), SensitivityWrites(CircuitIds())) && fs.dirs == old(fs.dirs)
  {
    var ids := CircuitIds();
    paths := [];
    for i := 0 to |ids|
      invariant paths == Paths(SensitivityWrites(ids[..i]))
      invariant fs.files == ApplyWrites(old(fs.files), SensitivityWrites(ids[..i]))
      invariant fs.dirs == old(fs.dirs)
    {
      var circuitId := ids[i];
      var configPath := SensitivityConfigPath(circuitId);
      SensitivityConfigPathForm(circuitId);
      fs.Write(configPath, SensitivityConfig(circuitId));
      paths := paths + [configPath];
      SensitivityWritesSnoc(ids, i);
      ApplyWritesAppend(old(fs.files), SensitivityWrites(ids[..i]), [SensitivityWrite(circuitId)]);
      PathsAppend(SensitivityWrites(ids[..i]), [SensitivityWrite(circuitId)]);
    }
    assert ids[..|ids|] == ids;
  }

  // ---------------------------------------------------------------------
  // pulse_count_config_generator and its inner create_config
  // ---------------------------------------------------------------------

  datatype FitnessFunction = SensitivePulseCount | TolerantPulseCount
  {
    /** The name written into the config and into the file name. */
    function Name(): string
    {
      match this
      case SensitivePulseCount => "SENSITIVE_PULSE_COUNT"
      case TolerantPulseCount => "TOLERANT_PULSE_COUNT"
    }
  }

  const PulseCountConfigBase: Template :=
    [Lit("[TOP-LEVEL PARAMETERS]\nbase_config = "), Hole("base_config_path"),
     Lit("\n\n[FITNESS PARAMETERS]\nfitness_func = "), Hole("fitness_function"),
     Lit("\ndesired_freq = "), Hole("desired_frequency"),
     Lit("\n\n")]

  /** The config for one (target, fitness function) pair: the template with all three values filled in. */
  function PulseCountConfig(targetPulseCount: int, ff: FitnessFunction): string
  {
    var b := map["base_config_path" := BaseConfigPath, "fitness_function" := ff.Name(),
                 "desired_frequency" := IntToString(targetPulseCount)];
    PulseCountHolesBound(b);
    Render(PulseCountConfigBase, b).value
  }

  lemma PulseCountHolesBound(b: Bindings)
    requires "base_config_path" in b && "fitness_function" in b && "desired_frequency" in b
    ensures Render(PulseCountConfigBase, b).Success?
  {
    var t := PulseCountConfigBase;
    assert t[1..][1..][1..][1..][1..][1..][1..] == [];
  }

  /** pulse_count_config_base.format(...): the template with the base config, the fitness function and the target in. */
  lemma PulseCountConfigText(targetPulseCount: int, ff: FitnessFunction)
    ensures PulseCountConfig(targetPulseCount, ff)
            == "[TOP-LEVEL PARAMETERS]\nbase_config = " + (BaseConfigPath
               + ("\n\n[FITNESS PARAMETERS]\nfitness_func = " + (ff.Name()
               + ("\ndesired_freq = " + (IntToString(targetPulseCount) + "\n\n")))))
  {
    var t := PulseCountConfigBase;
    assert t[1..][1..][1..][1..][1..][1..][1..] == [];
    assert "\n\n" + "" == "\n\n";
  }

  function PulseCountConfigPath(targetPulseCount: int, ff: FitnessFunction): Path
  {
    Join(GeneratedConfigsDir, IntToString(targetPulseCount) + Suffix(ff))
  }

  /** The file-name suffix for a fitness function: `_with__<NAME>.ini`. */
  function Suffix(ff: FitnessFunction): string
  {
    "_with__" + ff.Name() + ".ini"
  }

  lemma SuffixAlphabet(ff: FitnessFunction)
    ensures '/' !in Suffix(ff) && ' ' !in Suffix(ff)
  {
    NoSeparators("_with__", ff.Name(), ".ini");
  }

  lemma NoSeparators(a: string, b: string, c: string)
    requires '/' !in a && ' ' !in a && '/' !in b && ' ' !in b && '/' !in c && ' ' !in c
    ensures '/' !in a + b + c && ' ' !in a + b + c
  {
  }

  /** A pulse-count path is `data/GeneratedConfigs/<target>_with__<NAME>.ini`. */
  lemma PulseCountConfigPathForm(targetPulseCount: int, ff: FitnessFunction)
    ensures PulseCountConfigPath(targetPulseCount, ff)
            == GeneratedConfigsDir + "/" + (IntToString(targetPulseCount) + Suffix(ff))
    ensures Dirname(PulseCountConfigPath(targetPulseCount, ff)) == GeneratedConfigsDir
  {
    IntToStringAlphabet(targetPulseCount);
    SuffixAlphabet(ff);
    ConfigsDirJoin(IntToString(targetPulseCount) + Suffix(ff));
  }

  /** Two pulse-count configs share a file exactly when they have the same target and fitness function. */
  lemma PulseCountConfigPathInjective(t1: int, f1: FitnessFunction, t2: int, f2: FitnessFunction)
    ensures PulseCountConfigPath(t1, f1) == PulseCountConfigPath(t2, f2) <==> t1 == t2 && f1 == f2
  {
    PulseCountConfigPathForm(t1, f1);
    PulseCountConfigPathForm(t2, f2);
    if PulseCountConfigPath(t1, f1) == PulseCountConfigPath(t2, f2) {
      FileNamesEqual(GeneratedConfigsDir + "/", IntToString(t1), f1, IntToString(t2), f2);
    }
    IntToStringInjective(t1, t2);
  }

  lemma FileNamesEqual(pre: string, s1: string, f1: FitnessFunction, s2: string, f2: FitnessFunction)
    requires pre + (s1 + Suffix(f1)) == pre + (s2 + Suffix(f2))
    ensures s1 == s2 && f1 == f2
  {
    assert s1 + Suffix(f1) == (pre + (s1 + Suffix(f1)))[|pre|..];
    assert s2 + Suffix(f2) == (pre + (s2 + Suffix(f2)))[|pre|..];
    if f1 != f2 {
      DistinctSuffixes(s1, f1, s2, f2);
    }
    assert s1 == (s1 + Suffix(f1))[..|s1|];
    assert s2 == (s2 + Suffix(f2))[..|s2|];
  }

  /** No path ending in the SENSITIVE suffix also ends in the TOLERANT one. */
  lemma DistinctSuffixes(a: string, f1: FitnessFunction, b: string, f2: FitnessFunction)
    requires f1 != f2
    ensures a + Suffix(f1) != b + Suffix(f2)
  {
    var x1, x2 := Suffix(f1), Suffix(f2);
    var p1, p2 := a + x1, b + x2;
    assert x1[|x1| - 17] != x2[|x2| - 17];
    assert p1[|p1| - 17] == x1[|x1| - 17];
    assert p2[|p2| - 17] == x2[|x2| - 17];
  }

  /** The fitness functions a run of the generator uses, SENSITIVE before TOLERANT. */
  function EnabledFunctions(useTolerantFf: bool, useSensitiveFf: bool): seq<FitnessFunction>
  {
    (if useSensitiveFf then [SensitivePulseCount] else []) + (if useTolerantFf then [TolerantPulseCount] else [])
  }

  datatype PulseCountRun = PulseCountRun(target: int, ff: FitnessFunction)

  /** The (target, fitness function) pairs in the order the generator yields them. */
  function PulseCountPlan(targetPulses: seq<int>, useTolerantFf: bool, useSensitiveFf: bool): seq<PulseCountRun>
  {
    if targetPulses == [] then []
    else
      var last := targetPulses[|targetPulses| - 1];
      PulseCountPlan(targetPulses[..|targetPulses| - 1], useTolerantFf, useSensitiveFf)
        + TargetRuns(last, useTolerantFf, useSensitiveFf)
  }

  /** The runs for one target, one per enabled fitness function. */
  function TargetRuns(target: int, useTolerantFf: bool, useSensitiveFf: bool): seq<PulseCountRun>
  {
    var fs := EnabledFunctions(useTolerantFf, useSensitiveFf);
    seq(|fs|, j requires 0 <= j < |fs| => PulseCountRun(target, fs[j]))
  }

  lemma PulseCountPlanSnoc(targetPulses: seq<int>, i: nat, useTolerantFf: bool, useSensitiveFf: bool)
    requires i < |targetPulses|
    ensures PulseCountPlan(targetPulses[..i + 1], useTolerantFf, useSensitiveFf)
            == PulseCountPlan(targetPulses[..i], useTolerantFf, useSensitiveFf)
               + TargetRuns(targetPulses[i], useTolerantFf, useSensitiveFf)
  {
    assert targetPulses[..i + 1][..i] == targetPulses[..i];
  }

  /**
   * The pulse-count sweep is the target list crossed with the enabled fitness
   * functions: targets in input order, and within one target SENSITIVE before
   * TOLERANT, each only when its flag is set.
   */
  lemma {:induction false} PulseCountPlanShape(targetPulses: seq<int>, useTolerantFf: bool, useSensitiveFf: bool)
    ensures var fs := EnabledFunctions(useTolerantFf, useSensitiveFf);
      var plan := PulseCountPlan(targetPulses, useTolerantFf, useSensitiveFf);
      |plan| == |targetPulses| * |fs|
      && forall i, j :: 0 <= i < |targetPulses| && 0 <= j < |fs| ==>
           plan[i * |fs| + j] == PulseCountRun(targetPulses[i], fs[j])
  {
    var fs := EnabledFunctions(useTolerantFf, useSensitiveFf);
    PulseCountPlanLength(targetPulses, useTolerantFf, useSensitiveFf);
    forall i, j | 0 <= i < |targetPulses| && 0 <= j < |fs|
      ensures PulseCountPlan(targetPulses, useTolerantFf, useSensitiveFf)[i * |fs| + j] == PulseCountRun(targetPulses[i], fs[j])
    {
      PulseCountPlanCell(targetPulses, useTolerantFf, useSensitiveFf, i, j);
    }
  }

  lemma {:induction false} PulseCountPlanLength(targetPulses: seq<int>, useTolerantFf: bool, useSensitiveFf: bool)
    ensures |PulseCountPlan(targetPulses, useTolerantFf, useSensitiveFf)| == |targetPulses| * |EnabledFunctions(useTolerantFf, useSensitiveFf)|
  {
    if targetPulses != [] {
      var n := |targetPulses|;
      PulseCountPlanLength(targetPulses[..n - 1], useTolerantFf, useSensitiveFf);
      GridLength(n, |EnabledFunctions(useTolerantFf, useSensitiveFf)|);
    }
  }

  /** One cell of the pulse-count grid: row `i` is target `i`, column `j` is enabled function `j`. */
  lemma {:induction false} PulseCountPlanCell(targetPulses: seq<int>, useTolerantFf: bool, useSensitiveFf: bool, i: nat, j: nat)
    requires i < |targetPulses| && j < |EnabledFunctions(useTolerantFf, useSensitiveFf)|
    ensures var m := |EnabledFunctions(useTolerantFf, useSensitiveFf)|;
      var plan := PulseCountPlan(targetPulses, useTolerantFf, useSensitiveFf);
      i * m + j < |plan| && plan[i * m + j] == PulseCountRun(targetPulses[i], EnabledFunctions(useTolerantFf, useSensitiveFf)[j])
  {
    var fs := EnabledFunctions(useTolerantFf, useSensitiveFf);
    var n := |targetPulses|;
    var init := targetPulses[..n - 1];
    var prev := PulseCountPlan(init, useTolerantFf, useSensitiveFf);
    var last := TargetRuns(targetPulses[n - 1], useTolerantFf, useSensitiveFf);
    PulseCountPlanLength(init, useTolerantFf, useSensitiveFf);
    assert PulseCountPlan(targetPulses, useTolerantFf, useSensitiveFf) == prev + last;
    GridCell(prev, last, n, |fs|, i, j);
    if i < n - 1 {
      PulseCountPlanCell(init, useTolerantFf, useSensitiveFf, i, j);
      assert init[i] == targetPulses[i];
    }
  }

  /** Cell (i, j) of a grid with one more row appended: an old cell, or column `j` of the new row. */
  lemma GridCell<T>(prev: seq<T>, last: seq<T>, n: nat, m: nat, i: nat, j: nat)
    requires 0 < n && |prev| == (n - 1) * m && |last| == m
    requires i < n && j < m
    ensures i * m + j < |prev + last|
    ensures i < n - 1 ==> i * m + j < |prev| && (prev + last)[i * m + j] == prev[i * m + j]
    ensures i == n - 1 ==> (prev + last)[i * m + j] == last[j]
  {
    GridIndex(i, j, n, m);
  }

  lemma GridLength(n: int, m: nat)
    requires n > 0
    ensures (n - 1) * m + m == n * m
  {
  }

  /** Row `i`, column `j` of an `n` by `m` grid, laid out row after row. */
  lemma GridIndex(i: nat, j: nat, n: nat, m: nat)
    requires i < n && j < m
    ensures i < n - 1 ==> i * m + j < (n - 1) * m
    ensures i == n - 1 ==> i * m + j == (n - 1) * m + j
  {
    if i < n - 1 {
      assert i * m + m == (i + 1) * m;
      MulMonotone(m, i + 1, n - 1);
      assert (i + 1) * m == m * (i + 1) && m * (n - 1) == (n - 1) * m;
    }
  }

  /** The write create_config performs for one run. */
  function PulseCountWrite(run: PulseCountRun): Write
  {
    Write(PulseCountConfigPath(run.target, run.ff), PulseCountConfig(run.target, run.ff))
  }

  function PulseCountWrites(plan: seq<PulseCountRun>): seq<Write>
  {
    seq(|plan|, i requires 0 <= i < |plan| => PulseCountWrite(plan[i]))
  }

  lemma PulseCountWritesAppend(a: seq<PulseCountRun>, b: seq<PulseCountRun>)
    ensures PulseCountWrites(a + b) == PulseCountWrites(a) + PulseCountWrites(b)
  {
  }

  /** A repeated target rewrites its file with the same content rather than adding a file. */
  lemma PulseCountWritesConsistent(plan: seq<PulseCountRun>)
    ensures ConsistentWrites(PulseCountWrites(plan))
  {
    var w := PulseCountWrites(plan);
    forall i, j | 0 <= i < |w| && 0 <= j < |w| && w[i].path == w[j].path ensures w[i].content == w[j].content {
      PulseCountConfigPathInjective(plan[i].target, plan[i].ff, plan[j].target, plan[j].ff);
    }
  }

  /** create_config: writes one rendered config and returns its path. */
  method CreateConfig(fs: Fs, targetPulseCount: int, ff: FitnessFunction) returns (configPath: Path)
    requires GeneratedConfigsDir in fs.dirs
    modifies fs
    ensures configPath == PulseCountConfigPath(targetPulseCount, ff)
    ensures fs.files == old(fs.files)[configPath := PulseCountConfig(targetPulseCount, ff)] && fs.dirs == old(fs.dirs)
  {
    configPath := PulseCountConfigPath(targetPulseCount, ff);
    PulseCountConfigPathForm(targetPulseCount, ff);
    fs.Write(configPath, PulseCountConfig(targetPulseCount, ff));
  }

  /** pulse_count_config_generator: for each target, SENSITIVE then TOLERANT as enabled. */
  method PulseCountConfigGenerator(fs: Fs, targetPulses: seq<int>, useTolerantFf: bool, useSensitiveFf: bool)
    returns (paths: seq<Path>)
    requires GeneratedConfigsDir in fs.dirs
    modifies fs
    ensures var w := PulseCountWrites(PulseCountPlan(targetPulses, useTolerantFf, useSensitiveFf));
      paths == Paths(w) && fs.files == ApplyWrites(old(fs.files), w) && fs.dirs == old(fs.dirs)
  {
    paths := [];
    for i := 0 to |targetPulses|
      invariant var w := PulseCountWrites(PulseCountPlan(targetPulses[..i], useTolerantFf, useSensitiveFf));
        paths == Paths(w) && fs.files == ApplyWrites(old(fs.files), w)
      invariant fs.dirs == old(fs.dirs)
    {
      var targetPulse := targetPulses[i];
      ghost var done := PulseCountWrites(PulseCountPlan(targetPulses[..i], useTolerantFf, useSensitiveFf));
      ghost var sensitive := PulseCountWrite(PulseCountRun(targetPulse, SensitivePulseCount));
      ghost var tolerant := PulseCountWrite(PulseCountRun(targetPulse, TolerantPulseCount));
      PulseCountAdvance(targetPulses, i, useTolerantFf, useSensitiveFf);
      ghost var goal := done + (if useSensitiveFf then [sensitive] else []) + (if useTolerantFf then [tolerant] else []);
      if useSensitiveFf {
        var p := CreateConfig(fs, targetPulse, SensitivePulseCount);
        paths := paths + [p];
        WriteOneMore(old(fs.files), done, sensitive);
        done := done + [sensitive];
      }
      if useTolerantFf {
        var p := CreateConfig(fs, targetPulse, TolerantPulseCount);
        paths := paths + [p];
        WriteOneMore(old(fs.files), done, tolerant);
        done := done + [tolerant];
      }
      assert done == goal;
    }
    assert targetPulses[..|targetPulses|] == targetPulses;
  }

  /** The writes for one more target: those of the targets before it, then SENSITIVE's file, then TOLERANT's, each when enabled. */
  lemma PulseCountAdvance(targetPulses: seq<int>, i: nat, useTolerantFf: bool, useSensitiveFf: bool)
    requires i < |targetPulses|
    ensures PulseCountWrites(PulseCountPlan(targetPulses[..i + 1], useTolerantFf, useSensitiveFf))
            == PulseCountWrites(PulseCountPlan(targetPulses[..i], useTolerantFf, useSensitiveFf))
               + (if useSensitiveFf then [PulseCountWrite(PulseCountRun(targetPulses[i], SensitivePulseCount))] else [])
               + (if useTolerantFf then [PulseCountWrite(PulseCountRun(targetPulses[i], TolerantPulseCount))] else [])
  {
    PulseCountPlanSnoc(targetPulses, i, useTolerantFf, useSensitiveFf);
    PulseCountWritesAppend(PulseCountPlan(targetPulses[..i], useTolerantFf, useSensitiveFf),
                           TargetRuns(targetPulses[i], useTolerantFf, useSensitiveFf));
    TargetWrites(targetPulses[i], useTolerantFf, useSensitiveFf);
  }

  /** One more write: the paths grow by its path and the files by its content. */
  lemma WriteOneMore(files: map<Path, string>, w: seq<Write>, x: Write)
    ensures Paths(w + [x]) == Paths(w) + [x.path]
    ensures ApplyWrites(files, w + [x]) == ApplyWrites(files, w)[x.path := x.content]
  {
    assert (w + [x])[..|w|] == w;
  }

  /** The writes for one target: SENSITIVE's file, then TOLERANT's, each when enabled. */
  lemma TargetWrites(target: int, useTolerantFf: bool, useSensitiveFf: bool)
    ensures PulseCountWrites(TargetRuns(target, useTolerantFf, useSensitiveFf))
            == (if useSensitiveFf then [PulseCountWrite(PulseCountRun(target, SensitivePulseCount))] else [])
               + (if useTolerantFf then [PulseCountWrite(PulseCountRun(target, TolerantPulseCount))] else [])
  {
  }

  // ---------------------------------------------------------------------
  // repeat
  // ---------------------------------------------------------------------

  /** `k` copies of `g` back to back; none when `k` is zero or negative (range(k) is then empty). */
  function Repeated<T>(k: int, g: seq<T>): seq<T>
    decreases k
  {
    if k <= 0 then [] else Repeated(k - 1, g) + g
  }

  /** Slice `m` of width `width`: positions `m * width` up to `(m + 1) * width`. */
  function Chunk<T>(s: seq<T>, m: nat, width: nat): seq<T>
    requires (m + 1) * width <= |s|
  {
    s[m * width..(m + 1) * width]
  }

  /** repeat yields k times as many elements: copy `m` of the buffer occupies positions `m * |g|` onwards. */
  lemma {:induction false} RepeatedShape<T>(k: int, g: seq<T>)
    ensures |Repeated(k, g)| == (if k <= 0 then 0 else k * |g|)
    ensures forall m: nat :: m < k ==> (m + 1) * |g| <= |Repeated(k, g)| && Chunk(Repeated(k, g), m, |g|) == g
    decreases k
  {
    if k > 0 {
      RepeatedShape(k - 1, g);
      var prev := Repeated(k - 1, g);
      var r := Repeated(k, g);
      assert r == prev + g;
      GridLength(k, |g|);
      forall m: nat | m < k ensures (m + 1) * |g| <= |r| && Chunk(r, m, |g|) == g {
        MulMonotone(|g|, m + 1, k);
        if m < k - 1 {
          MulMonotone(|g|, m + 1, k - 1);
          assert Chunk(r, m, |g|) == Chunk(prev, m, |g|);
        } else {
          assert Chunk(r, m, |g|) == r[|prev|..];
        }
      }
    }
  }

  /** repeat(0, g) is empty and repeat(1, g) is g itself. */
  lemma RepeatedEdges<T>(g: seq<T>)
    ensures Repeated(0, g) == [] && Repeated(1, g) == g
  {
    assert Repeated(1, g) == [] + g;
  }

  /** repeat: buffers the drained generator, then yields the buffer `repeatCount` times. */
  method Repeat<T>(repeatCount: int, generatorResults: seq<T>) returns (r: seq<T>)
    ensures r == Repeated(repeatCount, generatorResults)
  {
    r := [];
    var i := 0;
    while i < repeatCount
      invariant 0 <= i <= (if repeatCount < 0 then 0 else repeatCount)
      invariant r == Repeated(i, generatorResults)
    {
      for j := 0 to |generatorResults|
        invariant r == Repeated(i, generatorResults) + generatorResults[..j]
      {
        r := r + [generatorResults[j]];
        assert generatorResults[..j + 1] == generatorResults[..j] + [generatorResults[j]];
      }
      assert generatorResults[..|generatorResults|] == generatorResults;
      i := i + 1;
    }
  }

  // ---------------------------------------------------------------------
  // Composing a sweep plan
  // ---------------------------------------------------------------------

  /** The generator expression a user selects: one of the two sweeps, possibly wrapped in repeat. */
  datatype Sweep =
    | SensitivitySweep
    | PulseCountSweep(targetPulses: seq<int>, useTolerantFf: bool, useSensitiveFf: bool)
    | RepeatSweep(repeatCount: int, inner: Sweep)

  /** The files a sweep writes; repeat drains its inner generator once, so its writes happen once. */
  function SweepWrites(s: Sweep): seq<Write>
  {
    match s
    case SensitivitySweep => SensitivityWrites(CircuitIds())
    case PulseCountSweep(targets, tol, sens) => PulseCountWrites(PulseCountPlan(targets, tol, sens))
    case RepeatSweep(_, inner) => SweepWrites(inner)
  }

  /** The paths a sweep yields, in order. */
  function SweepPaths(s: Sweep): seq<Path>
  {
    match s
    case SensitivitySweep => Paths(SweepWrites(s))
    case PulseCountSweep(_, _, _) => Paths(SweepWrites(s))
    case RepeatSweep(k, inner) => Repeated(k, SweepPaths(inner))
  }

  /** A file name joined under the configs directory stays under it and, being space-free, yields a space-free path. */
  lemma UnderConfigsDir(name: string)
    requires ' ' !in name
    ensures HasPrefix(GeneratedConfigsDir + "/" + name, GeneratedConfigsDir + "/")
    ensures ' ' !in GeneratedConfigsDir + "/" + name
  {
    var pre := GeneratedConfigsDir + "/";
    assert ' ' !in pre;
    assert (pre + name)[..|pre|] == pre;
  }

  lemma SensitivityPathsUnderConfigsDir(ids: seq<int>)
    ensures ConsistentWrites(SensitivityWrites(ids))
    ensures forall p :: p in Paths(SensitivityWrites(ids)) ==> HasPrefix(p, GeneratedConfigsDir + "/") && ' ' !in p
  {
    SensitivityWritesConsistent(ids);
    var w := SensitivityWrites(ids);
    var ps := Paths(w);
    forall p | p in ps ensures HasPrefix(p, GeneratedConfigsDir + "/") && ' ' !in p {
      var i :| 0 <= i < |ps| && ps[i] == p;
      assert w[i] == SensitivityWrite(ids[i]);
      SensitivityPathUnderConfigsDir(ids[i]);
    }
  }

  lemma SensitivityPathUnderConfigsDir(circuitId: int)
    ensures HasPrefix(SensitivityConfigPath(circuitId), GeneratedConfigsDir + "/") && ' ' !in SensitivityConfigPath(circuitId)
  {
    var name := IntToString(circuitId) + ".ini";
    SensitivityConfigPathForm(circuitId);
    IntToStringAlphabet(circuitId);
    NoSeparators(IntToString(circuitId), ".ini", "");
    assert name + "" == name;
    UnderConfigsDir(name);
  }

  lemma PulseCountPathsUnderConfigsDir(plan: seq<PulseCountRun>)
    ensures ConsistentWrites(PulseCountWrites(plan))
    ensures forall p :: p in Paths(PulseCountWrites(plan)) ==> HasPrefix(p, GeneratedConfigsDir + "/") && ' ' !in p
  {
    PulseCountWritesConsistent(plan);
    var w := PulseCountWrites(plan);
    var ps := Paths(w);
    forall p | p in ps ensures HasPrefix(p, GeneratedConfigsDir + "/") && ' ' !in p {
      var i :| 0 <= i < |ps| && ps[i] == p;
      assert w[i] == PulseCountWrite(plan[i]);
      assert p == PulseCountConfigPath(plan[i].target, plan[i].ff);
      PulseCountPathUnderConfigsDir(plan[i].target, plan[i].ff);
    }
  }

  lemma PulseCountPathUnderConfigsDir(t: int, ff: FitnessFunction)
    ensures HasPrefix(PulseCountConfigPath(t, ff), GeneratedConfigsDir + "/") && ' ' !in PulseCountConfigPath(t, ff)
  {
    var name := IntToString(t) + Suffix(ff);
    PulseCountConfigPathForm(t, ff);
    IntToStringAlphabet(t);
    SuffixAlphabet(ff);
    NoSeparators(IntToString(t), Suffix(ff), "");
    assert name + "" == name;
    UnderConfigsDir(name);
  }

  /**
   * Every yielded path is a file the sweep wrote, its last write holding the
   * config for it; all paths live under the configs directory and contain no space.
   */
  lemma {:induction false} SweepPathsWritten(s: Sweep)
    ensures ConsistentWrites(SweepWrites(s))
    ensures forall p :: p in SweepPaths(s) ==> p in Paths(SweepWrites(s))
    ensures forall p :: p in Paths(SweepWrites(s)) ==> HasPrefix(p, GeneratedConfigsDir + "/") && ' ' !in p
  {
    match s {
      case SensitivitySweep =>
        SensitivityPathsUnderConfigsDir(CircuitIds());
      case PulseCountSweep(targets, tol, sens) =>
        PulseCountPathsUnderConfigsDir(PulseCountPlan(targets, tol, sens));
      case RepeatSweep(k, inner) =>
        SweepPathsWritten(inner);
        RepeatedMembers(k, SweepPaths(inner));
    }
  }

  /** Every element of a repetition comes from the repeated buffer. */
  lemma {:induction false} RepeatedMembers<T>(k: int, g: seq<T>)
    ensures forall x :: x in Repeated(k, g) ==> x in g
    decreases k
  {
    if k > 0 {
      RepeatedMembers(k - 1, g);
      assert Repeated(k, g) == Repeated(k - 1, g) + g;
    }
  }

  /** A repeated sweep yields `k` times as many paths as the inner one, and writes no more files. */
  lemma RepeatSweepCounts(k: int, inner: Sweep)
    ensures |SweepPaths(RepeatSweep(k, inner))| == (if k <= 0 then 0 else k * |SweepPaths(inner)|)
    ensures SweepWrites(RepeatSweep(k, inner)) == SweepWrites(inner)
  {
    RepeatedShape(k, SweepPaths(inner));
  }

  /** Runs the selected generator to exhaustion; repeat drains its inner generator exactly once. */
  method RunSweep(fs: Fs, s: Sweep) returns (paths: seq<Path>)
    requires GeneratedConfigsDir in fs.dirs
    modifies fs
    ensures paths == SweepPaths(s)
    ensures fs.files == ApplyWrites(old(fs.files), SweepWrites(s)) && fs.dirs == old(fs.dirs)
    decreases s
  {
    match s {
      case SensitivitySweep =>
        paths := SensitivityConfigGenerator(fs);
      case PulseCountSweep(targets, tol, sens) =>
        paths := PulseCountConfigGenerator(fs, targets, tol, sens);
      case RepeatSweep(k, inner) =>
        var generatorResults := RunSweep(fs, inner);
        paths := Repeat(k, generatorResults);
    }
  }
}

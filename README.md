# BitstreamEvolution batch tooling, modelled in Dafny

This project models the two orchestration scripts of BitstreamEvolution:

- `src/tools/generate_configs.py`, the batch generator. It makes the configs and results directories. It drains one config generator: the sensitivity sweep, the pulse-count sweep, or either wrapped in `repeat`. Each step of the generator writes a partial config file and yields its path. Then it writes `data/runGeneratedConfigs.sh`: a fixed head, one guarded `python3 src/evolve.py …` block per yielded path, and a tail holding the command count.
- `src/evolve.py`, the multi-run driver. It plans one output folder per run from a single time string. It runs the search once per run. After each run of a multi-run batch it copies the run's artifacts into the run's folder (`config.ini`, `best.asc`, the `experiment_asc` tree and the six live-data logs) and clears the logs. Finally it reports the folders.

The disk is a value `Disk(files, dirs)`: a map from path to content plus the set of existing directories. The class `FileSystem.Fs` holds that state and has one method per library call the scripts make:

- `open(…, "w")` + `write`
- further `write`s
- `os.makedirs`
- `shutil.copy`
- `shutil.copytree`

`str.format` is a typed template (`Templates`): literal pieces and named holes. `Render` fails with the missing name (Python's `KeyError`) and ignores unused bindings. `str(int)` is `Decimal.IntToString`, with a reference parser as its inverse.

Modules, one per file:

| file | module | what it holds |
|---|---|---|
| wrappers.dfy | Wrappers | `Option`, `Result` |
| text.dfy | Text | prefixes, containment, taking one shell word |
| decimal.dfy | Decimal | `str(int)` and its inverse |
| template.dfy | Templates | `str.format` over literal pieces and named holes |
| filesystem.dfy | FileSystem | paths (`os.path.join`, `os.path.dirname`), `os.makedirs` ancestors, the `Fs` class and its primitives |
| sweeps.dfy | Sweeps | `sensitivity_config_generator`, `pulse_count_config_generator` with `create_config`, `repeat`, the `Sweep` a user selects |
| shell_driver.dfy | ShellDriver | the three bash templates, the synthesis loop, a decoder that reads the script back, the whole generator script |
| evolve.dfy | Evolve | `copy_file`, `copy_tree`, run-folder planning, the run loop with artifact capture, the final report |

A generator is described by the sequence of writes it performs, and its method is proved to perform exactly those writes and to yield their paths.

The run loop of `evolve.py` is described by a plan, `BatchSteps`: a sequence of `Step(run, action)`. Its actions are log lines, the engine's `populate` and `evolve`, file copies, tree copies and `clear_logs`. `Replay` executes any prefix of the plan on a disk; a failing step (an exception in the script) stops it. The methods that run the loop return the trace they executed. They prove that the disk is `Replay` of that trace, and that the trace is either the whole plan or a prefix of it ending in the failing step. Lemmas about the plan then give the properties of the loop.

The generated script is checked against a reader, `ShellDriver.DecodeScript`. The reader takes the config path of each block as the first shell word after the command prefix. It accepts the block only if the text matches the block for that path, so `ShellDriver.DecodeBlocksSound` follows largely from that check. The tail reader parses the count with `Decimal.ParseInt` and compares the closing text with the fixed closing. `ShellDriver.DecodeTailSound` therefore rests on `Decimal.ParseIntSound` and `ShellDriver.TailText`. The main result is `ShellDriver.ScriptRoundTrip`: every path word and the count are read back whole.

The search engine and the logger are collaborators passed in as functions on the file map (`Evolve.Collaborators`). `None` means the call raised.

Two points where the model and the program's own text differ:

- The docstring of `pulse_count_config_generator` says tolerant runs before sensitive. The code yields SENSITIVE first (src/tools/generate_configs.py:106-109). The model follows the code, and `Sweeps.PulseCountPlanShape` states that order.
- The sensitivity template's literal text is split into two pieces around the line `test_circuit = …`. Rendering gives the same string as the source template.

## Model

| member | source | states |
|---|---|---|
| Templates.Render | src/tools/generate_configs.py:31-32 | formatting fails only on a placeholder that has no value, and names that placeholder |
| Templates.RenderFailsAtFirst | src/tools/generate_configs.py:31-32 | a failed formatting names the first placeholder, in template order, that has no value |
| Templates.RenderSucceedsIff | src/tools/generate_configs.py:31-32 | formatting succeeds exactly when every placeholder has a value |
| Templates.RenderIgnoresUnused | src/tools/generate_configs.py:32 | extra values passed to format change nothing |
| Templates.RenderAppend | src/tools/generate_configs.py:31-32 | formatting a template made of two parts formats each part and concatenates them |
| Decimal.IntToStringRoundTrip | src/tools/generate_configs.py:49 | parsing str(i) back gives i, for negative numbers too |
| Decimal.NatToStringRoundTrip | src/tools/generate_configs.py:49 | the digits of a natural number have that number as their value |
| Decimal.NatToString | src/tools/generate_configs.py:49 | `str(n)` for n >= 0: nonempty digits with no leading zero; see Decimal.NatToStringRoundTrip for its value |
| Decimal.IntToStringInjective | src/tools/generate_configs.py:95 | two numbers print the same exactly when they are equal |
| Decimal.IntToStringAlphabet | src/tools/generate_configs.py:95 | a printed number is nonempty and has no space and no '/' |
| Decimal.ParseIntSound | src/tools/generate_configs.py:49 | any text the reference parser accepts is exactly str of the number it reads, so parser and str are inverse in both directions |
| Decimal.IntToString | src/tools/generate_configs.py:49 | no contract of its own; see Decimal.IntToStringRoundTrip, Decimal.IntToStringInjective and Decimal.IntToStringAlphabet |
| FileSystem.JoinName | src/evolve.py:60 | joining a plain name onto a directory writes `dir/name`, and that path's dirname is the directory |
| FileSystem.Join | src/evolve.py:60 | no contract of its own; see FileSystem.JoinName and Evolve.RunFolderInjective |
| FileSystem.Dirname | src/evolve.py:27 | no contract of its own; see FileSystem.JoinName and Evolve.RunFolderParent |
| FileSystem.Ancestors | src/evolve.py:27 | the directory itself is among the directories os.makedirs leaves; see FileSystem.Fs.MakeDirs |
| FileSystem.CopiedTree | src/evolve.py:35 | after a tree copy, the destination is a directory, every file under `src/` appears rebased under `dest/` with its content, and no file outside `dest/` changes or appears |
| FileSystem.Fs.Write | src/tools/generate_configs.py:51-52 | opening for writing and writing leaves exactly that text at the path, and nothing else changes |
| FileSystem.Fs.Append | src/tools/generate_configs.py:185 | a further write extends the open file |
| FileSystem.Fs.MakeDirs | src/evolve.py:27 | os.makedirs adds the directory and all its ancestors |
| FileSystem.Fs.Copy | src/evolve.py:28 | shutil.copy succeeds exactly when the source is a file, and then only the destination changes, to the source's content |
| FileSystem.Fs.CopyTree | src/evolve.py:35 | shutil.copytree succeeds exactly when the source is a directory, and then the disk is the copied tree |
| FileSystem.Fs.Replace | src/evolve.py:69-70 | a collaborator call succeeds exactly when it gives new files; then the files are those, otherwise unchanged; directories never change |
| Sweeps.ApplyConsistentWrites | src/tools/generate_configs.py:97-102 | when a repeated path is always written with the same content, the files afterwards are exactly the old ones plus the written paths, each holding its content |
| Sweeps.ApplyWritesAppend | src/tools/generate_configs.py:182 | performing two groups of writes one after the other is performing them together |
| Sweeps.RangeBelowStop | src/tools/generate_configs.py:47 | `range(start, stop, step)` has an i-th element exactly when `start + step*i < stop` |
| Sweeps.CircuitIdsShape | src/tools/generate_configs.py:47 | the sweep visits 50 circuit ids, the i-th being 10*(i+1) |
| Sweeps.Range | src/tools/generate_configs.py:47 | no contract of its own; see Sweeps.RangeBelowStop |
| Sweeps.CircuitIds | src/tools/generate_configs.py:47 | no contract of its own; `range(10,510,10)`, see Sweeps.CircuitIdsShape |
| Sweeps.SensitivityConfig | src/tools/generate_configs.py:52-55 | no contract of its own; see Sweeps.SensitivityConfigText and Sweeps.SensitivityConfigNamesCircuit |
| Sweeps.SensitivityConfigText | src/tools/generate_configs.py:36-42 | a sensitivity config is the template with the base config path and the circuit id filled in |
| Sweeps.SensitivityConfigNamesCircuit | src/tools/generate_configs.py:41 | each sensitivity config holds the line `test_circuit = data/saved_bests/<id>.asc` |
| Sweeps.SensitivityConfigPath | src/tools/generate_configs.py:49 | no contract of its own; see Sweeps.SensitivityConfigPathForm and Sweeps.SensitivityConfigPathInjective |
| Sweeps.SensitivityConfigPathForm | src/tools/generate_configs.py:49 | the config path is `data/GeneratedConfigs/<id>.ini` and lies directly in the configs directory |
| Sweeps.SensitivityConfigPathInjective | src/tools/generate_configs.py:49 | two circuit ids share a config path exactly when they are equal |
| Sweeps.SensitivitySweepShape | src/tools/generate_configs.py:45-57 | the sweep writes 50 distinct files, for ids 10 to 500 in increasing order, each naming its circuit |
| Sweeps.SensitivityConfigGenerator | src/tools/generate_configs.py:45-57 | the generator yields the paths of the sweep's writes in order and leaves the disk as those writes do |
| Sweeps.SensitivityWrites | src/tools/generate_configs.py:45-57 | no contract of its own; the writes of `sensitivity_config_generator`, see Sweeps.SensitivitySweepShape and Sweeps.SensitivityConfigGenerator |
| Sweeps.PulseCountConfigText | src/tools/generate_configs.py:60-68 | a pulse-count config is the template with the base config, the fitness function name and the target filled in |
| Sweeps.PulseCountConfig | src/tools/generate_configs.py:98-102 | no contract of its own; see Sweeps.PulseCountConfigText |
| Sweeps.PulseCountConfigPath | src/tools/generate_configs.py:95 | no contract of its own; see Sweeps.PulseCountConfigPathForm and Sweeps.PulseCountConfigPathInjective |
| Sweeps.PulseCountConfigPathForm | src/tools/generate_configs.py:95 | the path is `data/GeneratedConfigs/<target>_with__<FF>.ini` and lies directly in the configs directory |
| Sweeps.PulseCountConfigPathInjective | src/tools/generate_configs.py:95 | two runs share a config path exactly when target and fitness function are both equal |
| Sweeps.CreateConfig | src/tools/generate_configs.py:93-103 | create_config returns the run's path, and that path then holds the run's config |
| Sweeps.PulseCountWritesConsistent | src/tools/generate_configs.py:93-103 | a repeated target rewrites its file with identical content rather than creating another |
| Sweeps.EnabledFunctions | src/tools/generate_configs.py:106-109 | no contract of its own; see Sweeps.TargetWrites and Sweeps.PulseCountPlanShape |
| Sweeps.PulseCountPlan | src/tools/generate_configs.py:105-109 | no contract of its own; see Sweeps.PulseCountPlanShape, Sweeps.PulseCountPlanLength and Sweeps.PulseCountPlanCell |
| Sweeps.PulseCountPlanShape | src/tools/generate_configs.py:105-109 | the runs are the targets in input order crossed with the enabled functions, SENSITIVE before TOLERANT, so there are `len(targets)` times (number of enabled flags) of them |
| Sweeps.PulseCountPlanLength | src/tools/generate_configs.py:105-109 | the number of runs is the number of targets times the number of enabled functions |
| Sweeps.PulseCountPlanCell | src/tools/generate_configs.py:105-109 | entry `i*m + j` is target i with enabled function j |
| Sweeps.TargetWrites | src/tools/generate_configs.py:106-109 | one target writes SENSITIVE's file when its flag is set, then TOLERANT's when its flag is set |
| Sweeps.PulseCountConfigGenerator | src/tools/generate_configs.py:70-109 | the generator yields the paths of the planned runs in order and leaves the disk as their writes do |
| Sweeps.PulseCountWrites | src/tools/generate_configs.py:93-109 | no contract of its own; the writes of `pulse_count_config_generator`, see Sweeps.PulseCountWritesConsistent and Sweeps.PulseCountConfigGenerator |
| Sweeps.Repeat | src/tools/generate_configs.py:128-131 | repeat yields k copies of the buffered list, back to back |
| Sweeps.Repeated | src/tools/generate_configs.py:129-131 | no contract of its own; see Sweeps.RepeatedShape, Sweeps.RepeatedEdges and Sweeps.RepeatedMembers |
| Sweeps.RepeatedShape | src/tools/generate_configs.py:128-131 | the output has `k * len` elements (none for k <= 0), and copy m occupies its own slice, equal to the buffer |
| Sweeps.RepeatedEdges | src/tools/generate_configs.py:129-131 | repeating 0 times gives nothing, and repeating once gives the list itself |
| Sweeps.RepeatedMembers | src/tools/generate_configs.py:130-131 | every repeated element comes from the buffer |
| Sweeps.RepeatSweepCounts | src/tools/generate_configs.py:128 | a repeated sweep yields k times as many paths, and the disk receives exactly the inner sweep's writes, even for k <= 0 |
| Sweeps.Sweep | src/tools/generate_configs.py:134-139 | no contract of its own; the generator expression selected at line 139, see Sweeps.RunSweep |
| Sweeps.SweepWrites | src/tools/generate_configs.py:128-139 | no contract of its own; what draining the selection writes, `repeat` draining its input once; see Sweeps.RunSweep and Sweeps.RepeatSweepCounts |
| Sweeps.SweepPaths | src/tools/generate_configs.py:128-139 | no contract of its own; what the selection yields, in order; see Sweeps.RunSweep and Sweeps.SweepPathsWritten |
| Sweeps.RunSweep | src/tools/generate_configs.py:134-139 | running the selected generator yields its paths and performs its writes once |
| Sweeps.SweepPathsWritten | src/tools/generate_configs.py:45-131 | every yielded path is written, the writes are consistent, and all paths lie under the configs directory and contain no space |
| ShellDriver.EvolveCommandText | src/tools/generate_configs.py:155 | each command is `python3 src/evolve.py -c <path> -d "running config at: <path>" -o data/GeneratedConfigsResults` |
| ShellDriver.EvolveCommand | src/tools/generate_configs.py:187-192 | no contract of its own; see ShellDriver.EvolveCommandText |
| ShellDriver.BlockText | src/tools/generate_configs.py:158-162 | a block is the command, the `\|\| ((ErrorCounter+=1)) && FailedCommands+=$'…'` guard around the same command, and a blank line |
| ShellDriver.Block | src/tools/generate_configs.py:186-193 | no contract of its own; see ShellDriver.BlockText and ShellDriver.DecodeBlocksStep |
| ShellDriver.TailText | src/tools/generate_configs.py:164-175 | the tail prints the failure summary with the command count filled in |
| ShellDriver.Tail | src/tools/generate_configs.py:199 | no contract of its own; see ShellDriver.TailText and ShellDriver.DecodeTailRoundTrip |
| ShellDriver.BlocksSnoc | src/tools/generate_configs.py:182-194 | one more path adds one more block at the end |
| ShellDriver.WriteHead | src/tools/generate_configs.py:177-179 | opening the script and writing the head leaves just the head |
| ShellDriver.WriteBlocks | src/tools/generate_configs.py:181-197 | the loop appends one block per path, in order, and counts them |
| ShellDriver.SynthesizeScript | src/tools/generate_configs.py:177-199 | the script is the head, the blocks and the tail, and the count it reports is the number of blocks, zero included |
| ShellDriver.DecodeBlocksStep | src/tools/generate_configs.py:185-194 | reading a block back gives its config path and leaves the text after the block |
| ShellDriver.DecodeBlocksRoundTrip | src/tools/generate_configs.py:182-197 | reading the blocks back gives the paths in order and stops at the tail |
| ShellDriver.DecodeBlocksSound | src/tools/generate_configs.py:182-197 | whatever blocks are read back, they re-render to the exact text they came from |
| ShellDriver.DecodeTailRoundTrip | src/tools/generate_configs.py:199 | the count reads back from the tail |
| ShellDriver.DecodeTailSound | src/tools/generate_configs.py:199 | any text the tail reader accepts (fixed opening, one word the number parser accepts, fixed closing) is exactly the tail for the count read |
| ShellDriver.ScriptRoundTrip | src/tools/generate_configs.py:177-199 | a script for space-free paths reads back as those paths and a count equal to their number |
| ShellDriver.DecodeScriptSound | src/tools/generate_configs.py:177-199 | any text that reads back as a script is exactly the head, the blocks and the tail for what was read |
| ShellDriver.Script | src/tools/generate_configs.py:177-199 | no contract of its own; see ShellDriver.SynthesizeScript and ShellDriver.ScriptRoundTrip |
| ShellDriver.GeneratedScriptReadsBack | src/tools/generate_configs.py:177-199 | the script written for any sweep reads back as the yielded paths, with a count equal to their number |
| ShellDriver.ScriptNotGenerated | src/tools/generate_configs.py:16-17 | the script path is never one of the generated config paths |
| ShellDriver.WritesCommute | src/tools/generate_configs.py:182 | one script write commutes with the config writes when the script is not among their paths, the key step for the lazy order |
| ShellDriver.InterleavedFiles | src/tools/generate_configs.py:177-197 | the files in the source's lazy order: head first, then each config write followed by its block; the script always exists |
| ShellDriver.InterleavedIsDrained | src/tools/generate_configs.py:177-197 | alternating config writes and blocks gives the config writes' files with the script holding the head and one block per path |
| ShellDriver.LazyBatchFiles | src/tools/generate_configs.py:128-199 | no contract of its own; see ShellDriver.LazyOrderSameFiles |
| ShellDriver.LazyOrderSameFiles | src/tools/generate_configs.py:128-199 | for every sweep, the files left in the source's lazy order (alternating, or all config writes first for `repeat`, which drains its input) equal the drained-then-script files `ShellDriver.GenerateBatch` produces |
| ShellDriver.DataIsAncestor | src/tools/generate_configs.py:16-23 | making the configs directory also makes `data`, where the script goes |
| ShellDriver.ScriptParent | src/tools/generate_configs.py:17 | the script's parent directory is `data` |
| ShellDriver.EnsureDir | src/tools/generate_configs.py:22-27 | making a directory only when it is missing leaves it and its ancestors in place |
| ShellDriver.GenerateBatch | src/tools/generate_configs.py:15-199 | the whole generator script: the two directories exist, the sweep's writes are on disk, the script holds the head, a block per yielded path and the tail, and the count is the number of paths |
| ShellDriver.ShippedSweepShape | src/tools/generate_configs.py:139 | the selected sweep yields three paths, the last two the same file |
| ShellDriver.SensitiveOnlyPath | src/tools/generate_configs.py:105-107 | with only SENSITIVE enabled, path i is target i's SENSITIVE config |
| Evolve.CopyFileEffect | src/evolve.py:23-28 | copy_file succeeds exactly when dest has a parent and src is a file; then dest holds src's content and its parent exists; no other file changes; directories only grow |
| Evolve.CopyFile | src/evolve.py:23-28 | copy_file makes the parent and copies; its outcome is `CopyFileSpec` of the old disk |
| Evolve.CopyTreeEffect | src/evolve.py:30-35 | copy_tree succeeds exactly when dest has a parent and the source is a directory once the parent is made; then every file under src appears under dest, and nothing outside dest changes |
| Evolve.CopyTree | src/evolve.py:30-35 | copy_tree makes the parent and copies the tree; its outcome is `CopyTreeSpec` of the old disk |
| Evolve.CopyFileSpec | src/evolve.py:23-28 | no contract of its own; see Evolve.CopyFileEffect and Evolve.CopyFile |
| Evolve.CopyTreeSpec | src/evolve.py:30-35 | no contract of its own; see Evolve.CopyTreeEffect and Evolve.CopyTree |
| Evolve.PlanRunFolders | src/evolve.py:51-62 | planning gives the run folders and logs the header and each folder, nothing when there is at most one run |
| Evolve.RunFolder | src/evolve.py:60 | no contract of its own; see Evolve.RunFolderInjective, Evolve.RunFolderParent and Evolve.RunFolderIsCaptureTarget |
| Evolve.RunFolders | src/evolve.py:52-62 | no contract of its own; see Evolve.RunFoldersCount and Evolve.RunFoldersShape |
| Evolve.PlanLog | src/evolve.py:58-62 | no contract of its own; see Evolve.PlanRunFolders |
| Evolve.RunFoldersCount | src/evolve.py:52-62 | exactly num_runs folders when num_runs > 1, otherwise none, folder i named from run i |
| Evolve.RunFolderInjective | src/evolve.py:60 | two runs share a folder exactly when they are the same run |
| Evolve.RunFoldersShape | src/evolve.py:59-62 | the planned folders are distinct and, for a plain runs directory, sit directly inside it |
| Evolve.RunFolderParent | src/evolve.py:60 | a run folder's parent is the runs directory |
| Evolve.RunFolderIsCaptureTarget | src/evolve.py:60 | a run folder is a nonempty name without a trailing '/' and never the workspace directory |
| Evolve.EnginePerRun | src/evolve.py:64-70 | the engine is called populate then evolve, once for each run, in run order |
| Evolve.EngineScheduleShape | src/evolve.py:64-70 | calls 2r and 2r+1 are run r's populate and evolve |
| Evolve.EngineActions | src/evolve.py:65-70 | no contract of its own; see Evolve.EnginePerRun and Evolve.EngineScheduleShape |
| Evolve.RunsInOrder | src/evolve.py:64 | the steps of the batch never go back to an earlier run |
| Evolve.RunCapture | src/evolve.py:64-89 | the steps of run r are exactly that run's actions, with run r's folder |
| Evolve.BatchSteps | src/evolve.py:64-89 | no contract of its own; see Evolve.RunCapture, Evolve.RunsInOrder and Evolve.EnginePerRun |
| Evolve.Plan | src/evolve.py:64-89 | one entry per run, `num_runs` of them (none when it is not positive); see Evolve.RunCapture for each entry |
| Evolve.RunActions | src/evolve.py:65-89 | no contract of its own; see Evolve.MultiRunActions and Evolve.SingleRunCapturesNothing |
| Evolve.MultiRunActions | src/evolve.py:65-89 | in a multi-run batch a run logs its start, populates, evolves, logs completion, copies its artifacts and clears the logs |
| Evolve.CaptureActionsAt | src/evolve.py:74-89 | the capture copies data/config.ini, the best file, the asc tree and `workspace/<name>` for each of the six live-data logs into the folder, then clears the logs |
| Evolve.CaptureActions | src/evolve.py:74-89 | no contract of its own; see Evolve.CaptureActionsAt and Evolve.ClearLogsOncePerRun |
| Evolve.CaptureCopies | src/evolve.py:77-86 | no contract of its own; see Evolve.CaptureActionsAt and Evolve.RunActionsWriteUnder |
| Evolve.ArtifactCopies | src/evolve.py:77-81 | no contract of its own; the config.ini, best.asc and experiment_asc copies, see Evolve.CaptureActionsAt |
| Evolve.LiveDataCopies | src/evolve.py:83-86 | no contract of its own; see Evolve.LiveDataCopiesShape and Evolve.PlannedLiveDataLands |
| Evolve.LiveDataCopiesShape | src/evolve.py:48-49 | the six live-data copies go from `workspace/<name>` to distinct files directly in the run folder |
| Evolve.ClearLogsOncePerRun | src/evolve.py:83-89 | clear_logs is a run's last step, occurs once per run, and every copy comes before it |
| Evolve.SingleRunCapturesNothing | src/evolve.py:52-72 | with num_runs <= 1 the batch copies nothing and never clears the logs |
| Evolve.ReplayAppend | src/evolve.py:64-89 | running two step sequences in turn is running them together, stopping at the first failure |
| Evolve.ReplayStaysFailed | src/evolve.py:64-89 | once a step fails, no later step changes the outcome |
| Evolve.ExecStep | src/evolve.py:64-89 | no contract of its own; see Evolve.Perform, which carries it out on the disk, and Evolve.CopyFileEffect / Evolve.CopyTreeEffect for the copy steps |
| Evolve.Replay | src/evolve.py:64-89 | no contract of its own; see Evolve.ReplayAppend, Evolve.ReplayStaysFailed and Evolve.RunBatch |
| Evolve.ExecStepSpares | src/evolve.py:64-89 | a step whose copies land in another folder, with collaborators that keep out of a folder, leaves every path in that folder as it was |
| Evolve.ReplaySpares | src/evolve.py:64-89 | steps that leave a path alone leave it alone when replayed, whether they succeed or one raises |
| Evolve.RunFoldersApart | src/evolve.py:60 | no path lies inside the folders of two different runs |
| Evolve.RunActionsWriteUnder | src/evolve.py:77-86 | every copy of a run lands inside that run's folder |
| Evolve.FlattenLater | src/evolve.py:64 | the steps after the first n runs belong to later runs and carry those runs' actions |
| Evolve.CapturedFolderKept | src/evolve.py:64-89 | once runs 0..r have been replayed, every later step, successful or raising, leaves every path in run r's folder as it was, so captured folders are not rolled back; assumes populate, evolve and clear_logs keep out of that folder |
| Evolve.CopiesLand | src/evolve.py:83-86 | after copies into distinct destinations none of which is a source, each destination holds its source's original content |
| Evolve.LiveDataLands | src/evolve.py:83-86 | after a run's live-data copies succeed, the folder holds each log as the workspace held it |
| Evolve.PlannedLiveDataLands | src/evolve.py:77-86 | the same for the folder planned for the run |
| Evolve.Perform | src/evolve.py:64-89 | executing one step extends the trace and keeps the disk equal to its replay |
| Evolve.RunEngine | src/evolve.py:65-70 | a run's start line, populate and evolve are executed, or the trace stops at the one that failed |
| Evolve.CopyLiveData | src/evolve.py:83-86 | the loop over the six logs executes their copies in order, or stops at the failing one |
| Evolve.CaptureRun | src/evolve.py:72-89 | the capture is executed in order, or stops at the step that raised |
| Evolve.ExecuteRun | src/evolve.py:64-89 | one iteration executes that run's actions, or stops at the failing one |
| Evolve.RunBatch | src/evolve.py:64-89 | the run loop's disk is the replay of its trace, and the trace is the whole plan, or a prefix of it ending in the step that failed |
| Evolve.ReportCompletion | src/evolve.py:92-96 | the report is the completion message, followed by the folder list when there is more than one run |
| Evolve.ReportListsFolders | src/evolve.py:92-96 | the report starts with the completion message and lists every planned folder in planning order, exactly when num_runs > 1 |
| Evolve.FinalReport | src/evolve.py:92-96 | no contract of its own; see Evolve.ReportCompletion and Evolve.ReportListsFolders |
| Evolve.EvolveScript | src/evolve.py:51-96 | evolve.py as a whole: the folders are planned, the batch runs as its plan says or stops at the failing step, and the log is the planning log then the final report |

## Left out

- ShellDriver.GenerateBatch: drains the generator and then writes the script, where the source interleaves them. The source's order is `ShellDriver.LazyBatchFiles`, and `ShellDriver.LazyOrderSameFiles` proves the final files are the same. The disk states between steps, which only differ while the script runs, are not compared.
- `os.chmod` and the `PermissionError` branch, and every `print` (the completion message, the chmod advice): permission plumbing and console output.
- What the generated bash script does when run (failure counting). The script is modelled as text only.
- The `input()` prompt, `datetime.now()`/`strftime` and the `Config`/`ConfigParser` reads. `time_string`, `num_runs`, `runs_dir`, the best file and the asc directory are parameters of `Evolve.EvolveScript`.
- `Microcontroller`, `CircuitPopulation` and `Logger` internals. `populate`, `evolve` and `clear_logs` are collaborators that map the file map to a new one, or give `None` when they raise, which ends the script; they never change directories. The logger's info and event lines are recorded in the trace and the returned log, not written to disk.
- Sweeps.PulseCountSweep: takes both flags explicitly; the defaults `use_tolerant_ff=True` and `use_sensitive_ff=True` (src/tools/generate_configs.py:71-72) are not modelled, since the call at line 139 and the options at lines 137-138 pass both.
- ShellDriver.SynthesizeScript: takes the script path as a parameter; `ShellDriver.GenerateBatch` calls it with `data/runGeneratedConfigs.sh`.
- ShellDriver.GenerateBatch: requires every existing directory's ancestors to exist too (true of any real disk) so that the `os.path.isdir` guards give the same directories as an unconditional `os.makedirs`.
- Evolve.LiveDataLands: requires the folder to be a plain name other than `workspace`; `Evolve.RunFolderIsCaptureTarget` proves every planned folder meets it.
- Evolve.RunBatch: the effect of the whole capture on disk is proved for the six live-data copies only (`Evolve.PlannedLiveDataLands`). `config.ini`, `best.asc` and `experiment_asc` are pinned down per step by `Evolve.CopyFileEffect` and `Evolve.CopyTreeEffect`, not as a combined final state.
- Evolve.RunBatch: a raising collaborator call is modelled as writing nothing (`None` leaves the disk as it was), whereas a real engine may already have written logs when it raises.
- Evolve.CapturedFolderKept: that earlier runs' folders survive later runs is proved only under `Evolve.CollaboratorsSpare`, the assumption that populate, evolve and clear_logs never touch a path inside a run's folder. The engine's code is not part of this model, so the assumption is not proved.
- FileSystem.Fs.CopyTree, and through it Evolve.CopyTree and Evolve.CopyTreeEffect: do not fail when the destination already exists (shutil.copytree raises `FileExistsError`), and do not distinguish files from directories beyond the two separate collections. A file and a directory may share a path (os.makedirs over a file, shutil.copy into a directory) without raising.
- FileSystem.Fs.Copy, and through it Evolve.CopyFile and Evolve.CopyFileEffect: copying a file onto itself succeeds (shutil raises `SameFileError`), and copying into an existing directory is not distinguished. `Evolve.LiveSourceNotDest` proves that the live-data copies never copy a file onto itself. For `config.ini` and `best.asc` this holds when the best file lies outside the run folders, which the model does not prove.
- Path normalisation by `pathlib` (`.`/`..`, duplicate slashes): paths are compared as strings.
- The commented-out `iceprog` block at the end of `src/evolve.py`.
- test/test_evolve_terminal_args.py: it exercises an argument parser that `src/evolve.py` does not contain.

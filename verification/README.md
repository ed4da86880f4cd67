# A model of the nccl-inspector-preconf SPANK plugin

The plugin prepares NCCL Inspector for each step of a Slurm job. On a worker, every task
runs `task_init_privileged` before it starts and `task_exit` when it ends, each in its own
process; the processes coordinate only through files: one lock file per hook, created
exclusively, one Enroot mount file, and a transient `flock` file that is unlinked after
use. Around that sit a template renderer, a layered configuration, a recursive `mkdir` and
the job environment.

`dafny verify dfyconfig.toml` checks the project.

| file | models |
|---|---|
| `Flock.dfy` | `with_lock` called any number of times on one path, one step per system call |
| `Hooks.dfy` | both hooks of one job step, run by any number of processes, with every error exit |
| `HookSafety.dfy`, `HookProgress.dfy` | what every interleaving keeps; that every hook returns |
| `HookCleanup.dfy`, `HookResidue.dfy` | when the worker is clean afterwards, and runs in which it is not |
| `HookOverlap.dfy` | runs of hooks in which the mount file's callbacks overlap |
| `HookAgreement.dfy`, `HookSerial.dfy` | what the tasks end up with; hooks that run one after another |
| `Worker.dfy` | the hooks as their code runs: system calls on a worker's files, branches on their answers, other processes in between; its histories are runs of the machine of `Hooks.dfy` |
| `Template.dfy` | `render_dump_dir` over a bounded buffer and the two expansion stages |
| `Config.dfy`, `Environment.dfy` | option parsing and layering; environment defaults and dump-dir ownership |
| `Directories.dfy` | `mkdir_all` over a path buffer and a directory tree |
| `Paths.dfy`, `MountFile.dfy` | names of lock and mount files; the mount file's text as fstab reads it |
| `CStrings.dfy`, `Decimal.dfy`, `Wrappers.dfy` | C strings and buffers, decimals, options and status codes |

In the hook machine a process is identified by a number and runs one hook; a run is a
sequence of (process, action) events. `Ok` is the process's next call succeeding, `Chunk` a
write of part of the mount text, `Fail`, `WriteFail` and the `...Fail` lock actions are the
error exits, and theorems quantify over all runs. What a hook computes from its task's environment is a parameter of the machine
(`Setup`); `HookAgreement.PluginSetup` supplies the plugin's own. SPANK codes are distinct
constructors: that `SNCCLIPRECON_WORKER_STEP_ALREADY_DONE` differs from the codes of Slurm's
header is assumed.

Results that differ from a first reading of the code or its documentation:

- `with_lock` is documented as running its callback under an exclusive lock. Because the
  name is unlinked after the unlock, callbacks can overlap; `CallbackBound` gives the
  limit, `BoundIsTight` runs that reach it, and `ExclusionIff` the exact number of calls up
  to which the lock does exclude: two. The plugin's own hooks get there: `OverlapIsReached`
  has error-free runs, every exit hook after its own init hook, with any number of hooks in
  their callbacks at once, and `HooksExcludeIff` the same exact number of calls.
- The transient lock file is not always gone at rest. `ResidueIff` names the three errors of
  which one must occur: in fixing the mode, in taking the lock, in unlinking the name.
- The hooks are described as running once per worker and step. The exit hook is a try-lock:
  never two at once, but a later exit hook cleans again (`CleansTwice`). An exit hook does
  nothing exactly when some process owns the lock as it tries (`ExitSkippedIff`), and
  cleanups begun are counted by `ExitConservation`. A cleanup that fails leaves the exit
  lock, and no later hook of that key cleans (`StrandedForever`).
- Cleanliness needs a schedule: an init hook that starts during another task's cleanup can
  leave its files (`LateInitLeavesResidue`). `CleanIff` says exactly when the end is clean:
  another cleanup begins, or every file the one going on has passed is still absent, or
  none is going on and nothing is left. `CleanDecided` is the part a single state decides,
  and `OnlyInitsUndo` shows that only init hooks bring a passed file back.
- Losing the init lock does not mean that the setup is done (`LoserOutrunsSetup`); it is
  done exactly when some winner has got past the steps in question (`SetupDoneIff`).
- `flock` gives no order. A call that waits behind an unlinked name is still overtaken by
  fewer calls than wait with it (`WaitingBounded`), and every finite set of hooks returns
  (`HooksReturn`).
- The README describes two expansion passes; the code renders the template again at step
  level. `Confluent` shows that both give the same text, and `ConfluentIffNonEmpty` that
  this rests on ids never being empty.
- A rejected over-long option value still changes its field (`Store.ParseValue`);
  `RejectedYetWritten` says for exactly which values.
- The plugin library that is mounted is the one the task's variable names, except when the
  job has set that variable to nothing (`PluginAcrossLaunches`).

## Model

| member | source | states |
|---|---|---|
| `Flock.StepInv` | spank/nccl-inspector-preconf/src/snccliprecon_file_ops.c:104-140 | every step of every call, error exits included, keeps the holder and name invariants |
| `Flock.OneHolderPerInode` | spank/nccl-inspector-preconf/src/snccliprecon_file_ops.c:125-136 | two callbacks running at once never hold the same inode |
| `Flock.CallbackBound` | spank/nccl-inspector-preconf/src/snccliprecon_file_ops.c:104-140 | inodes made = effective unlinks + (1 if the name exists); callbacks at once are at most 1 + unlinks and at most (calls + 1) / 2 |
| `Flock.TwoCallsExclude` | spank/nccl-inspector-preconf/src/snccliprecon_file_ops.c:114-136 | with at most two calls on the path callbacks never overlap |
| `Flock.BoundIsTight` | spank/nccl-inspector-preconf/src/snccliprecon_file_ops.c:134-135 | for every c there is a run of 2c - 1 calls with c callbacks at once |
| `Flock.ExclusionIff` | spank/nccl-inspector-preconf/src/snccliprecon_file_ops.c:104-140 | all runs of at most n calls exclude exactly if n is at most two |
| `Flock.WaitingBounded` | spank/nccl-inspector-preconf/src/snccliprecon_file_ops.c:125-135 | once the name no longer denotes an inode nobody joins those waiting on it, and its lock is granted at most once to each of them |
| `Flock.NoResidue` | spank/nccl-inspector-preconf/src/snccliprecon_file_ops.c:114-136 | a lock name that exists was made by a call that has not removed it; at rest, by one that failed after its open or in its unlink, or it was left from before |
| `Flock.NoErrorsNoResidue` | spank/nccl-inspector-preconf/src/snccliprecon_file_ops.c:114-136 | without errors after open the lock file is gone once all calls have returned |
| `Flock.ModeErrorLeavesResidue` | spank/nccl-inspector-preconf/src/snccliprecon_file_ops.c:120-123 | one call that cannot fix the mode leaves the file |
| `Flock.ResidueIff` | spank/nccl-inspector-preconf/src/snccliprecon_file_ops.c:114-136 | for every set of allowed errors: some run of complete calls leaves the file exactly if failing to fix the mode, to take the lock or to unlink is allowed |
| `HookSafety.ExitTryLock` | spank/nccl-inspector-preconf/src/snccliprecon_op_task_exit.c:41-80 | in every run at most one process owns the exit lock; the file exists exactly when one is cleaning up or returned without removing it, or it was there at the start |
| `HookSafety.ExitLockMeansCleanup` | spank/nccl-inspector-preconf/src/snccliprecon_op_task_exit.c:41-82 | without errors the exit lock file exists exactly while a process is cleaning up |
| `HookSafety.ExitSkippedIff` | spank/nccl-inspector-preconf/src/snccliprecon_op_task_exit.c:41-49 | at its create step an exit hook finds its work done exactly when some process owns the lock then, or the file was there before any hook; otherwise it wins |
| `HookSafety.ExitConservation` | spank/nccl-inspector-preconf/src/snccliprecon_worker_lock.c:47-105 | cleanups begun + lock found at the start = locks removed by cleanups + lock present now |
| `HookSafety.StrandedForever` | spank/nccl-inspector-preconf/src/snccliprecon_op_task_exit.c:41-63 | in every run, after a failed cleanup the lock stays in every continuation and nobody cleans again |
| `HookResidue.CleanupStrands` | spank/nccl-inspector-preconf/src/snccliprecon_worker_lock.c:70-79 | one exit hook that cannot settle its lock file gets there |
| `HookSafety.InitConservation` | spank/nccl-inspector-preconf/src/snccliprecon_op_task_init_privileged.c:84-125 | setups won + lock found at the start = effective removals + lock present now |
| `HookSafety.OneSetupBetweenRemovals` | spank/nccl-inspector-preconf/src/snccliprecon_worker_lock.c:47-82 | between two removals of the init lock at most one hook does the setup |
| `HookSafety.LinkStep` | spank/nccl-inspector-preconf/src/snccliprecon_enroot.c:98-116 | a hook's position and its with_lock call stay in step; callbacks run while the lock is held |
| `HookSafety.MountCallbacks` | spank/nccl-inspector-preconf/src/snccliprecon_enroot.c:18-72 | the mount file's lock calls are a run of the transient lock, so its bounds hold; two removals of the mount file never overlap |
| `HookOverlap.OverlapIsReached` | spank/nccl-inspector-preconf/src/snccliprecon_enroot.c:98-116 | for every c an error-free run of hooks, exits after their own inits, has c hooks in callbacks at once after 2c - 1 lock calls |
| `HookOverlap.HooksExcludeIff` | spank/nccl-inspector-preconf/src/snccliprecon_file_ops.c:130-135 | in all such runs with at most n lock calls at most one hook is in a callback exactly if n is at most two |
| `HookProgress.StepsBounded` | spank/nccl-inspector-preconf/src/snccliprecon_op_task_init_privileged.c:252-304 | steps taken by a process plus steps left never exceed what it had left before, whatever the others do |
| `HookProgress.HooksReturn` | spank/nccl-inspector-preconf/src/snccliprecon_file_ops.c:125-136 | a hook makes at most 20 + n steps for mount texts up to n characters, a run of k hooks at most (20 + n) * k; and all hooks have returned exactly when none can go on without an error |
| `HookAgreement.PluginTotal` | spank/nccl-inspector-preconf/src/snccliprecon_op_task_init_privileged.c:278-283 | the rewrite fails only where the code has its error exit, so the above holds of the plugin's own setup |
| `HookCleanup.CleanRun` | spank/nccl-inspector-preconf/src/snccliprecon_op_task_exit.c:41-82 | from any moment with all init hooks returned and what a cleanup going on has passed still absent: with such a cleanup, one to come, or nothing left, the end is clean |
| `HookCleanup.CleanIff` | spank/nccl-inspector-preconf/src/snccliprecon_op_task_exit.c:41-82 | from any moment with all init hooks returned: the end is clean exactly if another cleanup begins, or all files the one going on has passed are still absent, or none is going on and nothing is left |
| `HookCleanup.CleanDecided` | spank/nccl-inspector-preconf/src/snccliprecon_op_task_exit.c:57-80 | during a cleanup with no exit hook to come: exactly if every file it has passed is still absent; with no cleanup going on: exactly if an exit hook is to come or nothing is left |
| `HookCleanup.OnlyInitsUndo` | spank/nccl-inspector-preconf/src/snccliprecon_op_task_exit.c:72-80 | a step that brings back a file a cleanup has passed is a step of an init hook |
| `HookCleanup.CleanAfterLastExit` | spank/nccl-inspector-preconf/src/snccliprecon_op_task_exit.c:57-80 | all init hooks before all exit hooks: no worker lock, mount file or transient lock remains, even after init errors and leftovers |
| `HookResidue.LateInitLeavesResidue` | spank/nccl-inspector-preconf/src/snccliprecon_op_task_exit.c:75-80 | an error-free run in stages, each exit after its own init and the second init inside the first cleanup, that leaves the init lock and, with Enroot, the mount file |
| `HookResidue.CleansTwice` | spank/nccl-inspector-preconf/src/snccliprecon_op_task_exit.c:78-80 | an error-free run of two tasks whose exit hooks both clean, one after the other |
| `HookResidue.LoserOutrunsSetup` | spank/nccl-inspector-preconf/src/snccliprecon_op_task_init_privileged.c:286-290 | an error-free run in which a losing hook returns before anything is ensured or mounted |
| `HookAgreement.TasksAgree` | spank/nccl-inspector-preconf/src/snccliprecon_op_task_init_privileged.c:278-303 | tasks with equal starting environments agree on the rewritten one, the winner's directory is ensured, and a mount file made in the run holds only characters of the right text in their places (or holes), and all of it once nobody is writing unless a write failed |
| `HookAgreement.OwnedTasksAgree` | spank/nccl-inspector-preconf/src/snccliprecon_enroot.c:41-49 | for a plugin-owned directory that is the step rendering for every task, and the mount file binds it read-write |
| `MountFile.TextBinds` | spank/nccl-inspector-preconf/src/snccliprecon_enroot.c:41-49 | read line by line and field by field, the text binds the library's file read-only and the directory read-write, each at its own path, and says nothing else |
| `HookAgreement.SetupLeavesMount` | spank/nccl-inspector-preconf/src/snccliprecon_op_task_init_privileged.c:214-250 | until an exit hook starts, once a hook has returned from the setup the mount file is in place |
| `HookAgreement.SetupDoneIff` | spank/nccl-inspector-preconf/src/snccliprecon_op_task_init_privileged.c:286-303 | before any exit hook and without errors, mount file and dump directory are there exactly when some winner has got past making them |
| `HookSerial.SerialHooks` | spank/nccl-inspector-preconf/src/snccliprecon_op_task_exit.c:57-80 | whole error-free hooks in any order: exit lock absent and init lock present exactly with the mount file; both after an init hook, neither after an exit hook |
| `Worker.Node.TaskInitPrivileged` | spank/nccl-inspector-preconf/src/snccliprecon_op_task_init_privileged.c:252-304 | for any failing calls and any steps of others in between: the history is a run of the machine, the task's environment is the rewritten one and the one the run records, the hook sleeps in flock or returns; the code is an error exactly for the failed end, so a hook that finds the lock succeeds; with no failing call and a rewrite that fits it succeeds; after the setup the dump directory is on the disk and, undisturbed, the mount file binds it |
| `Worker.OwnedTasksAgreeOnDisk` | spank/nccl-inspector-preconf/src/snccliprecon_op_task_init_privileged.c:278-303 | for a plugin-owned directory all tasks of a worker's history agree on it, it is on the disk, and a finished mount file on the disk binds it |
| `Worker.Node.TaskExit` | spank/nccl-inspector-preconf/src/snccliprecon_op_task_exit.c:10-83 | the same for the exit hook, which either finds the lock, and succeeds, or comes to the one end that the failing calls determine; undisturbed, it leaves exactly the files that they determine |
| `Worker.ExitLeavesNothingIff` | spank/nccl-inspector-preconf/src/snccliprecon_op_task_exit.c:57-82 | exactly which failing calls make an undisturbed exit hook leave a lock or the mount file |
| `Worker.Node.CreateMountFileLocked` | spank/nccl-inspector-preconf/src/snccliprecon_enroot.c:18-62 | the callback keeps the lock, its outcome follows from the failing calls, and undisturbed success leaves an existing file alone or makes one with both bindings |
| `Worker.Node.Acquire` | spank/nccl-inspector-preconf/src/snccliprecon_file_ops.c:114-128 | holds the inode it opened, or sleeps while another holds it, or returns the error of the call that failed |
| `Worker.Node.CreateOnce` | spank/nccl-inspector-preconf/src/snccliprecon_worker_lock.c:47-82 | done, already there or failed, told by the answers of the four calls, with the failing end of each hook |
| `Template.RenderDumpDir` | spank/nccl-inspector-preconf/src/snccliprecon_config.c:181-235 | the buffer holds the longest run of whole pieces that fits, terminated; success exactly when that is all of them |
| `Template.AppendString` | spank/nccl-inspector-preconf/src/snccliprecon_config.c:156-168 | appends whole or not at all, keeps the terminator and everything after it |
| `Template.PiecesSpellExpand` | spank/nccl-inspector-preconf/src/snccliprecon_config.c:192-232 | the appended pieces spell the recursive meaning of the template |
| `Template.RenderedMeaning` | spank/nccl-inspector-preconf/src/snccliprecon_config.c:181-235 | complete exactly when the expansion is shorter than the buffer; otherwise a terminated prefix of it |
| `Template.RenderInto` | spank/nccl-inspector-preconf/src/snccliprecon_config.c:239-263 | success exactly when the expansion fits, and then the buffer reads as the expansion |
| `Template.PlaceholdersMean` | spank/nccl-inspector-preconf/src/snccliprecon_config.c:192-232 | what each placeholder stands for at job and at step level, before any text; `%` before anything else stands for itself |
| `Template.StepsDifferIff` | spank/nccl-inspector-preconf/src/snccliprecon_config.c:252-263 | two step ids give different texts exactly if the template has a step placeholder |
| `Template.Confluent` | spank/nccl-inspector-preconf/src/snccliprecon_config.c:192-263 | job pass then step pass = one step pass over the template, for every template |
| `Template.ConfluentIffNonEmpty` | spank/nccl-inspector-preconf/src/snccliprecon_config.c:239-263 | that holds for all templates exactly when the job id is not empty |
| `Template.NothingLeft` | spank/nccl-inspector-preconf/src/snccliprecon_config.c:192-234 | step rendering leaves no `%j`, `%s`, `%J` anywhere, job rendering no `%j` |
| `Template.StepMarksKept` | spank/nccl-inspector-preconf/src/snccliprecon_config.c:192-223 | job rendering keeps exactly the `%s` and `%J` of the template, in order |
| `Template.StepRenderingFinal` | spank/nccl-inspector-preconf/src/snccliprecon_config.c:252-263 | rendering a step rendering again, with any ids, changes nothing |
| `Config.SetString` | spank/nccl-inspector-preconf/src/snccliprecon_config.c:84-95 | writes the value cut to the buffer; success exactly when it is non-empty and fits |
| `Config.SetUintString` | spank/nccl-inspector-preconf/src/snccliprecon_config.c:97-116 | accepts exactly the non-empty digit strings of value below 2^64 that fit; a 64-bit accumulator suffices |
| `Config.ParseBool` | spank/nccl-inspector-preconf/src/snccliprecon_config.c:118-134 | true for `1` and every spelling of `true`, false for `0` and every spelling of `false`, letter by letter, nothing else |
| `Config.PathsMean` | spank/nccl-inspector-preconf/src/snccliprecon_config.c:84-95 | a path of 1 to 4095 characters is taken, a longer one leaves its first 4095 and is rejected, the empty one changes nothing |
| `Config.IntervalsMean` | spank/nccl-inspector-preconf/src/snccliprecon_config.c:97-116 | an interval is a decimal below 2^64; at most 63 digits are taken, more leave the first 63 and are rejected |
| `Config.Store.Reset` | spank/nccl-inspector-preconf/src/snccliprecon_config.c:265-283 | the six built-in defaults |
| `Config.Store.ParseValue` | spank/nccl-inspector-preconf/src/snccliprecon_config.c:285-360 | one field changes as the value says, all others stay, and the code tells acceptance; each flag ends as its value is spelled |
| `Config.Store.ParseOption` | spank/nccl-inspector-preconf/src/snccliprecon_config.c:362-376 | the table search assigns the named option and rejects other names and missing values |
| `Config.NamesSelect` | spank/nccl-inspector-preconf/src/snccliprecon_config.c:73-82 | each option name selects its own option and nothing else does |
| `Config.OptionNames` | spank/nccl-inspector-preconf/src/snccliprecon_config.c:73-82 | the six names, spelled out, and no other |
| `Config.VariableNames` | spank/nccl-inspector-preconf/src/snccliprecon_config.c:414-424 | the six variables, spelled out |
| `Config.ArgumentSplits` | spank/nccl-inspector-preconf/src/snccliprecon_config.c:382-402 | `name=value` splits at the first `=`; empty and over-long names are ignored |
| `Config.Store.ParseArgs` | spank/nccl-inspector-preconf/src/snccliprecon_config.c:378-436 | the store ends as the fold of all layers over the defaults |
| `Config.LastWriterWins` | spank/nccl-inspector-preconf/src/snccliprecon_config.c:285-424 | per field the last value that writes wins, over every list of assignments |
| `Config.LastWriterAt` | spank/nccl-inspector-preconf/src/snccliprecon_config.c:285-424 | by position: a field holds what the last assignment that writes it wrote |
| `Config.ArgListConcat` | spank/nccl-inspector-preconf/src/snccliprecon_config.c:382-402 | arguments keep their order |
| `Config.OrderAcrossOptionsIrrelevant` | spank/nccl-inspector-preconf/src/snccliprecon_config.c:285-424 | only the order within each option matters |
| `Config.LayerPrecedence` | spank/nccl-inspector-preconf/src/snccliprecon_config.c:378-424 | remote environment, then plugstack arguments, then default, field by field |
| `Config.IntervalAlwaysUsable` | spank/nccl-inspector-preconf/src/snccliprecon_config.c:346-360 | after any assignments the interval is a decimal of at most 63 digits below 2^64 |
| `Decimal.PrefixValue` | spank/nccl-inspector-preconf/src/snccliprecon_config.c:102-113 | a digit prefix never denotes more than the whole, so early rejection is final and truncation safe |
| `Decimal.PrintOfValue` | spank/nccl-inspector-preconf/src/snccliprecon_op_task_init_privileged.c:273-276 | printed ids are the decimals without leading zeros, each its own value's |
| `Environment.JobEnv.SetIfMissing` | spank/nccl-inspector-preconf/src/snccliprecon_env.c:33-42 | sets exactly when the variable is absent and may be set |
| `Environment.JobEnv.UserInit` | spank/nccl-inspector-preconf/src/snccliprecon_op_user_init.c:12-78 | the environment and code after the hook, failures of rendering and of setting included |
| `Environment.DefaultsExported` | spank/nccl-inspector-preconf/src/snccliprecon_op_user_init.c:25-75 | each plain default, by the variable's name, is exported exactly when missing and settable, with its own field's value; set values are kept |
| `Environment.DumpDirExported` | spank/nccl-inspector-preconf/src/snccliprecon_op_user_init.c:32-56 | the job-level rendering is exported and marked exactly when the job has not set the variable and it can be set |
| `Environment.UserInitStops` | spank/nccl-inspector-preconf/src/snccliprecon_op_user_init.c:14-42 | a disabled plugin exports nothing; a template that does not fit stops the hook after the plugin path |
| `Environment.JobEnv.SetStepDumpDir` | spank/nccl-inspector-preconf/src/snccliprecon_op_task_init_privileged.c:32-71 | only an owned directory is rewritten, to the template rendered with the printed job and step ids, and only an owned one can fail |
| `Environment.StepsGetOwnDirs` | spank/nccl-inspector-preconf/src/snccliprecon_op_task_init_privileged.c:276-283 | different steps of a job get different directories exactly if the template has a step placeholder |
| `Environment.PluginAcrossLaunches` | spank/nccl-inspector-preconf/src/snccliprecon_op_task_init_privileged.c:173-202 | after any chain of launches the plugin path is the job's own or the first launch's, and the one picked for the mount is that one exactly unless the job set the variable to nothing |
| `Environment.OwnershipAcrossLaunches` | spank/nccl-inspector-preconf/src/snccliprecon_op_user_init.c:32-56 | over any chain of launches a user's directory never changes and a plugin's is the latest step rendering |
| `Environment.UserValuesKept` | spank/nccl-inspector-preconf/src/snccliprecon_op_user_init.c:25-75 | every other variable the job had set keeps its value over any chain |
| `Environment.RewriteAgreesWithExport` | spank/nccl-inspector-preconf/src/snccliprecon_op_task_init_privileged.c:47-65 | re-rendering the exported job-level text at step level would give the same directory |
| `Directories.SpellsIff` | spank/nccl-inspector-preconf/src/snccliprecon_file_ops.c:58-80 | the components of a path are the only names, non-empty and without separator, that spell it with runs of separators between them and at the end |
| `Directories.FileTree.MkdirAll` | spank/nccl-inspector-preconf/src/snccliprecon_file_ops.c:50-81 | tree and result are those of making, in order, the prefixes of the names that spell the path; over-long paths change nothing |
| `Directories.FileTree.WalkBuffer` | spank/nccl-inspector-preconf/src/snccliprecon_file_ops.c:63-80 | the buffer is restored, repeated separators included |
| `Directories.MakeOnlyAddsPrefixes` | spank/nccl-inspector-preconf/src/snccliprecon_file_ops.c:63-80 | even on failure only missing prefixes are added, as directories, nothing changes and the tree stays parent-closed |
| `Directories.MakeMeaning` | spank/nccl-inspector-preconf/src/snccliprecon_file_ops.c:50-81 | success exactly when no proper ancestor is a file and nothing missing is refused; then the path exists under directories |
| `Directories.FileTree.EnsureDir` | spank/nccl-inspector-preconf/src/snccliprecon_file_ops.c:83-102 | success exactly when the directory the path spells is there or can be made and the mode is acceptable; then it is one |
| `Paths.RenderWorkerLockPath` | spank/nccl-inspector-preconf/src/snccliprecon_worker_lock.c:25-45 | renders the path, spelled out, exactly when it fits |
| `Paths.MountPathSpelled` | spank/nccl-inspector-preconf/src/snccliprecon_enroot.c:79-86 | the mount path, spelled out |
| `Paths.LockPathFits` | spank/nccl-inspector-preconf/src/snccliprecon_worker_lock.c:29-42 | with 32-bit ids and host names below 256 characters it always fits |
| `Paths.WorkerLockInjective` | spank/nccl-inspector-preconf/src/snccliprecon_worker_lock.c:25-45 | the path determines host, job, step and hook, for any host name |
| `Paths.MountInjective` | spank/nccl-inspector-preconf/src/snccliprecon_enroot.c:79-86 | the mount path determines job and step |
| `Paths.StepsDoNotInterfere` | spank/nccl-inspector-preconf/src/snccliprecon_file_ops.c:107-108 | on one worker different job steps share none of their five files, and the five are distinct |

## Left out

- Logging, `strerror_r` and the hostname lookup: formatting and foreign calls; the host name is a parameter.
- SPANK entry points, the activation flag, option registration and the `srun` option callbacks: thin wrappers that end in `ParseOption` or in the hooks.
- When Slurm runs which hook: orders of hooks are hypotheses of the theorems.
- `spank_getenv` and `spank_setenv`: a map and a set of keys that cannot be set; values are assumed to fit the buffers they are read into.
- File modes: `ensure_mode` is an outcome (acceptable or not), without permission bits.
- Symbolic and hard links, `.` and `..`, and other programs that change the same files.
- Concurrent `mkdir_all` calls: the tree is changed by one call at a time; in the hook machine `ensure_dir` is one step that succeeds or fails.
- `mkdir_all` on an empty path: its scan starts behind the first character, and both callers pass a non-empty path.
- Enroot's mount directory appearing or vanishing while hooks run: its presence is fixed per run.
- The user-init worker lock as a guard: the code only ever removes it, and so does the model.
- Crashes of a hook process between two calls, and the kernel's release of its lock then.
- The batch step's sentinel id, whose value is in Slurm's header: `Worker.Node` takes the comparison's result.

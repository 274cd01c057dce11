# labdb manager: the deployment orchestrator, modelled in Dafny

`lib/labdb_manager.rb` is the command-line manager of a lab database web
application. A task name, for example `update`, `backup` or `restart`, is
dispatched by `run_task`. Tasks queue deferred `ShellCommand`s on the
process-wide `SHELL_COMMAND_LIST`, and `run_queued_commands` then drains that
list in order. Two tasks also do something at once: `update` runs its
staging-branch probe while queueing, and `force_update_deps` calls the gate of
`bundle_update` itself, which reads a line of input.

The parts of a command's life:

- **Building the text.** A command's text is produced only when the command
  runs, by calling its block. Some blocks, `clean_up_staging_branch` and
  `bundle_update`, first put the command to the operator through `confirm`.
- **Running it.** The text is wrapped in a login shell
  (`/bin/bash --login -c …`) and run.
- **Failure policy.** When the exit status is above 0 and the command is
  `exit_on_fail`, the process ends with that status. `exit_on_fail` is the
  default.
- **Declining.** An operator who does not answer "yes" or "y" ends the process
  with status 0, and the rest of the queue never runs.

The command builders are the git steps, bundler, asset precompilation, the
server and the database. Most of them return fixed strings joined with `&&`.
`create_backup` builds the command that does the following:

- `pg_dump`s the database into a time-stamped file under `~/backups`;
- archives it with `tar`;
- removes the dump.

The model has seven modules:

| module | what it holds |
|---|---|
| `Text` | ASCII `downcase`, `join` and decimal digit strings |
| `Confirmation` | `confirm`, with standard input as a sequence of lines. Ruby's `gets` keeps each line's newline and yields `nil` at the end of input. |
| `Builders` | the command builders as strings, and the `&&` step-list structure they share |
| `Backups` | `create_backup`, the backup file name and its parser |
| `Engine` | `ShellCommand`, the failure policy, the queue (a class `CommandQueue` whose `commands` field is the list), and the drain |
| `Tasks` | what each task queues |
| `Cli` | `run_task`: dispatch, drain and the process outcome |

The outside world is a parameter, `Engine.Env`:

- `text` gives each block's command text. `Engine.Blocks` is the program's own
  table, built from the builders.
- `shell` gives the exit status of a command line, from the command line and
  its position in the drain.

Instead of `exit` and uncaught exceptions, every layer returns an
`Engine.Outcome`:

- `Ok`
- `Declined` (exit 0)
- `Failed(status)`
- `Raised(error)` (exit 1)

The code is modelled as written, with one exception: the staging-branch
probe of `update` (line 229) is built in a way that raises `ArgumentError` at
once. The model runs the minimal repair of that line: a `ShellCommand` around
`check_for_staging_branch`, with the `initialize` defaults kept. Those
defaults make the probe `exit_on_fail`. When there is no staging branch,
`git show-ref` exits with a status above 0, and the process ends with that
status. Only the probe has run by then; the backup queued before it never
runs. When the probe returns, its status is therefore always 0, so with this
repair the branch of `update` that leaves out the clean-up is never taken.
`Tasks.Update`, `Cli.Dispatch` and `Cli.UpdateProbeFails` prove this. The
`if … == 0` test and the comment above `check_for_staging_branch` suggest a
probe whose non-zero status is handed back instead; that reading is not
modelled. "## Left out" says more.

Everywhere else, where the code does not do what the surrounding comments and
design evidently intend, the model keeps the code's behaviour and proves what
that behaviour is:

- `confirm` compares the raw `gets` line, newline included, with "yes"/"y".
  A line typed at a terminal is therefore always declined.
  `Confirmation.NewlineTerminatedResponseDeclines` proves this.
- `update` queues a block calling `update_deps_conservative`, which is defined
  nowhere. The run therefore never reaches `precompile_assets`,
  `merge_into_production` or `restart_server`.
  `Cli.UpdateNeverCompletes` and `Cli.UpdateRaisesAtDependencyStep` prove
  this.
- The login-shell wrapper does not quote the command. Bash takes only the
  first word after `-c` as the command string, so the first step of every
  command runs as its first word alone: `git checkout deploy` runs as `git`.
  The `&&` in the line is split by the outer `/bin/sh`, so the later steps run
  whole, outside the login shell.
  `Builders.LoginShellWrapsFirstStep` shows how the wrapping splits an `&&`
  list.
- The `tar` step of `create_backup` contains the literal words
  `{DEFAULT_BACKUP_DIR} {fn}`, because they are not interpolated.
- `secret` calls a misspelled method and so raises `NameError`.
- `hostname` passes a positional argument to a keyword-only method and so
  raises `ArgumentError`.
- `force_update_deps` passes the gate's string to `queue_command`, which takes
  no positional argument, so it raises `ArgumentError` after the gate is
  passed.

## Model

| member | source | states |
|---|---|---|
| Confirmation.Confirm | lib/labdb_manager.rb:46-57 | The first input line decides, and only that line is consumed. The gate gives `nil` (NoMethodError) exactly when input is exhausted. It hands back the command unchanged, with the remaining input, exactly when the response is affirmative; otherwise it is refused. |
| Confirmation.ConfirmAcceptsYesOrY | lib/labdb_manager.rb:52-54 | The gate passes exactly when the first line's `downcase` is in `['yes', 'y']`. It refuses (exit 0) exactly when a line was read and its `downcase` is not in that list. |
| Confirmation.DowncaseIsYesOrY | lib/labdb_manager.rb:53 | `downcase(s)` is "yes" or "y" exactly when `s` is y/yes in any mix of letter case. |
| Confirmation.NewlineTerminatedResponseDeclines | lib/labdb_manager.rb:52-54 | A response ending in a newline, as `gets` returns a terminal line, is always refused. |
| Builders.PrependLoginShell | lib/labdb_manager.rb:75-77 | The wrapped line is the login-shell prefix followed by the command unquoted. Stripping the prefix gives back exactly the command. |
| Builders.StripLoginShellOnlyUnwraps | lib/labdb_manager.rb:75-77 | Every line that strips to a command is that command's wrapping. Wrapping is therefore injective and invertible. |
| Builders.StepRunsIffPredecessorsSucceed | lib/labdb_manager.rb:112-151 | In an `&&` step list, step j runs exactly when every earlier step exited with 0. |
| Builders.LoginShellWrapsFirstStep | lib/labdb_manager.rb:75-77 | Wrapping an `&&` list in the unquoted login shell attaches the wrapper to the first step only; the later steps stand outside the `bash -c` invocation. (Of the first step, bash takes only the first word as its command string.) |
| Builders.StepsRun | lib/labdb_manager.rb:112-151 | Of an `&&` list with given step statuses, at most every step runs, and a non-empty list runs at least its first step. |
| Builders.CleanUpStagingBranchCommand | lib/labdb_manager.rb:112-115 | The clean-up command is the two-step list: check out `deploy`, then delete `deploy_staging`. |
| Builders.CleanUpStagingBranch | lib/labdb_manager.rb:112-115 | The clean-up passes its gate exactly on an affirmative response. It then yields the two-step clean-up list and consumes one line. |
| Builders.CreateStagingBranch | lib/labdb_manager.rb:117-120 | The command is check out `deploy`, then create branch `deploy_staging`. |
| Builders.FetchRemoteChanges | lib/labdb_manager.rb:122-128 | The command is check out `master`, then pull `origin master`. |
| Builders.StageChanges | lib/labdb_manager.rb:130-140 | The command is check out `deploy_staging`, then merge `master` with the automatic message. |
| Builders.MergeIntoProduction | lib/labdb_manager.rb:142-146 | The command is check out `deploy`, then merge `deploy_staging` with the automatic message. |
| Builders.RevertMergeFailure | lib/labdb_manager.rb:148-151 | The command is `git reset --merge`, then check out `deploy`. |
| Builders.BundleUpdate | lib/labdb_manager.rb:159-161 | `bundle update` passes its gate exactly on an affirmative response. It then yields "bundle update" and consumes one line. |
| Text.Downcase | lib/labdb_manager.rb:53 | `downcase` keeps the length and lower-cases each character on its own. |
| Text.JoinAppend | lib/labdb_manager.rb:174-180 | `Array#join` (`Text.Join`) of two non-empty lists is their joins with one separator between them. |
| Backups.YearDigits | lib/labdb_manager.rb:171 | `%Y` prints exactly four digits for a year below 10000 and more than four from 10000 on. |
| Backups.Timestring | lib/labdb_manager.rb:171 | `%Y%m%d_%H%M%S` has 15 characters exactly when the year is below 10000, and `_` separates the date from the six clock digits. |
| Backups.BackupFileName | lib/labdb_manager.rb:170-172 | The file name is at least 33 characters and ends with `_labdb_backup.dump`. |
| Backups.BackupFileNameRoundTrip | lib/labdb_manager.rb:170-172 | Parsing a backup file name recovers the time it was made from, for any time with a four-digit year. |
| Backups.ParsedNameIsBackupFileName | lib/labdb_manager.rb:170-172 | Every name the parser accepts is the backup file name of the time it yields. The parser and the name format are therefore inverses. |
| Backups.LongYearNameNotReadBack | lib/labdb_manager.rb:170-172 | From year 10000 on, the name has a longer year and the parser rejects it. |
| Backups.CreateBackup | lib/labdb_manager.rb:169-181 | The backup command is the three-step `&&` list over the expanded file. The steps are dump to the file, `tar` it to `.tar.bz2` with the uninterpolated operands, then `rm -f` it. |
| Backups.DumpRemovedOnlyAfterArchive | lib/labdb_manager.rb:174-179 | The removal step runs exactly when both the dump and the archive exited with 0. |
| Engine.CommandText | lib/labdb_manager.rb:104-195 | In the program's block table, a block is undefined exactly when it is `update_deps_conservative`, which `update` (line 235) calls and nothing defines. |
| Engine.Render | lib/labdb_manager.rb:86-88 | Calling a block yields the builder's text unchanged. Input is consumed by a gated block only, one line. The process ends while producing the text exactly when the block is undefined or its gate is not passed. It is declined (exit 0) exactly on a non-affirmative line. |
| Engine.OnlyDependencyUpdateUndefined | lib/labdb_manager.rb:227-239 | Among the blocks the tasks queue, only `update_deps_conservative` is undefined. |
| Engine.ProgramGates | lib/labdb_manager.rb:112-115 | In the program, the gated blocks behave exactly as the clean-up and `bundle update` gates of the builders. |
| Engine.ShellCommand.ToS | lib/labdb_manager.rb:98-100 | `to_s` yields the block's own text. |
| Engine.ToSIsCallText | lib/labdb_manager.rb:86-100 | `to_s` fails exactly when `call` does. Otherwise `call` runs the `to_s` text wrapped in the login shell. |
| Engine.Execute | lib/labdb_manager.rb:86-96 | `call` runs the wrapped text and reads the shell's status. It ends the process with that status exactly when the command is `exit_on_fail` and the status is above 0. Otherwise it returns the status and leaves the input the block left. |
| Engine.Drain | lib/labdb_manager.rb:65-70 | A drain runs at most the queued commands. When it completes normally it has run every one of them. |
| Engine.DrainRunsPrefixInOrder | lib/labdb_manager.rb:65-70 | The i-th line run is the i-th queued command, wrapped. That command's block is defined. |
| Engine.DrainContinuesPastEachCommand | lib/labdb_manager.rb:65-70 | Every command run before the last one, and the last one when the drain did not fail, either exited with 0 or was not `exit_on_fail`. |
| Engine.DrainFailureEnding | lib/labdb_manager.rb:89-93 | A failed drain ended at its last command run. That command is `exit_on_fail`, and the process status is that command's own non-zero exit status. |
| Engine.DrainAbortEnding | lib/labdb_manager.rb:46-57 | A declined drain stopped at a gated command. An exception stopped it at a gated or undefined block. |
| Engine.HardFailureStopsQueue | lib/labdb_manager.rb:89-93 | After an `exit_on_fail` command with a status above 0, nothing else runs. The outcome is `exit` with that status. |
| Engine.SoftFailureNeverHalts | lib/labdb_manager.rb:89-95 | A command that is not `exit_on_fail` never ends the drain with a hard failure, whatever its status. The drain goes past it: a later command runs, or the drain ends without a hard failure (it completes, or the next block's gate or missing definition ends it). |
| Engine.AllProceedDrainsInOrder | lib/labdb_manager.rb:65-70 | When every command is ungated, defined and allowed to continue, the drain completes and runs all of them in queue order. |
| Engine.DrainPastFirst | lib/labdb_manager.rb:65-70 | A first command that proceeds runs as its own line and leaves the whole input to the rest of the queue. |
| Engine.DrainPastAffirmedGate | lib/labdb_manager.rb:46-57 | An affirmed gated first command that lets the queue go on runs as its own line and consumes exactly one answer. |
| Engine.AbortStopsQueue | lib/labdb_manager.rb:46-57 | When the k-th block aborts after k proceeding commands, the drain ends with that block's outcome, having run exactly the first k commands. |
| Engine.SingleCommandDrain | lib/labdb_manager.rb:65-70 | A queue of one ungated defined command completes exactly when its status is 0 or it is not `exit_on_fail`. Otherwise it fails with that status. |
| Engine.DrainExitStatus | lib/labdb_manager.rb:51-55 | A drain ends with exit status 0 exactly when it completes or is declined. |
| Engine.CommandQueue.constructor | lib/labdb_manager.rb:59 | The command list starts empty. |
| Engine.CommandQueue.QueueCommand | lib/labdb_manager.rb:61-63 | The command is appended with the `initialize` defaults: no arguments, no sudo, `exit_on_fail`. |
| Engine.CommandQueue.RunQueuedCommands | lib/labdb_manager.rb:65-70 | The loop's result is the drain of the list, from the given number of commands already run. The list is cleared exactly when the drain completed, and is left as it was when the process ended first. |
| Tasks.UpdatePlan | lib/labdb_manager.rb:228-238 | Given the status the probe handed back, `update` queues 9 commands for 0 and 8 otherwise. |
| Tasks.UpdatePlanShape | lib/labdb_manager.rb:228-238 | The backup comes first. The clean-up is queued exactly when the probe returned 0, and then right before the branch is re-created. The seven remaining steps follow in a fixed order. The undefined dependency update is fourth from the end and appears nowhere else. |
| Tasks.Update | lib/labdb_manager.rb:227-239 | The method queues the backup and runs the probe as the first shell command, under the `exit_on_fail` policy. When the probe fails hard, only the backup was queued. When it returns, its status is 0 and the whole 9-command plan is appended in order. |
| Tasks.Backup | lib/labdb_manager.rb:241-243 | The method appends one `create_backup` command. |
| Tasks.Install | lib/labdb_manager.rb:257-259 | The method appends one `create_production_db` command. |
| Tasks.RevertFailure | lib/labdb_manager.rb:261-263 | The method appends one `revert_merge_failure` command. |
| Tasks.Restart | lib/labdb_manager.rb:265-267 | The method appends one `restart_server` command. |
| Tasks.Devserver | lib/labdb_manager.rb:269-271 | The method appends one `run_devserver` command. |
| Tasks.ForceUpdateDeps | lib/labdb_manager.rb:245-247 | The task never succeeds. A refused gate is declined, and input at end raises NoMethodError. A passed gate raises ArgumentError. |
| Cli.Dispatch | lib/labdb_manager.rb:276-278 | An unknown name raises NoMethodError, and any positional argument raises ArgumentError. Only the queueing tasks leave a plan, with the input untouched; for `update`, only when its probe returns. `secret`, `hostname` and `force_update_deps` end the process without success. A probe that fails hard ends `update` with the probe's status and its line run. A probe that returns leaves the 9-command plan. |
| Cli.TaskRun | lib/labdb_manager.rb:276-280 | A run completes only when the task queued its plan, and then it has run the dispatch's lines, every pending command and every queued command. |
| Cli.RunTask | lib/labdb_manager.rb:276-280 | The task's commands are appended to what was queued, and the whole list is drained. The list is empty afterwards when the run completed. |
| Cli.RunExitStatus | lib/labdb_manager.rb:276-280 | A run exits with 0 exactly when it completes or the operator declines. |
| Cli.UpdateProbeFails | lib/labdb_manager.rb:227-239 | With no staging branch, `update` ends with the probe's status, and the probe is the only command run. |
| Cli.UpdateRun | lib/labdb_manager.rb:227-239 | With a staging branch, `update` runs the probe and then drains the whole 9-command plan on the whole input. |
| Cli.UpdateNeverCompletes | lib/labdb_manager.rb:227-239 | As written, `update` never completes. At most the probe and the commands before the dependency update run, so precompilation, the merge and the restart never run. |
| Cli.UpdateRaisesAtDependencyStep | lib/labdb_manager.rb:227-239 | With a staging branch, an affirmed clean-up and the other first five commands proceeding, the run raises NameError after running exactly the probe and those five. |
| Cli.DrainToUndefinedSixth | lib/labdb_manager.rb:65-70 | A queue that proceeds, passes an affirmed gate and proceeds three more times, then reaches an undefined block, raises NameError with exactly the first five run. |
| Cli.UpdateDeclinedAtCleanUp | lib/labdb_manager.rb:227-239 | With a staging branch, once the backup has run, a non-affirmative answer ends the run with status 0. Only the probe and the backup have run. |
| Cli.OneCommandTask | lib/labdb_manager.rb:241-271 | `backup`, `install`, `revert_failure`, `restart` and `devserver` run one command. The run completes when its status is 0, and otherwise fails with that status. |

## Left out

- Output is not modelled: `print_command`, the coloured `String` methods, the messages `confirm` and `call` print, and `ok`.
- `PG_DUMP_PATH` comes from running `which pg_dump` when the program loads. The model takes it as the parameter `pgDumpPath`.
- `Time.now` is a parameter, and so is the `File.expand_path` result (`backupDir`). Home-directory expansion is not modelled.
- `ExpandPath` joins the directory and the file name with `/` and does not normalise the path.
- `set_hostname` and `generate_application_secret` are left out. They write files and draw from `SecureRandom`, and no task reaches them: the tasks that call them raise first.
- The shell is an oracle from the position of the command among those the process ran and the full line to an exit status. The git repository, the database and the files the commands change are not modelled.
- A command killed by a signal has a `nil` exit status, and `nil > 0` raises. This case is not modelled: every status is a natural number.
- `requires_sudo` is stored and never read. The model stores it as well.
- `args` is stored and splatted into the block call. Every block takes no parameters, so arguments are dropped.
- Cli.Dispatch: `send` can reach any method of the program. The model covers the task names; `Cli.Task.Unknown` stands for every name that is not a method of the program, which raises NoMethodError. Sending a non-task helper by name is not modelled.
- Text.Downcase lower-cases ASCII letters only. Ruby's `downcase` also folds non-ASCII letters, which cannot matter for the comparison with "yes"/"y".
- Backups.BackupFileNameRoundTrip holds for years 0 to 9999 only. `strftime` writes every digit of a larger year, which `Backups.YearDigits` models. The fixed-width parser rejects those names; `Backups.LongYearNameNotReadBack` proves this.
- Tasks.Update: line 229 builds the probe as `ShellCommand.new(&:check_for_staging_branch)`. That passes only a block and no positional `cmd_fct`, which `initialize` (line 79) requires. As written, every `update` therefore raises `ArgumentError` right after `create_backup` was queued (line 228), and nothing runs. The model instead runs the minimal repair: `ShellCommand` around `check_for_staging_branch`, with the defaults kept, so `exit_on_fail`. A probe whose non-zero status is handed back to the `if` is not modelled; under the repair that branch is dead. Cli.Dispatch, Cli.RunTask, Cli.UpdateProbeFails, Cli.UpdateRun and the other `update` lemmas rest on that probe.
- The bash word splitting of the unquoted `-c` operand is not modelled. Commands are modelled as the full text handed to the shell, while bash would run only the first word of the first step of each command.
- The `help` task does nothing. Cli.Dispatch gives it an empty plan.
- The builders `check_for_staging_branch`, `bundle_install`, `precompile_assets`, `create_production_db`, `restart_server` and `run_devserver` are constants of `Builders`. They are single commands, so there is nothing to prove about them beyond their text.
- Engine: the engine is generic over the block table `Env.text`. `Engine.Blocks` is the program's table, and `Engine.OnlyDependencyUpdateUndefined` and `Engine.ProgramGates` tie the generic results to it.

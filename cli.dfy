/** `run_task`: dispatch a task by name, drain the queue it filled, and
    acknowledge. The dynamic `send` becomes a choice among the task names; a
    name that is not one of them, `Unknown`, raises `NoMethodError`. */
module Cli {
  import opened Confirmation
  import opened Engine
  import Tasks
  import Builders
  import Backups

  datatype Task =
    | Update | Backup | ForceUpdateDeps | Secret | Hostname | Install
    | RevertFailure | Restart | Devserver | Help | Unknown

  /** What `send t, *args` leaves behind: the producers it queued, the input
      still unread and the lines it already ran (the probe of `update`), or
      the way the process already ended and the lines run before that. */
  datatype Dispatched =
    | Enqueued(plan: seq<Producer>, rest: seq<string>, ran: seq<string>)
    | Ended(outcome: Outcome, ran: seq<string>)

  /** No task takes positional arguments, so any argument raises
      `ArgumentError`; `secret` calls a misspelled method (`NameError`),
      `hostname` passes a positional argument to a keyword-only method
      (`ArgumentError`), and `force_update_deps` raises once its gate passes.
      `update` runs its probe as the process's first shell command; the
      probe is `exitOnFail`, so a status above 0 ends the process with that
      status, and otherwise the clean-up is always part of the plan. */
  function Dispatch(t: Task, args: seq<string>, env: Env, stdin: seq<string>): (r: Dispatched)
    ensures t.Unknown? ==> r == Ended(Raised(NoMethodError), [])
    ensures !t.Unknown? && args != [] ==> r == Ended(Raised(ArgumentError), [])
    ensures r.Enqueued? ==> args == [] && r.rest == stdin
    ensures r.Enqueued? <==> args == [] && t !in {ForceUpdateDeps, Secret, Hostname} && !t.Unknown?
                             && (t == Update ==> Execute(Tasks.Probe, env, stdin, 0).Returned?)
    ensures r.Ended? ==> r.outcome != Ok
    ensures t != Update ==> r.ran == []
    ensures t == Update && args == [] ==>
              var probe := Execute(Tasks.Probe, env, stdin, 0);
              (probe.HardFail? ==> r == Ended(Failed(probe.status), [probe.command]))
              && (probe.Returned? ==> r.plan == Tasks.UpdatePlan(0) && r.ran == [probe.command])
  {
    if t.Unknown? then Ended(Raised(NoMethodError), [])
    else if args != [] then Ended(Raised(ArgumentError), [])
    else
      match t
      case Update =>
        (match Execute(Tasks.Probe, env, stdin, 0)
         case Aborted(o) => Ended(o, [])
         case HardFail(status, line) => Ended(Failed(status), [line])
         case Returned(status, line, rest) => Enqueued(Tasks.UpdatePlan(status), rest, [line]))
      case Backup => Enqueued([CreateBackup], stdin, [])
      case ForceUpdateDeps => Ended(Tasks.ForceUpdateDeps(stdin), [])
      case Secret => Ended(Raised(NameError), [])
      case Hostname => Ended(Raised(ArgumentError), [])
      case Install => Enqueued([CreateProductionDb], stdin, [])
      case RevertFailure => Enqueued([RevertMergeFailure], stdin, [])
      case Restart => Enqueued([RestartServer], stdin, [])
      case Devserver => Enqueued([RunDevserver], stdin, [])
      case Help => Enqueued([], stdin, [])
  }

  /** A whole run of the program for one task, the queue holding `pending`
      beforehand. The queue is drained after the lines dispatch ran, on the
      input it left; a run completes only after every one of those lines,
      every pending command and every command the task queued has run. */
  function TaskRun(pending: seq<ShellCommand>, t: Task, args: seq<string>, env: Env, stdin: seq<string>): (d: Drained)
    ensures d.outcome.Ok? ==> var r := Dispatch(t, args, env, stdin);
                              r.Enqueued? && |d.ran| == |r.ran| + |pending| + |r.plan|
  {
    match Dispatch(t, args, env, stdin)
    case Ended(o, ran) => Drained(o, ran)
    case Enqueued(plan, rest, ran) =>
      var d := Drain(pending + Tasks.Queued(plan), env, rest, |ran|);
      Drained(d.outcome, ran + d.ran)
  }

  method RunTask(q: CommandQueue, t: Task, args: seq<string>, env: Env, stdin: seq<string>)
    returns (outcome: Outcome, ran: seq<string>)
    modifies q
    ensures Drained(outcome, ran) == TaskRun(old(q.commands), t, args, env, stdin)
    ensures outcome.Ok? ==> q.commands == []
  {
    if !t.Unknown? && args != [] {
      return Raised(ArgumentError), [];
    }
    var before: seq<string> := [];
    match t {
      case Unknown => return Raised(NoMethodError), [];
      case Update =>
        var probe := Tasks.Update(q, env, stdin);
        match probe {
          case Aborted(o) => return o, [];
          case HardFail(status, line) => return Failed(status), [line];
          case Returned(_, line, _) => before := [line];
        }
      case Backup =>
        Tasks.Backup(q);
        assert Tasks.Queued([CreateBackup]) == [ShellCommand(CreateBackup)];
      case ForceUpdateDeps => return Tasks.ForceUpdateDeps(stdin), [];
      case Secret => return Raised(NameError), [];
      case Hostname => return Raised(ArgumentError), [];
      case Install =>
        Tasks.Install(q);
        assert Tasks.Queued([CreateProductionDb]) == [ShellCommand(CreateProductionDb)];
      case RevertFailure =>
        Tasks.RevertFailure(q);
        assert Tasks.Queued([RevertMergeFailure]) == [ShellCommand(RevertMergeFailure)];
      case Restart =>
        Tasks.Restart(q);
        assert Tasks.Queued([RestartServer]) == [ShellCommand(RestartServer)];
      case Devserver =>
        Tasks.Devserver(q);
        assert Tasks.Queued([RunDevserver]) == [ShellCommand(RunDevserver)];
      case Help =>
        assert Tasks.Queued([]) == [];
        assert q.commands == old(q.commands) + Tasks.Queued([]);
    }
    var drained;
    outcome, drained := q.RunQueuedCommands(env, stdin, |before|);
    ran := before + drained;
  }

  /** A run ends with exit status 0 exactly when it completes or the
      operator declines. */
  lemma RunExitStatus(pending: seq<ShellCommand>, t: Task, args: seq<string>, env: Env, stdin: seq<string>)
    ensures var o := TaskRun(pending, t, args, env, stdin).outcome;
            ExitStatus(o) == 0 <==> o == Ok || o == Declined
  {
    var d := Dispatch(t, args, env, stdin);
    if d.Enqueued? {
      DrainExitStatus(pending + Tasks.Queued(d.plan), env, d.rest, |d.ran|);
    }
  }

  /** The line the probe of `update` runs as. */
  function ProbeLine(env: Env): string {
    CommandLine(Tasks.Probe, env)
  }

  /** Without a staging branch (the probe exits with a status above 0), `update`
      ends the process with the probe's status, and nothing but the probe has
      run: the backup it queued first is never drained. */
  lemma UpdateProbeFails(env: Env, stdin: seq<string>)
    requires DefinedButDependencyUpdate(env)
    requires env.shell(0, ProbeLine(env)) > 0
    ensures TaskRun([], Update, [], env, stdin) == Drained(Failed(env.shell(0, ProbeLine(env))), [ProbeLine(env)])
  {
    assert env.text(CheckForStagingBranch).Some?;
  }

  /** With a staging branch, `update` runs the probe and then drains its whole
      plan, the clean-up included, on the whole input. */
  lemma UpdateRun(env: Env, stdin: seq<string>)
    requires DefinedButDependencyUpdate(env)
    requires env.shell(0, ProbeLine(env)) == 0
    ensures var d := Drain(Tasks.Queued(Tasks.UpdatePlan(0)), env, stdin, 1);
            TaskRun([], Update, [], env, stdin) == Drained(d.outcome, [ProbeLine(env)] + d.ran)
  {
    assert env.text(CheckForStagingBranch).Some?;
    assert Dispatch(Update, [], env, stdin) == Enqueued(Tasks.UpdatePlan(0), stdin, [ProbeLine(env)]);
    assert [] + Tasks.Queued(Tasks.UpdatePlan(0)) == Tasks.Queued(Tasks.UpdatePlan(0));
  }

  /** As written, `update` never completes: the probe ends the process when
      there is no staging branch, and otherwise the drain stops at the latest
      at the undefined dependency update, which raises `NameError`, so
      `precompile_assets`, `merge_into_production` and `restart_server` never
      run. */
  lemma UpdateNeverCompletes(env: Env, stdin: seq<string>)
    requires DefinedButDependencyUpdate(env)
    ensures var d := TaskRun([], Update, [], env, stdin);
            d.outcome != Ok && |d.ran| <= 1 + |Tasks.UpdatePlan(0)| - 4
  {
    if env.shell(0, ProbeLine(env)) > 0 {
      UpdateProbeFails(env, stdin);
    } else {
      var plan := Tasks.UpdatePlan(0);
      var cmds := Tasks.Queued(plan);
      var k := |plan| - 4;
      UpdateRun(env, stdin);
      assert cmds[k].producer == UpdateDepsConservative by {
        Tasks.UpdatePlanShape(0);
      }
      if |Drain(cmds, env, stdin, 1).ran| > k {
        DrainRunsPrefixInOrder(cmds, env, stdin, 1, k);
        assert false;
      }
    }
  }

  /** With a staging branch, once the backup proceeds, the operator affirms
      the clean-up, the clean-up lets the queue go on and the branch
      creation, the fetch and the merge into staging proceed, `update` ends
      by raising `NameError` with exactly the probe and those five commands
      run. */
  lemma UpdateRaisesAtDependencyStep(env: Env, stdin: seq<string>)
    requires DefinedButDependencyUpdate(env)
    requires env.shell(0, ProbeLine(env)) == 0
    requires stdin != [] && IsAffirmative(stdin[0])
    requires var cmds := Tasks.Queued(Tasks.UpdatePlan(0));
             Proceeds(cmds[0], env, 1) && Continues(cmds[1], env, 2, CommandLine(cmds[1], env))
             && forall i :: 2 <= i < 5 ==> Proceeds(cmds[i], env, 1 + i)
    ensures TaskRun([], Update, [], env, stdin)
            == Drained(Raised(NameError), [ProbeLine(env)] + CommandLines(Tasks.Queued(Tasks.UpdatePlan(0))[..5], env))
  {
    var cmds := Tasks.Queued(Tasks.UpdatePlan(0));
    UpdateRun(env, stdin);
    assert cmds[1] == ShellCommand(CleanUpStagingBranch) && cmds[5].producer == UpdateDepsConservative by {
      Tasks.UpdatePlanShape(0);
    }
    assert env.text(CleanUpStagingBranch).Some?;
    DrainToUndefinedSixth(cmds, env, stdin);
  }

  /** A queue whose first command proceeds, whose second is an affirmed gate
      that lets the queue go on, whose next three proceed and whose sixth
      block is undefined raises `NameError` after running the first five. */
  lemma DrainToUndefinedSixth(cmds: seq<ShellCommand>, env: Env, stdin: seq<string>)
    requires |cmds| > 5
    requires Proceeds(cmds[0], env, 1)
    requires Gated(cmds[1].producer) && env.text(cmds[1].producer).Some?
    requires stdin != [] && IsAffirmative(stdin[0])
    requires Continues(cmds[1], env, 2, CommandLine(cmds[1], env))
    requires forall i :: 2 <= i < 5 ==> Proceeds(cmds[i], env, 1 + i)
    requires env.text(cmds[5].producer).None?
    ensures Drain(cmds, env, stdin, 1) == Drained(Raised(NameError), CommandLines(cmds[..5], env))
  {
    var tail, rest := cmds[1..], cmds[2..];
    assert tail[0] == cmds[1] && tail[1..] == rest;
    assert forall i :: 0 <= i < 3 ==> rest[i] == cmds[2 + i];
    DrainPastFirst(cmds, env, stdin, 1);
    DrainPastAffirmedGate(tail, env, stdin, 2);
    AbortStopsQueue(rest, env, stdin[1..], 3, 3);
    assert CommandLines(cmds[..5], env) == [CommandLine(cmds[0], env), CommandLine(cmds[1], env)] + CommandLines(rest[..3], env);
  }

  /** With a staging branch, `update` runs the probe and the backup and then
      puts the clean-up to the operator; an answer that is not affirmative
      (any line typed at a terminal, which keeps its newline) ends the run
      with status 0 and nothing else run. */
  lemma UpdateDeclinedAtCleanUp(env: Env, stdin: seq<string>)
    requires DefinedButDependencyUpdate(env)
    requires env.shell(0, ProbeLine(env)) == 0
    requires Proceeds(ShellCommand(CreateBackup), env, 1)
    requires stdin != [] && !IsAffirmative(stdin[0])
    ensures TaskRun([], Update, [], env, stdin)
            == Drained(Declined, [ProbeLine(env), CommandLine(ShellCommand(CreateBackup), env)])
  {
    var cmds := Tasks.Queued(Tasks.UpdatePlan(0));
    UpdateRun(env, stdin);
    assert cmds[0] == ShellCommand(CreateBackup) && cmds[1] == ShellCommand(CleanUpStagingBranch) by {
      Tasks.UpdatePlanShape(0);
    }
    assert env.text(CleanUpStagingBranch).Some?;
    AbortStopsQueue(cmds, env, stdin, 1, 1);
    assert CommandLines(cmds[..1], env) == [CommandLine(cmds[0], env)];
  }

  /** `backup`, `install`, `revert_failure`, `restart` and `devserver` each run
      one command: the run completes when it exits with 0 and otherwise ends
      with its status. */
  lemma OneCommandTask(t: Task, env: Env, stdin: seq<string>)
    requires DefinedButDependencyUpdate(env)
    requires t in {Backup, Install, RevertFailure, Restart, Devserver}
    ensures var p := Dispatch(t, [], env, stdin).plan[0];
            var line := CommandLine(ShellCommand(p), env);
            var status := env.shell(0, line);
            TaskRun([], t, [], env, stdin)
            == if status == 0 then Drained(Ok, [line]) else Drained(Failed(status), [line])
  {
    var p := Dispatch(t, [], env, stdin).plan[0];
    assert Dispatch(t, [], env, stdin) == Enqueued([p], stdin, []);
    assert [] + Tasks.Queued([p]) == [ShellCommand(p)];
    assert env.text(p).Some?;
    SingleCommandDrain(ShellCommand(p), env, stdin);
  }
}

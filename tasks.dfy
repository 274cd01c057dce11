/** The tasks: each queues a fixed sequence of commands on the process-wide
    queue. `update` also runs a staging-branch probe at once, outside the
    queue, and branches on the status it returns. */
module Tasks {
  import opened Confirmation
  import opened Engine
  import Builders

  /** The commands a sequence of producers is queued as, with the defaults. */
  function Queued(plan: seq<Producer>): (cmds: seq<ShellCommand>)
    ensures |cmds| == |plan|
    ensures forall i :: 0 <= i < |plan| ==> cmds[i] == ShellCommand(plan[i])
  {
    seq(|plan|, i requires 0 <= i < |plan| => ShellCommand(plan[i]))
  }

  /** The probe `update` runs at once, as the minimal repair of its
      construction: `check_for_staging_branch` in a `ShellCommand` with the
      defaults kept, so `exitOnFail`. */
  const Probe := ShellCommand(CheckForStagingBranch)

  /** What `update` queues, given the status the staging-branch probe returned. */
  function UpdatePlan(probeStatus: nat): (plan: seq<Producer>)
    ensures |plan| == if probeStatus == 0 then 9 else 8
  {
    [CreateBackup]
    + (if probeStatus == 0 then [CleanUpStagingBranch] else [])
    + [CreateStagingBranch, FetchRemoteChanges, StageChanges, UpdateDepsConservative,
       PrecompileAssets, MergeIntoProduction, RestartServer]
  }

  /** The backup comes first; the staging clean-up is queued exactly when the
      probe reported that the branch exists, and then right before the branch
      is created again; the remaining seven steps follow in a fixed order, the
      undefined dependency update fourth from the end and nowhere else. */
  lemma UpdatePlanShape(probeStatus: nat)
    ensures var plan := UpdatePlan(probeStatus);
            plan[0] == CreateBackup
            && (CleanUpStagingBranch in plan <==> probeStatus == 0)
            && (probeStatus == 0 ==> plan[1] == CleanUpStagingBranch && plan[2] == CreateStagingBranch)
            && plan[|plan| - 7..] == [CreateStagingBranch, FetchRemoteChanges, StageChanges, UpdateDepsConservative,
                                      PrecompileAssets, MergeIntoProduction, RestartServer]
            && (forall i :: 0 <= i < |plan| ==> (plan[i] == UpdateDepsConservative <==> i == |plan| - 4))
  {
    var plan := UpdatePlan(probeStatus);
    if probeStatus != 0 {
      assert plan == [CreateBackup, CreateStagingBranch, FetchRemoteChanges, StageChanges, UpdateDepsConservative,
                      PrecompileAssets, MergeIntoProduction, RestartServer];
    } else {
      assert plan == [CreateBackup, CleanUpStagingBranch, CreateStagingBranch, FetchRemoteChanges, StageChanges,
                      UpdateDepsConservative, PrecompileAssets, MergeIntoProduction, RestartServer];
    }
  }

  /** The commands `update` queues after the backup and the optional clean-up. */
  function UpdateTail(): seq<ShellCommand> {
    [ShellCommand(CreateStagingBranch), ShellCommand(FetchRemoteChanges), ShellCommand(StageChanges),
     ShellCommand(UpdateDepsConservative), ShellCommand(PrecompileAssets), ShellCommand(MergeIntoProduction),
     ShellCommand(RestartServer)]
  }

  function UpdateHead(probeStatus: nat): seq<ShellCommand> {
    [ShellCommand(CreateBackup)] + (if probeStatus == 0 then [ShellCommand(CleanUpStagingBranch)] else [])
  }

  lemma QueuedUpdatePlan(before: seq<ShellCommand>, probeStatus: nat)
    ensures before + Queued(UpdatePlan(probeStatus)) == (before + UpdateHead(probeStatus)) + UpdateTail()
  {
    var plan := UpdatePlan(probeStatus);
    var cmds := UpdateHead(probeStatus) + UpdateTail();
    assert |cmds| == |plan|;
    forall i | 0 <= i < |plan|
      ensures Queued(plan)[i] == cmds[i]
    {
    }
    assert Queued(plan) == cmds;
  }

  /** `update`: queue the backup, run the probe as the process's first shell
      command, and queue the rest of the plan. The probe is `exitOnFail`, so
      a status above 0 ends the process (the caller sees `HardFail`) with
      only the backup queued, and the status it hands back is always 0: the
      branch that leaves out the clean-up is never taken. */
  method Update(q: CommandQueue, env: Env, stdin: seq<string>) returns (probe: CallResult)
    modifies q
    ensures probe == Execute(Probe, env, stdin, 0)
    ensures probe.Returned? ==> probe.status == 0
    ensures probe.Returned? ==> q.commands == old(q.commands) + Queued(UpdatePlan(probe.status))
    ensures !probe.Returned? ==> q.commands == old(q.commands) + [ShellCommand(CreateBackup)]
  {
    ghost var before := q.commands;
    q.QueueCommand(CreateBackup);
    probe := Execute(Probe, env, stdin, 0);
    if !probe.Returned? {
      return;
    }
    if probe.status == 0 {
      q.QueueCommand(CleanUpStagingBranch);
    }
    ghost var head := q.commands;
    assert head == before + UpdateHead(probe.status);
    q.QueueCommand(CreateStagingBranch);
    q.QueueCommand(FetchRemoteChanges);
    q.QueueCommand(StageChanges);
    assert q.commands == head + UpdateTail()[..3];
    q.QueueCommand(UpdateDepsConservative);
    q.QueueCommand(PrecompileAssets);
    assert q.commands == head + UpdateTail()[..5];
    q.QueueCommand(MergeIntoProduction);
    q.QueueCommand(RestartServer);
    assert q.commands == head + UpdateTail();
    QueuedUpdatePlan(before, probe.status);
  }

  method Backup(q: CommandQueue)
    modifies q
    ensures q.commands == old(q.commands) + [ShellCommand(CreateBackup)]
  {
    q.QueueCommand(CreateBackup);
  }

  method Install(q: CommandQueue)
    modifies q
    ensures q.commands == old(q.commands) + [ShellCommand(CreateProductionDb)]
  {
    q.QueueCommand(CreateProductionDb);
  }

  method RevertFailure(q: CommandQueue)
    modifies q
    ensures q.commands == old(q.commands) + [ShellCommand(RevertMergeFailure)]
  {
    q.QueueCommand(RevertMergeFailure);
  }

  method Restart(q: CommandQueue)
    modifies q
    ensures q.commands == old(q.commands) + [ShellCommand(RestartServer)]
  {
    q.QueueCommand(RestartServer);
  }

  method Devserver(q: CommandQueue)
    modifies q
    ensures q.commands == old(q.commands) + [ShellCommand(RunDevserver)]
  {
    q.QueueCommand(RunDevserver);
  }

  /** `force_update_deps` evaluates `bundle_update` (the gate) and then hands
      its string to `queue_command` as a positional argument, which that
      method does not take: it never queues anything. */
  function ForceUpdateDeps(stdin: seq<string>): (o: Outcome)
    ensures o != Ok
    ensures o == Declined <==> stdin != [] && !IsAffirmative(stdin[0])
    ensures o == Raised(ArgumentError) <==> stdin != [] && IsAffirmative(stdin[0])
    ensures o == Raised(NoMethodError) <==> stdin == []
  {
    match Builders.BundleUpdate(stdin)
    case Proceed(_, _) => Raised(ArgumentError)
    case Refused => Declined
    case NilResponse => Raised(NoMethodError)
  }
}

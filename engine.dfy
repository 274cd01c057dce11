/** The command-queue engine: deferred shell commands, the per-command failure
    policy, and the process-wide queue that is filled by a task and then
    drained in order.

    The outside world is a parameter. `Env.shell` is the shell: given the
    position of a command in the drain (0 for the first command run) and the
    full command line handed to the shell, it gives the exit status. Standard
    input is a sequence of lines consumed by the confirmation gate. Instead of
    ending the process, every layer returns an `Outcome`. */
module Engine {
  import opened Wrappers
  import opened Confirmation
  import Builders
  import Backups

  /** Ruby exceptions that nothing catches; each ends the process with status 1. */
  datatype RubyError = ArgumentError | NameError | NoMethodError

  /** How the process ends: normally, by `exit 0` at the confirmation gate,
      by `exit(status)` after a hard failure, or by an uncaught exception. */
  datatype Outcome = Ok | Declined | Failed(status: nat) | Raised(error: RubyError)

  /** The process exit status of each outcome. */
  function ExitStatus(o: Outcome): nat {
    match o
    case Ok => 0
    case Declined => 0
    case Failed(status) => status
    case Raised(_) => 1
  }

  /** The blocks the tasks queue, one per builder they call.
      `UpdateDepsConservative` is called by `update` but defined nowhere. */
  datatype Producer =
    | CheckForStagingBranch | CleanUpStagingBranch | CreateStagingBranch | FetchRemoteChanges
    | StageChanges | MergeIntoProduction | RevertMergeFailure
    | BundleInstall | BundleUpdate | PrecompileAssets
    | CreateBackup | CreateProductionDb | RestartServer | RunDevserver
    | UpdateDepsConservative

  /** Producers that put their command to the operator first. */
  predicate Gated(p: Producer) {
    p == CleanUpStagingBranch || p == BundleUpdate
  }

  /** The world a drain runs in: what each producer's block yields when it
      is called (for a gated block, the text it puts to the operator; `None`
      for a block that is not defined), and the shell. In a run of the
      program the blocks are `Blocks` below. */
  datatype Env = Env(text: Producer -> Option<string>, shell: (nat, string) -> nat)

  /** The program's blocks, given where `pg_dump` lives, the clock and the
      expanded backup directory. */
  function CommandText(p: Producer, pgDumpPath: string, now: Backups.Time, backupDir: string): (r: Option<string>)
    ensures r.None? <==> p == UpdateDepsConservative
  {
    match p
    case CheckForStagingBranch => Some(Builders.CheckForStagingBranch)
    case CleanUpStagingBranch => Some(Builders.CleanUpStagingBranchCommand())
    case CreateStagingBranch => Some(Builders.CreateStagingBranch())
    case FetchRemoteChanges => Some(Builders.FetchRemoteChanges())
    case StageChanges => Some(Builders.StageChanges())
    case MergeIntoProduction => Some(Builders.MergeIntoProduction())
    case RevertMergeFailure => Some(Builders.RevertMergeFailure())
    case BundleInstall => Some(Builders.BundleInstall)
    case BundleUpdate => Some(Builders.BUNDLE_UPDATE)
    case PrecompileAssets => Some(Builders.PrecompileAssets)
    case CreateBackup => Some(Backups.CreateBackup(pgDumpPath, now, backupDir))
    case CreateProductionDb => Some(Builders.CreateProductionDb)
    case RestartServer => Some(Builders.RestartServer)
    case RunDevserver => Some(Builders.RunDevserver)
    case UpdateDepsConservative => None
  }

  function Blocks(pgDumpPath: string, now: Backups.Time, backupDir: string): Producer -> Option<string> {
    p => CommandText(p, pgDumpPath, now, backupDir)
  }

  /** Calling a producer's block: its command text and the input left
      unread, or the way the process ended while producing it. */
  datatype Rendering = Rendered(text: string, rest: seq<string>) | Abort(outcome: Outcome)

  function GateRendering(g: Gate): Rendering {
    match g
    case Proceed(cmd, rest) => Rendered(cmd, rest)
    case Refused => Abort(Declined)
    case NilResponse => Abort(Raised(NoMethodError))
  }

  /** Calling a block yields its text unchanged, reading one answer first
      when it is gated; it ends the process only when the block is not
      defined (`NameError`) or its gate is not passed (declined with `exit 0`,
      or `NoMethodError` at the end of input). */
  function Render(p: Producer, env: Env, stdin: seq<string>): (r: Rendering)
    ensures r.Rendered? ==> env.text(p) == Some(r.text)
    ensures r.Rendered? && Gated(p) ==> stdin != [] && r.rest == stdin[1..]
    ensures r.Rendered? && !Gated(p) ==> r.rest == stdin
    ensures r.Abort? <==> env.text(p).None? || (Gated(p) && (stdin == [] || !IsAffirmative(stdin[0])))
    ensures r == Abort(Declined) <==> env.text(p).Some? && Gated(p) && stdin != [] && !IsAffirmative(stdin[0])
    ensures r.Abort? ==> r.outcome == Declined || r.outcome.Raised?
  {
    match env.text(p)
    case None => Abort(Raised(NameError))
    case Some(text) => if Gated(p) then GateRendering(Confirm(text, stdin)) else Rendered(text, stdin)
  }

  /** Every block is defined except the dependency update's, as in the program. */
  predicate DefinedButDependencyUpdate(env: Env) {
    forall p :: env.text(p).None? <==> p == UpdateDepsConservative
  }

  /** In a run of the program every block is defined except the dependency
      update's. */
  lemma OnlyDependencyUpdateUndefined(pgDumpPath: string, now: Backups.Time, backupDir: string,
                                      shell: (nat, string) -> nat)
    ensures DefinedButDependencyUpdate(Env(Blocks(pgDumpPath, now, backupDir), shell))
  {
    forall p ensures Blocks(pgDumpPath, now, backupDir)(p).None? <==> p == UpdateDepsConservative {
      assert Blocks(pgDumpPath, now, backupDir)(p) == CommandText(p, pgDumpPath, now, backupDir);
    }
  }

  /** In a run of the program the gated blocks are the builders' confirmation
      gates. */
  lemma ProgramGates(pgDumpPath: string, now: Backups.Time, backupDir: string, shell: (nat, string) -> nat,
                     stdin: seq<string>)
    ensures var env := Env(Blocks(pgDumpPath, now, backupDir), shell);
            Render(CleanUpStagingBranch, env, stdin) == GateRendering(Builders.CleanUpStagingBranch(stdin))
            && Render(BundleUpdate, env, stdin) == GateRendering(Builders.BundleUpdate(stdin))
  {
    assert Blocks(pgDumpPath, now, backupDir)(CleanUpStagingBranch) == Some(Builders.CleanUpStagingBranchCommand());
    assert Blocks(pgDumpPath, now, backupDir)(BundleUpdate) == Some(Builders.BUNDLE_UPDATE);
  }

  /** What `ShellCommand#call` does: the command returns its status to the
      caller, or the process ends with a hard failure after the command ran,
      or it ends while the command text was being produced. */
  datatype CallResult =
    | Returned(status: nat, command: string, rest: seq<string>)
    | HardFail(status: nat, command: string)
    | Aborted(outcome: Outcome)

  /** A deferred command, immutable once built; the defaults are those of
      `ShellCommand#initialize`. `requiresSudo` is stored and never read. */
  datatype ShellCommand = ShellCommand(producer: Producer, args: seq<string> := [],
                                       requiresSudo: bool := false, exitOnFail: bool := true)
  {
    /** `to_s`: the producer called with no arguments. */
    function ToS(env: Env, stdin: seq<string>): (r: Rendering)
      ensures r.Rendered? ==> env.text(producer) == Some(r.text)
    {
      Render(producer, env, stdin)
    }
  }

  /** `call`: produce the command text (every block takes no parameters, so
      the splatted `args` are dropped), run it in a login shell, and apply the
      failure policy: a status above 0 ends the process with that same status
      exactly when the command is `exitOnFail`; any other status is handed
      back unchanged. */
  function Execute(c: ShellCommand, env: Env, stdin: seq<string>, pos: nat): (r: CallResult)
    ensures r.Aborted? <==> Render(c.producer, env, stdin).Abort?
    ensures r.Aborted? ==> r.outcome == Render(c.producer, env, stdin).outcome
    ensures !r.Aborted? ==> r.command == Builders.PrependLoginShell(Render(c.producer, env, stdin).text)
    ensures !r.Aborted? ==> r.status == env.shell(pos, r.command)
    ensures r.HardFail? <==> !r.Aborted? && c.exitOnFail && r.status > 0
    ensures r.Returned? ==> r.rest == Render(c.producer, env, stdin).rest
  {
    match Render(c.producer, env, stdin)
    case Abort(o) => Aborted(o)
    case Rendered(text, rest) =>
      var line := Builders.PrependLoginShell(text);
      var status := env.shell(pos, line);
      if status > 0 && c.exitOnFail then HardFail(status, line) else Returned(status, line, rest)
  }

  /** `to_s` renders the very text `call` runs, wrapped in the login shell. */
  lemma ToSIsCallText(c: ShellCommand, env: Env, stdin: seq<string>, pos: nat)
    ensures Execute(c, env, stdin, pos).Aborted? <==> c.ToS(env, stdin).Abort?
    ensures !Execute(c, env, stdin, pos).Aborted? ==>
              Execute(c, env, stdin, pos).command == Builders.PrependLoginShell(c.ToS(env, stdin).text)
  {
  }

  // ---------------------------------------------------------------------------
  // Draining the queue

  /** How a drain ends, and the command lines it ran, in order. */
  datatype Drained = Drained(outcome: Outcome, ran: seq<string>)

  /** `run_queued_commands` over `cmds`, the first of them being command
      number `pos` of the drain. */
  function Drain(cmds: seq<ShellCommand>, env: Env, stdin: seq<string>, pos: nat): (d: Drained)
    ensures |d.ran| <= |cmds|
    ensures d.outcome.Ok? ==> |d.ran| == |cmds|
    decreases |cmds|
  {
    if cmds == [] then Drained(Ok, [])
    else
      match Execute(cmds[0], env, stdin, pos)
      case Aborted(o) => Drained(o, [])
      case HardFail(status, line) => Drained(Failed(status), [line])
      case Returned(_, line, rest) =>
        var d := Drain(cmds[1..], env, rest, pos + 1);
        Drained(d.outcome, [line] + d.ran)
  }

  /** The line a command runs as, when its producer is defined. */
  function CommandLine(c: ShellCommand, env: Env): string {
    Builders.PrependLoginShell(env.text(c.producer).GetOr(""))
  }

  function CommandLines(cmds: seq<ShellCommand>, env: Env): (lines: seq<string>)
    ensures |lines| == |cmds|
  {
    seq(|cmds|, i requires 0 <= i < |cmds| => CommandLine(cmds[i], env))
  }

  /** Command `c`, run as `line` at position `pos`, lets the queue go on. */
  predicate Continues(c: ShellCommand, env: Env, pos: nat, line: string) {
    env.shell(pos, line) == 0 || !c.exitOnFail
  }

  /** A command that returned is followed by the drain of the rest of the
      queue on the input it left. */
  lemma DrainAfterReturn(cmds: seq<ShellCommand>, env: Env, stdin: seq<string>, pos: nat)
    requires cmds != [] && Execute(cmds[0], env, stdin, pos).Returned?
    ensures var r := Execute(cmds[0], env, stdin, pos);
            Drain(cmds, env, stdin, pos) == After([r.command], Drain(cmds[1..], env, r.rest, pos + 1))
  {
  }

  /** The drain runs a prefix of the queue, in order, each command as its
      own text in the login shell. */
  lemma {:induction false} DrainRunsPrefixInOrder(cmds: seq<ShellCommand>, env: Env, stdin: seq<string>, pos: nat,
                                                  i: nat)
    requires i < |Drain(cmds, env, stdin, pos).ran|
    ensures env.text(cmds[i].producer).Some?
    ensures Drain(cmds, env, stdin, pos).ran[i] == CommandLine(cmds[i], env)
    decreases i
  {
    var r := Execute(cmds[0], env, stdin, pos);
    if i > 0 {
      DrainAfterReturn(cmds, env, stdin, pos);
      DrainRunsPrefixInOrder(cmds[1..], env, r.rest, pos + 1, i - 1);
      assert cmds[1..][i - 1] == cmds[i];
    }
  }

  /** Every command the drain ran let it go on, except a last one that failed hard. */
  lemma {:induction false} DrainContinuesPastEachCommand(cmds: seq<ShellCommand>, env: Env, stdin: seq<string>,
                                                         pos: nat, i: nat)
    requires i + 1 < |Drain(cmds, env, stdin, pos).ran|
             || (i + 1 == |Drain(cmds, env, stdin, pos).ran| && !Drain(cmds, env, stdin, pos).outcome.Failed?)
    ensures Continues(cmds[i], env, pos + i, Drain(cmds, env, stdin, pos).ran[i])
    decreases i
  {
    var r := Execute(cmds[0], env, stdin, pos);
    DrainAfterReturn(cmds, env, stdin, pos);
    if i > 0 {
      DrainContinuesPastEachCommand(cmds[1..], env, r.rest, pos + 1, i - 1);
      assert cmds[1..][i - 1] == cmds[i];
    }
  }

  /** A drain that ends by a hard failure has run at least the command that failed. */
  lemma FailedDrainRanSome(cmds: seq<ShellCommand>, env: Env, stdin: seq<string>, pos: nat)
    ensures Drain(cmds, env, stdin, pos).outcome.Failed? ==> |Drain(cmds, env, stdin, pos).ran| > 0
  {
    if cmds != [] && Execute(cmds[0], env, stdin, pos).Returned? {
      DrainAfterReturn(cmds, env, stdin, pos);
    }
  }

  /** A drain that ends by a hard failure ends with the status of the last
      command it ran, which is `exitOnFail` and exited above 0. */
  lemma {:induction false} DrainFailureEnding(cmds: seq<ShellCommand>, env: Env, stdin: seq<string>, pos: nat,
                                              i: nat)
    requires i + 1 == |Drain(cmds, env, stdin, pos).ran|
    ensures var d := Drain(cmds, env, stdin, pos);
            d.outcome.Failed? ==>
              cmds[i].exitOnFail && d.outcome.status > 0 && d.outcome.status == env.shell(pos + i, d.ran[i])
    decreases i
  {
    var r := Execute(cmds[0], env, stdin, pos);
    if r.Returned? {
      DrainAfterReturn(cmds, env, stdin, pos);
      if i > 0 {
        DrainFailureEnding(cmds[1..], env, r.rest, pos + 1, i - 1);
        assert cmds[1..][i - 1] == cmds[i];
      } else {
        FailedDrainRanSome(cmds[1..], env, r.rest, pos + 1);
      }
    }
  }

  /** A drain that ends by the gate or by an exception ends while producing
      the next command, which then never runs: a gated one, or (for an
      exception only) one whose block is not defined. */
  lemma {:induction false} DrainAbortEnding(cmds: seq<ShellCommand>, env: Env, stdin: seq<string>, pos: nat)
    ensures var d := Drain(cmds, env, stdin, pos);
            d.outcome.Declined? ==> |d.ran| < |cmds| && Gated(cmds[|d.ran|].producer)
    ensures var d := Drain(cmds, env, stdin, pos);
            d.outcome.Raised? ==>
              |d.ran| < |cmds| && (Gated(cmds[|d.ran|].producer) || env.text(cmds[|d.ran|].producer).None?)
    decreases |cmds|
  {
    if cmds != [] {
      var r := Execute(cmds[0], env, stdin, pos);
      if r.Returned? {
        var rest := Drain(cmds[1..], env, r.rest, pos + 1);
        DrainAfterReturn(cmds, env, stdin, pos);
        DrainAbortEnding(cmds[1..], env, r.rest, pos + 1);
        if rest.outcome.Declined? || rest.outcome.Raised? {
          assert cmds[1 + |rest.ran|] == cmds[1..][|rest.ran|];
        }
      }
    }
  }


  /** A command that fails hard is the last one to run, and the drain ends
      with its status. */
  lemma HardFailureStopsQueue(cmds: seq<ShellCommand>, env: Env, stdin: seq<string>, pos: nat, k: nat)
    requires k < |Drain(cmds, env, stdin, pos).ran|
    requires cmds[k].exitOnFail && env.shell(pos + k, Drain(cmds, env, stdin, pos).ran[k]) > 0
    ensures |Drain(cmds, env, stdin, pos).ran| == k + 1
    ensures Drain(cmds, env, stdin, pos).outcome == Failed(env.shell(pos + k, Drain(cmds, env, stdin, pos).ran[k]))
  {
    var d := Drain(cmds, env, stdin, pos);
    if k + 1 < |d.ran| || !d.outcome.Failed? {
      DrainContinuesPastEachCommand(cmds, env, stdin, pos, k);
      assert false;
    }
    DrainFailureEnding(cmds, env, stdin, pos, k);
  }

  /** A command that is not `exitOnFail` never ends the drain with a hard
      failure, whatever its status: after it, the next command's block is at
      least called, or the drain ends without a hard failure. */
  lemma SoftFailureNeverHalts(cmds: seq<ShellCommand>, env: Env, stdin: seq<string>, pos: nat, k: nat)
    requires k < |Drain(cmds, env, stdin, pos).ran|
    requires !cmds[k].exitOnFail
    ensures k + 1 < |Drain(cmds, env, stdin, pos).ran|
            || (k + 1 == |Drain(cmds, env, stdin, pos).ran| && !Drain(cmds, env, stdin, pos).outcome.Failed?)
  {
    if k + 1 == |Drain(cmds, env, stdin, pos).ran| {
      DrainFailureEnding(cmds, env, stdin, pos, k);
    }
  }

  /** A command that runs without reading input and lets the queue go on. */
  predicate Proceeds(c: ShellCommand, env: Env, pos: nat) {
    !Gated(c.producer) && env.text(c.producer).Some? && Continues(c, env, pos, CommandLine(c, env))
  }

  /** When every command proceeds, the drain runs all of them in queue order
      and ends normally. */
  lemma {:induction false} AllProceedDrainsInOrder(cmds: seq<ShellCommand>, env: Env, stdin: seq<string>, pos: nat)
    requires forall i :: 0 <= i < |cmds| ==> Proceeds(cmds[i], env, pos + i)
    ensures Drain(cmds, env, stdin, pos) == Drained(Ok, CommandLines(cmds, env))
    decreases |cmds|
  {
    if cmds != [] {
      assert Proceeds(cmds[0], env, pos);
      AllProceedDrainsInOrder(cmds[1..], env, stdin, pos + 1);
      assert CommandLines(cmds, env) == [CommandLine(cmds[0], env)] + CommandLines(cmds[1..], env);
    }
  }

  /** A first command that proceeds runs as its own line and leaves the
      input to the rest of the queue. */
  lemma DrainPastFirst(cmds: seq<ShellCommand>, env: Env, stdin: seq<string>, pos: nat)
    requires cmds != [] && Proceeds(cmds[0], env, pos)
    ensures Drain(cmds, env, stdin, pos) == After([CommandLine(cmds[0], env)], Drain(cmds[1..], env, stdin, pos + 1))
  {
    DrainAfterReturn(cmds, env, stdin, pos);
  }

  /** A gated first command that the operator affirms, and that lets the
      queue go on, runs as its own line and consumes that one answer. */
  lemma DrainPastAffirmedGate(cmds: seq<ShellCommand>, env: Env, stdin: seq<string>, pos: nat)
    requires cmds != [] && Gated(cmds[0].producer) && env.text(cmds[0].producer).Some?
    requires stdin != [] && IsAffirmative(stdin[0])
    requires Continues(cmds[0], env, pos, CommandLine(cmds[0], env))
    ensures Drain(cmds, env, stdin, pos) == After([CommandLine(cmds[0], env)], Drain(cmds[1..], env, stdin[1..], pos + 1))
  {
    DrainAfterReturn(cmds, env, stdin, pos);
  }

  /** A command's text is produced only when the drain reaches it: if the
      commands before it proceed and producing it ends the process (the
      operator declines its gate, or its block raises), the drain runs exactly
      the commands before it and ends that way. */
  lemma {:induction false} AbortStopsQueue(cmds: seq<ShellCommand>, env: Env, stdin: seq<string>, pos: nat, k: nat)
    requires k < |cmds|
    requires forall i :: 0 <= i < k ==> Proceeds(cmds[i], env, pos + i)
    requires Render(cmds[k].producer, env, stdin).Abort?
    ensures Drain(cmds, env, stdin, pos) == Drained(Render(cmds[k].producer, env, stdin).outcome, CommandLines(cmds[..k], env))
    decreases k
  {
    if k > 0 {
      assert Proceeds(cmds[0], env, pos);
      DrainAfterReturn(cmds, env, stdin, pos);
      assert cmds[1..][k - 1] == cmds[k];
      AbortStopsQueue(cmds[1..], env, stdin, pos + 1, k - 1);
      assert cmds[1..][..k - 1] == cmds[..k][1..];
      assert CommandLines(cmds[..k], env) == [CommandLine(cmds[0], env)] + CommandLines(cmds[..k][1..], env);
    }
  }

  /** A queue of one command that reads no input: the drain runs it and
      completes, unless it fails hard, in which case it ends with its status. */
  lemma SingleCommandDrain(c: ShellCommand, env: Env, stdin: seq<string>)
    requires !Gated(c.producer) && env.text(c.producer).Some?
    ensures var line := CommandLine(c, env);
            var status := env.shell(0, line);
            Drain([c], env, stdin, 0)
            == if status > 0 && c.exitOnFail then Drained(Failed(status), [line]) else Drained(Ok, [line])
  {
    var r := Execute(c, env, stdin, 0);
    assert [c][0] == c && [c][1..] == [];
    if r.Returned? {
      DrainAfterReturn([c], env, stdin, 0);
    }
  }

  /** A drain ends with exit status 0 exactly when it completes or is declined. */
  lemma DrainExitStatus(cmds: seq<ShellCommand>, env: Env, stdin: seq<string>, pos: nat)
    ensures var o := Drain(cmds, env, stdin, pos).outcome;
            ExitStatus(o) == 0 <==> o == Ok || o == Declined
  {
    var d := Drain(cmds, env, stdin, pos);
    FailedDrainRanSome(cmds, env, stdin, pos);
    if |d.ran| > 0 {
      DrainFailureEnding(cmds, env, stdin, pos, |d.ran| - 1);
    }
  }

  // ---------------------------------------------------------------------------
  // The queue

  /** `d` with `ran` run before it. */
  function After(ran: seq<string>, d: Drained): Drained {
    Drained(d.outcome, ran + d.ran)
  }

  /** The process-wide `SHELL_COMMAND_LIST`. */
  class CommandQueue {
    var commands: seq<ShellCommand>

    constructor ()
      ensures commands == []
    {
      commands := [];
    }

    /** `queue_command`: append one command, with `initialize`'s defaults. */
    method QueueCommand(producer: Producer, args: seq<string> := [], requiresSudo: bool := false,
                        exitOnFail: bool := true)
      modifies this
      ensures commands == old(commands) + [ShellCommand(producer, args, requiresSudo, exitOnFail)]
    {
      commands := commands + [ShellCommand(producer, args, requiresSudo, exitOnFail)];
    }

    /** `run_queued_commands`: call each command in order; the list is
        cleared only when every call returned, since any other ending ends
        the process first. */
    method RunQueuedCommands(env: Env, stdin: seq<string>, pos: nat) returns (outcome: Outcome, ran: seq<string>)
      modifies this
      ensures Drained(outcome, ran) == Drain(old(commands), env, stdin, pos)
      ensures outcome.Ok? ==> commands == []
      ensures !outcome.Ok? ==> commands == old(commands)
    {
      var input := stdin;
      var i := 0;
      var at := pos;
      ran := [];
      while i < |commands|
        invariant 0 <= i <= |commands|
        invariant commands == old(commands)
        invariant |ran| == i
        invariant Drain(commands, env, stdin, pos) == After(ran, Drain(commands[i..], env, input, at))
        decreases |commands| - i
      {
        assert commands[i..][0] == commands[i] && commands[i..][1..] == commands[i + 1..];
        var r := Execute(commands[i], env, input, at);
        match r {
          case Aborted(o) =>
            return o, ran;
          case HardFail(status, line) =>
            return Failed(status), ran + [line];
          case Returned(_, line, rest) =>
            DrainAfterReturn(commands[i..], env, input, at);
            assert ran + ([line] + Drain(commands[i + 1..], env, rest, at + 1).ran)
                == ran + [line] + Drain(commands[i + 1..], env, rest, at + 1).ran;
            ran := ran + [line];
            input := rest;
        }
        i, at := i + 1, at + 1;
      }
      commands := [];
      outcome := Ok;
    }
  }
}

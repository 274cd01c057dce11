/** The command strings the tasks run: the git staging helpers, the
    application and server commands, and the login-shell wrapper every command
    goes through. A command of several steps is a shell `&&` list, so each
    builder is also stated as the list of its steps. */
module Builders {
  import opened Wrappers
  import opened Text
  import opened Confirmation

  // git parameters
  const BR_DEPLOY_STAGING := "deploy_staging"
  const BR_DEPLOY := "deploy"
  const BR_REMOTE := "master"
  const REM_NAME := "origin"
  const AUTO_MERGE_MESSAGE := "\"auto merge by manage.py\""

  // ---------------------------------------------------------------------------
  // The login shell

  const LOGIN_SHELL := "/bin/bash --login -c "

  /** Recovers the command from a wrapped command line, if it is one. */
  function StripLoginShell(s: string): Option<string> {
    if |s| >= |LOGIN_SHELL| && s[..|LOGIN_SHELL|] == LOGIN_SHELL then Some(s[|LOGIN_SHELL|..]) else None
  }

  /** `ShellCommand.prepend_login_shell`: the command is appended to the
      wrapper verbatim, without quoting, so it can always be recovered. */
  function PrependLoginShell(cmd: string): (r: string)
    ensures |r| == |LOGIN_SHELL| + |cmd|
    ensures StripLoginShell(r) == Some(cmd)
  {
    LOGIN_SHELL + cmd
  }

  lemma StripLoginShellOnlyUnwraps(s: string, cmd: string)
    requires StripLoginShell(s) == Some(cmd)
    ensures PrependLoginShell(cmd) == s
  {
    assert s == s[..|LOGIN_SHELL|] + s[|LOGIN_SHELL|..];
  }

  // ---------------------------------------------------------------------------
  // `&&` lists

  const AND := " && "

  /** The shell list `s0 && s1 && ...`. */
  function AndList(steps: seq<string>): string {
    Join(steps, AND)
  }

  lemma AndListOfTwo(a: string, b: string)
    ensures AndList([a, b]) == a + AND + b
  {
    assert [a, b][1..] == [b];
    assert Join([b], AND) == b;
  }

  lemma AndListOfThree(a: string, b: string, c: string)
    ensures AndList([a, b, c]) == a + AND + b + AND + c
  {
    assert [a, b, c][1..] == [b, c];
    AndListOfTwo(b, c);
  }

  /** How many steps of an `&&` list run, given the status each step would
      exit with: the first always runs, each later one only after its
      predecessor exited with 0. */
  function StepsRun(statuses: seq<nat>): (n: nat)
    ensures n <= |statuses|
    ensures statuses != [] ==> n >= 1
  {
    if statuses == [] then 0
    else if statuses[0] != 0 then 1
    else 1 + StepsRun(statuses[1..])
  }

  /** Step `j` of an `&&` list runs exactly when every step before it exited with 0. */
  lemma {:induction false} StepRunsIffPredecessorsSucceed(statuses: seq<nat>, j: nat)
    requires j < |statuses|
    ensures j < StepsRun(statuses) <==> forall i :: 0 <= i < j ==> statuses[i] == 0
  {
    if j > 0 {
      if statuses[0] == 0 {
        StepRunsIffPredecessorsSucceed(statuses[1..], j - 1);
        assert forall i :: 1 <= i < j ==> statuses[i] == statuses[1..][i - 1];
      }
    }
  }

  /** Wrapping an `&&` list prefixes only its first step: with no quoting, the
      later steps stand outside the `-c` argument. Inside it, bash's word
      splitting makes only the first word of the first step the `-c` command
      string; that step's remaining words become `$0`, `$1`, ... of that
      string, which ignores them. */
  lemma LoginShellWrapsFirstStep(steps: seq<string>)
    requires |steps| > 0
    ensures PrependLoginShell(AndList(steps)) == AndList([PrependLoginShell(steps[0])] + steps[1..])
  {
    var wrapped := [PrependLoginShell(steps[0])] + steps[1..];
    assert wrapped[1..] == steps[1..];
  }

  // ---------------------------------------------------------------------------
  // git steps

  function Checkout(branch: string): string { "git checkout " + branch }
  function NewBranch(branch: string): string { "git branch " + branch }
  function DeleteBranch(branch: string): string { "git branch -d " + branch }
  function Pull(remote: string, branch: string): string { "git pull " + remote + " " + branch }
  function Merge(branch: string): string { "git merge -m " + AUTO_MERGE_MESSAGE + " " + branch }
  const RESET_MERGE := "git reset --merge"

  // ---------------------------------------------------------------------------
  // git commands

  /** `check_for_staging_branch`: a single quiet ref check, whose exit status
      is 0 exactly when the staging branch exists. */
  const CheckForStagingBranch := "git show-ref --verify --quiet refs/heads/" + BR_DEPLOY_STAGING

  /** The command `clean_up_staging_branch` puts to the operator: check out
      the production branch, then delete the staging branch. */
  function CleanUpStagingBranchCommand(): (s: string)
    ensures s == AndList([Checkout(BR_DEPLOY), DeleteBranch(BR_DEPLOY_STAGING)])
  {
    AndListOfTwo(Checkout(BR_DEPLOY), DeleteBranch(BR_DEPLOY_STAGING));
    "git checkout " + BR_DEPLOY + " && git branch -d " + BR_DEPLOY_STAGING
  }

  /** `clean_up_staging_branch`: goes ahead exactly on an affirmative first
      answer, and then with its two-step command and the answer consumed. */
  function CleanUpStagingBranch(stdin: seq<string>): (g: Gate)
    ensures g.Proceed? <==> stdin != [] && IsAffirmative(stdin[0])
    ensures g.Proceed? ==> g.cmd == AndList([Checkout(BR_DEPLOY), DeleteBranch(BR_DEPLOY_STAGING)])
                           && g.rest == stdin[1..]
  {
    Confirm(CleanUpStagingBranchCommand(), stdin)
  }

  /** `create_staging_branch`: check out the production branch, then branch
      staging from it. */
  function CreateStagingBranch(): (s: string)
    ensures s == AndList([Checkout(BR_DEPLOY), NewBranch(BR_DEPLOY_STAGING)])
  {
    AndListOfTwo(Checkout(BR_DEPLOY), NewBranch(BR_DEPLOY_STAGING));
    "git checkout " + BR_DEPLOY + " && git branch " + BR_DEPLOY_STAGING
  }

  /** `fetch_remote_changes`: check out the remote-tracking branch, then pull
      it from the remote. */
  function FetchRemoteChanges(): (s: string)
    ensures s == AndList([Checkout(BR_REMOTE), Pull(REM_NAME, BR_REMOTE)])
  {
    AndListOfTwo(Checkout(BR_REMOTE), Pull(REM_NAME, BR_REMOTE));
    "git checkout " + BR_REMOTE + " && git pull " + REM_NAME + " " + BR_REMOTE
  }

  /** `stage_changes`: check out the staging branch, then merge the fetched
      branch into it. */
  function StageChanges(): (s: string)
    ensures s == AndList([Checkout(BR_DEPLOY_STAGING), Merge(BR_REMOTE)])
  {
    AndListOfTwo(Checkout(BR_DEPLOY_STAGING), Merge(BR_REMOTE));
    "git checkout " + BR_DEPLOY_STAGING + " && " + "git merge -m " + AUTO_MERGE_MESSAGE + " " + BR_REMOTE
  }

  /** `merge_into_production`: check out production, then merge staging into it. */
  function MergeIntoProduction(): (s: string)
    ensures s == AndList([Checkout(BR_DEPLOY), Merge(BR_DEPLOY_STAGING)])
  {
    AndListOfTwo(Checkout(BR_DEPLOY), Merge(BR_DEPLOY_STAGING));
    "git checkout " + BR_DEPLOY + " && " + "git merge -m " + AUTO_MERGE_MESSAGE + " " + BR_DEPLOY_STAGING
  }

  /** `revert_merge_failure`: abort the merge in progress, then return to
      production. */
  function RevertMergeFailure(): (s: string)
    ensures s == AndList([RESET_MERGE, Checkout(BR_DEPLOY)])
  {
    AndListOfTwo(RESET_MERGE, Checkout(BR_DEPLOY));
    "git reset --merge && git checkout " + BR_DEPLOY
  }

  // ---------------------------------------------------------------------------
  // application, database and server commands

  const BundleInstall := "bundle install"
  const PrecompileAssets := "bundle exec rake assets:precompile"
  const CreateProductionDb := "RAILS_ENV=production bundle exec rake db:setup"
  const RestartServer := "supervisorctl restart labdb"
  const RunDevserver := "bundle exec puma --config config/puma.rb"

  /** `bundle update`, after the operator confirms. */
  function BundleUpdate(stdin: seq<string>): (g: Gate)
    ensures g.Proceed? <==> stdin != [] && IsAffirmative(stdin[0])
    ensures g.Proceed? ==> g.cmd == BUNDLE_UPDATE && g.rest == stdin[1..]
  {
    Confirm(BUNDLE_UPDATE, stdin)
  }

  const BUNDLE_UPDATE := "bundle update"
}

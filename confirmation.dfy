/** The confirmation gate: `confirm` prints the command, reads one line from
    standard input with `gets`, and either hands the command back or ends the
    process with status 0. Standard input is a sequence of lines; `gets` keeps
    each line's trailing newline and yields `nil` once the input is exhausted. */
module Confirmation {
  import opened Text

  /** What `confirm` does with its command: hand it back (the rest of the input
      is what later reads see), end the process with `exit 0`, or fail because
      `gets` gave `nil` and `nil.downcase` raises `NoMethodError`. */
  datatype Gate = Proceed(cmd: string, rest: seq<string>) | Refused | NilResponse

  /** A response that passes the gate, spelled out letter by letter: "y" or
      "yes" in any mix of letter case, and nothing else (no trailing newline). */
  predicate IsAffirmative(s: string) {
    (|s| == 1 && s[0] in "yY") || (|s| == 3 && s[0] in "yY" && s[1] in "eE" && s[2] in "sS")
  }

  lemma DowncaseIsYesOrY(s: string)
    ensures Downcase(s) in ["yes", "y"] <==> IsAffirmative(s)
  {
    var d := Downcase(s);
    if |s| == 3 {
      assert d == "yes" <==> d[0] == 'y' && d[1] == 'e' && d[2] == 's';
    } else if |s| == 1 {
      assert d == "y" <==> d[0] == 'y';
    }
  }

  /** `confirm`: the first line of input decides; the command is handed back
      only for an affirmative response, which `DowncaseIsYesOrY` shows is
      exactly a response whose `downcase` is "yes" or "y". */
  function Confirm(cmd: string, stdin: seq<string>): (g: Gate)
    ensures g.NilResponse? <==> stdin == []
    ensures g.Proceed? <==> stdin != [] && IsAffirmative(stdin[0])
    ensures g.Proceed? ==> g.cmd == cmd && g.rest == stdin[1..]
  {
    if stdin == [] then NilResponse
    else if IsAffirmative(stdin[0]) then Proceed(cmd, stdin[1..])
    else Refused
  }

  /** The gate is `['yes', 'y'].include? response.downcase`: it passes exactly
      when the first line, lower-cased, is "yes" or "y", and it reads that one
      line only. */
  lemma ConfirmAcceptsYesOrY(cmd: string, stdin: seq<string>)
    ensures Confirm(cmd, stdin).Proceed? <==> stdin != [] && Downcase(stdin[0]) in ["yes", "y"]
    ensures Confirm(cmd, stdin).Refused? <==> stdin != [] && Downcase(stdin[0]) !in ["yes", "y"]
  {
    if stdin != [] {
      DowncaseIsYesOrY(stdin[0]);
    }
  }

  /** A line typed at a terminal ends in a newline, which is never stripped, so
      such a response never passes the gate. */
  lemma NewlineTerminatedResponseDeclines(cmd: string, stdin: seq<string>)
    requires stdin != [] && |stdin[0]| > 0 && stdin[0][|stdin[0]| - 1] == '\n'
    ensures Confirm(cmd, stdin) == Refused
  {
  }
}

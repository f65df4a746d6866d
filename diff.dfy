/** The diff emitter, `generate_diff` (diff_tool/diff_v1.py:59-76). The
    directory comparison itself is done by `git diff --no-index`, which is not
    part of this model: only how it was started and how it exited is. */
module Diff {
  import opened Runtime

  /** How the `git diff` process ended: with an exit status, or it could not be
      started at all (no `git` on the path). */
  datatype Exit = Exited(code: int) | NotStarted

  /** What `generate_diff` did: the file it opened for writing, the command it
      ran with that file as standard output, and how it completed. */
  datatype DiffRun = DiffRun(output: Option<string>, command: Option<seq<string>>, outcome: Outcome<()>)

  function DiffCommand(oldDir: string, newDir: string): seq<string>
  {
    ["git", "diff", "--no-index", oldDir, newDir]
  }

  /** git's convention: 0 means no differences and 1 means differences were
      found; both are a successful comparison. */
  predicate ComparisonSucceeded(code: int)
  {
    code == 0 || code == 1
  }

  /** `generate_diff(oldDir, newDir, outputFile)`; `canOpen` says whether
      `open(outputFile, "w")` succeeds. */
  function GenerateDiff(oldDir: string, newDir: string, outputFile: string, canOpen: bool, exit: Exit): (r: DiffRun)
    ensures r.output == (if canOpen then Some(outputFile) else None)
    ensures r.command == (if canOpen then Some(DiffCommand(oldDir, newDir)) else None)
    // only the `CalledProcessError` of a non-zero exit is caught: a file that
    // cannot be opened or a command that cannot be started escapes as OSError
    ensures r.outcome.Raised? <==> !canOpen || exit.NotStarted?
    ensures r.outcome.Raised? ==> r.outcome.error == OSError
    // exit status 0 or 1 completes quietly; any other is logged and swallowed
    ensures canOpen && exit.Exited? ==>
              r.outcome == Returned((), if ComparisonSucceeded(exit.code) then None
                                        else Some(CalledProcessError(exit.code)))
  {
    if !canOpen then DiffRun(None, None, Raised(OSError))
    else
      var command := DiffCommand(oldDir, newDir);
      match exit
      case NotStarted => DiffRun(Some(outputFile), Some(command), Raised(OSError))
      case Exited(code) =>
        var outcome :=
          if code == 0 then Returned((), None)
          else if code == 1 then Returned((), None)   // differences were found
          else Returned((), Some(CalledProcessError(code)));
        DiffRun(Some(outputFile), Some(command), outcome)
  }

  /** A run that opened its file and started git never aborts the tool, and it
      reports an error exactly when the exit status is neither 0 nor 1. */
  lemma DiffNeverAborts(oldDir: string, newDir: string, outputFile: string, code: int)
    ensures var r := GenerateDiff(oldDir, newDir, outputFile, true, Exited(code));
            r.outcome.Returned? && (r.outcome.logged.Some? <==> !ComparisonSucceeded(code))
  {
  }
}

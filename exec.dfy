/**
 * External commands as oracles. The service runs `git` through
 * `Project.exec`, which keeps standard output, turns a non-zero exit into a
 * `GitError` carrying standard error, and passes any other failure through;
 * and it runs `go build` once per target with its combined output written to
 * the build log. What each command does is not modelled: a `World` says what
 * each command line would produce.
 */
module Exec {
  import opened Wrappers
  import opened Strs

  /** A Go `error` value is modelled by its `Error()` text. */
  datatype Result<+T> = Ok(value: T) | Err(msg: string)

  /** A command line, the directory it runs in, and its environment (None: inherited). */
  datatype Command = Command(dir: string, args: seq<string>, env: Option<seq<string>>)

  /** What `cmd.Output()` returns: standard output, an `*exec.ExitError` with standard error, or another error. */
  datatype Outcome = Exited(stdout: string) | ExitError(stderr: string) | StartError(msg: string)

  /**
   * What `cmd.Run()` of a `go build` does: the output written to the log and
   * then either success, an `*exec.ExitError` (with its `Error()` text, such
   * as "exit status 1"), or another error (the tool could not be started),
   * after which nothing was written.
   */
  datatype GoRun = GoOk(output: string) | GoExit(output: string, msg: string) | GoOther

  /**
   * The environment of the service: the outcome of every git and go command,
   * the resolved path of the `go` binary that `cmd.String()` prints, the
   * inherited environment `os.Environ()`, and for every path the error, other
   * than "file exists", that creating it would meet.
   */
  datatype World = World(
    git: Command -> Outcome,
    goBuild: Command -> GoRun,
    goPath: string,
    environ: seq<string>,
    mkdirFault: string -> Option<string>)

  /** `GitError.Error()`. */
  function GitErrorText(stderr: string): string {
    "git error: " + stderr
  }

  /**
   * The post-processing in `Project.exec`: trailing newlines are cut from
   * standard output; an exit error becomes a `GitError`; other errors pass
   * through unchanged.
   */
  function Output(o: Outcome): (r: Result<string>)
    ensures o.Exited? <==> r.Ok?
    ensures o.Exited? ==> IsPrefix(r.value, o.stdout) && (r.value == [] || r.value[|r.value| - 1] != '\n')
    ensures o.Exited? ==> forall i :: |r.value| <= i < |o.stdout| ==> o.stdout[i] == '\n'
    ensures o.ExitError? ==> r == Err("git error: " + o.stderr)
    ensures o.StartError? ==> r == Err(o.msg)
  {
    match o
    case Exited(out) => Ok(TrimTrailing(out, '\n'))
    case ExitError(stderr) => Err(GitErrorText(stderr))
    case StartError(msg) => Err(msg)
  }

  /** A git command run by `Project.exec` in the clone's directory, with the inherited environment. */
  function GitCommand(dir: string, args: seq<string>): Command {
    Command(dir, ["git"] + args, None)
  }

  /** The words after the program name, each preceded by one space. */
  function SpacedArgs(args: seq<string>): (r: string)
    ensures |r| >= |args|
    ensures args != [] ==> r[0] == ' '
    decreases |args|
  {
    if args == [] then "" else " " + args[0] + SpacedArgs(args[1..])
  }

  /** `cmd.String()`: the resolved program path, then every argument after the program name. */
  function CommandLine(path: string, c: Command): (r: string)
    ensures |r| >= |path| && r[..|path|] == path
  {
    path + (if |c.args| == 0 then "" else SpacedArgs(c.args[1..]))
  }

  /** The line is the bare path exactly when the command has no argument after the program name. */
  lemma {:induction false} CommandLineBare(path: string, c: Command)
    ensures CommandLine(path, c) == path <==> |c.args| <= 1
  {
    if |c.args| > 1 {
      assert |SpacedArgs(c.args[1..])| >= 1;
      assert |CommandLine(path, c)| > |path|;
    }
  }
}

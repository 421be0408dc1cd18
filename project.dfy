/**
 * Build orchestration (project.go): a `Project` is a local clone with a
 * cache of `Build`s keyed by resolved commit id; a `Build` moves from
 * NotStarted to InProgress by one compare-and-set, and its pipeline
 * (crash-recovery check, checkout, target parsing, one `go build` per
 * target, finaliser) then stores a log and a terminal status.
 *
 * The pipeline is specified by the function `Pipeline` on values and
 * carried out by the method `Build.Run`, which follows the code statement
 * by statement; the goroutine that runs it is started by `StartBuild` and is
 * modelled as running to completion right after the compare-and-set.
 */
module Projects {
  import opened Wrappers
  import opened Strs
  import opened Exec
  import opened FileSys
  import opened Targets

  /** `BuildStatus`, in the order of its `iota` constants. */
  datatype BuildStatus = NotStarted | InProgress | Finished | Failed {

    predicate Terminal() {
      this == Finished || this == Failed
    }

    /** How far along the state machine a status is; it never decreases. */
    function Rank(): nat {
      match this
      case NotStarted => 0
      case InProgress => 1
      case Finished => 2
      case Failed => 2
    }
  }

  /** What one build's pipeline works on: the names and paths its commands use. */
  datatype BuildJob = BuildJob(projName: string, projPath: string, ref: string, codePath: string, filesPath: string)

  /** `filepath.Join(proj.path, "goci", ref)`. */
  function BuildDir(projPath: string, ref: string): string {
    projPath + "/goci/" + ref
  }

  // ---------------------------------------------------------------------
  // The commands goci runs

  function RemoteCommand(projPath: string): Command {
    GitCommand(projPath, ["remote", "get-url", "origin"])
  }

  function ProbeCommand(projPath: string, ref: string): Command {
    GitCommand(projPath, ["rev-parse", "--short=" + NatToString(Utf8Length(ref)), ref])
  }

  function FetchCommand(projPath: string): Command {
    GitCommand(projPath, ["fetch"])
  }

  function ResolveCommand(projPath: string, ref: string): Command {
    GitCommand(projPath, ["rev-parse", "--short", ref])
  }

  function ShowBranchCommand(projPath: string, ref: string): Command {
    GitCommand(projPath, ["show-branch", "--no-name", "--", ref])
  }

  function WorkTreeGit(j: BuildJob, args: seq<string>): Command {
    GitCommand(j.projPath, ["--work-tree", j.codePath] + args)
  }

  function CheckoutCommand(j: BuildJob): Command {
    WorkTreeGit(j, ["checkout", "--detach", j.ref])
  }

  function ResetCommand(j: BuildJob): Command {
    WorkTreeGit(j, ["reset", "--hard"])
  }

  function ConfigCommand(j: BuildJob): Command {
    WorkTreeGit(j, ["config", "goci.targets"])
  }

  /** The three git commands that precede the target builds. */
  function SetupCommands(j: BuildJob): seq<Command> {
    [CheckoutCommand(j), ResetCommand(j), ConfigCommand(j)]
  }

  /** `filepath.Join(build.FilesPath, outfn)`. */
  function OutPath(j: BuildJob, t: Target): string {
    j.filesPath + "/" + OutputName(j.projName, t)
  }

  /** The `go build` command for one target, run in the code directory. */
  function GoCommand(j: BuildJob, w: World, t: Target): Command {
    Command(j.codePath, ["go", "build", "-o", OutPath(j, t), "-tags", Join(t.tags, ',')],
            Some(w.environ + EnvOverrides(t)))
  }

  /** What a run writes to the log after its command line. */
  function RunText(run: GoRun): string {
    match run
    case GoOk(out) => out
    case GoExit(out, msg) => out + "\n" + msg
    case GoOther => ""
  }

  /** One target's part of the log: the command line, a newline, then what the run wrote. */
  function LogEntry(w: World, c: Command, run: GoRun): string {
    CommandLine(w.goPath, c) + "\n" + RunText(run)
  }

  // ---------------------------------------------------------------------
  // The pipeline on values

  /**
   * The variables the target loop updates: the local `status`, the log
   * buffer, the outer `err` (which only the cgo table writes inside the
   * loop), the commands it ran and the artifacts it built.
   */
  datatype LoopState = LoopState(status: BuildStatus, log: string, err: Option<string>, ran: seq<Command>, built: seq<string>)

  /** The loop starts with `status := BuildFailed` and an empty buffer. */
  const LoopStart := LoopState(Failed, "", None, [], [])

  /**
   * What one target's turn amounts to: the `go build` command, what the
   * run did, the text it adds to the log, the path of its artifact, and the
   * error the cgo compiler table gives for it.
   */
  datatype Attempt = Attempt(cmd: Command, run: GoRun, entry: string, artifact: string, err: Option<string>)

  function AttemptOf(j: BuildJob, w: World, t: Target): Attempt {
    var c := GoCommand(j, w, t);
    var run := w.goBuild(c);
    Attempt(c, run, LogEntry(w, c, run), OutPath(j, t), PlatformError(t))
  }

  /** The attempts of the targets, in order. */
  function Attempts(j: BuildJob, w: World, ts: seq<Target>): (r: seq<Attempt>)
    ensures |r| == |ts|
  {
    seq(|ts|, i requires 0 <= i < |ts| => AttemptOf(j, w, ts[i]))
  }

  /**
   * One target's turn in the loop from state `s`: its command is logged
   * and recorded, the cgo table may set the error, and the run decides the
   * status; a successful run leaves its artifact.
   */
  function Step(a: Attempt, s: LoopState): (r: LoopState)
    ensures r.status.Terminal() && (r.status == Finished <==> a.run.GoOk?)
  {
    LoopState(if a.run.GoOk? then Finished else Failed,
              s.log + a.entry,
              if a.err.Some? then a.err else s.err,
              s.ran + [a.cmd],
              if a.run.GoOk? then s.built + [a.artifact] else s.built)
  }

  /** The target loop from state `s`: attempts in order, stopping after the first failed run. */
  function Loop(attempts: seq<Attempt>, s: LoopState): (r: LoopState)
    ensures attempts != [] ==> r.status.Terminal()
    decreases |attempts|
  {
    if attempts == [] then s
    else
      var next := Step(attempts[0], s);
      if next.status == Finished then Loop(attempts[1..], next) else next
  }

  /** The observable result of one pipeline run. */
  datatype Effect = Effect(status: BuildStatus, log: string, ran: seq<Command>, paths: set<string>)

  /**
   * Where the body of the goroutine leaves things when it returns: the
   * outer `err`, the local `status`, the log buffer so far, the commands
   * run and the disk.
   */
  datatype Staged = Staged(err: Option<string>, status: BuildStatus, log: string, ran: seq<Command>, paths: set<string>)

  /**
   * The deferred finaliser: an error forces Failed and becomes the log;
   * a Failed build loses its files directory.
   */
  function Finish(j: BuildJob, s: Staged): (r: Effect)
    ensures r.ran == s.ran
    ensures r.status == Finished <==> s.err.None? && s.status == Finished
    ensures s.err.Some? ==> r.status == Failed && r.log == s.err.value
    ensures r.paths <= s.paths
    ensures r.status == Failed ==> forall q :: q in r.paths ==> !Under(q, j.filesPath)
  {
    var st := if s.err.Some? then Failed else s.status;
    Effect(st, if s.err.Some? then s.err.value else s.log, s.ran,
           if st == Failed then RemoveAll(s.paths, j.filesPath) else s.paths)
  }

  /** The goroutine of `StartBuild` from an initial log `log0` and disk `paths0`. */
  function Pipeline(j: BuildJob, w: World, log0: string, paths0: set<string>): (r: Effect)
    ensures r.ran != [] ==> r.ran[0] == CheckoutCommand(j)
    ensures r.status == Failed ==> forall q :: q in r.paths ==> !Under(q, j.filesPath)
  {
    Finish(j, Stages(j, w, log0, paths0))
  }

  /**
   * The body before the finaliser: the crash-recovery decision from the
   * two `os.Mkdir` results; only when both directories were created does
   * the build go on.
   */
  function Stages(j: BuildJob, w: World, log0: string, paths0: set<string>): (r: Staged)
    ensures paths0 <= r.paths
    ensures r.ran != [] ==> r.ran[0] == CheckoutCommand(j) && j.codePath in r.paths && j.filesPath in r.paths
  {
    var code := Mkdir(paths0, j.codePath, w.mkdirFault(j.codePath));
    var files := Mkdir(code.1, j.filesPath, w.mkdirFault(j.filesPath));
    var paths := files.1;
    if code.0 == AlreadyExists then
      Staged(None, if files.0 == AlreadyExists then Finished else Failed, log0, [], paths)
    else if code.0.MkdirFailed? then
      Staged(Some(MkdirResultText(j.codePath, code.0)), Failed, log0, [], paths)
    else if files.0 != Created then
      Staged(Some(MkdirResultText(j.filesPath, files.0)), Failed, log0, [], paths)
    else
      Checkout(j, w, log0, paths)
  }

  /** Checkout, reset, configuration, parsing and the target loop; the first error stops it. */
  function Checkout(j: BuildJob, w: World, log0: string, paths: set<string>): (r: Staged)
    ensures |r.ran| >= 1 && r.ran[0] == CheckoutCommand(j)
  {
    var checkout := Output(w.git(CheckoutCommand(j)));
    var reset := Output(w.git(ResetCommand(j)));
    var config := Output(w.git(ConfigCommand(j)));
    if checkout.Err? then Staged(Some(checkout.msg), Failed, log0, [CheckoutCommand(j)], paths)
    else if reset.Err? then Staged(Some(reset.msg), Failed, log0, [CheckoutCommand(j), ResetCommand(j)], paths)
    else if config.Err? then Staged(Some(config.msg), Failed, log0, SetupCommands(j), paths)
    else
      match ParseConfig(config.value)
      case Err(e) => Staged(Some(e), Failed, log0, SetupCommands(j), paths)
      case Ok(ts) => TargetStage(j, Attempts(j, w, ts), paths)
  }

  /** The target loop's outcome, after the three git commands, with its artifacts on disk. */
  function TargetStage(j: BuildJob, atts: seq<Attempt>, paths: set<string>): (r: Staged)
    ensures paths <= r.paths
    ensures |r.ran| >= 3 && r.ran[..3] == SetupCommands(j)
    ensures atts != [] ==> r.status.Terminal()
  {
    var s := Loop(atts, LoopStart);
    Staged(s.err, s.status, s.log, SetupCommands(j) + s.ran, paths + (set b | b in s.built))
  }

  /** The loop's status is always terminal once it has started from `LoopStart`'s Failed. */
  lemma {:induction false} LoopTerminal(attempts: seq<Attempt>, s: LoopState)
    requires s.status.Terminal()
    ensures Loop(attempts, s).status.Terminal()
    decreases |attempts|
  {
    if attempts != [] && Step(attempts[0], s).status == Finished {
      LoopTerminal(attempts[1..], Step(attempts[0], s));
    }
  }

  /** Every pipeline run ends Finished or Failed. */
  lemma PipelineTerminal(j: BuildJob, w: World, log0: string, paths0: set<string>)
    ensures Pipeline(j, w, log0, paths0).status.Terminal()
  {
    var config := Output(w.git(ConfigCommand(j)));
    if config.Ok? && ParseConfig(config.value).Ok? {
      LoopTerminal(Attempts(j, w, ParseConfig(config.value).value), LoopStart);
    }
  }

  /** The output name of one target, built by `+=` as the loop does. */
  method OutputFile(projName: string, target: Target) returns (outfn: string)
    ensures outfn == OutputName(projName, target)
  {
    ghost var osPart := if target.os != "" then "-" + target.os else "";
    ghost var archPart := if target.arch != "" then "-" + target.arch else "";
    ghost var tagPart := if |target.tags| > 0 then "-" + Join(target.tags, '-') else "";
    outfn := projName;
    if target.os != "" {
      outfn := outfn + "-" + target.os;
    }
    assert outfn == projName + osPart;
    if target.arch != "" {
      outfn := outfn + "-" + target.arch;
    }
    assert outfn == projName + osPart + archPart;
    if |target.tags| > 0 {
      outfn := outfn + "-" + Join(target.tags, '-');
    }
    assert outfn == projName + osPart + archPart + tagPart;
    if target.os == "windows" {
      outfn := outfn + ".exe";
    }
  }

  /**
   * The environment of one target's `go build`, built by `append` as the
   * loop does, and the error the cgo compiler table leaves in the outer
   * `err` (the OS check runs second, so its error wins).
   */
  method TargetEnv(environ: seq<string>, target: Target) returns (env: seq<string>, err: Option<string>)
    ensures env == environ + EnvOverrides(target)
    ensures err == PlatformError(target)
  {
    env := environ;
    if target.os != "" {
      env := env + ["GOOS=" + target.os];
    }
    if target.arch != "" {
      env := env + ["GOARCH=" + target.arch];
    }
    assert env == environ + ((if target.os != "" then ["GOOS=" + target.os] else [])
                             + (if target.arch != "" then ["GOARCH=" + target.arch] else []));
    var cgo;
    cgo, err := CgoEnv(target);
    env := env + cgo;
  }

  /** The `if target.UseCgo` block: the cgo entries and the compiler table's error. */
  method CgoEnv(target: Target) returns (cgo: seq<string>, err: Option<string>)
    ensures cgo == if target.useCgo then ["CGO_ENABLED=1"] + CcVar(target) else ["CGO_ENABLED=0"]
    ensures err == PlatformError(target)
  {
    err := None;
    if target.useCgo {
      cgo := ["CGO_ENABLED=1"];
      var arch := "";
      if target.arch == "" {
      } else if target.arch == "amd64" {
        arch := "x86_64";
      } else if target.arch == "386" {
        arch := "x86";
      } else {
        err := Some("Unknown architecture " + Quote(target.arch));
      }
      var os := "";
      if target.os == "" {
      } else if target.os == "linux" {
        os := "unknown-linux-gnu";
      } else if target.os == "windows" {
        os := "w64-mingw32";
      } else {
        err := Some("Unknown OS " + Quote(target.os));
      }
      assert arch == CcArch(target.arch).GetOr("") && os == CcOs(target.os).GetOr("");
      if arch != "" && os != "" {
        cgo := cgo + ["CC=" + arch + "-" + os + "-gcc"];
      }
    } else {
      cgo := ["CGO_ENABLED=0"];
    }
  }

  /**
   * The target loop of `StartBuild` (project.go, lines 203-284): the output
   * name built by `+=`, the environment by `append`, the command line and
   * the run's output appended to the buffer, `break build` at the first
   * failed run.
   */
  method RunTargets(j: BuildJob, w: World, targets: seq<Target>) returns (s: LoopState)
    ensures s == Loop(Attempts(j, w, targets), LoopStart)
  {
    var status := Failed;
    var buildLog := "";
    var err: Option<string> := None;
    var ran: seq<Command> := [];
    var built: seq<string> := [];
    var i := 0;
    while i < |targets|
      invariant 0 <= i <= |targets|
      invariant Loop(Attempts(j, w, targets), LoopStart) == Loop(Attempts(j, w, targets)[i..], LoopState(status, buildLog, err, ran, built))
    {
      ghost var rest := Attempts(j, w, targets)[i..];
      assert rest[0] == AttemptOf(j, w, targets[i]) && rest[1..] == Attempts(j, w, targets)[i + 1..];
      var after := BuildOne(j, w, targets[i], LoopState(status, buildLog, err, ran, built));
      status, buildLog, err, ran, built := after.status, after.log, after.err, after.ran, after.built;
      if status == Failed {
        break;
      }
      i := i + 1;
    }
    assert i == |targets| ==> Attempts(j, w, targets)[i..] == [];
    s := LoopState(status, buildLog, err, ran, built);
  }

  /**
   * The body of the target loop for one target: output name, environment,
   * the `go build` command, its line in the log, then the run.
   */
  method BuildOne(j: BuildJob, w: World, target: Target, before: LoopState) returns (after: LoopState)
    ensures after == Step(AttemptOf(j, w, target), before)
  {
    var buildLog, err, ran, built := before.log, before.err, before.ran, before.built;
    var outfn := OutputFile(j.projName, target);
    var env, platformErr := TargetEnv(w.environ, target);
    if platformErr.Some? {
      err := platformErr;
    }
    var cmd := Command(j.codePath, ["go", "build", "-o", j.filesPath + "/" + outfn, "-tags", Join(target.tags, ',')], Some(env));
    assert cmd == GoCommand(j, w, target);
    buildLog := buildLog + CommandLine(w.goPath, cmd) + "\n";
    ghost var head := buildLog;
    ran := ran + [cmd];
    var status := Failed;
    var run := w.goBuild(cmd);
    match run {
      case GoOk(out) =>
        buildLog := buildLog + out;
        status := Finished;
        built := built + [j.filesPath + "/" + outfn];
      case GoExit(out, msg) =>
        buildLog := buildLog + out + "\n" + msg;
        assert buildLog == head + (out + "\n" + msg);
      case GoOther =>
        assert buildLog == head + "";
    }
    assert buildLog == head + RunText(run);
    assert head == before.log + (CommandLine(w.goPath, cmd) + "\n");
    Assoc(before.log, CommandLine(w.goPath, cmd) + "\n", RunText(run));
    assert buildLog == before.log + LogEntry(w, cmd, run);
    after := LoopState(status, buildLog, err, ran, built);
  }

  // ---------------------------------------------------------------------
  // Projects and builds

  /** A local clone and its cache of builds, keyed by resolved commit id. */
  class Project {
    const name: string
    const url: string
    const path: string
    var builds: map<string, Build>
    /** How many times `Ref` has run `git fetch`. */
    ghost var fetchCount: nat

    /** Every cached build belongs to this project, under its own id, in `path/goci/id`. */
    ghost predicate Valid()
      reads this
    {
      forall r :: r in builds ==>
        && builds[r].proj == this
        && builds[r].ref == r
        && builds[r].path == BuildDir(path, r)
        && builds[r].codePath == BuildDir(path, r) + "/code"
        && builds[r].filesPath == BuildDir(path, r) + "/files"
    }

    constructor (name: string, url: string, path: string)
      ensures this.name == name && this.url == url && this.path == path
      ensures builds == map[] && fetchCount == 0
      ensures Valid()
    {
      this.name, this.url, this.path := name, url, path;
      builds := map[];
      fetchCount := 0;
    }

    /**
     * `OpenProject`: the clone must exist and `git remote get-url origin`
     * must succeed; its output is the project's URL.
     */
    static method Open(name: string, path: string, fs: FileSystem, w: World) returns (p: Project?, err: Option<string>)
      ensures p != null <==> err == None
      ensures path !in fs.paths ==> err == Some("stat " + path + ": no such file or directory")
      ensures path in fs.paths ==> match Output(w.git(RemoteCommand(path)))
        case Err(e) => err == Some(e)
        case Ok(u) => p != null && fresh(p) && p.Valid() && p.name == name && p.url == u && p.path == path
                      && p.builds == map[] && p.fetchCount == 0
    {
      if path !in fs.paths {
        return null, Some("stat " + path + ": no such file or directory");
      }
      var remote := Output(w.git(RemoteCommand(path)));
      if remote.Err? {
        return null, Some(remote.msg);
      }
      p := new Project(name, remote.value, path);
      err := None;
    }

    /**
     * `Ref`: the reference counts as a commit id when `rev-parse` at its own
     * length gives it back unchanged; otherwise the clone is fetched (the
     * fetch's own error is ignored). The result is the canonical short id,
     * or the error of that last `rev-parse`, with `hash` then false.
     */
    method Ref(ref: string, w: World) returns (actualRef: string, hash: bool, err: Option<string>)
      modifies this`fetchCount
      ensures var matched := Output(w.git(ProbeCommand(path, ref))) == Ok(ref);
        && fetchCount == old(fetchCount) + (if matched then 0 else 1)
        && match Output(w.git(ResolveCommand(path, ref)))
          case Ok(id) => actualRef == id && hash == matched && err == None
          case Err(e) => actualRef == "" && !hash && err == Some(e)
    {
      var probe := Output(w.git(ProbeCommand(path, ref)));
      if probe.Err? || probe.value != ref {
        var _ := Output(w.git(FetchCommand(path)));
        fetchCount := fetchCount + 1;
        hash := false;
      } else {
        hash := true;
      }
      var resolved := Output(w.git(ResolveCommand(path, ref)));
      if resolved.Err? {
        return "", false, Some(resolved.msg);
      }
      actualRef, err := resolved.value, None;
    }

    /**
     * `GetBuild`: the cached build for `ref`, or a new NotStarted build in
     * `path/goci/ref` once that directory exists and `git show-branch` has
     * described the commit; nothing is cached when either step fails.
     */
    method GetBuild(ref: string, fs: FileSystem, w: World) returns (b: Build?, err: Option<string>)
      requires Valid()
      modifies this`builds, fs
      ensures Valid()
      ensures b != null <==> err == None
      ensures ref in old(builds) ==> b == old(builds)[ref] && builds == old(builds) && fs.paths == old(fs.paths)
      ensures ref !in old(builds) ==>
        var dir := BuildDir(path, ref);
        var mk := MkdirAll(old(fs.paths), dir, w.mkdirFault(dir));
        var desc := Output(w.git(ShowBranchCommand(path, ref)));
        && fs.paths == mk.1
        && (mk.0.Some? ==> err == mk.0 && builds == old(builds))
        && (mk.0.None? && desc.Err? ==> err == Some(desc.msg) && builds == old(builds))
        && (mk.0.None? && desc.Ok? ==>
              && b != null && fresh(b) && builds == old(builds)[ref := b]
              && b.Valid() && b.status == NotStarted && b.buildLog == ""
              && b.proj == this && b.ref == ref && b.desc == desc.value && b.path == dir)
    {
      if ref in builds {
        return builds[ref], None;
      }
      var dir := BuildDir(path, ref);
      var mkErr := fs.MakeDirAll(dir, w.mkdirFault(dir));
      if mkErr.Some? {
        return null, mkErr;
      }
      var desc := Output(w.git(ShowBranchCommand(path, ref)));
      if desc.Err? {
        return null, Some(desc.msg);
      }
      b := new Build(this, ref, desc.value, dir);
      builds := builds[ref := b];
      err := None;
    }
  }

  /** The snapshot `Summary()` returns for the status page. */
  datatype BuildSummary = BuildSummary(projName: string, projURL: string, commit: string, summary: string, status: BuildStatus, log: string)

  /** One build attempt of one resolved commit. */
  class Build {
    const proj: Project
    const ref: string
    const desc: string
    const path: string
    const codePath: string
    const filesPath: string
    var status: BuildStatus
    var buildLog: string
    /** The commands its pipeline ran, in order. */
    ghost var ran: seq<Command>
    /** How many pipeline runs have been started for this build. */
    ghost var runs: nat

    /**
     * The directories sit in `path`; a pipeline has run exactly when the
     * status has left NotStarted; nothing is logged before it is terminal.
     */
    ghost predicate Valid()
      reads this
    {
      && codePath == path + "/code"
      && filesPath == path + "/files"
      && runs == (if status == NotStarted then 0 else 1)
      && (!status.Terminal() ==> buildLog == "" && ran == [])
    }

    constructor (proj: Project, ref: string, desc: string, path: string)
      ensures this.proj == proj && this.ref == ref && this.desc == desc && this.path == path
      ensures status == NotStarted && buildLog == "" && ran == [] && runs == 0
      ensures Valid()
    {
      this.proj, this.ref, this.desc, this.path := proj, ref, desc, path;
      codePath, filesPath := path + "/code", path + "/files";
      status, buildLog := NotStarted, "";
      ran, runs := [], 0;
    }

    function Job(): BuildJob {
      BuildJob(proj.name, proj.path, ref, codePath, filesPath)
    }

    /**
     * `StartBuild`: the compare-and-set from NotStarted to InProgress; only
     * the call that wins it runs the pipeline. Any other call changes
     * nothing.
     */
    method StartBuild(fs: FileSystem, w: World) returns (launched: bool)
      requires Valid()
      modifies this, fs
      ensures Valid()
      ensures launched <==> old(status) == NotStarted
      ensures !launched ==> status == old(status) && buildLog == old(buildLog) && ran == old(ran) && runs == old(runs)
                            && fs.paths == old(fs.paths)
      ensures launched ==> var e := Pipeline(Job(), w, "", old(fs.paths));
                           status == e.status && buildLog == e.log && ran == e.ran && fs.paths == e.paths
      ensures old(status).Rank() <= status.Rank()
      ensures runs <= 1
    {
      if status != NotStarted {
        return false;
      }
      status := InProgress;
      runs := runs + 1;
      launched := true;
      Run(fs, w);
    }

    /**
     * The goroutine of `StartBuild` (project.go, lines 129-287): the body,
     * then the deferred finaliser. The log is stored while the status is
     * still InProgress, and the status last.
     */
    method Run(fs: FileSystem, w: World)
      requires Valid() && status == InProgress
      modifies this, fs
      ensures Valid()
      ensures var e := Pipeline(Job(), w, old(buildLog), old(fs.paths));
        status == e.status && buildLog == e.log && ran == e.ran && fs.paths == e.paths
      ensures runs == old(runs)
    {
      ghost var log0, paths0 := buildLog, fs.paths;
      var err, st := Prepare(fs, w);
      if err.Some? {
        buildLog := err.value;
        st := Failed;
      }
      if st == Failed {
        fs.RemoveTree(filesPath);
      }
      assert status == InProgress;
      status := st;
      PipelineTerminal(Job(), w, log0, paths0);
    }

    /**
     * The body of the goroutine up to its first `return`: the two `os.Mkdir`
     * calls and the recovery decision, then the rest of the build.
     */
    method Prepare(fs: FileSystem, w: World) returns (err: Option<string>, st: BuildStatus)
      requires ran == []
      modifies this`buildLog, this`ran, fs
      ensures Staged(err, st, buildLog, ran, fs.paths) == Stages(Job(), w, old(buildLog), old(fs.paths))
    {
      err, st := None, Failed;
      var codeErr := fs.MakeDir(codePath, w.mkdirFault(codePath));
      var filesErr := fs.MakeDir(filesPath, w.mkdirFault(filesPath));
      if codeErr == AlreadyExists {
        st := if filesErr == AlreadyExists then Finished else Failed;
      } else if codeErr.MkdirFailed? {
        err := Some(MkdirResultText(codePath, codeErr));
      } else if filesErr != Created {
        err := Some(MkdirResultText(filesPath, filesErr));
      } else {
        err, st := CheckoutAndBuild(fs, w);
      }
    }

    /**
     * Checkout, reset, reading `goci.targets`, parsing it and the target
     * loop, each `return`ing with its error on failure.
     */
    method CheckoutAndBuild(fs: FileSystem, w: World) returns (err: Option<string>, st: BuildStatus)
      requires ran == []
      modifies this`buildLog, this`ran, fs
      ensures Staged(err, st, buildLog, ran, fs.paths) == Checkout(Job(), w, old(buildLog), old(fs.paths))
    {
      err, st := None, Failed;
      ran := ran + [CheckoutCommand(Job())];
      var checkout := Output(w.git(CheckoutCommand(Job())));
      if checkout.Err? {
        return Some(checkout.msg), st;
      }
      ran := ran + [ResetCommand(Job())];
      var reset := Output(w.git(ResetCommand(Job())));
      if reset.Err? {
        return Some(reset.msg), st;
      }
      ran := ran + [ConfigCommand(Job())];
      var config := Output(w.git(ConfigCommand(Job())));
      if config.Err? {
        return Some(config.msg), st;
      }
      var targets := ParseTargets(config.value);
      if targets.Err? {
        return Some(targets.msg), st;
      }
      err, st := BuildTargets(fs, w, targets.value);
    }

    /** The target loop, its commands recorded and its artifacts written. */
    method BuildTargets(fs: FileSystem, w: World, targets: seq<Target>) returns (err: Option<string>, st: BuildStatus)
      requires ran == SetupCommands(Job())
      modifies this`buildLog, this`ran, fs
      ensures Staged(err, st, buildLog, ran, fs.paths) == TargetStage(Job(), Attempts(Job(), w, targets), old(fs.paths))
    {
      var loop := RunTargets(Job(), w, targets);
      ran := ran + loop.ran;
      fs.AddFiles(set b | b in loop.built);
      err, st := loop.err, loop.status;
      buildLog := loop.log;
    }

    /** `Status()`: an atomic read of the status field. */
    function Status(): BuildStatus
      reads this
    {
      status
    }

    /** `Log()`: the log once the status is terminal, "" before. */
    function Log(): (r: string)
      reads this
      ensures status.Terminal() ==> r == buildLog
      ensures !status.Terminal() ==> r == ""
    {
      match Status()
      case Finished => buildLog
      case Failed => buildLog
      case _ => ""
    }

    /** `Summary()`: the project, commit, status and (terminal only) log, read together. */
    function Summary(): (s: BuildSummary)
      reads this
      ensures s.projName == proj.name && s.projURL == proj.url && s.commit == ref && s.summary == desc
      ensures s.status == status
      ensures s.log == if status.Terminal() then buildLog else ""
    {
      BuildSummary(proj.name, proj.url, ref, desc, Status(), Log())
    }
  }
}

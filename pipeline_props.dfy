/**
 * What a build's pipeline promises, stated against independent reference
 * definitions: which targets are built (up to and including the first
 * failing one), which commands run, what the log holds, which error the
 * finaliser keeps, what is left on disk, and how crash recovery decides
 * from the directories that already exist.
 */
module PipelineProps {
  import opened Wrappers
  import opened Strs
  import opened Exec
  import opened FileSys
  import opened Targets
  import opened Projects

  // ---------------------------------------------------------------------
  // Reference definitions for the target loop

  /** The index of the first attempt whose build does not succeed, or `|atts|` when all do. */
  function FirstFailure(atts: seq<Attempt>): (k: nat)
    ensures k <= |atts|
    ensures forall i :: 0 <= i < k ==> atts[i].run.GoOk?
    ensures k < |atts| ==> !atts[k].run.GoOk?
    decreases |atts|
  {
    if atts == [] then 0
    else if atts[0].run.GoOk? then
      var k := FirstFailure(atts[1..]);
      assert forall i :: 1 <= i < k + 1 ==> atts[i] == atts[1..][i - 1];
      k + 1
    else 0
  }

  /** How many attempts the loop makes: all of them, or those up to and including the first failure. */
  function RunCount(atts: seq<Attempt>): (n: nat)
    ensures n <= |atts|
    ensures atts != [] ==> n >= 1
  {
    var k := FirstFailure(atts);
    if k < |atts| then k + 1 else |atts|
  }

  /** The commands of the attempts, in order. */
  function Commands(atts: seq<Attempt>): (cs: seq<Command>)
    ensures |cs| == |atts|
    decreases |atts|
  {
    if atts == [] then [] else [atts[0].cmd] + Commands(atts[1..])
  }

  /** The artifacts of the attempts, in order. */
  function Artifacts(atts: seq<Attempt>): (ps: seq<string>)
    ensures |ps| == |atts|
    decreases |atts|
  {
    if atts == [] then [] else [atts[0].artifact] + Artifacts(atts[1..])
  }

  /** The log entries of the attempts, one after the other. */
  function Entries(atts: seq<Attempt>): string
    decreases |atts|
  {
    if atts == [] then "" else atts[0].entry + Entries(atts[1..])
  }

  /** The error left after the attempts in order, starting from `e`; each platform error overwrites the one before. */
  function LastError(atts: seq<Attempt>, e: Option<string>): Option<string>
    decreases |atts|
  {
    if atts == [] then e else LastError(atts[1..], if atts[0].err.Some? then atts[0].err else e)
  }

  // ---------------------------------------------------------------------
  // Facts about the reference definitions

  lemma {:induction false} EntriesSnoc(atts: seq<Attempt>, a: Attempt)
    ensures Entries(atts + [a]) == Entries(atts) + a.entry
    decreases |atts|
  {
    if atts == [] {
      assert [] + [a] == [a];
      assert [a][1..] == [];
    } else {
      assert (atts + [a])[1..] == atts[1..] + [a];
      EntriesSnoc(atts[1..], a);
    }
  }

  lemma {:induction false} ArtifactsAt(atts: seq<Attempt>, i: nat)
    requires i < |atts|
    ensures Artifacts(atts)[i] == atts[i].artifact
    decreases i
  {
    if i > 0 {
      ArtifactsAt(atts[1..], i - 1);
    }
  }

  /** Some error is left exactly when one was there at the start or some attempt has one. */
  lemma {:induction false} LastErrorSome(atts: seq<Attempt>, e: Option<string>)
    ensures LastError(atts, e).Some? <==> e.Some? || exists i :: 0 <= i < |atts| && atts[i].err.Some?
    decreases |atts|
  {
    if atts != [] {
      var rest := atts[1..];
      LastErrorSome(rest, if atts[0].err.Some? then atts[0].err else e);
      if exists i :: 0 <= i < |rest| && rest[i].err.Some? {
        var i :| 0 <= i < |rest| && rest[i].err.Some?;
        assert atts[i + 1] == rest[i];
      }
      if exists i :: 0 <= i < |atts| && atts[i].err.Some? {
        var i :| 0 <= i < |atts| && atts[i].err.Some?;
        if i > 0 {
          assert rest[i - 1] == atts[i];
        }
      }
    }
  }

  /** Attempts without platform errors leave the error as it was. */
  lemma {:induction false} LastErrorNone(atts: seq<Attempt>, e: Option<string>)
    requires forall i :: 0 <= i < |atts| ==> atts[i].err.None?
    ensures LastError(atts, e) == e
    decreases |atts|
  {
    if atts != [] {
      var rest := atts[1..];
      assert forall i :: 0 <= i < |rest| ==> rest[i] == atts[i + 1];
      LastErrorNone(rest, e);
    }
  }

  /** The entries up to and including attempt `k`. */
  lemma {:induction false} EntriesTake(atts: seq<Attempt>, k: nat)
    requires k < |atts|
    ensures Entries(atts[..k + 1]) == Entries(atts[..k]) + atts[k].entry
  {
    assert atts[..k + 1] == atts[..k] + [atts[k]];
    EntriesSnoc(atts[..k], atts[k]);
  }

  /** A prefix of attempts without platform errors leaves the error as it was. */
  lemma {:induction false} LastErrorNonePrefix(atts: seq<Attempt>, n: nat, e: Option<string>)
    requires n <= |atts|
    requires forall i :: 0 <= i < |atts| ==> atts[i].err.None?
    ensures LastError(atts[..n], e) == e
  {
    var made := atts[..n];
    assert forall i :: 0 <= i < |made| ==> made[i] == atts[i];
    LastErrorNone(made, e);
  }

  /** A prefix holding an attempt with a platform error leaves some error. */
  lemma {:induction false} LastErrorSomePrefix(atts: seq<Attempt>, n: nat, i: nat, e: Option<string>)
    requires i < n <= |atts| && atts[i].err.Some?
    ensures LastError(atts[..n], e).Some?
  {
    var made := atts[..n];
    assert made[i] == atts[i];
    LastErrorSome(made, e);
  }

  /** The error a target's attempt carries is the cgo table's error for it. */
  lemma {:induction false} AttemptsAt(j: BuildJob, w: World, ts: seq<Target>, i: nat)
    requires i < |ts|
    ensures var a := Attempts(j, w, ts)[i];
      && a.cmd == GoCommand(j, w, ts[i])
      && a.run == w.goBuild(GoCommand(j, w, ts[i]))
      && a.entry == CommandLine(w.goPath, a.cmd) + "\n" + RunText(a.run)
      && a.artifact == j.filesPath + "/" + OutputName(j.projName, ts[i])
      && a.err == PlatformError(ts[i])
  {
  }

  /** Each attempt carries its own target's platform error. */
  lemma {:induction false} AttemptErrors(j: BuildJob, w: World, ts: seq<Target>)
    ensures forall i :: 0 <= i < |ts| ==> Attempts(j, w, ts)[i].err == PlatformError(ts[i])
  {
  }

  /** Each attempt's log entry is its command line, a newline, and what its run wrote. */
  lemma {:induction false} AttemptEntries(j: BuildJob, w: World, ts: seq<Target>)
    ensures var atts := Attempts(j, w, ts);
      forall i :: 0 <= i < |ts| ==>
        && atts[i].entry == LogEntry(w, atts[i].cmd, atts[i].run)
        && atts[i].cmd == GoCommand(j, w, ts[i]) && atts[i].run == w.goBuild(atts[i].cmd)
  {
  }

  // ---------------------------------------------------------------------
  // The target loop against the reference definitions

  /** How the counts move past the first attempt. */
  lemma {:induction false} CountStep(atts: seq<Attempt>)
    requires atts != []
    ensures var k, n := FirstFailure(atts), RunCount(atts);
      var rest := atts[1..];
      if atts[0].run.GoOk? then
        k == FirstFailure(rest) + 1 && n == RunCount(rest) + 1
      else
        k == 0 && n == 1
  {
  }

  /** The loop stops at the first failing run: it ends Finished exactly when every run succeeded. */
  lemma {:induction false} LoopStatus(atts: seq<Attempt>, s: LoopState)
    ensures Loop(atts, s).status == (if atts == [] then s.status else if FirstFailure(atts) == |atts| then Finished else Failed)
    decreases |atts|
  {
    if atts != [] {
      CountStep(atts);
      if atts[0].run.GoOk? {
        LoopStatus(atts[1..], Step(atts[0], s));
      }
    }
  }

  /** The loop runs the commands of the attempts up to and including the first failing one. */
  lemma {:induction false} LoopRan(atts: seq<Attempt>, s: LoopState)
    ensures Loop(atts, s).ran == s.ran + Commands(atts[..RunCount(atts)])
    decreases |atts|
  {
    var n := RunCount(atts);
    if atts == [] {
      assert atts[..n] == [];
      assert s.ran + [] == s.ran;
    } else {
      CountStep(atts);
      var rest := atts[1..];
      var next := Step(atts[0], s);
      assert next.ran == s.ran + [atts[0].cmd];
      TakeCons(atts, n);
      if atts[0].run.GoOk? {
        assert Loop(atts, s) == Loop(rest, next);
        LoopRan(rest, next);
        assert Loop(atts, s).ran == (s.ran + [atts[0].cmd]) + Commands(rest[..n - 1]);
        Assoc(s.ran, [atts[0].cmd], Commands(rest[..n - 1]));
      } else {
        assert Loop(atts, s) == next;
        assert rest[..0] == [];
        assert Commands(atts[..n]) == [atts[0].cmd];
      }
    }
  }

  /** The commands, entries and artifacts of a non-empty prefix: the first attempt's, then those of the tail's shorter prefix. */
  lemma TakeCons(atts: seq<Attempt>, k: nat)
    requires 0 < k <= |atts|
    ensures Commands(atts[..k]) == [atts[0].cmd] + Commands(atts[1..][..k - 1])
    ensures Entries(atts[..k]) == atts[0].entry + Entries(atts[1..][..k - 1])
    ensures Artifacts(atts[..k]) == [atts[0].artifact] + Artifacts(atts[1..][..k - 1])
  {
    assert atts[..k][1..] == atts[1..][..k - 1];
  }

  /** The loop logs one entry per attempt it makes, in order. */
  lemma {:induction false} LoopLog(atts: seq<Attempt>, s: LoopState)
    ensures Loop(atts, s).log == s.log + Entries(atts[..RunCount(atts)])
    decreases |atts|
  {
    var n := RunCount(atts);
    if atts == [] {
      assert atts[..n] == [];
      assert s.log + "" == s.log;
    } else {
      CountStep(atts);
      var rest := atts[1..];
      var next := Step(atts[0], s);
      assert next.log == s.log + atts[0].entry;
      TakeCons(atts, n);
      if atts[0].run.GoOk? {
        assert Loop(atts, s) == Loop(rest, next);
        LoopLog(rest, next);
        assert Loop(atts, s).log == (s.log + atts[0].entry) + Entries(rest[..n - 1]);
        Assoc(s.log, atts[0].entry, Entries(rest[..n - 1]));
      } else {
        assert Loop(atts, s) == next;
        assert rest[..0] == [];
        assert Entries(atts[..n]) == atts[0].entry;
      }
    }
  }

  /** The loop keeps the artifacts of the attempts before the first failing one. */
  lemma {:induction false} LoopBuilt(atts: seq<Attempt>, s: LoopState)
    ensures Loop(atts, s).built == s.built + Artifacts(atts[..FirstFailure(atts)])
    decreases |atts|
  {
    var k := FirstFailure(atts);
    if atts == [] {
      assert atts[..k] == [];
      assert s.built + [] == s.built;
    } else {
      CountStep(atts);
      var rest := atts[1..];
      var next := Step(atts[0], s);
      if atts[0].run.GoOk? {
        assert next.built == s.built + [atts[0].artifact];
        TakeCons(atts, k);
        assert Loop(atts, s) == Loop(rest, next);
        LoopBuilt(rest, next);
        assert Loop(atts, s).built == (s.built + [atts[0].artifact]) + Artifacts(rest[..k - 1]);
        Assoc(s.built, [atts[0].artifact], Artifacts(rest[..k - 1]));
      } else {
        assert Loop(atts, s) == next && next.built == s.built;
        assert Artifacts(atts[..k]) == [];
        assert s.built + [] == s.built;
      }
    }
  }

  /** The loop leaves the last platform error among the attempts it makes. */
  lemma {:induction false} LoopErr(atts: seq<Attempt>, s: LoopState)
    ensures Loop(atts, s).err == LastError(atts[..RunCount(atts)], s.err)
    decreases |atts|
  {
    var n := RunCount(atts);
    if atts == [] {
      assert atts[..n] == [];
    } else {
      CountStep(atts);
      var rest := atts[1..];
      var next := Step(atts[0], s);
      assert atts[..n][1..] == rest[..n - 1];
      if atts[0].run.GoOk? {
        assert Loop(atts, s) == Loop(rest, next);
        LoopErr(rest, next);
      } else {
        assert Loop(atts, s) == next;
        assert rest[..0] == [];
      }
    }
  }

  // ---------------------------------------------------------------------
  // The pipeline

  /** Neither directory existed and both could be created: the build goes past recovery. */
  predicate FreshDirs(j: BuildJob, w: World, paths0: set<string>) {
    && j.codePath !in paths0 && j.filesPath !in paths0 && j.codePath != j.filesPath
    && w.mkdirFault(j.codePath).None? && w.mkdirFault(j.filesPath).None?
  }

  /** Checkout and reset succeed and `goci.targets` parses to `ts`. */
  predicate Configured(j: BuildJob, w: World, ts: seq<Target>) {
    && w.git(CheckoutCommand(j)).Exited?
    && w.git(ResetCommand(j)).Exited?
    && w.git(ConfigCommand(j)).Exited?
    && ParseConfig(Output(w.git(ConfigCommand(j))).value) == Ok(ts)
  }

  /** With both directories new and the configuration read, the body goes on to the target loop. */
  lemma {:induction false} ReachesTargets(j: BuildJob, w: World, log0: string, paths0: set<string>, ts: seq<Target>)
    requires FreshDirs(j, w, paths0) && Configured(j, w, ts)
    ensures Stages(j, w, log0, paths0) == TargetStage(j, Attempts(j, w, ts), paths0 + {j.codePath, j.filesPath})
    ensures ts != []
  {
    var code := Mkdir(paths0, j.codePath, w.mkdirFault(j.codePath));
    assert code == (Created, paths0 + {j.codePath});
    var files := Mkdir(code.1, j.filesPath, w.mkdirFault(j.filesPath));
    assert files == (Created, paths0 + {j.codePath} + {j.filesPath});
    var paths := paths0 + {j.codePath, j.filesPath};
    assert files.1 == paths;
    assert Stages(j, w, log0, paths0) == Checkout(j, w, log0, paths);
    assert Output(w.git(CheckoutCommand(j))).Ok? && Output(w.git(ResetCommand(j))).Ok?;
  }

  /**
   * The finaliser after the target loop: the three git commands and then
   * those of the attempts made are recorded; the build finishes exactly
   * when every attempt built and none met the cgo table's error; the log
   * is that error or else the entries of the attempts made; a finished
   * build keeps every artifact, a failed one loses its files directory and
   * everything in it.
   */
  lemma {:induction false} TargetOutcome(j: BuildJob, atts: seq<Attempt>, paths: set<string>)
    requires atts != []
    ensures var e := Finish(j, TargetStage(j, atts, paths));
      var k, n := FirstFailure(atts), RunCount(atts);
      var err := LastError(atts[..n], None);
      var disk := paths + (set p | p in Artifacts(atts[..k]));
      && e.ran == SetupCommands(j) + Commands(atts[..n])
      && e.status == (if k == |atts| && err == None then Finished else Failed)
      && e.log == (if err.Some? then err.value else Entries(atts[..n]))
      && e.paths == (if e.status == Finished then disk else RemoveAll(disk, j.filesPath))
  {
    LoopStatus(atts, LoopStart);
    LoopRan(atts, LoopStart);
    LoopLog(atts, LoopStart);
    LoopBuilt(atts, LoopStart);
    LoopErr(atts, LoopStart);
    assert [] + Commands(atts[..RunCount(atts)]) == Commands(atts[..RunCount(atts)]);
    assert [] + Artifacts(atts[..FirstFailure(atts)]) == Artifacts(atts[..FirstFailure(atts)]);
  }

  /** A build that reaches its targets ends as `TargetOutcome` says, next to both new directories. */
  lemma {:induction false} BuildResult(j: BuildJob, w: World, log0: string, paths0: set<string>, ts: seq<Target>)
    requires FreshDirs(j, w, paths0) && Configured(j, w, ts)
    ensures Pipeline(j, w, log0, paths0) == Finish(j, TargetStage(j, Attempts(j, w, ts), paths0 + {j.codePath, j.filesPath}))
    ensures ts != []
  {
    ReachesTargets(j, w, log0, paths0, ts);
  }

  /** Every attempt of a finished loop built, met no platform error, and left its artifact on disk. */
  lemma {:induction false} FinishedArtifacts(j: BuildJob, atts: seq<Attempt>, paths: set<string>)
    requires atts != [] && Finish(j, TargetStage(j, atts, paths)).status == Finished
    ensures forall i :: 0 <= i < |atts| ==>
      atts[i].run.GoOk? && atts[i].err.None? && atts[i].artifact in Finish(j, TargetStage(j, atts, paths)).paths
  {
    TargetOutcome(j, atts, paths);
    assert atts[..|atts|] == atts;
    LastErrorSome(atts, None);
    forall i | 0 <= i < |atts|
      ensures atts[i].artifact in Artifacts(atts)
    {
      ArtifactsAt(atts, i);
    }
  }

  /** Every target of a finished build built, met no platform error, and has its artifact on disk. */
  lemma {:induction false} FinishedHasArtifacts(j: BuildJob, w: World, log0: string, paths0: set<string>, ts: seq<Target>)
    requires FreshDirs(j, w, paths0) && Configured(j, w, ts)
    requires Pipeline(j, w, log0, paths0).status == Finished
    ensures forall i :: 0 <= i < |ts| ==>
      && w.goBuild(GoCommand(j, w, ts[i])).GoOk?
      && PlatformError(ts[i]).None?
      && OutPath(j, ts[i]) in Pipeline(j, w, log0, paths0).paths
  {
    BuildResult(j, w, log0, paths0, ts);
    FinishedArtifacts(j, Attempts(j, w, ts), paths0 + {j.codePath, j.filesPath});
    forall i | 0 <= i < |ts|
      ensures w.goBuild(GoCommand(j, w, ts[i])).GoOk? && PlatformError(ts[i]).None?
      ensures OutPath(j, ts[i]) in Pipeline(j, w, log0, paths0).paths
    {
      AttemptsAt(j, w, ts, i);
    }
  }

  /** The log text after one more entry, regrouped as the run's kind dictates. */
  lemma {:induction false} LogTail(pre: string, line: string, run: GoRun)
    ensures run.GoExit? ==> pre + (line + "\n" + RunText(run)) == pre + line + "\n" + run.output + "\n" + run.msg
    ensures run.GoOther? ==> pre + (line + "\n" + RunText(run)) == pre + line + "\n"
  {
    if run.GoExit? {
      assert RunText(run) == run.output + "\n" + run.msg;
    }
  }

  /**
   * Without platform errors, a loop that stops at a failing attempt logs
   * the entries before it, then that attempt's command line and a newline,
   * followed by its output, a newline and the exit message for an exit
   * error, and by nothing for any other error.
   */
  lemma {:induction false} FailureLog(j: BuildJob, w: World, atts: seq<Attempt>, paths: set<string>)
    requires atts != [] && FirstFailure(atts) < |atts|
    requires forall i :: 0 <= i < |atts| ==> atts[i].err.None?
    requires forall i :: 0 <= i < |atts| ==> atts[i].entry == LogEntry(w, atts[i].cmd, atts[i].run)
    ensures var k := FirstFailure(atts);
      var a := atts[k];
      var e := Finish(j, TargetStage(j, atts, paths));
      var head := Entries(atts[..k]) + CommandLine(w.goPath, a.cmd) + "\n";
      && e.status == Failed
      && (a.run.GoExit? ==> e.log == head + a.run.output + "\n" + a.run.msg)
      && (a.run.GoOther? ==> e.log == head)
  {
    TargetOutcome(j, atts, paths);
    var k := FirstFailure(atts);
    LastErrorNonePrefix(atts, k + 1, None);
    EntriesTake(atts, k);
    LogTail(Entries(atts[..k]), CommandLine(w.goPath, atts[k].cmd), atts[k].run);
  }

  /**
   * At the first failing run of a build whose targets meet no platform
   * error, the log ends with that target's command line and a newline,
   * followed by its output, a newline and the exit message for an exit
   * error, and by nothing for any other error.
   */
  lemma {:induction false} FailureLogTail(j: BuildJob, w: World, log0: string, paths0: set<string>, ts: seq<Target>)
    requires FreshDirs(j, w, paths0) && Configured(j, w, ts)
    requires FirstFailure(Attempts(j, w, ts)) < |ts|
    requires forall i :: 0 <= i < |ts| ==> PlatformError(ts[i]).None?
    ensures var atts := Attempts(j, w, ts);
      var k := FirstFailure(atts);
      var a := atts[k];
      var e := Pipeline(j, w, log0, paths0);
      var head := Entries(atts[..k]) + CommandLine(w.goPath, a.cmd) + "\n";
      && a.cmd == GoCommand(j, w, ts[k]) && a.run == w.goBuild(a.cmd)
      && e.status == Failed
      && (a.run.GoExit? ==> e.log == head + a.run.output + "\n" + a.run.msg)
      && (a.run.GoOther? ==> e.log == head)
  {
    BuildResult(j, w, log0, paths0, ts);
    AttemptErrors(j, w, ts);
    AttemptEntries(j, w, ts);
    FailureLog(j, w, Attempts(j, w, ts), paths0 + {j.codePath, j.filesPath});
  }

  /** An attempt the loop makes with a platform error fails the build, and some such error is the log. */
  lemma {:induction false} PlatformErrorLog(j: BuildJob, atts: seq<Attempt>, paths: set<string>, i: nat)
    requires atts != [] && i < RunCount(atts) && atts[i].err.Some?
    ensures var e := Finish(j, TargetStage(j, atts, paths));
      var err := LastError(atts[..RunCount(atts)], None);
      && e.status == Failed
      && err.Some? && e.log == err.value
      && forall q :: q in e.paths ==> !Under(q, j.filesPath)
  {
    TargetOutcome(j, atts, paths);
    LastErrorSomePrefix(atts, RunCount(atts), i, None);
  }

  /**
   * A target the loop runs whose OS or architecture the cgo table does not
   * know fails the build, whatever its `go build` does, and the log is
   * then only the text of the last such error.
   */
  lemma {:induction false} PlatformErrorFails(j: BuildJob, w: World, log0: string, paths0: set<string>, ts: seq<Target>, i: nat)
    requires FreshDirs(j, w, paths0) && Configured(j, w, ts)
    requires i < RunCount(Attempts(j, w, ts)) && PlatformError(ts[i]).Some?
    ensures var e := Pipeline(j, w, log0, paths0);
      var atts := Attempts(j, w, ts);
      var err := LastError(atts[..RunCount(atts)], None);
      && e.status == Failed
      && err.Some? && e.log == err.value
      && forall q :: q in e.paths ==> !Under(q, j.filesPath)
  {
    BuildResult(j, w, log0, paths0, ts);
    AttemptsAt(j, w, ts, i);
    PlatformErrorLog(j, Attempts(j, w, ts), paths0 + {j.codePath, j.filesPath}, i);
  }

  /** A single cgo descriptor for a platform outside the table: the build fails with exactly its error. */
  lemma {:induction false} OnePlatformError(j: BuildJob, w: World, log0: string, paths0: set<string>, t: Target)
    requires FreshDirs(j, w, paths0) && Configured(j, w, [t])
    requires PlatformError(t).Some?
    ensures Pipeline(j, w, log0, paths0).status == Failed
    ensures Pipeline(j, w, log0, paths0).log == PlatformError(t).value
  {
    var atts := Attempts(j, w, [t]);
    AttemptErrors(j, w, [t]);
    assert atts[0].err == PlatformError(t);
    assert RunCount(atts) == 1;
    assert atts[..1] == atts;
    PlatformErrorFails(j, w, log0, paths0, [t], 0);
    assert LastError(atts, None) == LastError(atts[1..], atts[0].err);
    assert atts[1..] == [];
  }

  /** A missing `goci.targets` key makes `git config` exit non-zero: the build fails with git's message. */
  lemma {:induction false} MissingConfigFails(j: BuildJob, w: World, log0: string, paths0: set<string>, stderr: string)
    requires FreshDirs(j, w, paths0)
    requires w.git(CheckoutCommand(j)).Exited? && w.git(ResetCommand(j)).Exited?
    requires w.git(ConfigCommand(j)) == ExitError(stderr)
    ensures Pipeline(j, w, log0, paths0) ==
      Effect(Failed, "git error: " + stderr, SetupCommands(j), RemoveAll(paths0 + {j.codePath, j.filesPath}, j.filesPath))
  {
    assert Stages(j, w, log0, paths0) == Checkout(j, w, log0, paths0 + {j.codePath, j.filesPath});
  }

  /** A failed checkout stops the build after that one command, with its error as the log. */
  lemma {:induction false} CheckoutFails(j: BuildJob, w: World, log0: string, paths0: set<string>)
    requires FreshDirs(j, w, paths0)
    requires Output(w.git(CheckoutCommand(j))).Err?
    ensures var e := Pipeline(j, w, log0, paths0);
      && e.status == Failed && e.log == Output(w.git(CheckoutCommand(j))).msg
      && e.ran == [CheckoutCommand(j)]
  {
    assert Stages(j, w, log0, paths0) == Checkout(j, w, log0, paths0 + {j.codePath, j.filesPath});
  }

  // ---------------------------------------------------------------------
  // Crash recovery

  /**
   * When the code directory already exists, an earlier run got that far:
   * nothing is run, the log is kept, and the build finished exactly when
   * the files directory exists too; a failed one loses it.
   */
  lemma {:induction false} RecoveryCodeExisted(j: BuildJob, w: World, log0: string, paths0: set<string>)
    requires j.codePath in paths0
    ensures var e := Pipeline(j, w, log0, paths0);
      && e.status == (if j.filesPath in paths0 then Finished else Failed)
      && e.log == log0 && e.ran == []
      && (e.status == Finished ==> e.paths == paths0)
      && (e.status == Failed ==> e.paths == RemoveAll(Mkdir(paths0, j.filesPath, w.mkdirFault(j.filesPath)).1, j.filesPath))
  {
  }

  /**
   * A files directory without a code directory cannot come from a run
   * that got past its first step: the build fails with the "file exists"
   * error and nothing is run.
   */
  lemma {:induction false} RecoveryFilesOnly(j: BuildJob, w: World, log0: string, paths0: set<string>)
    requires j.codePath !in paths0 && j.filesPath in paths0 && j.codePath != j.filesPath
    requires w.mkdirFault(j.codePath).None?
    ensures Pipeline(j, w, log0, paths0) ==
      Effect(Failed, "mkdir " + j.filesPath + ": file exists", [], RemoveAll(paths0 + {j.codePath}, j.filesPath))
  {
  }

  /**
   * Whatever happens, a failed build has nothing left at or below its files
   * directory, and a finished one has that directory.
   */
  lemma {:induction false} TerminalDisk(j: BuildJob, w: World, log0: string, paths0: set<string>)
    ensures var e := Pipeline(j, w, log0, paths0);
      && e.status.Terminal()
      && (e.status == Failed ==> forall q :: q in e.paths ==> !Under(q, j.filesPath))
      && (e.status == Finished ==> j.filesPath in e.paths)
  {
    PipelineTerminal(j, w, log0, paths0);
    var st := Stages(j, w, log0, paths0);
    if st.err.None? && st.status == Finished && j.codePath !in paths0 {
      assert j.filesPath in Mkdir(Mkdir(paths0, j.codePath, w.mkdirFault(j.codePath)).1, j.filesPath, w.mkdirFault(j.filesPath)).1;
    }
  }
}

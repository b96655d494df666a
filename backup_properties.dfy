/** Properties of whole backup runs, stated on `BackupEffect`, which `SqlInstance.Backup`
    is proved to implement: the lock protocol across consecutive runs, the order of the
    turns, and failure isolation between databases. */
module BackupProperties {
  import opened Wrappers
  import opened Strings
  import opened Paths
  import opened Smo
  import opened Disk
  import opened Planning
  import opened SqlInstances

  /** The turns of a run in order: first every database of the full list, then every database
      of the log list, each in its own directory under the server directory. */
  lemma JobsOrder(pathSQL: string, sel: Selection, t: BackupType, version: Version, clock: nat -> string, k: nat)
    requires k < |sel.full| + |sel.log|
    ensures var jobs := Jobs(pathSQL, sel, t, version, clock);
      |jobs| == |sel.full| + |sel.log| &&
      jobs[k].plan.directory == Combine(pathSQL, jobs[k].database) &&
      (k < |sel.full| ==> jobs[k].phase == FullPhase && jobs[k].database == sel.full[k].name) &&
      (k >= |sel.full| ==> jobs[k].phase == LogPhase && jobs[k].database == sel.log[k - |sel.full|].name)
  {
    var full := FullJobs(pathSQL, sel.full, t, version, clock);
    var log := LogJobs(pathSQL, sel.log, version, clock, |sel.full|);
    if k < |sel.full| {
      FullJobsAt(pathSQL, sel.full, t, version, clock, k);
      assert (full + log)[k] == full[k];
    } else {
      LogJobsAt(pathSQL, sel.log, version, clock, |sel.full|, k - |sel.full|);
      assert (full + log)[k] == log[k - |sel.full|];
    }
  }

  /** With the server directory available and the lock free, a run writes the lock, runs
      every turn over the locked files, and ends with the files as they were or, after an
      abort, with the lock still written. */
  lemma EffectOfLockedRun(serverName: string, server: Server, files: map<string, string>, dirs: set<string>,
                          denied: set<string>, root: string, t: BackupType, pid: nat,
                          clock: nat -> string, engine: BackupRequest -> EngineOutcome)
    requires CanEnsure(ServerDirectory(root, serverName), files, dirs, denied)
    requires LockPath(ServerDirectory(root, serverName)) !in files
    ensures var pathSQL := ServerDirectory(root, serverName);
      var locked := files[LockPath(pathSQL) := NatToString(pid)];
      var final := Run(RunContext(t, server.name, locked, denied, engine), RunState(dirs + {pathSQL}, [], None),
                       Jobs(pathSQL, Select(server.databases, t), t, server.version, clock));
      BackupEffect(serverName, server, files, dirs, denied, root, t, pid, clock, engine) ==
        if final.abortedAt.None? then Effect(Pass, final.trace, files, final.dirs)
        else Effect(Fail(DirectoryError(final.abortedAt.value)), final.trace, locked, final.dirs)
  {
    UnlockRestores(files, LockPath(ServerDirectory(root, serverName)), NatToString(pid));
  }

  /** Deleting a file that was written where none existed restores the files. */
  lemma UnlockRestores(files: map<string, string>, lock: string, content: string)
    requires lock !in files
    ensures files[lock := content] - {lock} == files
  {
    assert forall p :: p in files[lock := content] - {lock} <==> p in files;
  }

  /** A run that ends normally puts the files back as they were: the lock it wrote is gone.
      The server directory now exists and no directory disappeared. */
  lemma CleanRunReleasesLock(serverName: string, server: Server, files: map<string, string>, dirs: set<string>,
                             denied: set<string>, root: string, t: BackupType, pid: nat,
                             clock: nat -> string, engine: BackupRequest -> EngineOutcome)
    requires BackupEffect(serverName, server, files, dirs, denied, root, t, pid, clock, engine).result == Pass
    ensures var e := BackupEffect(serverName, server, files, dirs, denied, root, t, pid, clock, engine);
      e.files == files && LockPath(ServerDirectory(root, serverName)) !in e.files &&
      ServerDirectory(root, serverName) in e.dirs && dirs <= e.dirs
  {
    var pathSQL := ServerDirectory(root, serverName);
    var lock := LockPath(pathSQL);
    var locked := files[lock := NatToString(pid)];
    var ctx := RunContext(t, server.name, locked, denied, engine);
    var st := RunState(dirs + {pathSQL}, [], None);
    RunDirsGrow(ctx, st, Jobs(pathSQL, Select(server.databases, t), t, server.version, clock));
    EffectOfLockedRun(serverName, server, files, dirs, denied, root, t, pid, clock, engine);
  }

  /** A run that takes the lock and then aborts leaves the lock behind with its process id:
      any later run on the server, whatever it is asked to do, refuses with a
      `BackupException` naming that process id and touches nothing. */
  lemma AbortedRunKeepsLock(serverName: string, server: Server, files: map<string, string>, dirs: set<string>,
                            denied: set<string>, root: string, t: BackupType, pid: nat,
                            clock: nat -> string, engine: BackupRequest -> EngineOutcome,
                            server2: Server, t2: BackupType, pid2: nat,
                            clock2: nat -> string, engine2: BackupRequest -> EngineOutcome)
    requires CanEnsure(ServerDirectory(root, serverName), files, dirs, denied)
    requires LockPath(ServerDirectory(root, serverName)) !in files
    requires BackupEffect(serverName, server, files, dirs, denied, root, t, pid, clock, engine).result.Fail?
    ensures var e := BackupEffect(serverName, server, files, dirs, denied, root, t, pid, clock, engine);
      e.files == files[LockPath(ServerDirectory(root, serverName)) := NatToString(pid)] &&
      BackupEffect(serverName, server2, e.files, e.dirs, denied, root, t2, pid2, clock2, engine2) ==
        Effect(Fail(BackupException(LockMessage(serverName, NatToString(pid)))), [], e.files, e.dirs)
  {
    var pathSQL := ServerDirectory(root, serverName);
    var lock := LockPath(pathSQL);
    var locked := files[lock := NatToString(pid)];
    var ctx := RunContext(t, server.name, locked, denied, engine);
    var st := RunState(dirs + {pathSQL}, [], None);
    var final := Run(ctx, st, Jobs(pathSQL, Select(server.databases, t), t, server.version, clock));
    RunDirsGrow(ctx, st, Jobs(pathSQL, Select(server.databases, t), t, server.version, clock));
    EffectOfLockedRun(serverName, server, files, dirs, denied, root, t, pid, clock, engine);
    assert final.dirs + {pathSQL} == final.dirs;
  }

  /** Every turn of a run works in the directory named after its database. */
  lemma JobsDirectories(pathSQL: string, sel: Selection, t: BackupType, version: Version, clock: nat -> string)
    ensures var jobs := Jobs(pathSQL, sel, t, version, clock);
      forall k :: 0 <= k < |jobs| ==> jobs[k].plan.directory == Combine(pathSQL, jobs[k].database)
  {
    var jobs := Jobs(pathSQL, sel, t, version, clock);
    forall k | 0 <= k < |jobs|
      ensures jobs[k].plan.directory == Combine(pathSQL, jobs[k].database)
    {
      JobsOrder(pathSQL, sel, t, version, clock, k);
    }
  }

  /** An aborted run, over turns that each work in their database's directory, stopped at the
      directory of the database whose start ends the log, one of the run's databases; that
      directory was not there and could not be created. */
  lemma RunAbortAtLastStarted(pathSQL: string, ctx: RunContext, st: RunState, jobs: seq<Job>)
    requires st.abortedAt.None? && Run(ctx, st, jobs).abortedAt.Some?
    requires forall k :: 0 <= k < |jobs| ==> jobs[k].plan.directory == Combine(pathSQL, jobs[k].database)
    ensures var r := Run(ctx, st, jobs);
      r.trace != [] && r.trace[|r.trace| - 1].Started? &&
      r.abortedAt.value == Combine(pathSQL, r.trace[|r.trace| - 1].database) &&
      !CanEnsure(r.abortedAt.value, ctx.files, st.dirs, ctx.denied) &&
      exists k :: 0 <= k < |jobs| && jobs[k].database == r.trace[|r.trace| - 1].database
  {
    RunAbortCause(ctx, st, jobs);
    var r := Run(ctx, st, jobs);
    var k :| 0 <= k < |jobs| && jobs[k].plan.directory == r.abortedAt.value &&
      !DirectoryAvailable(ctx, st.dirs, jobs[k]) &&
      r.trace != [] && r.trace[|r.trace| - 1] == Started(jobs[k].phase, jobs[k].database);
  }

  /** An aborted run stopped at a directory that was not there and could not be created. */
  lemma RunAbortUnavailable(ctx: RunContext, st: RunState, jobs: seq<Job>)
    requires st.abortedAt.None? && Run(ctx, st, jobs).abortedAt.Some?
    ensures var r := Run(ctx, st, jobs);
      !CanEnsure(r.abortedAt.value, ctx.files, st.dirs, ctx.denied)
  {
    RunAbortCause(ctx, st, jobs);
  }

  /** A run that takes the lock and then aborts fails with the error of a directory
      that did not exist and could not be created; `RunAbortAtLastStarted` says whose it is. */
  lemma AbortCause(serverName: string, server: Server, files: map<string, string>,
                   dirs: set<string>, denied: set<string>, root: string, t: BackupType,
                   pid: nat, clock: nat -> string, engine: BackupRequest -> EngineOutcome)
    requires CanEnsure(ServerDirectory(root, serverName), files, dirs, denied)
    requires LockPath(ServerDirectory(root, serverName)) !in files
    requires BackupEffect(serverName, server, files, dirs, denied, root, t, pid, clock, engine).result.Fail?
    ensures var e := BackupEffect(serverName, server, files, dirs, denied, root, t, pid, clock, engine);
      var pathSQL := ServerDirectory(root, serverName);
      e.result.error.DirectoryError? &&
      !CanEnsure(e.result.error.path, files[LockPath(pathSQL) := NatToString(pid)], dirs + {pathSQL}, denied)
  {
    var pathSQL := ServerDirectory(root, serverName);
    var ctx := RunContext(t, server.name, files[LockPath(pathSQL) := NatToString(pid)], denied, engine);
    var st := RunState(dirs + {pathSQL}, [], None);
    EffectOfLockedRun(serverName, server, files, dirs, denied, root, t, pid, clock, engine);
    RunAbortUnavailable(ctx, st, Jobs(pathSQL, Select(server.databases, t), t, server.version, clock));
  }

  /** When the directory of every eligible database of the server can be ensured, so can
      that of every turn of a run over a selection from those databases. */
  lemma SelectedDirectoriesAvailable(pathSQL: string, server: Server, t: BackupType, clock: nat -> string,
                                     ctx: RunContext, dirs: set<string>)
    requires forall d :: d in Eligible(server.databases) ==> CanEnsure(Combine(pathSQL, d.name), ctx.files, dirs, ctx.denied)
    ensures var jobs := Jobs(pathSQL, Select(server.databases, t), t, server.version, clock);
      forall k :: 0 <= k < |jobs| ==> DirectoryAvailable(ctx, dirs, jobs[k])
  {
    var sel := Select(server.databases, t);
    var jobs := Jobs(pathSQL, sel, t, server.version, clock);
    SelectMembership(server.databases, t);
    EligibleMembership(server.databases);
    forall k | 0 <= k < |jobs|
      ensures DirectoryAvailable(ctx, dirs, jobs[k])
    {
      JobsOrder(pathSQL, sel, t, server.version, clock, k);
      var d := if k < |sel.full| then sel.full[k] else sel.log[k - |sel.full|];
      assert d in sel.full || d in sel.log;
      assert jobs[k].database == d.name;
    }
  }

  /** Failure isolation: when the lock is free and every eligible database's directory can be ensured,
      the run ends normally whatever the engine does. Each selected database, the full list
      first and then the log list, contributes its start and then exactly the outcome the
      engine gives for its request, so an engine failure on one database does not stop the others. */
  lemma EveryDatabaseAttempted(serverName: string, server: Server, files: map<string, string>, dirs: set<string>,
                               denied: set<string>, root: string, t: BackupType, pid: nat,
                               clock: nat -> string, engine: BackupRequest -> EngineOutcome)
    requires CanEnsure(ServerDirectory(root, serverName), files, dirs, denied)
    requires LockPath(ServerDirectory(root, serverName)) !in files
    requires forall d :: d in Eligible(server.databases) ==>
      var pathSQL := ServerDirectory(root, serverName);
      CanEnsure(Combine(pathSQL, d.name), files[LockPath(pathSQL) := NatToString(pid)], dirs + {pathSQL}, denied)
    ensures var e := BackupEffect(serverName, server, files, dirs, denied, root, t, pid, clock, engine);
      var pathSQL := ServerDirectory(root, serverName);
      var ctx := RunContext(t, server.name, files[LockPath(pathSQL) := NatToString(pid)], denied, engine);
      var jobs := Jobs(pathSQL, Select(server.databases, t), t, server.version, clock);
      e.result == Pass && e.files == files && |e.trace| == 2 * |jobs| &&
      forall k :: 0 <= k < |jobs| ==>
        e.trace[2 * k] == Started(jobs[k].phase, jobs[k].database) &&
        e.trace[2 * k + 1] == OutcomeEvent(ctx, jobs[k])
  {
    var pathSQL := ServerDirectory(root, serverName);
    var lock := LockPath(pathSQL);
    var locked := files[lock := NatToString(pid)];
    var ctx := RunContext(t, server.name, locked, denied, engine);
    var st := RunState(dirs + {pathSQL}, [], None);
    var sel := Select(server.databases, t);
    var jobs := Jobs(pathSQL, sel, t, server.version, clock);
    SelectedDirectoriesAvailable(pathSQL, server, t, clock, ctx, st.dirs);
    RunAttemptsEveryJob(ctx, st, jobs);
    EffectOfLockedRun(serverName, server, files, dirs, denied, root, t, pid, clock, engine);
  }
}

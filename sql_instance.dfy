/** `SqlInstance.Backup`: one backup run against one server, with its lock file and its two
    catch-and-continue loops, and `InvokeSqlBackup`, which configures the SMO request. */
module SqlInstances {
  import opened Wrappers
  import opened Strings
  import opened Paths
  import opened Linq
  import opened Smo
  import opened Disk
  import opened Planning
  import opened ExtensionMethods

  datatype Phase = FullPhase | LogPhase

  /** What the run logs, abstracted: the start of each database's backup, its completion,
      or the caught failure with the requested type, database, server and flattened messages. */
  datatype Event =
    | Started(phase: Phase, database: string)
    | Completed(database: string)
    | Failed(backupType: BackupType, database: string, server: string, messages: string)

  /** Why a run stops with an exception: a held lock (`BackupException`), or a directory
      that `Disk.VerifyDirectory` could not create: `Directory.CreateDirectory` throws an
      `IOException` when a file is in the way or an `UnauthorizedAccessException` when the path
      is denied, and nobody catches either. */
  datatype BackupError = BackupException(message: string) | DirectoryError(path: string)

  /** The message of the exception thrown when the lock file exists. */
  function LockMessage(serverName: string, owner: string): (m: string)
    ensures var k := |"Unable to backup "| + |serverName| + |" due to lock file with process id "|;
      k + |owner| <= |m| && m[k..k + |owner|] == owner
  {
    var m := "Unable to backup " + serverName + " due to lock file with process id " + owner + ".";
    var k := |"Unable to backup "| + |serverName| + |" due to lock file with process id "|;
    assert m == ("Unable to backup " + serverName + " due to lock file with process id ") + owner + ".";
    m
  }

  // ---------------------------------------------------------------------------
  // The run as a specification

  /** One database's turn in the run: its phase, its plan and the request built from it. */
  datatype Job = Job(phase: Phase, database: string, plan: Plan, request: BackupRequest)

  function MakeJob(phase: Phase, database: string, plan: Plan, version: Version): Job
  {
    Job(phase, database, plan,
        BuildRequest(database, plan.files, plan.action, plan.incremental, plan.setName, plan.setDescription, version))
  }

  /** The full phase: database i is planned with the i-th timestamp of the run. */
  function FullJobs(pathSQL: string, dbs: seq<Database>, t: BackupType, version: Version,
                    clock: nat -> string): seq<Job>
  {
    seq(|dbs|, i requires 0 <= i < |dbs| =>
      MakeJob(FullPhase, dbs[i].name, FullPlan(pathSQL, dbs[i], t, clock(i)), version))
  }

  /** The log phase, whose timestamps follow those of the full phase. */
  function LogJobs(pathSQL: string, dbs: seq<Database>, version: Version, clock: nat -> string,
                   offset: nat): seq<Job>
  {
    seq(|dbs|, j requires 0 <= j < |dbs| =>
      MakeJob(LogPhase, dbs[j].name, LogPlan(pathSQL, dbs[j], clock(offset + j)), version))
  }

  lemma FullJobsAt(pathSQL: string, dbs: seq<Database>, t: BackupType, version: Version,
                                      clock: nat -> string, i: nat)
    requires i < |dbs|
    ensures FullJobs(pathSQL, dbs, t, version, clock)[i] ==
      MakeJob(FullPhase, dbs[i].name, FullPlan(pathSQL, dbs[i], t, clock(i)), version)
  {

  }

  lemma LogJobsAt(pathSQL: string, dbs: seq<Database>, version: Version, clock: nat -> string,
                                     offset: nat, j: nat)
    requires j < |dbs|
    ensures LogJobs(pathSQL, dbs, version, clock, offset)[j] ==
      MakeJob(LogPhase, dbs[j].name, LogPlan(pathSQL, dbs[j], clock(offset + j)), version)
  {

  }

  /** Every database's turn in the order the run takes them: the full list, then the log list. */
  function Jobs(pathSQL: string, sel: Selection, t: BackupType, version: Version,
                clock: nat -> string): seq<Job>
  {
    FullJobs(pathSQL, sel.full, t, version, clock) + LogJobs(pathSQL, sel.log, version, clock, |sel.full|)
  }

  /** What stays fixed during one run: the requested type, the server's own name, the
      file system's files (with the lock written) and failing directories, and the engine. */
  datatype RunContext = RunContext(
    backupType: BackupType,
    server: string,
    files: map<string, string>,
    denied: set<string>,
    engine: BackupRequest -> EngineOutcome)

  /** The directories known so far, the log so far, and the directory whose creation
      aborted the run, if one did. */
  datatype RunState = RunState(dirs: set<string>, trace: seq<Event>, abortedAt: Option<string>)

  /** The log line that closes a database's turn, decided by the engine's answer alone. */
  function OutcomeEvent(ctx: RunContext, job: Job): Event
  {
    match ctx.engine(job.request)
    case Succeeded => Completed(job.database)
    case Threw(ex) => Failed(ctx.backupType, job.database, ctx.server, AllMessages(ex))
  }

  /** One database's turn: log the start, ensure its directory (an uncaught failure there
      aborts the run), then run the engine inside the catch. */
  function Step(ctx: RunContext, st: RunState, job: Job): RunState
  {
    if st.abortedAt.Some? then st
    else
      var started := st.trace + [Started(job.phase, job.database)];
      var dir := job.plan.directory;
      if !CanEnsure(dir, ctx.files, st.dirs, ctx.denied) then
        RunState(st.dirs, started, Some(dir))
      else
        RunState(st.dirs + {dir}, started + [OutcomeEvent(ctx, job)], None)
  }

  function Run(ctx: RunContext, st: RunState, jobs: seq<Job>): RunState
  {
    if jobs == [] then st else Step(ctx, Run(ctx, st, jobs[..|jobs| - 1]), jobs[|jobs| - 1])
  }

  lemma RunSnoc(ctx: RunContext, st: RunState, jobs: seq<Job>, k: nat)
    requires k < |jobs|
    ensures Run(ctx, st, jobs[..k + 1]) == Step(ctx, Run(ctx, st, jobs[..k]), jobs[k])
  {
    assert jobs[..k + 1][..k] == jobs[..k];
  }

  /** Running two lists of turns one after the other is running their concatenation. */
  lemma {:induction false} RunAppend(ctx: RunContext, st: RunState, a: seq<Job>, b: seq<Job>)
    ensures Run(ctx, st, a + b) == Run(ctx, Run(ctx, st, a), b)
  {
    if b == [] {
      assert a + b == a;
    } else {
      var b' := b[..|b| - 1];
      assert (a + b)[..|a + b| - 1] == a + b';
      RunAppend(ctx, st, a, b');
    }
  }

  /** One more turn extends the run: its new state is the turn's outcome, and a turn that
      aborts is where the whole run ends. */
  lemma RunExtend(ctx: RunContext, st: RunState, jobs: seq<Job>, k: nat, prefix: seq<Event>,
                  events: seq<Event>, dirs: set<string>, abortedAt: Option<string>)
    requires k < |jobs|
    requires Run(ctx, st, jobs[..k]).trace == st.trace + prefix
    requires Step(ctx, Run(ctx, st, jobs[..k]), jobs[k]) ==
      RunState(dirs, Run(ctx, st, jobs[..k]).trace + events, abortedAt)
    ensures Run(ctx, st, jobs[..k + 1]) == RunState(dirs, st.trace + (prefix + events), abortedAt)
    ensures abortedAt.Some? ==> Run(ctx, st, jobs) == RunState(dirs, st.trace + (prefix + events), abortedAt)
  {
    RunSnoc(ctx, st, jobs, k);
    assert st.trace + prefix + events == st.trace + (prefix + events);
    if abortedAt.Some? {
      RunStaysAborted(ctx, st, jobs, k + 1);
    }
  }

  /** Once a turn aborts, the later turns add nothing. */
  lemma {:induction false} RunStaysAborted(ctx: RunContext, st: RunState, jobs: seq<Job>, k: nat)
    requires k <= |jobs| && Run(ctx, st, jobs[..k]).abortedAt.Some?
    ensures Run(ctx, st, jobs) == Run(ctx, st, jobs[..k])
    decreases |jobs| - k
  {
    if k < |jobs| {
      RunSnoc(ctx, st, jobs, k);
      RunStaysAborted(ctx, st, jobs, k + 1);
    } else {
      assert jobs[..k] == jobs;
    }
  }

  /** The log of an earlier point of the run is a prefix of the final log: in particular the
      whole full phase is logged before anything of the log phase. */
  lemma {:induction false} RunTracePrefix(ctx: RunContext, st: RunState, jobs: seq<Job>, k: nat)
    requires k <= |jobs|
    ensures Run(ctx, st, jobs[..k]).trace <= Run(ctx, st, jobs).trace
    decreases |jobs| - k
  {
    if k < |jobs| {
      RunSnoc(ctx, st, jobs, k);
      RunTracePrefix(ctx, st, jobs, k + 1);
    } else {
      assert jobs[..k] == jobs;
    }
  }

  /** Whether a turn's directory can be ensured, given the directories present before the run. */
  predicate DirectoryAvailable(ctx: RunContext, dirs: set<string>, job: Job)
  {
    CanEnsure(job.plan.directory, ctx.files, dirs, ctx.denied)
  }

  /** Failure isolation: when every directory can be ensured, every database is attempted in
      order, each contributes its start and exactly the outcome the engine gives for it, and a
      failure of one changes nothing about the others. */
  lemma {:induction false} RunAttemptsEveryJob(ctx: RunContext, st: RunState, jobs: seq<Job>)
    requires st.abortedAt.None?
    requires forall i :: 0 <= i < |jobs| ==> DirectoryAvailable(ctx, st.dirs, jobs[i])
    ensures var r := Run(ctx, st, jobs);
      r.abortedAt.None? && r.dirs >= st.dirs && |r.trace| == |st.trace| + 2 * |jobs| &&
      r.trace[..|st.trace|] == st.trace &&
      forall i :: 0 <= i < |jobs| ==>
        r.trace[|st.trace| + 2 * i] == Started(jobs[i].phase, jobs[i].database) &&
        r.trace[|st.trace| + 2 * i + 1] == OutcomeEvent(ctx, jobs[i])
  {
    if jobs != [] {
      var front := jobs[..|jobs| - 1];
      RunAttemptsEveryJob(ctx, st, front);
      var r0 := Run(ctx, st, front);
      var job := jobs[|jobs| - 1];
      assert DirectoryAvailable(ctx, st.dirs, job);
      var r := Run(ctx, st, jobs);
      assert r == Step(ctx, r0, job);
      assert r.trace == r0.trace + [Started(job.phase, job.database)] + [OutcomeEvent(ctx, job)];
      forall i | 0 <= i < |jobs|
        ensures r.trace[|st.trace| + 2 * i] == Started(jobs[i].phase, jobs[i].database)
        ensures r.trace[|st.trace| + 2 * i + 1] == OutcomeEvent(ctx, jobs[i])
      {
        if i < |jobs| - 1 {
          assert jobs[i] == front[i];
        }
      }
    }
  }

  /** An aborted run stopped at a turn whose directory could not be created, and its log
      ends with that turn's start. */
  lemma {:induction false} RunAbortCause(ctx: RunContext, st: RunState, jobs: seq<Job>)
    requires st.abortedAt.None?
    requires Run(ctx, st, jobs).abortedAt.Some?
    ensures var r := Run(ctx, st, jobs);
      exists i :: 0 <= i < |jobs| && jobs[i].plan.directory == r.abortedAt.value &&
        !DirectoryAvailable(ctx, st.dirs, jobs[i]) &&
        r.trace != [] && r.trace[|r.trace| - 1] == Started(jobs[i].phase, jobs[i].database)
  {
    var front := jobs[..|jobs| - 1];
    var r0 := Run(ctx, st, front);
    var job := jobs[|jobs| - 1];
    if r0.abortedAt.Some? {
      RunAbortCause(ctx, st, front);
      var i :| 0 <= i < |front| && front[i].plan.directory == r0.abortedAt.value &&
        !DirectoryAvailable(ctx, st.dirs, front[i]) &&
        r0.trace != [] && r0.trace[|r0.trace| - 1] == Started(front[i].phase, front[i].database);
      assert jobs[i] == front[i];
    } else {
      RunDirsGrow(ctx, st, front);
      assert jobs[|jobs| - 1] == job;
    }
  }

  /** Turns only ever add directories; those of the run's turns are the only ones added. */
  lemma {:induction false} RunDirsGrow(ctx: RunContext, st: RunState, jobs: seq<Job>)
    ensures st.dirs <= Run(ctx, st, jobs).dirs
    ensures forall p :: p in Run(ctx, st, jobs).dirs && p !in st.dirs ==>
      exists i :: 0 <= i < |jobs| && jobs[i].plan.directory == p
  {
    if jobs != [] {
      var front := jobs[..|jobs| - 1];
      RunDirsGrow(ctx, st, front);
      forall p | p in Run(ctx, st, jobs).dirs && p !in st.dirs
        ensures exists i :: 0 <= i < |jobs| && jobs[i].plan.directory == p
      {
        if p in Run(ctx, st, front).dirs {
          var i :| 0 <= i < |front| && front[i].plan.directory == p;
          assert jobs[i] == front[i];
        } else {
          assert jobs[|jobs| - 1].plan.directory == p;
        }
      }
    }
  }

  /** What a call of `Backup` leaves behind: its outcome, its log, and the file system's
      files and directories. */
  datatype Effect = Effect(result: Outcome<BackupError>, trace: seq<Event>,
                           files: map<string, string>, dirs: set<string>)

  /** A whole run on a server named `serverName` whose SMO view is `server`, from files
      `files` and directories `dirs`. It throws before any database when the server directory
      cannot be created or the lock file exists; otherwise it writes the lock with the process
      id, runs every turn, and deletes the lock only when no turn aborted. */
  function BackupEffect(serverName: string, server: Server, files: map<string, string>, dirs: set<string>,
                        denied: set<string>, root: string, t: BackupType, pid: nat,
                        clock: nat -> string, engine: BackupRequest -> EngineOutcome): Effect
  {
    var pathSQL := ServerDirectory(root, serverName);
    var lock := LockPath(pathSQL);
    if !CanEnsure(pathSQL, files, dirs, denied) then
      Effect(Fail(DirectoryError(pathSQL)), [], files, dirs)
    else if lock in files then
      Effect(Fail(BackupException(LockMessage(serverName, files[lock]))), [], files, dirs + {pathSQL})
    else
      var locked := files[lock := NatToString(pid)];
      var final := Run(RunContext(t, server.name, locked, denied, engine), RunState(dirs + {pathSQL}, [], None),
                       Jobs(pathSQL, Select(server.databases, t), t, server.version, clock));
      match final.abortedAt
      case None => Effect(Pass, final.trace, locked - {lock}, final.dirs)
      case Some(p) => Effect(Fail(DirectoryError(p)), final.trace, locked, final.dirs)
  }

  // ---------------------------------------------------------------------------
  // The instance

  /** A connection to one server: its name as given and the state SMO exposes for it. */
  class SqlInstance {
    const serverName: string
    const smo: Server

    /** `new SqlInstance(name)`, with the connection's view of the server supplied. */
    constructor (name: string, server: Server)
      ensures serverName == name && smo == server
    {
      serverName := name;
      smo := server;
    }

    /** `InvokeSqlBackup`: configures the SMO backup for the given files and hands it to the
        engine. `copyOnly` is accepted and never applied to the request. */
    method InvokeSqlBackup(database: Database, backupFiles: seq<string>, action: BackupActionType,
                           incremental: bool, backupSetName: string, backupSetDescription: string,
                           copyOnly: bool, engine: BackupRequest -> EngineOutcome)
      returns (request: BackupRequest, outcome: EngineOutcome)
      ensures request == BuildRequest(database.name, backupFiles, action, incremental,
                                      backupSetName, backupSetDescription, smo.version)
      ensures outcome == engine(request)
    {
      var inc := incremental;
      if IsMaster(database.name) && inc {
        inc := false;
      }
      var devices: seq<BackupDevice> := [];
      var k := 0;
      while k < |backupFiles|
        invariant 0 <= k <= |backupFiles|
        invariant |devices| == k
        invariant forall m :: 0 <= m < k ==> devices[m] == BackupDevice(backupFiles[m], File)
      {
        devices := devices + [BackupDevice(backupFiles[k], File)];
        k := k + 1;
      }
      assert devices == FileDevices(backupFiles);
      var compression := Default;
      if smo.version.major >= 10 && smo.version.minor >= 50 {
        compression := On;
      }
      request := BackupRequest(database.name, action, backupSetDescription, backupSetName, "Disk",
                               inc, devices, compression);
      outcome := engine(request);
    }

    /** One turn of the full-backup loop: log the start, ensure the database directory, plan
        the files, call the engine and log the outcome, catching the engine's failure. `ok` is
        false when the directory could not be created: that exception escapes the loop. */
    method BackUpFull(fs: FileSystem, pathSQL: string, databases: seq<Database>, i: nat, backupType: BackupType,
                      clock: nat -> string, engine: BackupRequest -> EngineOutcome,
                      ghost ctx: RunContext, ghost st: RunState)
      returns (ok: bool, events: seq<Event>)
      requires i < |databases|
      requires st.abortedAt.None? && st.dirs == fs.dirs
      requires ctx == RunContext(backupType, smo.name, fs.files, fs.denied, engine)
      modifies fs
      ensures fs.files == old(fs.files)
      ensures Step(ctx, st, FullJobs(pathSQL, databases, backupType, smo.version, clock)[i]) ==
        RunState(fs.dirs, st.trace + events, if ok then None else Some(Combine(pathSQL, databases[i].name)))
    {
      var database := databases[i];
      var ts := clock(i);
      FullJobsAt(pathSQL, databases, backupType, smo.version, clock, i);
      events := [Started(FullPhase, database.name)];

      var dbPathSQL := Combine(pathSQL, database.name);
      ok := fs.VerifyDirectory(dbPathSQL);
      if !ok {
        return;
      }

      var plan := FullPlan(pathSQL, database, backupType, ts);
      var request, outcome := InvokeSqlBackup(database, plan.files, ActionDatabase, plan.incremental,
                                              plan.setName, plan.setDescription, false, engine);
      match outcome {
        case Succeeded =>
          events := events + [Completed(database.name)];
        case Threw(ex) =>
          var messages := GetAllMessages(Some(ex));
          events := events + [Failed(backupType, database.name, smo.name, messages.value)];
      }
    }

    /** One turn of the log-backup loop, with the same failure isolation. */
    method BackUpLog(fs: FileSystem, pathSQL: string, databases: seq<Database>, j: nat, backupType: BackupType,
                     clock: nat -> string, offset: nat, engine: BackupRequest -> EngineOutcome,
                     ghost ctx: RunContext, ghost st: RunState)
      returns (ok: bool, events: seq<Event>)
      requires j < |databases|
      requires st.abortedAt.None? && st.dirs == fs.dirs
      requires ctx == RunContext(backupType, smo.name, fs.files, fs.denied, engine)
      modifies fs
      ensures fs.files == old(fs.files)
      ensures Step(ctx, st, LogJobs(pathSQL, databases, smo.version, clock, offset)[j]) ==
        RunState(fs.dirs, st.trace + events, if ok then None else Some(Combine(pathSQL, databases[j].name)))
    {
      var database := databases[j];
      var ts := clock(offset + j);
      LogJobsAt(pathSQL, databases, smo.version, clock, offset, j);
      events := [Started(LogPhase, database.name)];

      var dbPathSQL := Combine(pathSQL, database.name);
      ok := fs.VerifyDirectory(dbPathSQL);
      if !ok {
        return;
      }

      var plan := LogPlan(pathSQL, database, ts);
      var request, outcome := InvokeSqlBackup(database, plan.files, ActionLog, false,
                                              plan.setName, plan.setDescription, false, engine);
      match outcome {
        case Succeeded =>
          events := events + [Completed(database.name)];
        case Threw(ex) =>
          var messages := GetAllMessages(Some(ex));
          events := events + [Failed(backupType, database.name, smo.name, messages.value)];
      }
    }

    /** The selection at the head of `Backup`: eligible databases, then the split by type. */
    method SelectDatabases(backupType: BackupType)
      returns (databasesForFullBackup: seq<Database>, databasesForLogBackup: seq<Database>)
      ensures Selection(databasesForFullBackup, databasesForLogBackup) == Select(smo.databases, backupType)
    {
      var databases := Eligible(smo.databases);
      databasesForFullBackup := databases;
      databasesForLogBackup := [];
      if backupType == TransactionLog {
        databasesForFullBackup := Where(databases, NeverBackedUp);
        databasesForLogBackup := Where(databases, SupportsLogBackup);
      }
    }

    /** The full-backup loop over `databases`, the turns of `jobs`, from run state `st`.
        `failedAt` is the directory whose creation threw, which ends the loop. */
    method FullBackupLoop(fs: FileSystem, pathSQL: string, databases: seq<Database>, backupType: BackupType,
                          clock: nat -> string, engine: BackupRequest -> EngineOutcome,
                          ghost ctx: RunContext, ghost st: RunState)
      returns (failedAt: Option<string>, trace: seq<Event>)
      requires ctx == RunContext(backupType, smo.name, fs.files, fs.denied, engine)
      requires st.abortedAt.None? && st.dirs == fs.dirs
      modifies fs
      ensures fs.files == old(fs.files)
      ensures Run(ctx, st, FullJobs(pathSQL, databases, backupType, smo.version, clock)) ==
        RunState(fs.dirs, st.trace + trace, failedAt)
    {
      ghost var jobs := FullJobs(pathSQL, databases, backupType, smo.version, clock);
      trace := [];
      assert jobs[..0] == [] && st.trace + [] == st.trace;
      var i := 0;
      while i < |databases|
        invariant 0 <= i <= |databases|
        invariant fs.files == ctx.files
        invariant Run(ctx, st, jobs[..i]) == RunState(fs.dirs, st.trace + trace, None)
      {
        ghost var before := Run(ctx, st, jobs[..i]);
        var ok, events := BackUpFull(fs, pathSQL, databases, i, backupType, clock, engine, ctx, before);
        RunExtend(ctx, st, jobs, i, trace, events, fs.dirs,
                  if ok then None else Some(Combine(pathSQL, databases[i].name)));
        trace := trace + events;
        if !ok {
          return Some(Combine(pathSQL, databases[i].name)), trace;
        }
        i := i + 1;
      }
      assert jobs[..i] == jobs;
      return None, trace;
    }

    /** The log-backup loop over `databases`, the turns of `jobs`, from run state `st`. */
    method LogBackupLoop(fs: FileSystem, pathSQL: string, databases: seq<Database>, backupType: BackupType,
                         clock: nat -> string, offset: nat, engine: BackupRequest -> EngineOutcome,
                         ghost ctx: RunContext, ghost st: RunState)
      returns (failedAt: Option<string>, trace: seq<Event>)
      requires ctx == RunContext(backupType, smo.name, fs.files, fs.denied, engine)
      requires st.abortedAt.None? && st.dirs == fs.dirs
      modifies fs
      ensures fs.files == old(fs.files)
      ensures Run(ctx, st, LogJobs(pathSQL, databases, smo.version, clock, offset)) ==
        RunState(fs.dirs, st.trace + trace, failedAt)
    {
      ghost var jobs := LogJobs(pathSQL, databases, smo.version, clock, offset);
      trace := [];
      assert jobs[..0] == [] && st.trace + [] == st.trace;
      var j := 0;
      while j < |databases|
        invariant 0 <= j <= |databases|
        invariant fs.files == ctx.files
        invariant Run(ctx, st, jobs[..j]) == RunState(fs.dirs, st.trace + trace, None)
      {
        ghost var before := Run(ctx, st, jobs[..j]);
        var ok, events := BackUpLog(fs, pathSQL, databases, j, backupType, clock, offset, engine, ctx, before);
        RunExtend(ctx, st, jobs, j, trace, events, fs.dirs,
                  if ok then None else Some(Combine(pathSQL, databases[j].name)));
        trace := trace + events;
        if !ok {
          return Some(Combine(pathSQL, databases[j].name)), trace;
        }
        j := j + 1;
      }
      assert jobs[..j] == jobs;
      return None, trace;
    }

    /** The part of `Backup` after the lock is written: select the databases, run the full
        loop, then the log loop. `failedAt` is the directory whose creation threw, if any;
        that exception leaves both loops. */
    method BackUpDatabases(fs: FileSystem, pathSQL: string, backupType: BackupType,
                           clock: nat -> string, engine: BackupRequest -> EngineOutcome, ghost ctx: RunContext)
      returns (failedAt: Option<string>, trace: seq<Event>)
      requires ctx == RunContext(backupType, smo.name, fs.files, fs.denied, engine)
      modifies fs
      ensures fs.files == old(fs.files)
      ensures Run(ctx, RunState(old(fs.dirs), [], None),
                  Jobs(pathSQL, Select(smo.databases, backupType), backupType, smo.version, clock)) ==
        RunState(fs.dirs, trace, failedAt)
    {
      var databasesForFullBackup, databasesForLogBackup := SelectDatabases(backupType);
      ghost var st0 := RunState(fs.dirs, [], None);
      ghost var fullJobs := FullJobs(pathSQL, databasesForFullBackup, backupType, smo.version, clock);
      ghost var logJobs := LogJobs(pathSQL, databasesForLogBackup, smo.version, clock, |databasesForFullBackup|);
      ghost var jobs := fullJobs + logJobs;
      assert Jobs(pathSQL, Select(smo.databases, backupType), backupType, smo.version, clock) == jobs;

      failedAt, trace := FullBackupLoop(fs, pathSQL, databasesForFullBackup, backupType, clock, engine, ctx, st0);
      assert [] + trace == trace;
      if failedAt.Some? {
        assert jobs[..|fullJobs|] == fullJobs;
        RunStaysAborted(ctx, st0, jobs, |fullJobs|);
        return;
      }
      var logTrace;
      failedAt, logTrace := LogBackupLoop(fs, pathSQL, databasesForLogBackup, backupType, clock,
                                          |databasesForFullBackup|, engine, ctx, Run(ctx, st0, fullJobs));
      RunAppend(ctx, st0, fullJobs, logJobs);
      trace := trace + logTrace;
    }

    /** `Backup(backupRootPath, backupType)`. The current process id, the clock (one formatted
        timestamp per database, in processing order) and the engine are parameters; the
        outcome, the log and the new file system are those `BackupEffect` describes. */
    method Backup(fs: FileSystem, backupRootPath: string, backupType: BackupType, pid: nat,
                  clock: nat -> string, engine: BackupRequest -> EngineOutcome)
      returns (result: Outcome<BackupError>, trace: seq<Event>)
      modifies fs
      ensures Effect(result, trace, fs.files, fs.dirs) ==
        BackupEffect(serverName, smo, old(fs.files), old(fs.dirs), fs.denied, backupRootPath, backupType,
                     pid, clock, engine)
    {
      trace := [];
      var pathSQL := ServerDirectory(backupRootPath, serverName);
      var ok := fs.VerifyDirectory(pathSQL);
      if !ok {
        return Fail(DirectoryError(pathSQL)), trace;
      }

      var lockfile := Combine(pathSQL, LockFileName);
      if lockfile in fs.files {
        var existingProcessID := fs.files[lockfile];
        return Fail(BackupException(LockMessage(serverName, existingProcessID))), trace;
      }
      fs.WriteAllText(lockfile, NatToString(pid));

      ghost var ctx := RunContext(backupType, smo.name, fs.files, fs.denied, engine);
      var failedAt;
      failedAt, trace := BackUpDatabases(fs, pathSQL, backupType, clock, engine, ctx);
      if failedAt.Some? {
        return Fail(DirectoryError(failedAt.value)), trace;
      }

      fs.Delete(lockfile);
      return Pass, trace;
    }
  }
}

/** The deterministic planning half of `SqlInstance.Backup`: which databases are backed up,
    in which phase, and into which files; and the request `InvokeSqlBackup` hands to SMO. */
module Planning {
  import opened Strings
  import opened Paths
  import opened Linq
  import opened Smo

  /** The backup type requested for a whole run. */
  datatype BackupType = Full | Differential | TransactionLog

  // ---------------------------------------------------------------------------
  // Selection

  predicate IsTempdb(d: Database)
  {
    EqualsIgnoreCase(d.name, "tempdb")
  }

  predicate NotTempdb(d: Database)
  {
    !IsTempdb(d)
  }

  predicate NotOffline(d: Database)
  {
    Offline !in d.status
  }

  /** A database the run may back up at all. */
  predicate IsEligible(d: Database)
  {
    NotTempdb(d) && NotOffline(d)
  }

  /** The enumerated databases without tempdb (any case) and without offline ones,
      in enumeration order and with their multiplicities. */
  function Eligible(dbs: seq<Database>): (r: seq<Database>)
    ensures Subsequence(r, dbs)
    ensures forall d :: multiset(r)[d] == if IsEligible(d) then multiset(dbs)[d] else 0
  {
    WhereWhere(dbs, NotTempdb, NotOffline, IsEligible);
    Where(Where(dbs, NotTempdb), NotOffline)
  }

  /** The catalogue records `DateTime.MinValue` for a database never backed up. */
  predicate NeverBackedUp(d: Database)
  {
    d.lastBackupDate == MinValue
  }

  /** Log backups need a recovery model other than Simple. */
  predicate SupportsLogBackup(d: Database)
  {
    d.recoveryModel != Simple
  }

  /** The databases of the full phase and of the log phase. */
  datatype Selection = Selection(full: seq<Database>, log: seq<Database>)

  /** A database is eligible-listed exactly when it is enumerated and eligible. */
  lemma EligibleMembership(dbs: seq<Database>)
    ensures forall d :: d in Eligible(dbs) <==> d in dbs && IsEligible(d)
  {
    var e := Eligible(dbs);
    forall d ensures d in e <==> d in dbs && IsEligible(d) {
      assert d in e <==> multiset(e)[d] > 0;
      assert d in dbs <==> multiset(dbs)[d] > 0;
    }
  }

  /** Splits the eligible databases by the requested type: all of them get a full or
      differential backup, or, for a log run, the never-backed-up ones get a full backup and
      the non-Simple ones a log backup. The two lists are drawn independently and may overlap. */
  function Partition(eligible: seq<Database>, t: BackupType): (r: Selection)
    ensures t != TransactionLog ==> r.full == eligible && r.log == []
    ensures t == TransactionLog ==> Subsequence(r.full, eligible) && Subsequence(r.log, eligible)
    ensures t == TransactionLog ==>
      forall d :: multiset(r.full)[d] == if NeverBackedUp(d) then multiset(eligible)[d] else 0
    ensures t == TransactionLog ==>
      forall d :: multiset(r.log)[d] == if SupportsLogBackup(d) then multiset(eligible)[d] else 0
  {
    if t == TransactionLog then
      Selection(Where(eligible, NeverBackedUp), Where(eligible, SupportsLogBackup))
    else
      Selection(eligible, [])
  }

  /** The selection a run makes from the server's databases. */
  function Select(dbs: seq<Database>, t: BackupType): Selection
  {
    Partition(Eligible(dbs), t)
  }

  /** Who is backed up in which phase: the full phase takes every eligible database (only
      the never-backed-up ones for a log run); the log phase, only in a log run, takes every
      eligible database whose recovery model is not Simple. */
  lemma SelectMembership(dbs: seq<Database>, t: BackupType)
    ensures var r := Select(dbs, t);
      forall d :: d in r.full <==> d in dbs && IsEligible(d) && (t == TransactionLog ==> NeverBackedUp(d))
    ensures var r := Select(dbs, t);
      forall d :: d in r.log <==> t == TransactionLog && d in dbs && IsEligible(d) && SupportsLogBackup(d)
  {
    var e := Eligible(dbs);
    EligibleMembership(dbs);
    var r := Partition(e, t);
    assert t == TransactionLog ==> r.full == Where(e, NeverBackedUp) && r.log == Where(e, SupportsLogBackup);
  }

  /** In a log run the two lists overlap: an eligible database that was never backed up and
      is not in the Simple model gets both a full backup and then a log backup. */
  lemma OverlappingLists(dbs: seq<Database>, d: Database)
    requires d in dbs && IsEligible(d) && NeverBackedUp(d) && SupportsLogBackup(d)
    ensures d in Select(dbs, TransactionLog).full && d in Select(dbs, TransactionLog).log
  {
    SelectMembership(dbs, TransactionLog);
  }

  // ---------------------------------------------------------------------------
  // Per-database plan

  predicate IsMaster(name: string)
  {
    EqualsIgnoreCase(name, "master")
  }

  /** The `isIncremental` flag: set for a differential run, then cleared for master and for a
      database that has never been backed up. */
  function IsIncremental(t: BackupType, d: Database): (r: bool)
    ensures r <==> t == Differential && !IsMaster(d.name) && !NeverBackedUp(d)
  {
    var requested := t == Differential;
    var notMaster := if IsMaster(d.name) then false else requested;
    if NeverBackedUp(d) then false else notMaster
  }

  function Extension(incremental: bool): string
  {
    if incremental then ".diff.bak" else ".full.bak"
  }

  /** Above this size a full backup is split. */
  const SplitThreshold: nat := 10240
  /** The size of one part of a split backup. */
  const PartSize: nat := 20240

  /** `backupFilesCount`: 1, or for a non-incremental backup of a database larger than the
      threshold the floor of its size over the part size. No lower clamp is applied. */
  function FileCount(size: nat, incremental: bool): nat
  {
    if size > SplitThreshold && !incremental then size / PartSize else 1
  }

  /** `{base}_{01}{ext}` .. `{base}_{NN}{ext}`, numbers ascending from 1. */
  function NumberedNames(base: string, ext: string, n: nat): seq<string>
  {
    if n == 0 then [] else NumberedNames(base, ext, n - 1) + [base + "_" + Pad2(n) + ext]
  }

  /** The file names of one full or differential backup: a single unnumbered name for a
      count of exactly 1, numbered names otherwise (none for a count of 0). */
  function FileNames(base: string, ext: string, count: nat): seq<string>
  {
    if count == 1 then [base + ext] else NumberedNames(base, ext, count)
  }

  /** The numbered names are `{base}_{01}{ext}` .. `{base}_{NN}{ext}`, in that order. */
  lemma {:induction false} NumberedNamesAt(base: string, ext: string, n: nat)
    ensures var r := NumberedNames(base, ext, n);
      |r| == n && forall i :: 0 <= i < n ==> r[i] == base + "_" + Pad2(i + 1) + ext
  {
    if n > 0 {
      NumberedNamesAt(base, ext, n - 1);
    }
  }

  /** A count of 1 gives the one unnumbered name; any other count gives that many numbered names. */
  lemma FileNamesShape(base: string, ext: string, count: nat)
    ensures count == 1 ==> FileNames(base, ext, count) == [base + ext]
    ensures count != 1 ==> var r := FileNames(base, ext, count);
      |r| == count && forall i :: 0 <= i < count ==> r[i] == base + "_" + Pad2(i + 1) + ext
  {
    NumberedNamesAt(base, ext, count);
  }

  lemma NumberedNameInjective(base: string, ext: string, m: nat, n: nat)
    requires base + "_" + Pad2(m) + ext == base + "_" + Pad2(n) + ext
    ensures m == n
  {
    var s := base + "_" + Pad2(m) + ext;
    var t := base + "_" + Pad2(n) + ext;
    assert |Pad2(m)| == |Pad2(n)|;
    var k := |base| + 1;
    assert s[k..k + |Pad2(m)|] == Pad2(m);
    assert t[k..k + |Pad2(n)|] == Pad2(n);
    Pad2Injective(m, n);
  }

  /** The parts of one split backup never share a name. */
  lemma FileNamesDistinct(base: string, ext: string, count: nat, i: nat, j: nat)
    requires i < j < |FileNames(base, ext, count)|
    ensures FileNames(base, ext, count)[i] != FileNames(base, ext, count)[j]
  {
    FileNamesShape(base, ext, count);
    if count != 1 {
      var r := NumberedNames(base, ext, count);
      assert r[i] == base + "_" + Pad2(i + 1) + ext;
      assert r[j] == base + "_" + Pad2(j + 1) + ext;
      if r[i] == r[j] {
        NumberedNameInjective(base, ext, i + 1, j + 1);
      }
    }
  }

  /** `backupFiles.Select(o => Path.Combine(dir, o))`. */
  function InDirectory(dir: string, names: seq<string>): seq<string>
  {
    seq(|names|, i requires 0 <= i < |names| => Combine(dir, names[i]))
  }
  lemma InDirectoryAt(dir: string, names: seq<string>)
    ensures |InDirectory(dir, names)| == |names|
    ensures forall i :: 0 <= i < |names| ==> InDirectory(dir, names)[i] == Combine(dir, names[i])
  {
  }


  /** `{root}\{server name with '\' replaced by '^'}`. */
  function ServerDirectory(root: string, serverName: string): string
  {
    Combine(root, ReplaceChar(serverName, '\\', '^'))
  }

  const LockFileName: string := "backup_lock.pid"

  function LockPath(pathSQL: string): string
  {
    Combine(pathSQL, LockFileName)
  }

  /** What one database's backup is: action, flag, backup-set labels, its directory and the
      full paths of its files, in order. */
  datatype Plan = Plan(
    action: BackupActionType,
    incremental: bool,
    setName: string,
    setDescription: string,
    directory: string,
    files: seq<string>)

  /** The full (or differential) backup of `d` at timestamp `ts` under `pathSQL`. */
  function FullPlan(pathSQL: string, d: Database, t: BackupType, ts: string): Plan
  {
    var dir := Combine(pathSQL, d.name);
    var inc := IsIncremental(t, d);
    var names := FileNames(d.name + "_" + ts, Extension(inc), FileCount(d.size, inc));
    Plan(ActionDatabase, inc, "Full Database Backup", "Full backup of " + d.name, dir, InDirectory(dir, names))
  }

  /** What a full plan is: a database action in the database's directory; incremental only
      for a differential run on a database other than master that has a full backup; then
      never split and named `.diff.bak`; otherwise `.full.bak`, unsplit up to the threshold
      and above it in floor(size / 20240) numbered parts (unless that is exactly 1). */
  lemma FullPlanFiles(pathSQL: string, d: Database, t: BackupType, ts: string)
    ensures var r := FullPlan(pathSQL, d, t, ts);
      r.action == ActionDatabase && r.directory == Combine(pathSQL, d.name)
    ensures var r := FullPlan(pathSQL, d, t, ts);
      r.incremental <==> t == Differential && !IsMaster(d.name) && !NeverBackedUp(d)
    ensures var r := FullPlan(pathSQL, d, t, ts);
      r.incremental ==> r.files == [Combine(r.directory, d.name + "_" + ts + ".diff.bak")]
    ensures var r := FullPlan(pathSQL, d, t, ts);
      !r.incremental && (d.size <= SplitThreshold || d.size / PartSize == 1) ==>
        r.files == [Combine(r.directory, d.name + "_" + ts + ".full.bak")]
    ensures var r := FullPlan(pathSQL, d, t, ts);
      !r.incremental && d.size > SplitThreshold && d.size / PartSize != 1 ==>
        |r.files| == d.size / PartSize &&
        forall i :: 0 <= i < |r.files| ==>
          r.files[i] == Combine(r.directory, d.name + "_" + ts + "_" + Pad2(i + 1) + ".full.bak")
  {
    var r := FullPlan(pathSQL, d, t, ts);
    var base := d.name + "_" + ts;
    var names := FileNames(base, Extension(r.incremental), FileCount(d.size, r.incremental));
    FileNamesShape(base, Extension(r.incremental), FileCount(d.size, r.incremental));
    InDirectoryAt(r.directory, names);
  }

  /** The log backup of `d` at timestamp `ts` under `pathSQL`: one `.trn` file. */
  function LogPlan(pathSQL: string, d: Database, ts: string): Plan
  {
    var dir := Combine(pathSQL, d.name);
    Plan(ActionLog, false, "Log Database Backup", "Log backup of " + d.name, dir, InDirectory(dir, [d.name + "_" + ts + ".trn"]))
  }

  /** A log plan is a non-incremental log action with exactly one file, `{db}_{ts}.trn`,
      in the database's directory. */
  lemma LogPlanFiles(pathSQL: string, d: Database, ts: string)
    ensures var r := LogPlan(pathSQL, d, ts);
      r.action == ActionLog && !r.incremental && r.directory == Combine(pathSQL, d.name) &&
      r.files == [Combine(r.directory, d.name + "_" + ts + ".trn")]
  {
    var r := LogPlan(pathSQL, d, ts);
    InDirectoryAt(r.directory, [d.name + "_" + ts + ".trn"]);
    assert r.files[0] == Combine(r.directory, d.name + "_" + ts + ".trn");
  }

  /** A database of size in (10240, 20240) given a non-incremental backup is planned with no
      file at all: the count is 0 and the numbered branch yields nothing. */
  lemma ZeroFileSplit(pathSQL: string, d: Database, t: BackupType, ts: string)
    requires SplitThreshold < d.size < PartSize && !IsIncremental(t, d)
    ensures FullPlan(pathSQL, d, t, ts).files == []
  {
    var names := FileNames(d.name + "_" + ts, Extension(false), FileCount(d.size, false));
    FileNamesShape(d.name + "_" + ts, Extension(false), FileCount(d.size, false));
    InDirectoryAt(Combine(pathSQL, d.name), names);
  }

  /** A size of 50000 on a full run is split into two numbered parts. */
  lemma SplitIntoTwo(pathSQL: string, d: Database, ts: string)
    requires d.size == 50000
    ensures FullPlan(pathSQL, d, BackupType.Full, ts).files ==
      [Combine(Combine(pathSQL, d.name), d.name + "_" + ts + "_" + "01" + ".full.bak"),
       Combine(Combine(pathSQL, d.name), d.name + "_" + ts + "_" + "02" + ".full.bak")]
  {
    var p := FullPlan(pathSQL, d, BackupType.Full, ts);
    var names := FileNames(d.name + "_" + ts, Extension(false), FileCount(d.size, false));
    FileNamesShape(d.name + "_" + ts, Extension(false), FileCount(d.size, false));
    InDirectoryAt(p.directory, names);
    assert Pad2(1) == "01" && Pad2(2) == "02";
  }

  lemma PrefixOfNumbered(p: string, n: string, ext: string)
    ensures p <= p + n + ext
  {
    assert (p + n + ext)[..|p|] == p;
  }

  /** The parts of one backup, combined with any directory, are distinct paths: all parts
      share the prefix `{base}_`, so they are all relative or all rooted, and `Combine` keeps
      distinct names of one kind apart. */
  lemma InDirectoryDistinct(dir: string, base: string, ext: string, count: nat, i: nat, j: nat)
    requires |base| >= 1
    requires i < j < |FileNames(base, ext, count)|
    ensures InDirectory(dir, FileNames(base, ext, count))[i] != InDirectory(dir, FileNames(base, ext, count))[j]
  {
    var names := FileNames(base, ext, count);
    FileNamesShape(base, ext, count);
    InDirectoryAt(dir, names);
    FileNamesDistinct(base, ext, count, i, j);
    var p := base + "_";
    PrefixOfNumbered(p, Pad2(i + 1), ext);
    PrefixOfNumbered(p, Pad2(j + 1), ext);
    RootedByPrefix(p, names[i]);
    RootedByPrefix(p, names[j]);
    if Combine(dir, names[i]) == Combine(dir, names[j]) {
      CombineInjective(dir, names[i], names[j]);
    }
  }

  /** The parts of one full backup are distinct paths, for any root, database, type and timestamp. */
  lemma FullPlanFilesDistinct(pathSQL: string, d: Database, t: BackupType, ts: string, i: nat, j: nat)
    requires i < j < |FullPlan(pathSQL, d, t, ts).files|
    ensures FullPlan(pathSQL, d, t, ts).files[i] != FullPlan(pathSQL, d, t, ts).files[j]
  {
    var inc := IsIncremental(t, d);
    var names := FileNames(d.name + "_" + ts, Extension(inc), FileCount(d.size, inc));
    InDirectoryAt(Combine(pathSQL, d.name), names);
    InDirectoryDistinct(Combine(pathSQL, d.name), d.name + "_" + ts, Extension(inc), FileCount(d.size, inc), i, j);
  }

  /** A file name that starts with a plain database name followed by '_' is relative. */
  lemma NameNotRooted(name: string, rest: string)
    requires PlainSegment(name) && |rest| > 0 && rest[0] == '_'
    ensures |name + rest| > 0 && !IsRooted(name + rest)
  {
    var s := name + rest;
    assert s[0] == name[0];
    if |name| >= 2 { assert s[1] == name[1]; } else { assert s[1] == rest[0]; }
  }

  /** With plain root, server and database names, a file named after its database lies at
      `{root}\{server'}\{db}\{file}`, while the lock sits at `{root}\{server'}\backup_lock.pid`,
      so no backup file is ever the lock file. */
  lemma PathLayout(root: string, serverName: string, name: string, fileName: string)
    requires |root| > 0 && !IsSeparator(root[|root| - 1]) && root[|root| - 1] != VolumeSeparator
    requires PlainSegment(ReplaceChar(serverName, '\\', '^')) && PlainSegment(name)
    requires |fileName| > |name| && fileName[..|name|] == name && fileName[|name|] == '_'
    ensures var server := ReplaceChar(serverName, '\\', '^');
      var path := Combine(Combine(ServerDirectory(root, serverName), name), fileName);
      path == root + "\\" + server + "\\" + name + "\\" + fileName &&
      LockPath(ServerDirectory(root, serverName)) == root + "\\" + server + "\\" + LockFileName &&
      path != LockPath(ServerDirectory(root, serverName))
  {
    var server := ReplaceChar(serverName, '\\', '^');
    CombinePlain(root, server);
    var pathSQL := ServerDirectory(root, serverName);
    CombinePlain(pathSQL, name);
    var dir := Combine(pathSQL, name);
    NameNotRooted(name, fileName[|name|..]);
    assert fileName == name + fileName[|name|..];
    CombinePlain(dir, fileName);
    CombinePlain(pathSQL, LockFileName);
    var tail := name + "\\" + fileName;
    assert Combine(dir, fileName) == pathSQL + "\\" + tail;
    assert tail != LockFileName by {
      if |tail| == |LockFileName| {
        assert tail[|name|] == '\\';
        assert LockFileName[|name|] != '\\';
      }
    }
    assert (pathSQL + "\\" + tail)[|pathSQL| + 1..] == tail;
    assert (pathSQL + "\\" + LockFileName)[|pathSQL| + 1..] == LockFileName;
  }

  /** Every file of a full plan lies in its database directory under the server directory. */
  lemma FullPlanLayout(root: string, serverName: string, d: Database, t: BackupType, ts: string, i: nat)
    requires |root| > 0 && !IsSeparator(root[|root| - 1]) && root[|root| - 1] != VolumeSeparator
    requires PlainSegment(ReplaceChar(serverName, '\\', '^')) && PlainSegment(d.name)
    requires i < |FullPlan(ServerDirectory(root, serverName), d, t, ts).files|
    ensures var f := FullPlan(ServerDirectory(root, serverName), d, t, ts).files[i];
      var prefix := root + "\\" + ReplaceChar(serverName, '\\', '^') + "\\" + d.name + "\\";
      |f| > |prefix| && f[..|prefix|] == prefix && f != LockPath(ServerDirectory(root, serverName))
  {
    var inc := IsIncremental(t, d);
    var base := d.name + "_" + ts;
    var names := FileNames(base, Extension(inc), FileCount(d.size, inc));
    FileNamesShape(base, Extension(inc), FileCount(d.size, inc));
    InDirectoryAt(Combine(ServerDirectory(root, serverName), d.name), names);
    var n := names[i];
    assert n[..|d.name|] == d.name && n[|d.name|] == '_' by {
      assert n[..|base|] == base;
    }
    PathLayout(root, serverName, d.name, n);
  }

  /** The one file of a log plan is `{root}\{server'}\{db}\{db}_{ts}.trn`. */
  lemma LogPlanLayout(root: string, serverName: string, d: Database, ts: string)
    requires |root| > 0 && !IsSeparator(root[|root| - 1]) && root[|root| - 1] != VolumeSeparator
    requires PlainSegment(ReplaceChar(serverName, '\\', '^')) && PlainSegment(d.name)
    ensures var f := LogPlan(ServerDirectory(root, serverName), d, ts).files;
      f == [root + "\\" + ReplaceChar(serverName, '\\', '^') + "\\" + d.name + "\\" + d.name + "_" + ts + ".trn"] &&
      f[0] != LockPath(ServerDirectory(root, serverName))
  {
    var n := d.name + "_" + ts + ".trn";
    InDirectoryAt(Combine(ServerDirectory(root, serverName), d.name), [n]);
    assert n[..|d.name|] == d.name;
    PathLayout(root, serverName, d.name, n);
    assert root + "\\" + ReplaceChar(serverName, '\\', '^') + "\\" + d.name + "\\" + n
        == root + "\\" + ReplaceChar(serverName, '\\', '^') + "\\" + d.name + "\\" + d.name + "_" + ts + ".trn";
  }

  // ---------------------------------------------------------------------------
  // The SMO request built by InvokeSqlBackup

  /** Backup compression needs SQL Server 2008 R2 (10.50); the gate tests both parts separately. */
  predicate SupportsCompression(v: Version)
  {
    v.major >= 10 && v.minor >= 50
  }

  function FileDevices(files: seq<string>): seq<BackupDevice>
  {
    seq(|files|, i requires 0 <= i < |files| => BackupDevice(files[i], File))
  }

  function DeviceNames(devices: seq<BackupDevice>): seq<string>
  {
    seq(|devices|, i requires 0 <= i < |devices| => devices[i].name)
  }
  /** The devices made from a list of files are disk files naming exactly those files, in order. */
  lemma FileDevicesNames(files: seq<string>)
    ensures DeviceNames(FileDevices(files)) == files
    ensures forall dev :: dev in FileDevices(files) ==> dev.deviceType == File
  {
    assert |DeviceNames(FileDevices(files))| == |files|;
  }


  /** The configured SMO `Backup` object: the plan's database, action, labels and files as disk
      devices in plan order; incremental only if asked for and the database is not master;
      compression switched on exactly where the version gate passes, otherwise left unset. */
  function BuildRequest(name: string, files: seq<string>, action: BackupActionType, incremental: bool,
                        setName: string, setDescription: string, version: Version): (r: BackupRequest)
  {
    var inc := if IsMaster(name) && incremental then false else incremental;
    BackupRequest(name, action, setDescription, setName, "Disk", inc, FileDevices(files),
                  if SupportsCompression(version) then On else Default)
  }

  /** The configured request carries the plan's database, action, labels and files in order,
      all as disk files; it is incremental only when asked and not for master; it asks for
      compression exactly when the version gate holds and otherwise leaves the server default. */
  lemma BuildRequestMeaning(name: string, files: seq<string>, action: BackupActionType, incremental: bool,
                            setName: string, setDescription: string, version: Version)
    ensures var r := BuildRequest(name, files, action, incremental, setName, setDescription, version);
      r.database == name && r.action == action && r.mediaDescription == "Disk" &&
      r.backupSetName == setName && r.backupSetDescription == setDescription &&
      (r.incremental <==> incremental && !IsMaster(name)) &&
      DeviceNames(r.devices) == files &&
      (forall dev :: dev in r.devices ==> dev.deviceType == File) &&
      (r.compression == On <==> version.major >= 10 && version.minor >= 50) &&
      (r.compression != On ==> r.compression == Default)
  {
    var r := BuildRequest(name, files, action, incremental, setName, setDescription, version);
    assert DeviceNames(r.devices) == files;
  }

  /** The gate as written: 10.50 and 12.50 compress, but 11.0 and 13.0 do not. */
  lemma CompressionGateAsWritten()
    ensures SupportsCompression(Version(10, 50)) && SupportsCompression(Version(12, 50))
    ensures !SupportsCompression(Version(11, 0)) && !SupportsCompression(Version(13, 0))
  {
  }
}

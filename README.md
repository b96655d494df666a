# sql-backup: a Dafny model of `SqlInstance.Backup`

This project models the core of the `sql-backup` tool, a command-line utility that backs up every
database of a SQL Server instance to disk through SQL Server Management Objects (SMO). The core is
`SqlInstance.Backup`, which runs one backup pass over one server:

- It ensures the server's backup directory `{root}\{server name with '\' replaced by '^'}`.
- It refuses to run while a lock file `backup_lock.pid` exists there, reporting the process id
  recorded in it. Otherwise it writes its own process id into that file.
- It selects the databases: not `tempdb` (in any case), not offline. For a transaction-log run, the
  full list holds only databases that were never backed up, and a separate log list holds those not
  in the Simple recovery model.
- It runs two loops, full or differential backups and then log backups. Each turn logs its start,
  ensures the database directory and plans the file names (split into numbered parts for large
  databases). It then calls `InvokeSqlBackup`, which configures the SMO request (master is never
  differential; compression is gated on the server version). A failure of the engine is caught and
  logged, so it does not stop the other databases.
- It deletes the lock file once both loops are done.

`GetAllMessages` flattens an exception chain into one text for those log lines.

Module layout, one file each:

- `wrappers.dfy` (`Wrappers`): `Option` and `Outcome`.
- `strings.dfy` (`Strings`): the .NET string operations the code relies on: `Int32.ToString()`,
  `ToString("D2")`, single-character `Replace`, and ignore-case equality.
- `paths.dfy` (`Paths`): `Path.Combine`, following the Windows rules.
- `linq.dfy` (`Linq`): `Where(...).ToList()`.
- `disk.dfy` (`Disk`): the file system as a class whose files and directories the run changes, with
  `Disk.VerifyDirectory`, `File.WriteAllText` and `File.Delete`.
- `smo.dfy` (`Smo`): the SMO values read and produced: the database, the version, the request and the
  engine's outcome.
- `extension_methods.dfy` (`ExtensionMethods`): `GetAllMessages`, as a loop proved against a
  recursive flattening.
- `planning.dfy` (`Planning`): selection, per-database plans and the request that
  `InvokeSqlBackup` builds, as functions with lemmas.
- `sql_instance.dfy` (`SqlInstances`): the class `SqlInstance`, with `Backup`, its two loops and
  `InvokeSqlBackup` as imperative methods over a `FileSystem` object.
  - The methods are proved against a specification of the run. `Step` is one database's turn, `Run`
    is the sequence of turns, and `BackupEffect` is a whole call: its outcome, its log and the new
    files and directories.
  - `Backup`'s postcondition is that its outcome, log and final file system are exactly those of
    `BackupEffect`.
- `backup_properties.dfy` (`BackupProperties`): properties of whole runs proved on `BackupEffect`:
  the lock protocol across consecutive runs, the order of the turns, and failure isolation.

External behaviour enters as parameters:

- The backup engine (`backup.SqlBackup(smo)` and `Wait()`) is a function from the configured request
  to `Succeeded` or `Threw(exception)`.
- The clock is a function from the position of a database in processing order to its timestamp
  text. Full-list database `i` uses stamp `i`; log-list database `j` uses stamp
  `(size of the full list) + j`.
- The process id is a natural number.
- A directory cannot be created when it lies in the file system's `denied` set or when a file exists
  at that path. `Directory.CreateDirectory` then throws an `UnauthorizedAccessException` or an
  `IOException`, which the model records as the error `DirectoryError(path)`. `Backup` does not
  catch it.
- Logging is an abstract log of events: `Started`, `Completed`, and `Failed` with the requested type,
  database, server name and flattened messages.

The model reproduces these quirks of the code:

- No lower clamp: a non-incremental backup of a database whose size is in (10240, 20240) gets a file
  count of 0 and an empty file list (`Planning.ZeroFileSplit`).
- In a transaction-log run the two lists are drawn independently and may overlap: a never-backed-up
  database outside the Simple model gets a full backup and then a log backup
  (`Planning.OverlappingLists`).
- The lock file is deleted only when both loops finish. A database directory that cannot be created
  raises an exception that leaves `Backup` with the lock still written. Every later run then refuses
  with the recorded process id (`BackupProperties.AbortedRunKeepsLock`).
- The compression gate tests `Major >= 10 && Minor >= 50` literally, so versions 11.0 and 13.0 get no
  compression while 10.50 and 12.50 do (`Planning.CompressionGateAsWritten`).

## Model

| member | source | states |
|---|---|---|
| Strings.EqualsIgnoreCaseMeaning | SqlBackup.Core/SqlInstance.cs:48 | two names are equal ignoring case exactly when they have the same length and agree character by character after case folding (used for `tempdb` and `master`) |
| Strings.NatToString | SqlBackup.Core/SqlInstance.cs:44 | the written process id is a non-empty string of decimal digits with no leading zero, at least two digits from 10 on |
| Strings.ParseNatToString | SqlBackup.Core/SqlInstance.cs:40-44 | the process id written to the lock file reads back as the same number |
| Strings.Pad2 | SqlBackup.Core/SqlInstance.cs:89 | `ToString("D2")` gives `0` and the digit below 10, and the plain numeral from 10 on |
| Strings.ParsePad2 | SqlBackup.Core/SqlInstance.cs:89 | a zero-padded part number reads back as the same number |
| Strings.Pad2Injective | SqlBackup.Core/SqlInstance.cs:89 | different part numbers give different padded texts |
| Strings.ReplaceChar | SqlBackup.Core/SqlInstance.cs:34 | `Replace("\", "^")` keeps the length, replaces exactly the backslashes, and leaves none behind |
| Paths.CombinePlain | SqlBackup.Core/SqlInstance.cs:65 | a directory without a trailing separator and a relative name are joined by exactly one backslash |
| Paths.RootedByPrefix | SqlBackup.Core/SqlInstance.cs:93 | whether a path is rooted depends only on its first two characters |
| Paths.CombineInjective | SqlBackup.Core/SqlInstance.cs:93 | for any directory, two names that are both relative or both rooted combine to the same path only if they are equal |
| Paths.CombineEndsWith | SqlBackup.Core/SqlInstance.cs:93 | `Path.Combine(a, b)` always ends with `b` |
| Linq.Where | SqlBackup.Core/SqlInstance.cs:48 | the filtered list keeps the satisfying elements in their original order, each as often as before, and no others |
| Linq.WhereWhere | SqlBackup.Core/SqlInstance.cs:48 | the two chained filters are one filter by both conditions |
| ExtensionMethods.GetAllMessages | SqlBackup.Core/ExtensionMethods.cs:11-26 | null for a null exception; otherwise the loop yields the flattening of the whole inner-exception chain, outermost first, one terminated line per exception |
| ExtensionMethods.LinesOfFlatten | SqlBackup.Core/ExtensionMethods.cs:16-25 | when no message contains a carriage return, splitting the flattened text at line terminators gives back exactly the messages |
| ExtensionMethods.AllMessagesLines | SqlBackup.Core/ExtensionMethods.cs:16-25 | when no message contains a carriage return, the text has one line per exception of the chain and the first is the outer message |
| ExtensionMethods.AllMessagesStartsWithOuter | SqlBackup.Core/ExtensionMethods.cs:16-25 | whatever the messages contain, the text starts with the outer message and a line terminator, and an exception without an inner one gives exactly its message and one terminator |
| ExtensionMethods.FlattenAppend | SqlBackup.Core/ExtensionMethods.cs:20-24 | the flattened text of two runs of messages is the text of the first followed by the text of the second, whatever they contain |
| ExtensionMethods.FlattenLength | SqlBackup.Core/ExtensionMethods.cs:16-25 | the text's length is the total length of the messages plus one terminator per exception |
| Disk.FileSystem.VerifyDirectory | SqlBackup.Core/Disk.cs:16-20 | an existing directory is left alone and a missing one is created; the call fails exactly when the directory is missing and cannot be created, and then nothing changes; files are never touched |
| Disk.FileSystem.WriteAllText | SqlBackup.Core/SqlInstance.cs:44 | the file is created or replaced with the given contents; nothing else changes |
| Disk.FileSystem.Delete | SqlBackup.Core/SqlInstance.cs:158 | the file is removed (a missing one is no error); nothing else changes |
| Planning.Eligible | SqlBackup.Core/SqlInstance.cs:48 | the eligible databases are the enumerated ones, in order and with their multiplicities, except tempdb in any case and offline ones |
| Planning.EligibleMembership | SqlBackup.Core/SqlInstance.cs:48 | a database is in the eligible list exactly when it is enumerated, not tempdb in any case and not offline |
| Planning.Partition | SqlBackup.Core/SqlInstance.cs:50-57 | a full or differential run backs up every eligible database in the full loop and none in the log loop; a log run takes, in order, the never-backed-up ones for the full loop and the non-Simple ones for the log loop |
| Planning.SelectMembership | SqlBackup.Core/SqlInstance.cs:48-57 | a database is in the full list exactly when it is enumerated and eligible and, in a log run, never backed up; it is in the log list exactly when the run is a log run and it is enumerated, eligible and not Simple |
| Planning.OverlappingLists | SqlBackup.Core/SqlInstance.cs:55-56 | in a log run an eligible, never-backed-up, non-Simple database is in both lists |
| Planning.IsIncremental | SqlBackup.Core/SqlInstance.cs:68-72 | a turn is incremental exactly when the run is differential, the database is not master and it has been backed up before |
| Planning.NumberedNamesAt | SqlBackup.Core/SqlInstance.cs:87-90 | the numbered names are `{base}_{01}{ext}` up to `{base}_{NN}{ext}`, one per part number in ascending order |
| Planning.FileNamesShape | SqlBackup.Core/SqlInstance.cs:78-91 | a count of 1 gives the one unnumbered name; any other count, including 0, gives that many numbered names |
| Planning.FileNamesDistinct | SqlBackup.Core/SqlInstance.cs:81-91 | no two parts of one backup share a name |
| Planning.FullPlanFiles | SqlBackup.Core/SqlInstance.cs:65-93 | a full turn is a database action in `{pathSQL}\{db}`, incremental under the rule above; a differential backup is one `.diff.bak` file; otherwise one `.full.bak` file up to 10240, above it floor(size / 20240) numbered `.full.bak` parts unless that count is 1 |
| Planning.LogPlanFiles | SqlBackup.Core/SqlInstance.cs:123-133 | a log turn is a non-incremental log action in `{pathSQL}\{db}` with the single file `{db}_{ts}.trn` |
| Planning.ZeroFileSplit | SqlBackup.Core/SqlInstance.cs:79-91 | a non-incremental backup of a database with size strictly between 10240 and 20240 has no file at all |
| Planning.SplitIntoTwo | SqlBackup.Core/SqlInstance.cs:79-91 | a full backup of a database of size 50000 is exactly the parts `_01` and `_02` |
| Planning.InDirectoryDistinct | SqlBackup.Core/SqlInstance.cs:81-93 | the numbered or single names of one backup, combined with any directory, are pairwise distinct paths |
| Planning.FullPlanFilesDistinct | SqlBackup.Core/SqlInstance.cs:76-93 | for any root, database, type and timestamp, the paths of the parts of one full backup are pairwise distinct |
| Planning.NameNotRooted | SqlBackup.Core/SqlInstance.cs:93 | a file name that starts with a plain database name and `_` is relative, so combining keeps the directory |
| Planning.PathLayout | SqlBackup.Core/SqlInstance.cs:34-37 | with plain names, a backup file lies at `{root}\{server}\{db}\{file}` and the lock at `{root}\{server}\backup_lock.pid`, so no backup file is the lock file |
| Planning.FullPlanLayout | SqlBackup.Core/SqlInstance.cs:65-93 | every file of a full turn lies under `{root}\{server}\{db}\` and is not the lock file |
| Planning.LogPlanLayout | SqlBackup.Core/SqlInstance.cs:123-133 | the one file of a log turn is `{root}\{server}\{db}\{db}_{ts}.trn` and is not the lock file |
| Planning.FileDevicesNames | SqlBackup.Core/SqlInstance.cs:185-188 | the request's devices are disk files naming exactly the planned files, in order |
| Planning.BuildRequestMeaning | SqlBackup.Core/SqlInstance.cs:171-193 | the request carries the database, action, set name and description and "Disk" media; it is incremental exactly when asked and the database is not master; compression is On exactly when the version gate holds and otherwise left at the server default |
| Planning.CompressionGateAsWritten | SqlBackup.Core/SqlInstance.cs:192 | the gate as written: 10.50 and 12.50 compress, 11.0 and 13.0 do not |
| SqlInstances.LockMessage | SqlBackup.Core/SqlInstance.cs:41 | the refusal message contains the recorded process id at its fixed position after the server name |
| SqlInstances.RunAppend | SqlBackup.Core/SqlInstance.cs:59-156 | running the full turns and then the log turns is running their concatenation |
| SqlInstances.RunStaysAborted | SqlBackup.Core/SqlInstance.cs:66 | once a directory could not be created, the later turns add nothing: the exception leaves both loops |
| SqlInstances.RunTracePrefix | SqlBackup.Core/SqlInstance.cs:59-121 | the log of an earlier point of the run is a prefix of the final log, so every full-loop line precedes every log-loop line |
| SqlInstances.RunAttemptsEveryJob | SqlBackup.Core/SqlInstance.cs:96-115 | when every directory can be ensured, no turn aborts; each turn logs exactly its start and then the outcome the engine gives for its request, whatever the other turns did |
| SqlInstances.RunAbortCause | SqlBackup.Core/SqlInstance.cs:63-66 | an aborted run stopped at a turn whose directory was missing and could not be created, and the log ends with that turn's start |
| SqlInstances.RunDirsGrow | SqlBackup.Core/SqlInstance.cs:65-66 | directories are only added, and only those of the run's turns |
| SqlInstances.SqlInstance.InvokeSqlBackup | SqlBackup.Core/SqlInstance.cs:171-196 | the loop and branches configure exactly the request `BuildRequest` describes for the server's version, and the outcome is the engine's answer to it |
| SqlInstances.SqlInstance.BackUpFull | SqlBackup.Core/SqlInstance.cs:61-116 | one full-loop turn changes the log and directories exactly as `Step` describes for turn `i`, catching the engine's failure, and leaves the files alone |
| SqlInstances.SqlInstance.BackUpLog | SqlBackup.Core/SqlInstance.cs:119-156 | one log-loop turn changes the log and directories exactly as `Step` describes for turn `j` |
| SqlInstances.SqlInstance.SelectDatabases | SqlBackup.Core/SqlInstance.cs:48-57 | the two lists built are those `Select` describes |
| SqlInstances.SqlInstance.FullBackupLoop | SqlBackup.Core/SqlInstance.cs:61-116 | the loop's log, directories and escaping exception are those of `Run` over the full-loop turns |
| SqlInstances.SqlInstance.LogBackupLoop | SqlBackup.Core/SqlInstance.cs:119-156 | the loop's log, directories and escaping exception are those of `Run` over the log-loop turns |
| SqlInstances.SqlInstance.BackUpDatabases | SqlBackup.Core/SqlInstance.cs:46-156 | selection and the two loops together are `Run` over all turns, full list first; a failure in the full loop skips the log loop |
| SqlInstances.SqlInstance.Backup | SqlBackup.Core/SqlInstance.cs:32-159 | outcome, log, files and directories are exactly those of `BackupEffect` |
| BackupProperties.JobsOrder | SqlBackup.Core/SqlInstance.cs:61-65 | the turns are every database of the full list and then every database of the log list, in order, each in `{pathSQL}\{db}` |
| BackupProperties.JobsDirectories | SqlBackup.Core/SqlInstance.cs:65 | every turn works in the directory named after its database |
| BackupProperties.EffectOfLockedRun | SqlBackup.Core/SqlInstance.cs:37-158 | with the server directory available and no lock, a run writes the lock and runs every turn; it ends with the original files, or after an abort with the lock still written |
| BackupProperties.UnlockRestores | SqlBackup.Core/SqlInstance.cs:44 | deleting the lock that was written where none existed gives back the original files |
| BackupProperties.CleanRunReleasesLock | SqlBackup.Core/SqlInstance.cs:158 | a run that ends normally leaves exactly the original files (the lock is gone) and the server directory in place |
| BackupProperties.AbortedRunKeepsLock | SqlBackup.Core/SqlInstance.cs:37-44 | a run that takes the lock and then aborts leaves the lock with its process id, and any later run refuses with that id, no log and no change |
| BackupProperties.RunAbortUnavailable | SqlBackup.Core/SqlInstance.cs:66 | an aborted run stopped at a directory that was missing and could not be created |
| BackupProperties.RunAbortAtLastStarted | SqlBackup.Core/SqlInstance.cs:63-66 | an aborted run stopped at the directory of the database whose start ends the log, one of the run's databases, and that directory could not be created |
| BackupProperties.AbortCause | SqlBackup.Core/SqlInstance.cs:65-66 | a run that takes the lock and then aborts fails with the `DirectoryError` of a directory that was missing and could not be created (reading SMO metadata cannot fail in the model) |
| BackupProperties.SelectedDirectoriesAvailable | SqlBackup.Core/SqlInstance.cs:65-66 | when every eligible database of the server has a creatable directory, so does every turn |
| BackupProperties.EveryDatabaseAttempted | SqlBackup.Core/SqlInstance.cs:61-158 | with the lock free and every eligible database's directory creatable, the run ends normally whatever the engine does. The files are restored and the log has exactly two lines per turn: its start, then the engine's outcome for its request |

## Left out

- `Connect`, the constructor's SMO connection and `Dispose`: the connection is external. The class
  holds the server's name and the data SMO exposes for it.
- `PerformMaintenance` is left out: it is one SQL statement handed to the server.
- Throughput reporting after a successful backup (total size, speed) is left out. It depends on the
  stopwatch, `FileInfo.Length` and floating point. The model does not capture that an exception
  there is caught and logged as a failure of that database.
- The engine's writing of the backup files is left out. The engine is a function of the request,
  and the model's files change only through the lock file.
- The text of log lines, their `DateTime.Now` stamps and the `Log` class are left out. The log is a
  sequence of events, and file-name timestamps come from the clock parameter.
- Case-insensitive comparison folds ASCII letters only. Culture-sensitive folding and ignorable
  characters are left out: `InvariantCultureIgnoreCase` also folds other letters and ignores
  zero-weight characters such as the soft hyphen. A database named `temp` + U+00AD + `db` is
  skipped as tempdb by the code, but the model backs it up.
- `Path.Combine` throwing on invalid path characters is left out, and so is `Directory.CreateDirectory`
  creating missing parents. Directory creation fails only for a path in the `denied` set or a path
  where a file exists.
- The file system is case-sensitive in the model; Windows paths are not.
- I/O failures of `File.ReadAllText`, `File.WriteAllText` and `File.Delete`, such as a directory named
  `backup_lock.pid`, are left out.
- SMO metadata reads that fail are left out. The code enumerates `Databases` and reads `Status`,
  `Name`, `LastBackupDate`, `RecoveryModel` and `Size` outside any `try` (lines 48-79), for example
  when the server becomes unreachable or a database is inaccessible but not offline. Such an
  exception would leave `Backup` with the lock still written. In the model these reads cannot fail,
  so `BackupProperties.AbortCause`, `BackupProperties.RunAbortUnavailable`,
  `BackupProperties.RunAbortAtLastStarted` and `SqlInstances.RunAbortCause` name a directory that
  could not be created as the only cause of an abort.
- A race between two processes between the lock test and the lock write is left out. The model is
  sequential.
- `Database.Size` is a whole number in the model. Fractional sizes and overflow of the `(int)` cast
  are left out.
- `LastBackupDate` is a tick count in the model, and `DateTime.MinValue` is 0.
- `Program.cs` (the command line) and `Disk.IsWritable` (not called by the core) are not part of this
  model.
- `BackupException.cs` defines only constructors. Here the exception is the error value
  `BackupException(message)`.
- BackupProperties.AbortCause: at the level of a whole call it does not say whose directory failed.
  `BackupProperties.RunAbortAtLastStarted` states that for the run the call performs, because
  stating it over the whole call makes the proof too expensive for the verifier.

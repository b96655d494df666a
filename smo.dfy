/** The values the backup layer reads from and hands to the SQL Server management
    objects (SMO). The SMO library itself is external; only its data is modelled. */
module Smo {
  import ExtensionMethods

  /** Flags of `DatabaseStatus`; a database's status is the set of flags it carries. */
  datatype StatusFlag =
    | Normal | Restoring | RecoveryPending | Recovering | Suspect
    | Offline | Standby | Shutdown | EmergencyMode | AutoClosed

  datatype RecoveryModel = Simple | BulkLogged | Full

  /** `DateTime.MinValue` in ticks: the catalogue's "never backed up" date. */
  const MinValue: nat := 0

  /** One enumerated database. `size` is `Database.Size` in whole units and
      `lastBackupDate` is `Database.LastBackupDate` in ticks. */
  datatype Database = Database(
    name: string,
    size: nat,
    status: set<StatusFlag>,
    recoveryModel: RecoveryModel,
    lastBackupDate: nat)

  /** `Server.Version`. */
  datatype Version = Version(major: nat, minor: nat)

  /** What the connected server exposes: its own name, version and databases in enumeration order. */
  datatype Server = Server(name: string, version: Version, databases: seq<Database>)

  datatype BackupActionType = ActionDatabase | ActionFiles | ActionLog

  datatype DeviceType = File | LogicalDevice | Tape | Pipe | Url

  datatype BackupDevice = BackupDevice(name: string, deviceType: DeviceType)

  datatype BackupCompressionOptions = Default | On | Off

  /** The state of an SMO `Backup` object once it is configured. */
  datatype BackupRequest = BackupRequest(
    database: string,
    action: BackupActionType,
    backupSetDescription: string,
    backupSetName: string,
    mediaDescription: string,
    incremental: bool,
    devices: seq<BackupDevice>,
    compression: BackupCompressionOptions)

  /** What the external engine does with a request (`backup.SqlBackup(smo)` and `backup.Wait()`):
      it completes, or it throws an exception. */
  datatype EngineOutcome = Succeeded | Threw(ex: ExtensionMethods.Exception)
}

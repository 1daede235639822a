/** The update model: the state of an offline system update shown by the
    update screen, with setters that notify only real changes, and the fixed
    tables of error messages and action labels.  Translated strings are
    modelled by their untranslated source text, which identifies them. */
module Update {

  /** The errors an update can end with.  The nine named ones have a
      message; any other value of the enumeration is OtherError. */
  datatype UpdateError =
    | UnKnown
    | CanNotBackup
    | BackupNoSpace
    | BackupInterfaceError
    | BackupFailedUnknownReason
    | UpdateInterfaceError
    | InstallNoSpace
    | DependenciesBrokenError
    | DpkgInterrupted
    | OtherError(code: int)

  /** Update progress; only the initial value is named by the model. */
  datatype UpdateStatus = Default | OtherStatus(code: int)

  /** The kind of update; only the initial value is named by the model. */
  datatype UpdateType = Invalid | OtherType(code: int)

  /** The actions the update screen offers. */
  datatype UpdateAction =
    | None
    | DoBackupAgain
    | ExitUpdating
    | ContinueUpdating
    | CancelUpdating
    | Reboot
    | ShutDown

  /** A title and a detail text. */
  datatype ErrorMessage = ErrorMessage(title: string, detail: string)

  const BackupImpossible: string := "Can not do backup"
  const BackupFailed: string := "Backup failed"
  const UpdateFailed: string := "Update failed"
  // the detail texts
  const UnknownDetail: string := "Unknown error"
  const NoSpaceForBackup: string := "Insufficient disk space. It is recommended to clean the disk before updating"
  const BackupServiceUnreachable: string := "Failed to connect to backup services, please check and retry"
  const UpdateServiceUnreachable: string := "Failed to connect to update services, please check and retry"
  const NoSpaceForInstall: string := "Please insufficient disk space and try again"
  const DependencyDetail: string := "Dependency error"
  const DpkgDetail: string := "Dpkg interrupt"

  /** The errors raised while backing up, before anything is installed. */
  predicate IsBackupError(e: UpdateError)
  {
    e == CanNotBackup || e == BackupNoSpace || e == BackupInterfaceError || e == BackupFailedUnknownReason
  }

  /** The message shown for an error: a tabled title and detail for the nine
      named errors, two empty texts for any other. */
  function UpdateErrorMessage(e: UpdateError): (r: ErrorMessage)
    // every named error has a title, and only those
    ensures r.title != "" <==> !e.OtherError?
    ensures e.OtherError? ==> r == ErrorMessage("", "")
    // backup errors say the backup went wrong, the others that the update failed
    ensures IsBackupError(e) ==> r.title == BackupImpossible || r.title == BackupFailed
    ensures !IsBackupError(e) && !e.OtherError? ==> r.title == UpdateFailed
    // a named error comes without a detail exactly when it is one of two backup errors
    ensures !e.OtherError? ==> (r.detail == "" <==> e == CanNotBackup || e == BackupFailedUnknownReason)
  {
    match e
    case UnKnown => ErrorMessage(UpdateFailed, UnknownDetail)
    case CanNotBackup => ErrorMessage(BackupImpossible, "")
    case BackupNoSpace => ErrorMessage(BackupImpossible, NoSpaceForBackup)
    case BackupInterfaceError => ErrorMessage(BackupImpossible, BackupServiceUnreachable)
    case BackupFailedUnknownReason => ErrorMessage(BackupFailed, "")
    case UpdateInterfaceError => ErrorMessage(UpdateFailed, UpdateServiceUnreachable)
    case InstallNoSpace => ErrorMessage(UpdateFailed, NoSpaceForInstall)
    case DependenciesBrokenError => ErrorMessage(UpdateFailed, DependencyDetail)
    case DpkgInterrupted => ErrorMessage(UpdateFailed, DpkgDetail)
    case OtherError(_) => ErrorMessage("", "")
  }

  /** The label of an action button: empty for None only. */
  function UpdateActionText(a: UpdateAction): (t: string)
    ensures t == "" <==> a == None
  {
    match a
    case None => ""
    case DoBackupAgain => "Backup again"
    case ExitUpdating => "Exit updating"
    case ContinueUpdating => "Continue updating"
    case CancelUpdating => "Cancel updating"
    case Reboot => "Reboot"
    case ShutDown => "Shut Down"
  }

  /** Different actions are labelled differently, so a label names its action. */
  lemma ActionTextDistinct(a: UpdateAction, b: UpdateAction)
    requires UpdateActionText(a) == UpdateActionText(b)
    ensures a == b
  {
    match a
    case None =>
    case DoBackupAgain => assert UpdateActionText(a)[0] == 'B';
    case ExitUpdating => assert UpdateActionText(a)[0] == 'E';
    case ContinueUpdating => assert UpdateActionText(a)[..2] == "Co";
    case CancelUpdating => assert UpdateActionText(a)[..2] == "Ca";
    case Reboot => assert UpdateActionText(a)[0] == 'R';
    case ShutDown => assert UpdateActionText(a)[0] == 'S';
  }

  /** The model's fields, as one value. */
  datatype UpdateState = UpdateState(
    updateAvailable: bool,
    updateMode: UpdateType,
    updateStatus: UpdateStatus,
    distUpgradeProgress: real,
    isBackupConfigValid: bool,
    isUpdating: bool,
    isReboot: bool,
    updateError: UpdateError,
    lastErrorLog: string)

  class UpdateModel {
    var updateAvailable: bool
    var updateMode: UpdateType
    var updateStatus: UpdateStatus
    var distUpgradeProgress: real
    var isBackupConfigValid: bool
    var isUpdating: bool
    var isReboot: bool
    var updateError: UpdateError
    var lastErrorLog: string
    /** The statuses announced by updateStatusChanged, oldest first. */
    var statusChanges: seq<UpdateStatus>

    function State(): UpdateState
      reads this
    {
      UpdateState(updateAvailable, updateMode, updateStatus, distUpgradeProgress,
                  isBackupConfigValid, isUpdating, isReboot, updateError, lastErrorLog)
    }

    /** The defaults of a new model.  The error field is left uninitialised
        by the constructor, so its first value is a parameter. */
    constructor (initialError: UpdateError)
      ensures State() == UpdateState(false, Invalid, Default, 0.0, true, false, false, initialError, "")
      ensures statusChanges == []
    {
      updateAvailable := false;
      updateMode := Invalid;
      updateStatus := Default;
      distUpgradeProgress := 0.0;
      isBackupConfigValid := true;
      isUpdating := false;
      isReboot := false;
      updateError := initialError;
      lastErrorLog := "";
      statusChanges := [];
    }

    /** Stores the status and announces it, unless it is the current one. */
    method SetUpdateStatus(status: UpdateStatus)
      modifies this
      ensures State() == old(State()).(updateStatus := status)
      ensures statusChanges == old(statusChanges) + (if status == old(updateStatus) then [] else [status])
    {
      if updateStatus == status {
        return;
      }
      updateStatus := status;
      statusChanges := statusChanges + [updateStatus];
    }

    /** Stores the error (nothing is announced). */
    method SetUpdateError(error: UpdateError)
      modifies this
      ensures State() == old(State()).(updateError := error)
      ensures statusChanges == old(statusChanges)
    {
      if updateError == error {
        return;
      }
      updateError := error;
    }

    method SetLastErrorLog(log: string)
      modifies this
      ensures State() == old(State()).(lastErrorLog := log)
      ensures statusChanges == old(statusChanges)
    {
      lastErrorLog := log;
    }

    method SetBackupConfigValidation(valid: bool)
      modifies this
      ensures State() == old(State()).(isBackupConfigValid := valid)
      ensures statusChanges == old(statusChanges)
    {
      isBackupConfigValid := valid;
    }
  }
}

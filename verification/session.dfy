/** The part of the shell's session model (SessionBaseModel) that the shutdown
    agent and the warning screen read and write.  Only the fields those two
    components touch are modelled; the signals the model emits are appended
    to an event log. */
module Session {

  /** Screen mode of the lock/shutdown frame.  Modes the modelled code never
      names (user list, session list, ...) are collapsed into OtherMode. */
  datatype ModeStatus = PasswordMode | PowerMode | ShutDownMode | OtherMode

  /** Which full-screen content is shown. */
  datatype ContentType = LockContent | WarningContent | UpdateContent | OtherContent

  /** A requested power action.  `None` means that no action is pending. */
  datatype PowerAction =
    | None
    | RequireShutdown
    | RequireRestart
    | RequireSuspend
    | RequireHibernate
    | RequireLogout
    | RequireSwitchSystem
    | RequireSwitchUser
    | RequireLock
    | RequireUpdateShutdown
    | RequireUpdateRestart

  /** What to do after an offline update has been installed. */
  datatype UpdatePowerMode = UpmNone | UpmUpdateAndShutdown | UpmUpdateAndReboot

  datatype User = User(uid: int, name: string)

  /** Signals emitted by the session model. */
  datatype SessionSignal =
    | RequirePowerAction(action: PowerAction, needConfirm: bool)
    | ShowUserList

  /** The value of the screen-related fields, for specifications. */
  datatype SessionState = SessionState(
    visible: bool,
    mode: ModeStatus,
    content: ContentType,
    powerAction: PowerAction,
    updatePowerMode: UpdatePowerMode)

  class SessionModel {
    var visible: bool
    var mode: ModeStatus
    var content: ContentType
    var powerAction: PowerAction
    var updatePowerMode: UpdatePowerMode
    var currentUid: int
    var loggedInUsers: seq<User>
    var signals: seq<SessionSignal>

    /** The screen-related fields as one value. */
    function State(): SessionState
      reads this
    {
      SessionState(visible, mode, content, powerAction, updatePowerMode)
    }

    constructor (initial: SessionState, uid: int, users: seq<User>)
      ensures State() == initial && currentUid == uid && loggedInUsers == users
      ensures signals == []
    {
      visible := initial.visible;
      mode := initial.mode;
      content := initial.content;
      powerAction := initial.powerAction;
      updatePowerMode := initial.updatePowerMode;
      currentUid := uid;
      loggedInUsers := users;
      signals := [];
    }
  }
}

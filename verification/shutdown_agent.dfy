/** The D-Bus shutdown agent: remote requests to shut down, restart, suspend,
    log out, ... turned into changes of the session model.  Two guards decide
    every request: while an update is being installed nothing happens, and
    while the screen is locked a remote caller must not be able to dismiss
    the lock screen. */
module ShutdownAgent {
  import opened Session

  /** The agent's remote entry points. */
  datatype RemoteCall =
    | Show
    | Shutdown
    | UpdateAndShutdown
    | Restart
    | UpdateAndReboot
    | Logout
    | Suspend
    | Hibernate
    | SwitchUser
    | Lock

  /** The two entry points that bypass the lock guard. */
  predicate IsUpdateCall(c: RemoteCall)
  {
    c == UpdateAndShutdown || c == UpdateAndReboot
  }

  /** The screen is showing and is not the shutdown screen: it is the lock
      screen, which remote calls must not dismiss. */
  predicate Locked(s: SessionState)
  {
    s.visible && s.mode != ShutDownMode
  }

  /** The update screen is showing. */
  predicate Updating(s: SessionState)
  {
    s.content == UpdateContent
  }

  /** The new screen state and the signals emitted by one request. */
  datatype Reaction = Reaction(after: SessionState, emitted: seq<SessionSignal>)

  function ShowShutdownScreen(s: SessionState): SessionState
  {
    s.(mode := ShutDownMode, visible := true)
  }

  /** The reaction of the agent to one remote call. */
  function Dispatch(s: SessionState, c: RemoteCall): (r: Reaction)
    // during an update every request is ignored
    ensures Updating(s) ==> r == Reaction(s, [])
    // the content type is never changed by the agent
    ensures r.after.content == s.content
    // the screen is never hidden
    ensures s.visible ==> r.after.visible
    // a locked screen stays locked, in the same mode, unless an update call is made
    ensures Locked(s) && !IsUpdateCall(c) ==> r.after.visible && r.after.mode == s.mode
    // only the update calls touch the update power mode, and they always show the shutdown screen
    ensures r.after.updatePowerMode != s.updatePowerMode ==> IsUpdateCall(c)
    ensures IsUpdateCall(c) && !Updating(s) ==>
              r.after.visible && r.after.mode == ShutDownMode && r.emitted == []
    // a power action requested remotely needs confirmation exactly when the screen was not locked
    ensures forall i :: 0 <= i < |r.emitted| && r.emitted[i].RequirePowerAction? ==>
              r.emitted[i].needConfirm == !Locked(s)
    ensures |r.emitted| <= 1
  {
    if Updating(s) then Reaction(s, [])
    else
      match c
      case Show =>
        if Locked(s) then Reaction(s, []) else Reaction(ShowShutdownScreen(s), [])
      case Shutdown =>
        if Locked(s) then Reaction(s, [RequirePowerAction(RequireShutdown, false)])
        else Reaction(ShowShutdownScreen(s), [RequirePowerAction(RequireShutdown, true)])
      case UpdateAndShutdown =>
        Reaction(ShowShutdownScreen(s.(updatePowerMode := UpmUpdateAndShutdown)), [])
      case Restart =>
        if Locked(s) then Reaction(s, [RequirePowerAction(RequireRestart, false)])
        else Reaction(ShowShutdownScreen(s), [RequirePowerAction(RequireRestart, true)])
      case UpdateAndReboot =>
        Reaction(ShowShutdownScreen(s.(updatePowerMode := UpmUpdateAndReboot)), [])
      case Logout =>
        if Locked(s) then Reaction(s, [])
        else Reaction(ShowShutdownScreen(s), [RequirePowerAction(RequireLogout, true)])
      case Suspend =>
        if Locked(s) then Reaction(s.(powerAction := RequireSuspend), [])
        else Reaction(ShowShutdownScreen(s), [RequirePowerAction(RequireSuspend, true)])
      case Hibernate =>
        if Locked(s) then Reaction(s.(powerAction := RequireHibernate), [])
        else Reaction(ShowShutdownScreen(s), [RequirePowerAction(RequireHibernate, true)])
      case SwitchUser =>
        if Locked(s) then Reaction(s, []) else Reaction(s, [ShowUserList])
      case Lock =>
        if Locked(s) then Reaction(s, [])
        else Reaction(ShowShutdownScreen(s).(powerAction := RequireLock), [])
  }

  /** The effect of a series of remote calls, one after the other. */
  function Run(s: SessionState, calls: seq<RemoteCall>): (r: Reaction)
    // each call emits at most one signal, and the content type is never changed
    ensures |r.emitted| <= |calls|
    ensures r.after.content == s.content
    decreases |calls|
  {
    if calls == [] then Reaction(s, [])
    else
      var first := Dispatch(s, calls[0]);
      var rest := Run(first.after, calls[1..]);
      Reaction(rest.after, first.emitted + rest.emitted)
  }

  /** No series of remote calls without an update call dismisses a locked
      screen or leaves its mode; every power action they request is
      requested without confirmation, and none of them opens the user list. */
  lemma {:induction false} LockedStaysLocked(s: SessionState, calls: seq<RemoteCall>)
    requires Locked(s)
    requires forall i :: 0 <= i < |calls| ==> !IsUpdateCall(calls[i])
    ensures Locked(Run(s, calls).after) && Run(s, calls).after.mode == s.mode
    ensures forall i :: 0 <= i < |Run(s, calls).emitted| ==>
              Run(s, calls).emitted[i] != ShowUserList && !Run(s, calls).emitted[i].needConfirm
    decreases |calls|
  {
    if calls != [] {
      var first := Dispatch(s, calls[0]);
      LockedStaysLocked(first.after, calls[1..]);
    }
  }

  /** No series of remote calls ever hides a visible screen. */
  lemma {:induction false} VisibleNeverCleared(s: SessionState, calls: seq<RemoteCall>)
    requires s.visible
    ensures Run(s, calls).after.visible
    decreases |calls|
  {
    if calls != [] {
      VisibleNeverCleared(Dispatch(s, calls[0]).after, calls[1..]);
    }
  }

  /** While the update screen is showing, a series of remote calls changes
      nothing and emits nothing. */
  lemma {:induction false} UpdatingIgnoresAll(s: SessionState, calls: seq<RemoteCall>)
    requires Updating(s)
    ensures Run(s, calls) == Reaction(s, [])
  {
    if calls != [] {
      UpdatingIgnoresAll(s, calls[1..]);
    }
  }

  /** The two update calls are served from the lock screen, and they leave
      it: afterwards the screen is the shutdown screen, so a logout is
      served as on an unlocked screen. */
  lemma UpdateCallLiftsGuard(s: SessionState)
    requires Locked(s) && !Updating(s)
    ensures !Locked(Dispatch(s, UpdateAndShutdown).after) && !Locked(Dispatch(s, UpdateAndReboot).after)
    ensures Dispatch(Dispatch(s, UpdateAndShutdown).after, Logout).emitted == [RequirePowerAction(RequireLogout, true)]
  {
  }

  /** The agent, bound to the session model it drives. */
  class DBusShutdownAgent {
    var model: SessionModel?

    constructor ()
      ensures model == null
    {
      model := null;
    }

    method SetModel(m: SessionModel)
      modifies this
      ensures model == m
    {
      model := m;
    }

    /** The model answered call `c` as Dispatch says, and nothing else of it changed. */
    twostate predicate Answered(m: SessionModel, c: RemoteCall)
      reads m
    {
      var r := Dispatch(old(m.State()), c);
      && m.State() == r.after
      && m.signals == old(m.signals) + r.emitted
      && m.currentUid == old(m.currentUid)
      && m.loggedInUsers == old(m.loggedInUsers)
    }

    /** The shutdown screen may be shown: the screen is not locked. */
    method CanShowShutDown() returns (r: bool)
      requires model != null
      ensures r <==> !Locked(model.State())
    {
      r := !(model.visible && model.mode != ShutDownMode);
    }

    /** Remote requests are refused while the update screen is showing. */
    method IsUpdating() returns (r: bool)
      requires model != null
      ensures r <==> Updating(model.State())
    {
      r := model.content == UpdateContent;
    }

    /** The power or shutdown screen is on display; a visible screen in any
        other mode is the lock screen. */
    method Visible() returns (r: bool)
      requires model != null
      ensures r <==> model.visible && (model.mode == PowerMode || model.mode == ShutDownMode)
      ensures model.visible && !r ==> Locked(model.State())
    {
      r := model.visible && (model.mode == PowerMode || model.mode == ShutDownMode);
    }

    method Show()
      requires model != null
      modifies model
      ensures Answered(model, RemoteCall.Show)
    {
      var updating := IsUpdating();
      var canShow := CanShowShutDown();
      if updating || !canShow {
        return;
      }
      model.mode := ShutDownMode;
      model.visible := true;
    }

    method Shutdown()
      requires model != null
      modifies model
      ensures Answered(model, RemoteCall.Shutdown)
    {
      var updating := IsUpdating();
      if updating {
        return;
      }
      var canShow := CanShowShutDown();
      if !canShow {
        // shutting down is allowed from the lock screen
        model.signals := model.signals + [RequirePowerAction(RequireShutdown, false)];
      } else {
        model.mode := ShutDownMode;
        model.visible := true;
        model.signals := model.signals + [RequirePowerAction(RequireShutdown, true)];
      }
    }

    method UpdateAndShutdown()
      requires model != null
      modifies model
      ensures Answered(model, RemoteCall.UpdateAndShutdown)
    {
      var updating := IsUpdating();
      if updating {
        return;
      }
      model.updatePowerMode := UpmUpdateAndShutdown;
      model.mode := ShutDownMode;
      model.visible := true;
    }

    method Restart()
      requires model != null
      modifies model
      ensures Answered(model, RemoteCall.Restart)
    {
      var updating := IsUpdating();
      if updating {
        return;
      }
      var canShow := CanShowShutDown();
      if !canShow {
        // restarting is allowed from the lock screen
        model.signals := model.signals + [RequirePowerAction(RequireRestart, false)];
      } else {
        model.mode := ShutDownMode;
        model.visible := true;
        model.signals := model.signals + [RequirePowerAction(RequireRestart, true)];
      }
    }

    method UpdateAndReboot()
      requires model != null
      modifies model
      ensures Answered(model, RemoteCall.UpdateAndReboot)
    {
      var updating := IsUpdating();
      if updating {
        return;
      }
      model.updatePowerMode := UpmUpdateAndReboot;
      model.mode := ShutDownMode;
      model.visible := true;
    }

    method Logout()
      requires model != null
      modifies model
      ensures Answered(model, RemoteCall.Logout)
    {
      var updating := IsUpdating();
      var canShow := CanShowShutDown();
      if updating || !canShow {
        return;
      }
      model.mode := ShutDownMode;
      model.visible := true;
      model.signals := model.signals + [RequirePowerAction(RequireLogout, true)];
    }

    method Suspend()
      requires model != null
      modifies model
      ensures Answered(model, RemoteCall.Suspend)
    {
      var updating := IsUpdating();
      if updating {
        return;
      }
      var canShow := CanShowShutDown();
      if !canShow {
        // suspending is allowed from the lock screen
        model.powerAction := RequireSuspend;
      } else {
        model.mode := ShutDownMode;
        model.visible := true;
        model.signals := model.signals + [RequirePowerAction(RequireSuspend, true)];
      }
    }

    method Hibernate()
      requires model != null
      modifies model
      ensures Answered(model, RemoteCall.Hibernate)
    {
      var updating := IsUpdating();
      if updating {
        return;
      }
      var canShow := CanShowShutDown();
      if !canShow {
        // hibernating is allowed from the lock screen
        model.powerAction := RequireHibernate;
      } else {
        model.mode := ShutDownMode;
        model.visible := true;
        model.signals := model.signals + [RequirePowerAction(RequireHibernate, true)];
      }
    }

    method SwitchUser()
      requires model != null
      modifies model
      ensures Answered(model, RemoteCall.SwitchUser)
    {
      var updating := IsUpdating();
      var canShow := CanShowShutDown();
      if updating || !canShow {
        return;
      }
      model.signals := model.signals + [ShowUserList];
    }

    method Lock()
      requires model != null
      modifies model
      ensures Answered(model, RemoteCall.Lock)
    {
      var updating := IsUpdating();
      var canShow := CanShowShutDown();
      if updating || !canShow {
        return;
      }
      model.mode := ShutDownMode;
      model.visible := true;
      model.powerAction := RequireLock;
    }
  }
}

/** The warning screen shown before a power action: which dialog it puts up
    (inhibiting programs, other logged-in users, a plain confirmation, or
    none), what cancelling and accepting do to the session model, and the
    bounded retry of the keyboard grab. */
module Warning {
  import opened Common
  import opened Session
  import opened Inhibitors

  /** The dialog in the centre of the warning screen. */
  datatype WarningView =
    | NoView
    | InhibitView(action: PowerAction, inhibitors: seq<InhibitorData>, acceptVisible: bool)
    | MultiUsersView(action: PowerAction, users: seq<User>)
    | ConfirmView(action: PowerAction)

  /** What happens before a power action is carried out: a dialog is
      presented, the request is dropped, or the action is accepted at once. */
  datatype Decision = Present(view: WarningView) | Abandon | AcceptNow

  /** Some listed inhibitor blocks (rather than delays) the action. */
  predicate IsBlock(inhibitors: seq<InhibitorData>)
  {
    exists i :: 0 <= i < |inhibitors| && inhibitors[i].mode == "block"
  }

  /** Actions for which the inhibitor dialog has a message. */
  predicate HasInhibitMessage(action: PowerAction)
  {
    action in {RequireShutdown, RequireUpdateShutdown, RequireSwitchSystem, RequireRestart,
               RequireUpdateRestart, RequireSuspend, RequireHibernate, RequireLogout}
  }

  /** Actions that end the other users' sessions too. */
  predicate MultiUserAction(action: PowerAction)
  {
    action in {RequireShutdown, RequireRestart, RequireUpdateShutdown, RequireUpdateRestart}
  }

  /** Actions that ask for a plain confirmation when one is requested. */
  predicate ConfirmAction(action: PowerAction)
  {
    action in {RequireShutdown, RequireRestart, RequireLogout}
  }

  /** Actions whose acceptance closes the programs, after which the main page
      can no longer be returned to. */
  predicate ClosesPrograms(action: PowerAction)
  {
    action in {RequireShutdown, RequireUpdateShutdown, RequireRestart, RequireUpdateRestart, RequireLogout}
  }

  function NotCurrentUser(uid: int): User -> bool
  {
    (u: User) => u.uid != uid
  }

  /** The logged-in users other than `uid`, in order. */
  function OtherUsers(users: seq<User>, uid: int): seq<User>
  {
    if users == [] then []
    else
      var last := users[|users| - 1];
      OtherUsers(users[..|users| - 1], uid) + (if last.uid == uid then [] else [last])
  }

  /** Dropping the current user is filtering the list by uid. */
  lemma {:induction false} OtherUsersIsFilter(users: seq<User>, uid: int)
    ensures OtherUsers(users, uid) == Filter(users, NotCurrentUser(uid))
  {
    if users != [] {
      var init, last := users[..|users| - 1], users[|users| - 1];
      assert users == init + [last];
      OtherUsersIsFilter(init, uid);
      FilterSnoc(init, last, NotCurrentUser(uid));
    }
  }

  /** The dialog chosen before `action`, by priority: inhibitors, then other
      logged-in users, then a confirmation, else accept at once. */
  function ChooseView(inhibitors: seq<InhibitorData>, users: seq<User>, uid: int,
                      action: PowerAction, needConfirm: bool): (d: Decision)
    ensures d.Present? ==> d.view != NoView && d.view.action == action
    // 1. inhibitors first: the inhibitor dialog exists for every action that has a lock type
    ensures (d.Present? && d.view.InhibitView?) <==> inhibitors != [] && InhibitType(action).Some?
    ensures d.Abandon? <==> inhibitors != [] && InhibitType(action).None?
    ensures d.Present? && d.view.InhibitView? ==>
              d.view.inhibitors == inhibitors &&
              (d.view.acceptVisible <==> forall i :: 0 <= i < |inhibitors| ==> inhibitors[i].mode != "block")
    // 2. then the other logged-in users, the current user left out
    ensures (d.Present? && d.view.MultiUsersView?) <==>
              inhibitors == [] && |users| > 1 && MultiUserAction(action)
    ensures d.Present? && d.view.MultiUsersView? ==>
              forall u :: u in d.view.users <==> u in users && u.uid != uid
    // 3. then a plain confirmation
    ensures (d.Present? && d.view.ConfirmView?) <==>
              inhibitors == [] && !(|users| > 1 && MultiUserAction(action)) &&
              needConfirm && ConfirmAction(action)
    // 4. otherwise the action is accepted at once
    ensures d.AcceptNow? <==>
              inhibitors == [] && !(|users| > 1 && MultiUserAction(action)) &&
              !(needConfirm && ConfirmAction(action))
  {
    if inhibitors != [] then
      if HasInhibitMessage(action) then Present(InhibitView(action, inhibitors, !IsBlock(inhibitors)))
      else Abandon
    else if |users| > 1 && MultiUserAction(action) then
      OtherUsersIsFilter(users, uid);
      Present(MultiUsersView(action, OtherUsers(users, uid)))
    else if needConfirm && ConfirmAction(action) then
      Present(ConfirmView(action))
    else
      AcceptNow
  }

  /** The list login1 gives is never one that makes the screen drop the request. */
  lemma ListedNeverAbandoned(reply: Login1Reply, users: seq<User>, uid: int,
                             action: PowerAction, needConfirm: bool)
    ensures ChooseView(ListedInhibitors(reply, action, uid), users, uid, action, needConfirm) != Abandon
  {
  }

  /** Number of failed keyboard grabs after which the screen gives up. */
  const MaxGrabFailures: nat := 15

  /** How the grab went on each display server: on X11 whether the window
      got the keyboard; on Wayland whether KWin answered and reported that
      an XWayland client holds a grab. */
  datatype GrabEnvironment = X11(grabSucceeded: bool) | Wayland(kwinValid: bool, xwaylandGrabbed: bool)

  predicate GrabFailed(env: GrabEnvironment)
  {
    match env
    case X11(ok) => !ok
    case Wayland(valid, grabbed) => valid && grabbed
  }

  /** The failure counter after one attempt, whether another attempt is
      scheduled, and whether hiding the lock frame is requested. */
  datatype GrabStep = GrabStep(failures: nat, retry: bool, hideRequested: bool)

  function GrabAttempt(failures: nat, failed: bool, exitIfFailed: bool): (r: GrabStep)
    requires failures < MaxGrabFailures
    ensures r.failures < MaxGrabFailures
    ensures !failed ==> r == GrabStep(0, false, false)
    ensures r.retry <==> failed && failures + 1 < MaxGrabFailures
    ensures r.retry ==> r.failures == failures + 1
    ensures !r.retry ==> r.failures == 0
    ensures r.hideRequested <==> failed && failures + 1 == MaxGrabFailures && exitIfFailed
  {
    if !failed then GrabStep(0, false, false)
    else if failures + 1 == MaxGrabFailures then GrabStep(0, false, exitIfFailed)
    else GrabStep(failures + 1, true, false)
  }

  /** The outcome of a chain of attempts, each scheduled by the one before. */
  datatype GrabChainResult = GrabChainResult(attempts: nat, hideRequested: bool, failures: nat)

  /** A chain of attempts started with the counter at `failures`; attempt k
      fails when `outcomes[k]` is true.  The chain ends when an attempt
      schedules no retry, or when the outcomes run out. */
  function GrabChain(failures: nat, outcomes: seq<bool>, exitIfFailed: bool): GrabChainResult
    requires failures < MaxGrabFailures
    decreases |outcomes|
  {
    if outcomes == [] then GrabChainResult(0, false, failures)
    else
      var step := GrabAttempt(failures, outcomes[0], exitIfFailed);
      if step.retry then
        var rest := GrabChain(step.failures, outcomes[1..], exitIfFailed);
        GrabChainResult(1 + rest.attempts, rest.hideRequested, rest.failures)
      else
        GrabChainResult(1, step.hideRequested, step.failures)
  }

  /** A chain never makes more than 15 attempts, fewer when failures are
      already counted, and hiding is requested only when asked for. */
  lemma {:induction false} GrabRetriesBounded(failures: nat, outcomes: seq<bool>, exitIfFailed: bool)
    requires failures < MaxGrabFailures
    ensures GrabChain(failures, outcomes, exitIfFailed).attempts <= MaxGrabFailures - failures
    ensures GrabChain(failures, outcomes, exitIfFailed).failures < MaxGrabFailures
    ensures GrabChain(failures, outcomes, exitIfFailed).hideRequested ==> exitIfFailed
    decreases |outcomes|
  {
    if outcomes != [] {
      var step := GrabAttempt(failures, outcomes[0], exitIfFailed);
      if step.retry {
        GrabRetriesBounded(step.failures, outcomes[1..], exitIfFailed);
      }
    }
  }

  /** When every attempt fails, the chain stops after exactly 15 - failures
      attempts with the counter reset, and requests hiding the lock frame
      exactly when exitIfFailed is set. */
  lemma {:induction false} GrabGivesUp(failures: nat, outcomes: seq<bool>, exitIfFailed: bool)
    requires failures < MaxGrabFailures
    requires |outcomes| >= MaxGrabFailures - failures
    requires forall k :: 0 <= k < |outcomes| ==> outcomes[k]
    ensures GrabChain(failures, outcomes, exitIfFailed) == GrabChainResult(MaxGrabFailures - failures, exitIfFailed, 0)
    decreases |outcomes|
  {
    var step := GrabAttempt(failures, outcomes[0], exitIfFailed);
    if step.retry {
      GrabGivesUp(step.failures, outcomes[1..], exitIfFailed);
    }
  }

  /** One step of erasing: the list is the users kept among the first `k`
      followed by the rest, and the next entry is erased or passed over. */
  lemma DropStep(loginUsers: seq<User>, uid: int, k: int, others: seq<User>)
    requires 0 <= k < |loginUsers|
    requires others == OtherUsers(loginUsers[..k], uid) + loginUsers[k..]
    ensures var i := |OtherUsers(loginUsers[..k], uid)|;
            && i < |others| && others[i] == loginUsers[k]
            && (others[i].uid == uid ==>
                  others[..i] + others[i + 1..] == OtherUsers(loginUsers[..k + 1], uid) + loginUsers[k + 1..]
                  && |OtherUsers(loginUsers[..k + 1], uid)| == i)
            && (others[i].uid != uid ==>
                  others == OtherUsers(loginUsers[..k + 1], uid) + loginUsers[k + 1..]
                  && |OtherUsers(loginUsers[..k + 1], uid)| == i + 1)
  {
    var done := OtherUsers(loginUsers[..k], uid);
    var i := |done|;
    assert loginUsers[..k + 1][..k] == loginUsers[..k];
    assert others[i] == loginUsers[k] && others[i + 1..] == loginUsers[k + 1..];
    assert others[..i] == done;
    if others[i].uid != uid {
      assert others == done + [loginUsers[k]] + loginUsers[k + 1..];
    }
  }

  /** Erases the entries of user `uid` from a copy of the list of
      logged-in users. */
  method DropUser(loginUsers: seq<User>, uid: int) returns (others: seq<User>)
    ensures others == OtherUsers(loginUsers, uid)
  {
    others := loginUsers;
    var i := 0;
    ghost var k := 0;
    while i < |others|
      invariant 0 <= k <= |loginUsers| && i == |OtherUsers(loginUsers[..k], uid)|
      invariant others == OtherUsers(loginUsers[..k], uid) + loginUsers[k..]
      decreases |loginUsers| - k
    {
      DropStep(loginUsers, uid, k, others);
      if others[i].uid == uid {
        others := others[..i] + others[i + 1..];
        k := k + 1;
        continue;
      }
      i := i + 1;
      k := k + 1;
    }
    assert loginUsers[..k] == loginUsers;
  }

  /** Whether one inhibitor is listed before `action`, and the data shown
      for it. */
  method InhibitorEntry(inhibitor: Inhibit, action: PowerAction, lockType: string, uid: int)
    returns (shown: bool, data: InhibitorData)
    ensures shown == Blocks(inhibitor, action, lockType, uid)
    ensures shown ==> data == ToData(inhibitor)
  {
    shown := false;
    data := InhibitorData(inhibitor.who, inhibitor.why, inhibitor.mode, inhibitor.pid, "");
    if !(lockType in SplitFields(inhibitor.what) && inhibitor.who !in Blacklist) {
      return;
    }
    if lockType == "sleep" && inhibitor.mode != "block" {
      return;
    }
    if action == RequireLogout && inhibitor.uid != uid {
      return;
    }
    match inhibitor.hint {
      case Some(hint) =>
        if hint.why != "" {
          data := data.(who := hint.name, why := hint.why, icon := hint.icon);
        }
      case None =>
    }
    shown := true;
  }

  /** The warning screen.  `hideRequests` counts the requests to hide the
      lock frame it has emitted. */
  class WarningContent {
    var model: SessionModel?
    var powerAction: PowerAction
    var failures: nat
    var canReturnMainPage: bool
    var view: WarningView
    var hideRequests: nat

    predicate Valid()
      reads this
    {
      failures < MaxGrabFailures
    }

    constructor ()
      ensures Valid()
      ensures model == null && powerAction == PowerAction.None && failures == 0
      ensures canReturnMainPage && view == NoView && hideRequests == 0
    {
      model := null;
      powerAction := PowerAction.None;
      failures := 0;
      canReturnMainPage := true;
      view := NoView;
      hideRequests := 0;
    }

    method SetModel(m: SessionModel)
      modifies this
      ensures model == m
      ensures powerAction == old(powerAction) && failures == old(failures)
      ensures canReturnMainPage == old(canReturnMainPage) && view == old(view)
      ensures hideRequests == old(hideRequests)
    {
      model := m;
    }

    /** The inhibitors to show before `action`, from login1's reply. */
    method ListInhibitors(action: PowerAction, reply: Login1Reply) returns (list: seq<InhibitorData>)
      requires model != null
      ensures list == ListedInhibitors(reply, action, model.currentUid)
    {
      list := [];
      if !reply.Reply? {
        // login1 unreachable, or its reply was an error
        return;
      }
      var lockType: string;
      match InhibitType(action) {
        case None =>
          return;
        case Some(t) =>
          lockType := t;
      }
      var inhibits := reply.inhibitors;
      var uid := model.currentUid;
      var i := 0;
      while i < |inhibits|
        invariant 0 <= i <= |inhibits|
        invariant list == Collect(inhibits[..i], action, lockType, uid)
      {
        CollectStep(inhibits, i, action, lockType, uid);
        var shown, data := InhibitorEntry(inhibits[i], action, lockType, uid);
        if shown {
          list := list + [data];
        }
        i := i + 1;
      }
      assert inhibits[..i] == inhibits;
    }

    /** Cancel: back to the lock screen, unless the programs are already
        being closed.  Leaving the shutdown screen hides it; cancelling from
        the lock screen's power button never hides the lock screen. */
    method DoCancelShutdownInhibit()
      requires model != null
      modifies model
      ensures !canReturnMainPage ==> model.State() == old(model.State())
      ensures canReturnMainPage ==>
                && model.powerAction == PowerAction.None
                && model.content == LockContent
                && (old(model.mode) == ShutDownMode ==> !model.visible && model.mode == PasswordMode)
                && (old(model.mode) != ShutDownMode ==> model.visible == old(model.visible) && model.mode == old(model.mode))
      ensures model.updatePowerMode == old(model.updatePowerMode)
      ensures model.currentUid == old(model.currentUid) && model.loggedInUsers == old(model.loggedInUsers)
      ensures model.signals == old(model.signals)
    {
      if !canReturnMainPage {
        return;
      }
      model.powerAction := PowerAction.None;
      model.content := LockContent;
      if model.mode == ShutDownMode {
        model.visible := false;
        model.mode := PasswordMode;
      }
    }

    /** The effect of accepting the pending action on this screen and the
        model: `waiting` says that the accept came from an inhibitor dialog
        that waits for its programs to close. */
    twostate predicate Accepted(m: SessionModel, waiting: bool)
      reads this, m
    {
      && powerAction == old(powerAction)
      && canReturnMainPage == (old(canReturnMainPage) && !(waiting && ClosesPrograms(powerAction)))
      && failures == old(failures) && hideRequests == old(hideRequests)
      && m.powerAction == powerAction
      && m.content == (if old(m.mode) != ShutDownMode && powerAction != RequireUpdateShutdown
                          && powerAction != RequireUpdateRestart
                       then LockContent else old(m.content))
      && m.visible == old(m.visible) && m.mode == old(m.mode)
      && m.updatePowerMode == old(m.updatePowerMode)
      && m.currentUid == old(m.currentUid) && m.loggedInUsers == old(m.loggedInUsers)
      && m.signals == old(m.signals)
    }

    /** Accept: hand the action to the model; closing programs latches the
        screen so that it can no longer be cancelled. */
    method DoAcceptShutdownInhibit(waiting: bool)
      requires model != null
      modifies this, model
      ensures model == old(model) && view == old(view)
      ensures Accepted(model, waiting)
    {
      if waiting {
        match powerAction {
          case RequireShutdown =>
            canReturnMainPage := false;
          case RequireUpdateShutdown =>
            canReturnMainPage := false;
          case RequireRestart =>
            canReturnMainPage := false;
          case RequireUpdateRestart =>
            canReturnMainPage := false;
          case RequireLogout =>
            canReturnMainPage := false;
          case _ =>
        }
      }
      model.powerAction := powerAction;
      if model.mode != ShutDownMode && powerAction != RequireUpdateShutdown
         && powerAction != RequireUpdateRestart {
        model.content := LockContent;
      }
    }

    /** Put up the dialog ChooseView selects, or accept at once. */
    method BeforeInvokeAction(needConfirm: bool, reply: Login1Reply)
      requires model != null
      modifies this, model
      ensures model == old(model)
      ensures
        var d := old(ChooseView(ListedInhibitors(reply, powerAction, model.currentUid),
                                model.loggedInUsers, model.currentUid, powerAction, needConfirm));
        match d
        case Present(v) =>
          view == v && model.State() == old(model.State()) && canReturnMainPage == old(canReturnMainPage)
          && powerAction == old(powerAction)
        case Abandon =>
          view == NoView && model.State() == old(model.State()) && canReturnMainPage == old(canReturnMainPage)
          && powerAction == old(powerAction)
        case AcceptNow =>
          view == NoView && Accepted(model, false)
      ensures failures == old(failures) && hideRequests == old(hideRequests)
      ensures model.signals == old(model.signals) && model.currentUid == old(model.currentUid)
      ensures model.loggedInUsers == old(model.loggedInUsers)
    {
      var inhibitors := ListInhibitors(powerAction, reply);
      var loginUsers := model.loggedInUsers;
      var uid := model.currentUid;
      view := NoView;

      if inhibitors != [] {
        if !HasInhibitMessage(powerAction) {
          return;
        }
        view := InhibitView(powerAction, inhibitors, !IsBlock(inhibitors));
        return;
      }

      if |loginUsers| > 1 && MultiUserAction(powerAction) {
        var others := DropUser(loginUsers, uid);
        view := MultiUsersView(powerAction, others);
        return;
      }

      if needConfirm && ConfirmAction(powerAction) {
        view := ConfirmView(powerAction);
        return;
      }

      DoAcceptShutdownInhibit(false);
    }

    /** One attempt to grab the keyboard; `retry` tells whether another
        attempt is scheduled. */
    method TryGrabKeyboard(exitIfFailed: bool, windowVisible: bool, env: GrabEnvironment)
      returns (retry: bool)
      requires Valid()
      modifies this
      ensures Valid()
      ensures !windowVisible ==> !retry && failures == old(failures) && hideRequests == old(hideRequests)
      ensures windowVisible ==>
                var step := GrabAttempt(old(failures), GrabFailed(env), exitIfFailed);
                && failures == step.failures && retry == step.retry
                && hideRequests == old(hideRequests) + (if step.hideRequested then 1 else 0)
      ensures model == old(model) && powerAction == old(powerAction)
      ensures canReturnMainPage == old(canReturnMainPage) && view == old(view)
    {
      retry := false;
      if !windowVisible {
        return;
      }
      match env {
        case Wayland(kwinValid, grabbed) =>
          if !kwinValid || !grabbed {
            failures := 0;
            return;
          }
        case X11(ok) =>
          if ok {
            failures := 0;
            return;
          }
      }
      failures := failures + 1;
      if failures == MaxGrabFailures {
        failures := 0;
        if !exitIfFailed {
          return;
        }
        hideRequests := hideRequests + 1;
        return;
      }
      retry := true;
    }

    /** Remember the action to carry out; setting the same action again
        changes nothing. */
    method SetPowerAction(action: PowerAction)
      modifies this
      ensures powerAction == action
      ensures old(powerAction) == action ==> unchanged(this)
      ensures model == old(model) && failures == old(failures)
      ensures canReturnMainPage == old(canReturnMainPage) && view == old(view)
      ensures hideRequests == old(hideRequests)
    {
      if powerAction == action {
        return;
      }
      powerAction := action;
    }

    /** A power action was requested: show the warning screen and decide. */
    method ShutdownInhibit(action: PowerAction, needConfirm: bool, reply: Login1Reply)
      requires model != null
      modifies this, model
      ensures model == old(model) && powerAction == action
      ensures
        var d := old(ChooseView(ListedInhibitors(reply, action, model.currentUid),
                                model.loggedInUsers, model.currentUid, action, needConfirm));
        match d
        case Present(v) =>
          view == v && model.content == WarningContent && model.powerAction == old(model.powerAction)
        case Abandon =>
          view == NoView && model.content == WarningContent && model.powerAction == old(model.powerAction)
        case AcceptNow =>
          && view == NoView && model.powerAction == action
          && model.content == (if old(model.mode) != ShutDownMode && action != RequireUpdateShutdown
                                  && action != RequireUpdateRestart
                               then LockContent else WarningContent)
      ensures model.visible == old(model.visible) && model.mode == old(model.mode)
      ensures model.updatePowerMode == old(model.updatePowerMode) && model.signals == old(model.signals)
      ensures model.currentUid == old(model.currentUid) && model.loggedInUsers == old(model.loggedInUsers)
      ensures canReturnMainPage == old(canReturnMainPage)
      ensures failures == old(failures) && hideRequests == old(hideRequests)
    {
      SetPowerAction(action);
      model.content := WarningContent;
      BeforeInvokeAction(needConfirm, reply);
    }
  }
}

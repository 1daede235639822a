# dde-session-shell: the decision rules under the lock screen, in Dafny

This project models the core rules of the Deepin session shell (the greeter
and lock screen). These rules sit under the user interface:

- **The D-Bus shutdown agent.** It turns remote requests (shut down, restart,
  suspend, hibernate, log out, switch user, lock, show) into changes of the
  session model. It is guarded by two checks:
  - while the update screen is showing, every request is ignored;
  - while the lock screen is showing, no remote call except the two update
    calls may dismiss it.
- **The warning screen shown before a power action.** It covers:
  - which login1 inhibitors are listed;
  - which dialog is put up (inhibitors, then other logged-in users, then a
    plain confirmation, else accept at once);
  - what cancel and accept do to the session model, including the latch that
    forbids returning once programs are being closed;
  - the bounded retry of the keyboard grab.
- **The plugin manager.** It is a registry of login and tray plugins keyed by
  plugin key, with insertion, removal and typed queries. It also selects and
  orders the login plugins shown.
- **The modules loader.** It scans the module directory and applies its
  ordered checks to each library, then registers the modules that pass.
- **The update model.** Its setters notify only on real changes, and it holds
  the fixed tables of error messages and action labels.
- **The button box.** It rebuilds a segmented button group and rounds its
  outer corners. This includes the Wayland greeter case, where the
  second-to-last button is rounded. It also covers where a button draws its
  icon.

## Modelling choices

- **Session model.** The session model (SessionBaseModel) is a class with the
  fields those components touch: visibility, screen mode, content type,
  pending power action, update power mode, current uid and the logged-in
  users. The signals it emits are appended to an event log.
- **Shutdown agent.** Each remote call is a method of
  `ShutdownAgent.DBusShutdownAgent`. Each method is proved against the pure
  reaction function `Dispatch`. Lemmas about `Run`, which is `Dispatch` over
  a series of calls, state the security invariant over any sequence of
  requests.
- **External services as inputs.** The answers of external services are
  inputs:
  - the login1 `ListInhibitors` reply, including an invalid interface or an
    error reply;
  - each application's InhibitHint answer;
  - KWin's grab report and the X11 grab result;
  - the configuration values;
  - what loading each library reveals;
  - the `checkVersion` predicate, which is an uninterpreted parameter.
- **Plugin map.** The plugin map (a `QMap`) is a sequence sorted strictly by
  key. Its order is the order in which the map is iterated, so "the first
  plugin of a type" and "the remaining plugins in key order" are stated
  exactly.
- **Translated texts.** Translated texts are their untranslated source text.
- **C++ division.** C++ integer division, which truncates toward zero, is
  written out by `Buttons.Half`.

## Model

| member | source | states |
|---|---|---|
| ShutdownAgent.Dispatch | src/dde-lock/dbus/dbusshutdownagent.cpp:20-144 | During an update a call changes nothing and emits nothing. The content type never changes and a visible screen is never hidden. A locked screen stays visible and in its mode unless an update call is made. Only the two update calls change the update power mode, and they always show the shutdown screen. A power action requested remotely needs confirmation exactly when the screen was not locked. At most one signal is emitted. |
| ShutdownAgent.Run | src/dde-lock/dbus/dbusshutdownagent.cpp:20-144 | A series of calls emits at most one signal per call and never changes the content type. |
| ShutdownAgent.UpdateCallLiftsGuard | src/dde-lock/dbus/dbusshutdownagent.cpp:45-54 | From the locked screen, either update call leaves lock mode; a following logout is then requested with confirmation. |
| ShutdownAgent.LockedStaysLocked | src/dde-lock/dbus/dbusshutdownagent.cpp:146-152 | No series of remote calls without an update call unlocks a locked screen or changes its mode. Every power action such a series requests needs no confirmation, and none opens the user list. |
| ShutdownAgent.VisibleNeverCleared | src/dde-lock/dbus/dbusshutdownagent.cpp:20-144 | No series of remote calls hides a visible screen. |
| ShutdownAgent.UpdatingIgnoresAll | src/dde-lock/dbus/dbusshutdownagent.cpp:157-161 | While the update screen is showing, any series of calls leaves the state unchanged and emits nothing. |
| ShutdownAgent.DBusShutdownAgent.constructor | src/dde-lock/dbus/dbusshutdownagent.cpp:8-13 | The agent starts without a model. |
| ShutdownAgent.DBusShutdownAgent.SetModel | src/dde-lock/dbus/dbusshutdownagent.cpp:15-18 | Binds the model. |
| ShutdownAgent.DBusShutdownAgent.CanShowShutDown | src/dde-lock/dbus/dbusshutdownagent.cpp:146-152 | True exactly when the screen is not visible, or is in shutdown mode. |
| ShutdownAgent.DBusShutdownAgent.IsUpdating | src/dde-lock/dbus/dbusshutdownagent.cpp:157-161 | True exactly when the update content is showing. |
| ShutdownAgent.DBusShutdownAgent.Visible | src/dde-lock/dbus/dbusshutdownagent.cpp:163-166 | True exactly when the screen is visible in power or shutdown mode. Any other visible screen is the lock screen. |
| ShutdownAgent.DBusShutdownAgent.Show | src/dde-lock/dbus/dbusshutdownagent.cpp:20-27 | The model's new state and signals are those `Dispatch` gives for Show. Nothing else of the model changes. |
| ShutdownAgent.DBusShutdownAgent.Shutdown | src/dde-lock/dbus/dbusshutdownagent.cpp:29-43 | The same as Show, for Shutdown. When locked, it only requests the shutdown without confirmation. Otherwise it shows the shutdown screen and requests it with confirmation. |
| ShutdownAgent.DBusShutdownAgent.UpdateAndShutdown | src/dde-lock/dbus/dbusshutdownagent.cpp:45-54 | The same as Show, for UpdateAndShutdown. Unless updating, and whether locked or not, it sets the update power mode and shows the shutdown screen. |
| ShutdownAgent.DBusShutdownAgent.Restart | src/dde-lock/dbus/dbusshutdownagent.cpp:56-70 | The same as Shutdown, for a restart. |
| ShutdownAgent.DBusShutdownAgent.UpdateAndReboot | src/dde-lock/dbus/dbusshutdownagent.cpp:72-81 | The same as UpdateAndShutdown, with the reboot power mode. |
| ShutdownAgent.DBusShutdownAgent.Logout | src/dde-lock/dbus/dbusshutdownagent.cpp:83-92 | When locked or updating it does nothing. Otherwise it shows the shutdown screen and requests a logout with confirmation. |
| ShutdownAgent.DBusShutdownAgent.Suspend | src/dde-lock/dbus/dbusshutdownagent.cpp:94-108 | When locked, it only sets the pending power action. Otherwise it shows the shutdown screen and requests the suspend with confirmation. |
| ShutdownAgent.DBusShutdownAgent.Hibernate | src/dde-lock/dbus/dbusshutdownagent.cpp:110-124 | The same as Suspend, for hibernation. |
| ShutdownAgent.DBusShutdownAgent.SwitchUser | src/dde-lock/dbus/dbusshutdownagent.cpp:126-133 | When locked or updating it does nothing. Otherwise it emits the request to show the user list. |
| ShutdownAgent.DBusShutdownAgent.Lock | src/dde-lock/dbus/dbusshutdownagent.cpp:135-144 | When locked or updating it does nothing. Otherwise it shows the shutdown screen with the lock action pending. |
| Inhibitors.FirstSeparator | src/widgets/warningcontent.cpp:80-81 | The result is the position of the first ':' (no character before it is ':'), or the length when there is none. |
| Inhibitors.FirstSeparatorIs | src/widgets/warningcontent.cpp:80-81 | Any position with no ":" before it and a ":" at it (or at the end) is the first separator. |
| Inhibitors.SplitFields | src/widgets/warningcontent.cpp:80-81 | Splitting on ':' with empty parts skipped gives only non-empty fields without ':'. |
| Inhibitors.SplitSingle | src/widgets/warningcontent.cpp:80-81 | A non-empty text without ':' is one field. |
| Inhibitors.SplitJoin | src/widgets/warningcontent.cpp:80-81 | Splitting `a:b` gives the fields of `a` followed by those of `b`. |
| Inhibitors.InhibitType | src/widgets/warningcontent.cpp:60-75 | Suspend and hibernate look for the "sleep" lock, every shutdown, restart, update, system switch and logout action for "shutdown", and no action, switch user and lock for none. |
| Inhibitors.Blocks | src/widgets/warningcontent.cpp:80-94 | Definition of the blocking rule: the lock type is among the `what` fields, the program is not blacklisted, the mode is "block" for sleep, and the uid is the current one for logout. |
| Inhibitors.ToData | src/widgets/warningcontent.cpp:102-113 | Mode and pid are always the inhibitor's own. Who, why and the icon come from the application's hint exactly when there is a hint with a non-empty reason; otherwise who and why are the inhibitor's and the icon is empty. |
| Inhibitors.Collect | src/widgets/warningcontent.cpp:77-119 | Definition of the listing loop over the reply; `CollectIsFilter` states it is filtering then display. |
| Inhibitors.ListedInhibitors | src/widgets/warningcontent.cpp:46-135 | An invalid interface, an error reply, or an action with no inhibitor type gives the empty list. |
| Inhibitors.CollectStep | src/widgets/warningcontent.cpp:77-119 | One pass of the loop appends the data of the next inhibitor exactly when it blocks the action. |
| Inhibitors.CollectIsFilter | src/widgets/warningcontent.cpp:77-119 | The list is the reply filtered by the blocking rule, in reply order, and then displayed. |
| Inhibitors.ListedSound | src/widgets/warningcontent.cpp:60-119 | Every listed entry comes from a reply inhibitor that blocks the action: its lock type is among its `what` fields, it is not blacklisted, it is a block for sleep, and it is the current user's for logout. |
| Inhibitors.ListedComplete | src/widgets/warningcontent.cpp:77-119 | Every reply inhibitor that blocks the action is listed. |
| Inhibitors.SleepListsOnlyBlockers | src/widgets/warningcontent.cpp:84-85 | Before a suspend or hibernate only inhibitors in "block" mode are listed. |
| Inhibitors.ListedAreRelevant | src/widgets/warningcontent.cpp:80-94 | A listed entry has the mode and pid of an inhibitor that is not blacklisted. Before a logout, that inhibitor belongs to the current user. |
| Inhibitors.BlacklistedNeverListed | src/widgets/warningcontent.cpp:80-81 | For any reply and any action with a lock type, an inhibitor whose program is blacklisted is not among those kept. |
| Inhibitors.NetworkManagerIgnored | src/widgets/warningcontent.cpp:20 | For any reply and any action with a lock type, a NetworkManager inhibitor is not among those kept. |
| Warning.OtherUsers | src/widgets/warningcontent.cpp:279-285 | Definition of the users left by the erase loop; `OtherUsersIsFilter` states it is filtering by uid. |
| Warning.OtherUsersIsFilter | src/widgets/warningcontent.cpp:279-285 | Dropping the current user keeps the other users in order; it is filtering by uid. |
| Warning.ChooseView | src/widgets/warningcontent.cpp:189-336 | The dialog priority, each case in both directions. Inhibitors give the inhibitor dialog; its accept button shows exactly when none blocks. Otherwise more than one user and a shutdown or restart action give the multi-user dialog, listing exactly the users other than the current uid. Otherwise a requested confirmation of shutdown, restart or logout gives the confirmation dialog. Otherwise the action is accepted at once. A dialog always concerns the pending action. |
| Warning.ListedNeverAbandoned | src/widgets/warningcontent.cpp:201-270 | The inhibitor list built from login1 never lands in the inhibitor switch's silent `default` branch. |
| Warning.GrabAttempt | src/widgets/warningcontent.cpp:343-392 | Success resets the counter. A failure increments it and schedules a retry, until the 15th failure. That failure resets the counter and requests hiding exactly when exitIfFailed is set. The counter stays below 15. |
| Warning.GrabRetriesBounded | src/widgets/warningcontent.cpp:372-390 | A chain of scheduled retries makes at most 15 minus the counted failures attempts. It requests hiding only when exitIfFailed is set. |
| Warning.GrabGivesUp | src/widgets/warningcontent.cpp:372-390 | When every attempt fails, the chain stops after exactly 15 minus the counted failures attempts, with the counter reset, and requests hiding exactly when exitIfFailed is set. |
| Warning.DropStep | src/widgets/warningcontent.cpp:279-285 | One pass of the erase loop keeps the invariant "kept users, then the unvisited rest". |
| Warning.DropUser | src/widgets/warningcontent.cpp:277-285 | The list left by the erase loop is the logged-in users other than the current uid, in order. |
| Warning.InhibitorEntry | src/widgets/warningcontent.cpp:79-117 | One pass of the listing loop: the inhibitor is shown exactly when it blocks the action, with the application's hint replacing who and why when the hint gives a reason. |
| Warning.WarningContent.constructor | src/widgets/warningcontent.cpp:11-23 | No model, no action, zero failures, and returning to the main page allowed. |
| Warning.WarningContent.SetModel | src/widgets/warningcontent.cpp:40-44 | Binds the model and changes nothing else. |
| Warning.WarningContent.ListInhibitors | src/widgets/warningcontent.cpp:46-135 | The loop's list is `ListedInhibitors` of the reply. |
| Warning.WarningContent.DoCancelShutdownInhibit | src/widgets/warningcontent.cpp:137-151 | Once the latch is set nothing changes. Otherwise the power action is reset and the lock content is selected. From shutdown mode the screen is hidden and goes to password mode; otherwise visibility and mode are kept. |
| Warning.WarningContent.DoAcceptShutdownInhibit | src/widgets/warningcontent.cpp:153-187 | Hands the pending action to the model. When an inhibitor dialog waits for programs to close before a shutdown, restart or logout, the latch is set. The lock content is selected unless in shutdown mode or the action is an update one. |
| Warning.WarningContent.BeforeInvokeAction | src/widgets/warningcontent.cpp:189-336 | Puts up exactly the dialog `ChooseView` selects and leaves the model alone, or, when none applies, accepts as `DoAcceptShutdownInhibit` does. |
| Warning.WarningContent.TryGrabKeyboard | src/widgets/warningcontent.cpp:343-392 | On a hidden window nothing happens. Otherwise the counter, the retry and the hide request follow `GrabAttempt`, and the counter stays below 15. |
| Warning.WarningContent.SetPowerAction | src/widgets/warningcontent.cpp:400-406 | Stores the action; setting the current one changes nothing. |
| Warning.WarningContent.ShutdownInhibit | src/widgets/warningcontent.cpp:424-432 | Stores the action, selects the warning content, then decides as `ChooseView` says. An immediate accept hands the action to the model. |
| PluginRegistry.KeyLess | src/global_util/plugin_manager/plugin_manager.cpp:36 | Definition of QMap's key order on strings, character by character, a proper prefix first. |
| PluginRegistry.KeyLessIrreflexive | src/global_util/plugin_manager/plugin_manager.cpp:36 | No key is ordered before itself. |
| PluginRegistry.KeyLessTransitive | src/global_util/plugin_manager/plugin_manager.cpp:36 | The key order is transitive. |
| PluginRegistry.KeyLessTotal | src/global_util/plugin_manager/plugin_manager.cpp:36 | Of two different keys, one is ordered before the other. |
| PluginRegistry.CreateLoginPlugin | src/global_util/plugin_manager/plugin_manager.cpp:130-142 | A plugin exists exactly when the version fits the V2 or V1 login API. It is the V2 adapter exactly when V2 fits, and carries the module's key, type and level. |
| PluginRegistry.CreatePlugin | src/global_util/plugin_manager/plugin_manager.cpp:114-128 | Login, fully managed and assist modules get a login adapter. Tray modules get the tray adapter. Any other type gets nothing. |
| PluginRegistry.Find | src/global_util/plugin_manager/plugin_manager.cpp:151-162 | The lookup finds a plugin with that key from the registry, and finds nothing exactly when no plugin has that key. |
| PluginRegistry.Insert | src/global_util/plugin_manager/plugin_manager.cpp:36 | The inserted plugin is present, and every other entry was there before. |
| PluginRegistry.SortedUnique | src/global_util/plugin_manager/plugin_manager.cpp:36 | A key-sorted registry holds each key once. |
| PluginRegistry.FilterSorted | src/global_util/plugin_manager/plugin_manager.cpp:67-76 | Keeping some plugins of a sorted registry keeps it sorted. |
| PluginRegistry.InsertSorted | src/global_util/plugin_manager/plugin_manager.cpp:36 | Insertion keeps the registry sorted. |
| PluginRegistry.InsertFind | src/global_util/plugin_manager/plugin_manager.cpp:36 | After insertion the key finds the new plugin, and every other key finds what it found before. |
| PluginRegistry.InsertLast | src/global_util/plugin_manager/plugin_manager.cpp:74 | Inserting a key greater than every present key appends it. |
| PluginRegistry.RemoveKey | src/global_util/plugin_manager/plugin_manager.cpp:37-39 | Definition of removing a key; `RemoveFind`, `RemoveKeySet` and `RemoveMultiset` state what it does. |
| PluginRegistry.AddEffect | src/global_util/plugin_manager/plugin_manager.cpp:24-40 | Definition of adding a module; `AddEffectFind` states what it does. |
| PluginRegistry.RemoveSorted | src/global_util/plugin_manager/plugin_manager.cpp:37-39 | Removal keeps the registry sorted. |
| PluginRegistry.RemoveFind | src/global_util/plugin_manager/plugin_manager.cpp:37-39 | After removal the key finds nothing, and every other key finds what it found before. |
| PluginRegistry.RemoveMultiset | src/global_util/plugin_manager/plugin_manager.cpp:83 | Taking a present key out removes exactly its plugin. |
| PluginRegistry.RemoveKeySet | src/global_util/plugin_manager/plugin_manager.cpp:37-39 | The keys after removal are the keys before, less the removed one. |
| PluginRegistry.AddEffectFind | src/global_util/plugin_manager/plugin_manager.cpp:24-40 | Adding a module keeps the registry sorted. The module's key then finds the created plugin, and every other key is untouched. A missing module, or one without a plugin, changes nothing. |
| PluginRegistry.FinalLoginPlugins | src/global_util/plugin_manager/plugin_manager.cpp:60-64 | A non-empty designated configuration overrides the default one. The result is empty, meaning "any plugin", exactly when all four settings are empty. |
| PluginRegistry.CandidatesStep | src/global_util/plugin_manager/plugin_manager.cpp:67-76 | Collecting candidates from the sorted registry into a map appends each one. |
| PluginRegistry.ArrangeStep | src/global_util/plugin_manager/plugin_manager.cpp:82-86 | One pass of the order loop takes out the named candidate, if there is one. |
| PluginRegistry.Arrange | src/global_util/plugin_manager/plugin_manager.cpp:79-88 | Definition of the display-order loop; `ArrangeSplit` and `ArrangePermutes` state what it does. |
| PluginRegistry.ArrangeSplit | src/global_util/plugin_manager/plugin_manager.cpp:79-88 | The display order is the configured order restricted to present candidates, then the others in key order. |
| PluginRegistry.ArrangePermutes | src/global_util/plugin_manager/plugin_manager.cpp:79-88 | The display order shows every candidate exactly once. |
| PluginRegistry.LoginPlugins | src/global_util/plugin_manager/plugin_manager.cpp:48-89 | Definition of the login plugins shown; `LoginPluginsExactly` and `LoginPluginsOrder` state what they are. |
| PluginRegistry.LoginPluginsExactly | src/global_util/plugin_manager/plugin_manager.cpp:48-89 | The plugins shown are exactly the registered Login-type plugins of the requested level that the final list allows, each once. |
| PluginRegistry.LoginPluginsOrder | src/global_util/plugin_manager/plugin_manager.cpp:79-88 | The plugins the display order names come first, in that order, followed by the rest in ascending key order. |
| PluginRegistry.PluginManager.constructor | src/global_util/plugin_manager/plugin_manager.cpp:14-17 | The manager starts with an empty, valid registry. |
| PluginRegistry.PluginManager.AddPlugin | src/global_util/plugin_manager/plugin_manager.cpp:24-40 | The new registry is `AddEffect` of the old one and stays sorted and well typed. A tray plugin is announced when it is created. |
| PluginRegistry.PluginManager.PluginDestroyed | src/global_util/plugin_manager/plugin_manager.cpp:37-39 | A destroyed plugin's key is removed, and the registry stays sorted. |
| PluginRegistry.PluginManager.Contains | src/global_util/plugin_manager/plugin_manager.cpp:151-154 | True exactly when the key is registered. |
| PluginRegistry.PluginManager.FindPlugin | src/global_util/plugin_manager/plugin_manager.cpp:156-162 | Null exactly when the key is not registered; otherwise the plugin registered under it. |
| PluginRegistry.PluginManager.GetLoginPlugins | src/global_util/plugin_manager/plugin_manager.cpp:48-89 | The list the two loops build is `LoginPlugins` with the final list. |
| PluginRegistry.PluginManager.FirstOfType | src/global_util/plugin_manager/plugin_manager.cpp:91-100 | The first plugin of a type in key order, or none exactly when no plugin has that type. |
| PluginRegistry.PluginManager.GetFullManagedLoginPlugin | src/global_util/plugin_manager/plugin_manager.cpp:91-100 | The first fully managed login plugin in key order, which is a login adapter, or null exactly when there is none. |
| PluginRegistry.PluginManager.GetAssistloginPlugin | src/global_util/plugin_manager/plugin_manager.cpp:164-173 | The first assist login plugin in key order, or null exactly when there is none. |
| PluginRegistry.PluginManager.TrayPlugins | src/global_util/plugin_manager/plugin_manager.cpp:102-112 | Exactly the tray plugins, in key order. |
| ModulesLoader.Judge | src/global_util/plugin_manager/modules_loader.cpp:54-108 | The ordered checks accept an entry exactly when it is admissible (library, version at least 1.1.0, type fits the mode, type present, instance obtained, not blacklisted, wants loading) and its key is not yet registered. |
| ModulesLoader.Step | src/global_util/plugin_manager/modules_loader.cpp:54-115 | Definition of one pass of the scan loop: the entry's module is added exactly when `Judge` accepts it. |
| ModulesLoader.Scan | src/global_util/plugin_manager/modules_loader.cpp:53-115 | Definition of the scan over the entries in directory order; the `Scan` lemmas state what it registers. |
| ModulesLoader.ScanKeepsExisting | src/global_util/plugin_manager/modules_loader.cpp:104-108 | The scan keeps the registry sorted and never replaces a registered key's plugin. |
| ModulesLoader.ScanKeysUnique | src/global_util/plugin_manager/modules_loader.cpp:104-108 | Scanning from a sorted registry never leaves a key registered twice. |
| ModulesLoader.ScanAddsOnlyAdmissible | src/global_util/plugin_manager/modules_loader.cpp:54-115 | Every key the scan registers comes from an admissible entry, with the plugin created for that entry and its declared version. |
| ModulesLoader.ScanRegistersAdmissible | src/global_util/plugin_manager/modules_loader.cpp:54-115 | Every admissible entry whose module gets a plugin ends up registered. |
| ModulesLoader.ScanRespectsMode | src/global_util/plugin_manager/modules_loader.cpp:74-76 | The greeter never registers a "Tray" module, and the lock screen never a "Login" one. No blacklisted key is registered. |
| ModulesLoader.ModulesLoader.constructor | src/global_util/plugin_manager/modules_loader.cpp:21-24 | Records whether login modules are loaded. |
| ModulesLoader.ModulesLoader.FindModule | src/global_util/plugin_manager/modules_loader.cpp:43-116 | A missing directory changes nothing. Otherwise the registry after the loop is `Scan` of the entries in directory order, and it stays valid. |
| Update.UpdateErrorMessage | src/update/updatemodel.cpp:68-87 | The nine named errors have a title and no other does; any other error gives two empty texts. Backup errors say the backup failed and the others that the update failed. A named error lacks a detail exactly for two backup errors. |
| Update.UpdateActionText | src/update/updatemodel.cpp:99-113 | The label is empty exactly for None. |
| Update.ActionTextDistinct | src/update/updatemodel.cpp:102-110 | Different actions have different labels. |
| Update.UpdateModel.constructor | src/update/updatemodel.cpp:15-26 | The defaults: no update available, mode Invalid, status Default, progress 0, backup configuration valid, not updating, not rebooting. |
| Update.UpdateModel.SetUpdateStatus | src/update/updatemodel.cpp:39-47 | Stores the status, which is announced exactly when it differs from the current one. |
| Update.UpdateModel.SetUpdateError | src/update/updatemodel.cpp:59-66 | Stores the error, announcing nothing and changing nothing else. |
| Update.UpdateModel.SetLastErrorLog | src/update/updatemodel.cpp:89-92 | Stores the log and changes nothing else. |
| Update.UpdateModel.SetBackupConfigValidation | src/update/updatemodel.cpp:94-97 | Stores the flag and changes nothing else. |
| Buttons.Half | src/session-widgets/buttonbox.cpp:132-133 | Halving truncates toward zero: for a non-negative number the result is the floor of the half, for a negative one its ceiling. |
| Buttons.IconOrigin | src/session-widgets/buttonbox.cpp:132-133 | The offsets are half the width and height, truncated toward zero, less half the icon size. An icon that fits is inside the button and centred to within one pixel. |
| Buttons.HasSubstring | src/session-widgets/buttonbox.cpp:176 | Definition of `contains` on text. |
| Buttons.HasSubstringAt | src/session-widgets/buttonbox.cpp:176 | A text containing the pattern at some position contains it. |
| Buttons.HasSubstringWitness | src/session-widgets/buttonbox.cpp:176 | A text that contains the pattern contains it at some position; with `HasSubstringAt` this makes `HasSubstring` mean "occurs somewhere". |
| Buttons.RoundsSecondToLast | src/session-widgets/buttonbox.cpp:175-178 | Definition of the Wayland greeter condition: the greeter's application name, a session type containing "wayland", more than two buttons and a hidden custom button. |
| Buttons.RightEnd | src/session-widgets/buttonbox.cpp:175-184 | The right-rounded button is the last one, or, only in a list of more than two, the one before it. It is always inside a non-empty list. |
| Buttons.Rounded | src/session-widgets/buttonbox.cpp:170-184 | The first button is left-rounded and the right end is right-rounded, each with radius 10. Every other button is unchanged, and checked and checkable flags are kept. |
| Buttons.Members | src/session-widgets/buttonbox.cpp:153-168 | Definition of the group the add loop builds; `MembersExactly` and `MembersInOrder` state what it holds. |
| Buttons.MembersStep | src/session-widgets/buttonbox.cpp:158-168 | One pass of the add loop adds the next non-null button. |
| Buttons.WithoutHead | src/session-widgets/buttonbox.cpp:153-156 | Removing the first of a group without repeats leaves the rest. |
| Buttons.MembersExactly | src/session-widgets/buttonbox.cpp:158-168 | The group holds each non-null listed button exactly once, and nothing else. |
| Buttons.MembersInOrder | src/session-widgets/buttonbox.cpp:158-168 | Without repeats in the list, the group is its non-null buttons in list order. |
| Buttons.Arranged | src/session-widgets/buttonbox.cpp:167-184 | Definition of one listed button's final look: its checkable flag is set, then it is rounded as `Rounded` says. |
| Buttons.ButtonBoxButton.constructor | src/session-widgets/buttonbox.cpp:17-33 | A new button is unchecked, square and not rounded. |
| Buttons.ButtonBoxButton.SetRadius | src/session-widgets/buttonbox.cpp:52-56 | Stores the radius and always repaints. |
| Buttons.ButtonBoxButton.SetLeftRoundedEnabled | src/session-widgets/buttonbox.cpp:58-65 | Stores the flag, repainting only when it changes. |
| Buttons.ButtonBoxButton.SetRightRoundedEnabled | src/session-widgets/buttonbox.cpp:67-74 | The same, for the right corners. |
| Buttons.ButtonBoxButton.SetChecked | src/session-widgets/buttonbox.cpp:76-83 | The same, for the checked flag. |
| Buttons.ButtonBox.constructor | src/session-widgets/buttonbox.cpp:139-146 | An empty group with the custom button not hidden. |
| Buttons.ButtonBox.RemoveAll | src/session-widgets/buttonbox.cpp:153-156 | The removal loop empties the group. |
| Buttons.ButtonBox.AddButton | src/session-widgets/buttonbox.cpp:166 | Adds the button to the group, moving it to the end if it was there. |
| Buttons.ButtonBox.AddAll | src/session-widgets/buttonbox.cpp:158-168 | The group is `Members` of the list, without repeats. Each listed button gets the checkable flag and nothing else. |
| Buttons.ButtonBox.SetButtonList | src/session-widgets/buttonbox.cpp:148-185 | An empty list changes nothing. Otherwise the group is rebuilt from the list and each listed button is `Arranged`: made checkable or not, then rounded as `Rounded` says at the first position and at `RightEnd`. |
| Buttons.RoundEnds | src/session-widgets/buttonbox.cpp:170-184 | Only the first button and the right-end button change, as `Rounded` says. |

## Left out

- **D-Bus and other I/O.** The replies of login1, the InhibitHint services and KWin, and the X11 keyboard grab are inputs. The `setxkbmap`/`xdotool` process, the 100 ms `QTimer` retry and the `QT_DEBUG` build, where tryGrabKeyboard does nothing, are not modelled. The timer chain is `Warning.GrabChain` over a sequence of outcomes.
- **Configuration.** The DConfig reads (the designated and default login plugins, the display order, the plugin black list) are parameters.
- **Plugin loading.** `QPluginLoader`, `QLibrary::isLibrary`, `dynamic_cast`, `unload` and `moveToThread` are not modelled. Each directory entry is a record of what they reveal. `checkVersion` is not part of this model; it is a parameter, and the V1/V2 API version constants are named by a tag.
- **Plugin callback.** `createPlugin` announces a tray plugin (`trayPluginAdded`) when it creates one. The model records this in the registry's `trayAdded` log.
- **Plugin lifetime.** The `destroyed` callback of a replaced plugin, which would remove a newer plugin registered under the same key, is not modelled. `PluginRegistry.PluginManager.PluginDestroyed` removes the key when asked.
- **Floating point.** `setDistUpgradeProgress` and its `qFuzzyCompare` are not modelled. The progress field is kept as a `real` set only by the constructor.
- **Enumerations.** Update statuses and types other than the initial Default and Invalid are opaque codes. Screen modes the code never names are collapsed into one.
- **Update error field.** `Update.UpdateModel.constructor`: the source leaves the update error uninitialised, so its first value is a parameter.
- **User interface.** Painting, layout, fonts, sizes, the multi-user warning view, the inhibitor view's widgets and the translated confirmation messages are not modelled. Translated strings are their source text.
- **Session model.** SessionBaseModel is not part of this model beyond the fields listed above. Its setters are taken to be plain assignments, and its signals are entries of an event log.
- **Singletons.** The `instance()` accessors and the static plugin manager are not modelled. The components are objects passed explicitly.
- **Events.** showEvent, and the mouse and Escape key handlers, which only call tryGrabKeyboard or doCancelShutdownInhibit, are not modelled. The second ButtonBoxButton constructor, which takes a style pixmap, and the toggled handler, which mirrors QAbstractButton's checked state into the button, are not modelled either.
- `PluginRegistry.KeyLess`: orders keys by Unicode scalar value, while QMap compares QString keys by UTF-16 code unit. The two orders differ only between a character above U+FFFF and one in U+E000 to U+FFFF, so plugin keys mixing those would be listed in a different order.
- **Threads.** The modules loader is a QThread (modules_loader.cpp:21-24, 38-41, 110-112) whose scan runs concurrently with the plugin manager's queries. The model runs the scan and the queries one after the other, so interleavings are not modelled.
- **Module directory.** The fixed path of the module directory is not modelled; the directory's presence and contents are inputs.
- **Inhibitor hints.** Which bus and service the InhibitHint lookup uses is not modelled; its answer is part of each inhibitor record.
- **Helper methods.** `Warning.InhibitorEntry` and `Warning.DropUser` are the bodies of the listing loop and of the erase loop, written as methods of their own.
- `Buttons.ButtonBox.SetButtonList`: the source dereferences the first listed button, and the one whose right corners it rounds, without a null check. The model requires these two to be non-null instead of modelling a crash. The list operations work on sequences of button references; the layout is not modelled.
- `Buttons.ButtonBox.AddAll`: the source sets each button's checkable flag as it adds the button to the group. The model builds the group first and then sets every flag in one simultaneous step. The two are independent, so the final state is the same.

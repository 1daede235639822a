/** Which login1 inhibitors the warning screen lists before a power action.
    The reply of login1's ListInhibitors and of each application's InhibitHint
    lookup are inputs; what is modelled is the filter applied to them. */
module Inhibitors {
  import opened Common
  import opened Session

  /** Index of the first ':' in `s`, or |s| when there is none. */
  function FirstSeparator(s: string): (n: nat)
    ensures n <= |s|
    ensures forall j :: 0 <= j < n ==> s[j] != ':'
    ensures n < |s| ==> s[n] == ':'
  {
    if s == [] || s[0] == ':' then 0 else 1 + FirstSeparator(s[1..])
  }

  /** The three facts FirstSeparator ensures determine it. */
  lemma FirstSeparatorIs(s: string, n: nat)
    requires n <= |s|
    requires forall j :: 0 <= j < n ==> s[j] != ':'
    requires n < |s| ==> s[n] == ':'
    ensures FirstSeparator(s) == n
  {
  }

  /** `s` split on ':' with empty parts skipped. */
  function SplitFields(s: string): (r: seq<string>)
    ensures forall i :: 0 <= i < |r| ==> r[i] != [] && forall j :: 0 <= j < |r[i]| ==> r[i][j] != ':'
    decreases |s|
  {
    if s == [] then []
    else
      var n := FirstSeparator(s);
      (if n == 0 then [] else [s[..n]]) + (if n < |s| then SplitFields(s[n + 1..]) else [])
  }

  /** A non-empty text without separators is one field. */
  lemma SplitSingle(t: string)
    requires t != [] && forall j :: 0 <= j < |t| ==> t[j] != ':'
    ensures SplitFields(t) == [t]
  {
    FirstSeparatorIs(t, |t|);
    assert t[..|t|] == t;
  }

  /** Splitting `a:b` when the first separator of `a` is at `n`. */
  lemma {:induction false} SplitJoinInside(a: string, b: string, n: nat)
    requires n < |a| && FirstSeparator(a) == n
    ensures FirstSeparator(a + [':'] + b) == n
    ensures (a + [':'] + b)[..n] == a[..n]
    ensures (a + [':'] + b)[n + 1..] == a[n + 1..] + [':'] + b
  {
    var s := a + [':'] + b;
    assert forall j :: 0 <= j < |a| ==> s[j] == a[j];
    FirstSeparatorIs(s, n);
  }

  /** Splitting `a:b` when `a` holds no separator. */
  lemma {:induction false} SplitJoinAfter(a: string, b: string)
    requires FirstSeparator(a) == |a|
    ensures FirstSeparator(a + [':'] + b) == |a|
    ensures (a + [':'] + b)[..|a|] == a
    ensures (a + [':'] + b)[|a| + 1..] == b
  {
    var s := a + [':'] + b;
    assert forall j :: 0 <= j < |a| ==> s[j] == a[j];
    FirstSeparatorIs(s, |a|);
  }

  /** Splitting `a:b` gives the fields of `a` followed by those of `b`;
      with SplitSingle this determines SplitFields on every text. */
  lemma {:induction false} SplitJoin(a: string, b: string)
    ensures SplitFields(a + [':'] + b) == SplitFields(a) + SplitFields(b)
    decreases |a|
  {
    var s := a + [':'] + b;
    var n := FirstSeparator(a);
    if n < |a| {
      SplitJoinInside(a, b, n);
      SplitJoin(a[n + 1..], b);
      assert SplitFields(s) == (if n == 0 then [] else [a[..n]]) + SplitFields(a[n + 1..] + [':'] + b);
    } else {
      SplitJoinAfter(a, b);
      assert SplitFields(s) == (if |a| == 0 then [] else [a]) + SplitFields(b);
      if a != [] {
        SplitSingle(a);
      }
    }
  }

  /** Application names whose inhibitors are never shown. */
  const Blacklist: seq<string> := ["NetworkManager", "ModemManager", "com.deepin.daemon.Power"]

  /** An application's own translated description of its inhibitor. */
  datatype InhibitHint = InhibitHint(name: string, icon: string, why: string)

  /** One entry of login1's ListInhibitors reply.  `hint` is what the
      application's InhibitHint service answered for it, if it is registered
      and answered. */
  datatype Inhibit = Inhibit(
    what: string, who: string, why: string, mode: string,
    uid: int, pid: int, hint: Option<InhibitHint>)

  /** What the warning view shows for one inhibitor. */
  datatype InhibitorData = InhibitorData(who: string, why: string, mode: string, pid: int, icon: string)

  /** login1's answer to ListInhibitors. */
  datatype Login1Reply = InterfaceInvalid | ReplyError | Reply(inhibitors: seq<Inhibit>)

  /** The inhibitor lock type an action is blocked by, if any. */
  function InhibitType(action: PowerAction): (r: Option<string>)
    // the two sleep actions are held back by "sleep" locks
    ensures r == Some("sleep") <==> action == RequireSuspend || action == RequireHibernate
    // every other action that ends or leaves the session by "shutdown" locks
    ensures r == Some("shutdown") <==>
              action in {RequireShutdown, RequireUpdateShutdown, RequireRestart,
                         RequireUpdateRestart, RequireSwitchSystem, RequireLogout}
    // no action is pending, or it cannot be inhibited
    ensures r.None? <==> action in {PowerAction.None, RequireSwitchUser, RequireLock}
  {
    match action
    case RequireShutdown => Some("shutdown")
    case RequireUpdateShutdown => Some("shutdown")
    case RequireRestart => Some("shutdown")
    case RequireUpdateRestart => Some("shutdown")
    case RequireSwitchSystem => Some("shutdown")
    case RequireLogout => Some("shutdown")
    case RequireSuspend => Some("sleep")
    case RequireHibernate => Some("sleep")
    case _ => Common.None
  }

  /** Whether inhibitor `i` blocks `action` (whose lock type is `lockType`)
      for the user `uid`. */
  predicate Blocks(i: Inhibit, action: PowerAction, lockType: string, uid: int)
  {
    && lockType in SplitFields(i.what)
    && i.who !in Blacklist
    // a delay lock does not hold a suspend back: no countdown exists for it
    && !(lockType == "sleep" && i.mode != "block")
    // on logout only the current user's programs matter
    && !(action == RequireLogout && i.uid != uid)
  }

  function BlocksFn(action: PowerAction, lockType: string, uid: int): Inhibit -> bool
  {
    (i: Inhibit) => Blocks(i, action, lockType, uid)
  }

  /** The displayed data: the application's hint replaces who and why and
      supplies the icon when it gives a reason. */
  function ToData(i: Inhibit): (d: InhibitorData)
    // mode and pid are always the inhibitor's own
    ensures d.mode == i.mode && d.pid == i.pid
    // a hint that gives a reason replaces who, why and the (otherwise empty) icon
    ensures i.hint.Some? && i.hint.value.why != "" ==>
              d.who == i.hint.value.name && d.why == i.hint.value.why && d.icon == i.hint.value.icon
    ensures !(i.hint.Some? && i.hint.value.why != "") ==> d.who == i.who && d.why == i.why && d.icon == ""
  {
    if i.hint.Some? && i.hint.value.why != "" then
      InhibitorData(i.hint.value.name, i.hint.value.why, i.mode, i.pid, i.hint.value.icon)
    else
      InhibitorData(i.who, i.why, i.mode, i.pid, "")
  }

  function MapData(s: seq<Inhibit>): (r: seq<InhibitorData>)
    ensures |r| == |s| && forall k :: 0 <= k < |s| ==> r[k] == ToData(s[k])
  {
    seq(|s|, k requires 0 <= k < |s| => ToData(s[k]))
  }

  /** The list as the loop builds it: one inhibitor after the other, appending
      the data of those that block the action. */
  function Collect(s: seq<Inhibit>, action: PowerAction, lockType: string, uid: int): seq<InhibitorData>
  {
    if s == [] then []
    else
      var last := s[|s| - 1];
      Collect(s[..|s| - 1], action, lockType, uid)
        + (if Blocks(last, action, lockType, uid) then [ToData(last)] else [])
  }

  /** One loop step: the list for a prefix grown by one inhibitor. */
  lemma CollectStep(s: seq<Inhibit>, i: int, action: PowerAction, lockType: string, uid: int)
    requires 0 <= i < |s|
    ensures Collect(s[..i + 1], action, lockType, uid)
            == Collect(s[..i], action, lockType, uid) + (if Blocks(s[i], action, lockType, uid) then [ToData(s[i])] else [])
  {
    assert s[..i + 1][..i] == s[..i];
  }

  /** The inhibitors listed for `action`, from login1's reply. */
  function ListedInhibitors(reply: Login1Reply, action: PowerAction, uid: int): (r: seq<InhibitorData>)
    ensures !reply.Reply? ==> r == []
    ensures InhibitType(action).None? ==> r == []
  {
    match reply
    case Reply(list) =>
      (match InhibitType(action)
       case Some(lockType) => Collect(list, action, lockType, uid)
       case None => [])
    case _ => []
  }

  /** The loop's list is the reply filtered by Blocks, then displayed: it
      keeps the order of the reply and is a subsequence of it. */
  lemma {:induction false} CollectIsFilter(s: seq<Inhibit>, action: PowerAction, lockType: string, uid: int)
    ensures Collect(s, action, lockType, uid) == MapData(Filter(s, BlocksFn(action, lockType, uid)))
    decreases |s|
  {
    if s != [] {
      var init, last := s[..|s| - 1], s[|s| - 1];
      assert s == init + [last];
      CollectIsFilter(init, action, lockType, uid);
      FilterSnoc(init, last, BlocksFn(action, lockType, uid));
    }
  }

  /** Every listed inhibitor comes from one in the reply that blocks the
      action. */
  lemma ListedSound(reply: Login1Reply, action: PowerAction, uid: int, d: InhibitorData)
    requires d in ListedInhibitors(reply, action, uid)
    ensures reply.Reply? && InhibitType(action).Some?
    ensures exists i :: i in reply.inhibitors && Blocks(i, action, InhibitType(action).value, uid) && ToData(i) == d
  {
    var s, lockType := reply.inhibitors, InhibitType(action).value;
    var kept := Filter(s, BlocksFn(action, lockType, uid));
    CollectIsFilter(s, action, lockType, uid);
    var k :| 0 <= k < |kept| && MapData(kept)[k] == d;
    assert kept[k] in s && BlocksFn(action, lockType, uid)(kept[k]);
  }

  /** Every inhibitor of the reply that blocks the action is listed. */
  lemma ListedComplete(reply: Login1Reply, action: PowerAction, uid: int, i: Inhibit)
    requires reply.Reply? && InhibitType(action).Some?
    requires i in reply.inhibitors && Blocks(i, action, InhibitType(action).value, uid)
    ensures ToData(i) in ListedInhibitors(reply, action, uid)
  {
    var s, lockType := reply.inhibitors, InhibitType(action).value;
    var kept := Filter(s, BlocksFn(action, lockType, uid));
    CollectIsFilter(s, action, lockType, uid);
    var j :| 0 <= j < |s| && s[j] == i;
    assert BlocksFn(action, lockType, uid)(s[j]);
    assert i in kept;
    var k :| 0 <= k < |kept| && kept[k] == i;
    assert MapData(kept)[k] == ToData(i);
  }

  /** Before a suspend or hibernate only inhibitors in "block" mode are listed. */
  lemma SleepListsOnlyBlockers(reply: Login1Reply, action: PowerAction, uid: int)
    requires action == RequireSuspend || action == RequireHibernate
    ensures forall d :: d in ListedInhibitors(reply, action, uid) ==> d.mode == "block"
  {
    if reply.Reply? {
      forall d | d in ListedInhibitors(reply, action, uid)
        ensures d.mode == "block"
      {
        ListedSound(reply, action, uid, d);
      }
    }
  }

  /** Before a logout only the current user's inhibitors are listed, and
      blacklisted services are never listed. */
  lemma ListedAreRelevant(reply: Login1Reply, action: PowerAction, uid: int, d: InhibitorData)
    requires d in ListedInhibitors(reply, action, uid)
    ensures exists i :: i in reply.inhibitors && ToData(i) == d && i.who !in Blacklist
              && i.mode == d.mode && i.pid == d.pid
              && (action == RequireLogout ==> i.uid == uid)
  {
    ListedSound(reply, action, uid, d);
  }

  /** A blacklisted service's inhibitor is never kept, whatever the reply
      and the action. */
  lemma BlacklistedNeverListed(reply: Login1Reply, action: PowerAction, uid: int, i: Inhibit)
    requires reply.Reply? && InhibitType(action).Some?
    requires i in reply.inhibitors && i.who in Blacklist
    ensures i !in Filter(reply.inhibitors, BlocksFn(action, InhibitType(action).value, uid))
  {
  }

  /** In particular a NetworkManager inhibitor is never kept. */
  lemma NetworkManagerIgnored(reply: Login1Reply, action: PowerAction, uid: int, i: Inhibit)
    requires reply.Reply? && InhibitType(action).Some?
    requires i in reply.inhibitors && i.who == "NetworkManager"
    ensures i !in Filter(reply.inhibitors, BlocksFn(action, InhibitType(action).value, uid))
  {
    assert Blacklist[0] == "NetworkManager";
    BlacklistedNeverListed(reply, action, uid, i);
  }
}

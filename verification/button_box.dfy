/** The segmented button box of the login and lock screens: a row of
    buttons in one exclusive group, whose outer corners are rounded.  Only
    the state the box and its buttons keep is modelled; painting is not,
    except for where a button draws its icon. */
module Buttons {
  import opened Common

  const IconSize: int := 26
  const Radius: int := 10
  const GreeterAppName: string := "org.deepin.dde.lightdm-deepin-greeter"

  /** Integer division by two as C++ does it: truncating toward zero. */
  function Half(n: int): (r: int)
    // rounded toward zero: down for a non-negative n, up for a negative one
    ensures n >= 0 ==> 0 <= r && 2 * r <= n <= 2 * r + 1
    ensures n < 0 ==> r <= 0 && 2 * r - 1 <= n <= 2 * r
  {
    if n >= 0 then n / 2 else -((-n) / 2)
  }

  /** Where a button whose rectangle is at (x, y) with width w and height h
      draws the top-left corner of its icon. */
  function IconOrigin(x: int, y: int, w: int, h: int): (r: (int, int))
    // the offsets are the halves of w and h rounded toward zero, less half the icon
    ensures var q := r.0 - x + IconSize / 2; 0 <= (if w >= 0 then w - 2 * q else 2 * q - w) <= 1
    ensures var q := r.1 - y + IconSize / 2; 0 <= (if h >= 0 then h - 2 * q else 2 * q - h) <= 1
    // an icon that fits is centred, to within one pixel on the right or bottom
    ensures w >= IconSize ==> x <= r.0 && r.0 + IconSize <= x + w
                              && 0 <= (x + w - (r.0 + IconSize)) - (r.0 - x) <= 1
    ensures h >= IconSize ==> y <= r.1 && r.1 + IconSize <= y + h
                              && 0 <= (y + h - (r.1 + IconSize)) - (r.1 - y) <= 1
  {
    (x + Half(w) - Half(IconSize), y + Half(h) - Half(IconSize))
  }

  /** `t` occurs in `s`. */
  predicate HasSubstring(s: string, t: string)
    decreases |s|
  {
    (|t| <= |s| && s[..|t|] == t) || (s != [] && HasSubstring(s[1..], t))
  }

  /** `t` occurs in `s` at position `i`. */
  predicate OccursAt(s: string, t: string, i: int)
  {
    0 <= i && i + |t| <= |s| && s[i..i + |t|] == t
  }

  /** A text containing `t` at some position has it as a substring. */
  lemma {:induction false} HasSubstringAt(s: string, t: string, i: int)
    requires OccursAt(s, t, i)
    ensures HasSubstring(s, t)
    decreases i
  {
    if i > 0 {
      assert s[1..][i - 1..i - 1 + |t|] == t;
      HasSubstringAt(s[1..], t, i - 1);
    }
  }

  /** A substring occurs at some position. */
  lemma {:induction false} HasSubstringWitness(s: string, t: string)
    requires HasSubstring(s, t)
    ensures exists i :: OccursAt(s, t, i)
    decreases |s|
  {
    if |t| <= |s| && s[..|t|] == t {
      assert OccursAt(s, t, 0);
    } else {
      HasSubstringWitness(s[1..], t);
      var i :| OccursAt(s[1..], t, i);
      assert s[i + 1..i + 1 + |t|] == s[1..][i..i + |t|];
      assert OccursAt(s, t, i + 1);
    }
  }

  /** The greeter under Wayland lists the custom login button even when it
      is hidden; then the button before it is the last one shown. */
  predicate RoundsSecondToLast(appName: string, sessionType: string, count: int, customButtonHidden: bool)
  {
    appName == GreeterAppName && HasSubstring(sessionType, "wayland") && count > 2 && customButtonHidden
  }

  /** The index of the button whose right corners are rounded. */
  function RightEnd(appName: string, sessionType: string, count: int, customButtonHidden: bool): (r: int)
    ensures count >= 1 ==> 0 <= r < count
    ensures r == count - 1 || (r == count - 2 && count > 2)
  {
    if RoundsSecondToLast(appName, sessionType, count, customButtonHidden) then count - 2 else count - 1
  }

  /** The state a button keeps, as one value; `repaints` counts the repaint
      requests the button has made. */
  datatype ButtonLook = ButtonLook(
    isChecked: bool, radius: int, leftRoundEnabled: bool, rightRoundEnabled: bool,
    checkable: bool, repaints: nat)

  class ButtonBoxButton {
    var isChecked: bool
    var radius: int
    var leftRoundEnabled: bool
    var rightRoundEnabled: bool
    var checkable: bool
    var repaints: nat

    function Look(): ButtonLook
      reads this
    {
      ButtonLook(isChecked, radius, leftRoundEnabled, rightRoundEnabled, checkable, repaints)
    }

    /** A new button: unchecked, square, not checkable. */
    constructor ()
      ensures Look() == ButtonLook(false, 0, false, false, false, 0)
    {
      isChecked := false;
      radius := 0;
      leftRoundEnabled := false;
      rightRoundEnabled := false;
      checkable := false;
      repaints := 0;
    }

    method SetRadius(r: int)
      modifies this
      ensures Look() == old(Look()).(radius := r, repaints := old(repaints) + 1)
    {
      radius := r;
      repaints := repaints + 1;
    }

    /** Stores the flag; repaints only when it changes. */
    method SetLeftRoundedEnabled(enabled: bool)
      modifies this
      ensures Look() == old(Look()).(leftRoundEnabled := enabled,
                                     repaints := old(repaints) + if old(leftRoundEnabled) == enabled then 0 else 1)
    {
      if leftRoundEnabled == enabled {
        return;
      }
      leftRoundEnabled := enabled;
      repaints := repaints + 1;
    }

    /** Stores the flag; repaints only when it changes. */
    method SetRightRoundedEnabled(enabled: bool)
      modifies this
      ensures Look() == old(Look()).(rightRoundEnabled := enabled,
                                     repaints := old(repaints) + if old(rightRoundEnabled) == enabled then 0 else 1)
    {
      if rightRoundEnabled == enabled {
        return;
      }
      rightRoundEnabled := enabled;
      repaints := repaints + 1;
    }

    /** Stores the flag; repaints only when it changes. */
    method SetChecked(checked: bool)
      modifies this
      ensures Look() == old(Look()).(isChecked := checked,
                                     repaints := old(repaints) + if old(isChecked) == checked then 0 else 1)
    {
      if isChecked == checked {
        return;
      }
      isChecked := checked;
      repaints := repaints + 1;
    }
  }

  /** No button occurs twice. */
  ghost predicate Distinct(s: seq<ButtonBoxButton>)
  {
    forall i, j :: 0 <= i < j < |s| ==> s[i] != s[j]
  }

  function IsNot(b: ButtonBoxButton): ButtonBoxButton -> bool
  {
    (x: ButtonBoxButton) => x != b
  }

  /** The group without `b`. */
  function Without(s: seq<ButtonBoxButton>, b: ButtonBoxButton): seq<ButtonBoxButton>
  {
    Filter(s, IsNot(b))
  }

  /** The group's members after the non-null buttons of `list` are added in
      turn; adding a member again moves it to the end. */
  function Members(list: seq<ButtonBoxButton?>): seq<ButtonBoxButton>
  {
    if list == [] then []
    else
      var acc := Members(list[..|list| - 1]);
      var b := list[|list| - 1];
      if b == null then acc else Without(acc, b) + [b]
  }

  /** Members of a prefix grown by one entry. */
  lemma MembersStep(list: seq<ButtonBoxButton?>, i: int)
    requires 0 <= i < |list|
    ensures Members(list[..i + 1]) == if list[i] == null then Members(list[..i]) else Without(Members(list[..i]), list[i]) + [list[i]]
  {
    assert list[..i + 1][..i] == list[..i];
  }

  /** The non-null entries of `list`, in order. */
  function NonNull(list: seq<ButtonBoxButton?>): seq<ButtonBoxButton>
  {
    if list == [] then []
    else
      var b := list[|list| - 1];
      NonNull(list[..|list| - 1]) + (if b == null then [] else [b])
  }

  lemma {:induction false} FilterDistinct(s: seq<ButtonBoxButton>, keep: ButtonBoxButton -> bool)
    requires Distinct(s)
    ensures Distinct(Filter(s, keep))
  {
    if s != [] {
      FilterDistinct(s[1..], keep);
      var rest := Filter(s[1..], keep);
      forall j | 0 <= j < |rest|
        ensures rest[j] != s[0]
      {
        var k :| 0 <= k < |s[1..]| && s[1..][k] == rest[j];
      }
    }
  }

  /** Removing the first member of a group without repeats leaves the others. */
  lemma WithoutHead(s: seq<ButtonBoxButton>)
    requires s != [] && Distinct(s)
    ensures Without(s, s[0]) == s[1..]
  {
    FilterAll(s[1..], IsNot(s[0]));
  }

  /** The group holds each non-null button of the list exactly once, and
      nothing else. */
  lemma {:induction false} MembersExactly(list: seq<ButtonBoxButton?>)
    ensures Distinct(Members(list))
    ensures forall j :: 0 <= j < |Members(list)| ==> Members(list)[j] in list
    ensures forall i :: 0 <= i < |list| && list[i] != null ==> list[i] in Members(list)
  {
    if list != [] {
      var init, b := list[..|list| - 1], list[|list| - 1];
      assert list == init + [b];
      MembersExactly(init);
      var acc := Members(init);
      if b != null {
        FilterDistinct(acc, IsNot(b));
        var w := Without(acc, b);
        forall i | 0 <= i < |list| && list[i] != null
          ensures list[i] in Members(list)
        {
          if list[i] != b {
            assert list[i] in init;
            var j :| 0 <= j < |acc| && acc[j] == list[i];
            assert IsNot(b)(acc[j]);
          }
        }
      }
    }
  }

  /** When no button is listed twice, the group is the list's non-null
      buttons in list order. */
  lemma {:induction false} MembersInOrder(list: seq<ButtonBoxButton?>)
    requires forall i, j :: 0 <= i < j < |list| && list[i] != null ==> list[i] != list[j]
    ensures Members(list) == NonNull(list)
  {
    if list != [] {
      var init, b := list[..|list| - 1], list[|list| - 1];
      MembersInOrder(init);
      if b != null {
        MembersExactly(init);
        var acc := Members(init);
        forall j | 0 <= j < |acc|
          ensures IsNot(b)(acc[j])
        {
          var k :| 0 <= k < |init| && init[k] == acc[j];
        }
        FilterAll(acc, IsNot(b));
      }
    }
  }

  /** The objects of `list`. */
  function Buttons(list: seq<ButtonBoxButton?>): set<ButtonBoxButton?>
  {
    set i | 0 <= i < |list| :: list[i]
  }

  /** A button after its corners are rounded: on the left if it is the
      first, on the right if it is the right end, each rounding setting the
      radius. */
  function Rounded(l: ButtonLook, isFirst: bool, isRightEnd: bool): (r: ButtonLook)
    // the first button gets its left corners rounded, the right end its right ones
    ensures r.leftRoundEnabled == (isFirst || l.leftRoundEnabled)
    ensures r.rightRoundEnabled == (isRightEnd || l.rightRoundEnabled)
    ensures isFirst || isRightEnd ==> r.radius == Radius
    // every other button is left as it was
    ensures !isFirst && !isRightEnd ==> r == l
    ensures r.isChecked == l.isChecked && r.checkable == l.checkable
    // each rounding asks for one repaint, or two when the flag changes
    ensures l.repaints <= r.repaints <= l.repaints + (if isFirst then 2 else 0) + (if isRightEnd then 2 else 0)
  {
    var a := if isFirst then l.(leftRoundEnabled := true, radius := Radius,
                                repaints := l.repaints + if l.leftRoundEnabled then 1 else 2)
             else l;
    if isRightEnd then a.(rightRoundEnabled := true, radius := Radius,
                          repaints := a.repaints + if a.rightRoundEnabled then 1 else 2)
    else a
  }

  /** A listed button after setButtonList: made checkable or not, then rounded. */
  function Arranged(l: ButtonLook, checkable: bool, isFirst: bool, isRightEnd: bool): ButtonLook
  {
    Rounded(l.(checkable := checkable), isFirst, isRightEnd)
  }

  class ButtonBox {
    /** The buttons of the exclusive group, in the order they were added. */
    var group: seq<ButtonBoxButton>
    /** The greeter's custom login button is hidden. */
    var atCustomBtnHide: bool

    ghost predicate Valid()
      reads this
    {
      Distinct(group)
    }

    constructor ()
      ensures Valid() && group == [] && !atCustomBtnHide
    {
      group := [];
      atCustomBtnHide := false;
    }

    /** Takes every button out of the group. */
    method RemoveAll()
      requires Valid()
      modifies this
      ensures Valid() && group == [] && atCustomBtnHide == old(atCustomBtnHide)
    {
      var current := group;
      var i := 0;
      while i < |current|
        invariant 0 <= i <= |current|
        invariant group == current[i..]
        invariant atCustomBtnHide == old(atCustomBtnHide)
      {
        WithoutHead(group);
        group := Without(group, current[i]);
        i := i + 1;
      }
    }

    /** Adds the button to the exclusive group; a button already in the
        group is taken out first, so it moves to the end. */
    method AddButton(b: ButtonBoxButton)
      modifies this
      ensures group == Without(old(group), b) + [b] && atCustomBtnHide == old(atCustomBtnHide)
    {
      group := Without(group, b) + [b];
    }

    /** Adds the non-null buttons of `list` to the group in turn and makes
        each checkable or not.  A button's checkable flag and its group
        membership are independent, so the flags are set in one simultaneous
        step after the group is built. */
    method AddAll(list: seq<ButtonBoxButton?>, checkable: bool)
      requires group == []
      modifies this, Buttons(list)
      ensures Valid() && group == Members(list) && atCustomBtnHide == old(atCustomBtnHide)
      ensures forall j :: 0 <= j < |list| && list[j] != null ==>
                list[j].Look() == old(list[j].Look()).(checkable := checkable)
    {
      var i := 0;
      while i < |list|
        invariant 0 <= i <= |list|
        invariant group == Members(list[..i]) && atCustomBtnHide == old(atCustomBtnHide)
        modifies this
      {
        MembersStep(list, i);
        if list[i] != null {
          AddButton(list[i]);
        }
        i := i + 1;
      }
      assert list[..i] == list;
      MembersExactly(list);
      forall j | 0 <= j < |list| && list[j] != null {
        list[j].checkable := checkable;
      }
    }

    /** Replaces the buttons of the box by the non-null buttons of `list`
        and rounds the outer corners.  The first entry and the entry whose
        right corners are rounded are used without a null check, so they
        must be buttons. */
    method SetButtonList(list: seq<ButtonBoxButton?>, checkable: bool, appName: string, sessionType: string)
      requires Valid()
      requires list != [] ==> (list[0] != null
                               && list[RightEnd(appName, sessionType, |list|, atCustomBtnHide)] != null)
      modifies this, Buttons(list)
      ensures Valid() && atCustomBtnHide == old(atCustomBtnHide)
      ensures list == [] ==> group == old(group)
      ensures list != [] ==> group == Members(list)
      ensures list != [] ==> forall i :: 0 <= i < |list| && list[i] != null ==>
                list[i].Look() == Arranged(old(list[i].Look()), checkable, list[i] == list[0],
                                           list[i] == list[RightEnd(appName, sessionType, |list|, atCustomBtnHide)])
    {
      if list == [] {
        return;
      }
      RemoveAll();
      AddAll(list, checkable);
      // wayland greeter with the custom button hidden: the button before last is the last one shown
      var end := if RoundsSecondToLast(appName, sessionType, |list|, atCustomBtnHide) then |list| - 2 else |list| - 1;
      RoundEnds(list, end);
    }
  }

  /** Rounds the left corners of the first button and the right corners of
      the button at `end`, setting the radius of each. */
  method RoundEnds(list: seq<ButtonBoxButton?>, end: int)
    requires list != [] && 0 <= end < |list| && list[0] != null && list[end] != null
    modifies list[0], list[end]
    ensures forall i :: 0 <= i < |list| && list[i] != null ==>
              list[i].Look() == Rounded(old(list[i].Look()), list[i] == list[0], list[i] == list[end])
  {
    var first, last := list[0], list[end];
    first.SetLeftRoundedEnabled(true);
    first.SetRadius(Radius);
    last.SetRightRoundedEnabled(true);
    last.SetRadius(Radius);
  }
}

/** The parts of DanmakuGlobalConfig that keep state consistent: the
    per-type visibility flags and the list of hidden types handed to the type
    filter, the on-screen limit and the filters it selects, and the style that
    sets the displayer's shadow and stroke switches. A setter returns the new
    configuration together with the calls it makes on the filter registry,
    which is not part of this model. */
module GlobalConfig {

  /** The comment types a visibility flag exists for. */
  datatype DanmakuType = FixTop | FixBottom | ScrollLR | ScrollRL | Special

  /** A call on the filter registry: new data for the type filter (the hidden
      types), unregistering the quantity or elapsed-time filter, registering
      the elapsed-time filter, or new data for the quantity filter. */
  datatype FilterCall =
    | SetTypeFilter(types: seq<DanmakuType>)
    | UnregisterQuantity
    | UnregisterElapsedTime
    | RegisterElapsedTime
    | SetQuantityFilter(maxSize: int)

  /** The displayer's global style switches, `CONFIG_HAS_SHADOW` and
      `CONFIG_HAS_STROKE`, and the stroke width last given to it. */
  datatype DisplayStyle = DisplayStyle(hasShadow: bool, hasStroke: bool, strokeWidth: real)

  /** The configuration fields the setters touch. */
  datatype Config = Config(
    ftVisible: bool,
    fbVisible: bool,
    l2rVisible: bool,
    r2lVisible: bool,
    specialVisible: bool,
    filterTypes: seq<DanmakuType>,
    maximumNumsInScreen: int,
    danmakuStyle: int)

  /** A fresh configuration: every type visible, nothing filtered, the
      on-screen limit on automatic (-1). */
  const Initial: Config := Config(true, true, true, true, true, [], -1, 0)

  const StyleDefault: int := -1
  const StyleNone: int := 0
  const StyleShadow: int := 1
  const StyleStroken: int := 2

  /** The visibility flag of a type. */
  function Visibility(c: Config, ty: DanmakuType): bool
  {
    match ty
    case FixTop => c.ftVisible
    case FixBottom => c.fbVisible
    case ScrollLR => c.l2rVisible
    case ScrollRL => c.r2lVisible
    case Special => c.specialVisible
  }

  /** The configuration with one type's flag set to `v`. */
  function WithVisibility(c: Config, ty: DanmakuType, v: bool): (r: Config)
    ensures Visibility(r, ty) == v
    ensures forall other :: other != ty ==> Visibility(r, other) == Visibility(c, other)
    ensures r.filterTypes == c.filterTypes
    ensures r.maximumNumsInScreen == c.maximumNumsInScreen && r.danmakuStyle == c.danmakuStyle
  {
    match ty
    case FixTop => c.(ftVisible := v)
    case FixBottom => c.(fbVisible := v)
    case ScrollLR => c.(l2rVisible := v)
    case ScrollRL => c.(r2lVisible := v)
    case Special => c.(specialVisible := v)
  }

  /** No type appears twice. */
  predicate NoDup(s: seq<DanmakuType>)
  {
    forall x :: multiset(s)[x] <= 1
  }

  /** `List.remove(Object)`: drop the first occurrence of `x`, if any, and
      keep everything else in order. */
  function RemoveFirst(s: seq<DanmakuType>, x: DanmakuType): (r: seq<DanmakuType>)
    ensures multiset(r) == multiset(s) - multiset{x}
    ensures x !in s ==> r == s
    ensures x in s ==> |r| == |s| - 1
  {
    if s == [] then []
    else
      assert s == [s[0]] + s[1..];
      if s[0] == x then s[1..] else [s[0]] + RemoveFirst(s[1..], x)
  }

  /** `RemoveFirst` removes exactly the first occurrence: the list before it
      and after it is kept as it was. */
  lemma {:induction false} RemoveFirstDropsFirstOccurrence(s: seq<DanmakuType>, x: DanmakuType)
    requires x in s
    ensures exists i :: 0 <= i < |s| && s[i] == x && x !in s[..i] && RemoveFirst(s, x) == s[..i] + s[i + 1..]
  {
    if s[0] == x {
      assert s[..0] == [] && s[1..] == s[..0] + s[0 + 1..];
    } else {
      var t := s[1..];
      assert x in t by {
        var k :| 0 <= k < |s| && s[k] == x;
        assert t[k - 1] == x;
      }
      RemoveFirstDropsFirstOccurrence(t, x);
      var i :| 0 <= i < |t| && t[i] == x && x !in t[..i] && RemoveFirst(t, x) == t[..i] + t[i + 1..];
      assert RemoveFirst(s, x) == [s[0]] + RemoveFirst(t, x);
      FirstOccurrenceStep(s, i);
      assert s[i + 1] == x && x !in s[..i + 1];
      assert RemoveFirst(s, x) == s[..i + 1] + s[i + 1 + 1..];
    }
  }

  /** Putting the head back in front of a split of the tail at `i` is the
      split of the whole list at `i + 1`. */
  lemma FirstOccurrenceStep(s: seq<DanmakuType>, i: nat)
    requires i < |s| - 1
    ensures s[..i + 1] == [s[0]] + s[1..][..i]
    ensures [s[0]] + (s[1..][..i] + s[1..][i + 1..]) == s[..i + 1] + s[i + 1 + 1..]
  {
    assert s[i + 1 + 1..] == s[1..][i + 1..];
  }

  /** `setVisible`: a visible type is removed from the list; a hidden one is
      appended unless already present. */
  function SetVisible(types: seq<DanmakuType>, visible: bool, ty: DanmakuType): (r: seq<DanmakuType>)
    ensures visible ==> multiset(r) == multiset(types) - multiset{ty}
    ensures !visible ==> ty in r && multiset(r) - multiset{ty} == multiset(types) - multiset{ty}
    ensures !visible && ty in types ==> r == types
  {
    if visible then RemoveFirst(types, ty)
    else if ty !in types then types + [ty]
    else types
  }

  /** On a list without duplicates, `setVisible` keeps it so, makes `ty` a
      member exactly when it is hidden, and changes no other type's
      membership. */
  lemma SetVisibleMembership(types: seq<DanmakuType>, visible: bool, ty: DanmakuType)
    requires NoDup(types)
    ensures var r := SetVisible(types, visible, ty);
            && NoDup(r)
            && (ty in r <==> !visible)
            && forall other :: other != ty ==> (other in r <==> other in types)
  {
    var r := SetVisible(types, visible, ty);
    if visible {
      assert multiset(r)[ty] == 0;
      forall other | other != ty
        ensures other in r <==> other in types
      {
        assert multiset(r)[other] == multiset(types)[other];
      }
    } else if ty !in types {
      assert multiset(r) == multiset(types) + multiset{ty};
    }
  }

  /** Without the no-duplicates invariant one removal is not enough: a type
      listed twice stays filtered after it is made visible. */
  lemma DuplicateSurvivesRemoval()
    ensures FixTop in SetVisible([FixTop, FixTop], true, FixTop)
  {
    assert SetVisible([FixTop, FixTop], true, FixTop) == [FixTop];
  }

  /** The flags and the filter list agree: a type is hidden exactly when it
      is listed, and no type is listed twice. */
  predicate Consistent(c: Config)
  {
    NoDup(c.filterTypes) && forall ty :: ty in c.filterTypes <==> !Visibility(c, ty)
  }

  lemma InitialConsistent()
    ensures Consistent(Initial)
  {
  }

  /** The common body of the five `set*DanmakuVisibility` setters for type
      `ty`: nothing happens when the flag already equals `v`; otherwise the
      flag is set, the list updated by `setVisible`, and the list handed to
      the type filter. */
  function SetDanmakuVisibility(c: Config, ty: DanmakuType, v: bool): (r: (Config, seq<FilterCall>))
    ensures Visibility(c, ty) == v ==> r == (c, [])
    ensures Visibility(c, ty) != v ==>
              && r.0.filterTypes == SetVisible(c.filterTypes, v, ty)
              && r.1 == [SetTypeFilter(r.0.filterTypes)]
    ensures Visibility(r.0, ty) == v
    ensures forall other :: other != ty ==> Visibility(r.0, other) == Visibility(c, other)
    ensures r.0.maximumNumsInScreen == c.maximumNumsInScreen && r.0.danmakuStyle == c.danmakuStyle
  {
    if Visibility(c, ty) == v then (c, [])
    else
      var c1 := WithVisibility(c, ty, v).(filterTypes := SetVisible(c.filterTypes, v, ty));
      (c1, [SetTypeFilter(c1.filterTypes)])
  }

  /** Every visibility setter keeps the flags and the filter list in
      agreement, and leaves the membership of every other type alone. */
  lemma {:induction false} VisibilityKeepsConsistent(c: Config, ty: DanmakuType, v: bool)
    ensures var r := SetDanmakuVisibility(c, ty, v).0;
            Consistent(c) ==>
              && Consistent(r)
              && forall other :: other != ty ==> (other in r.filterTypes <==> other in c.filterTypes)
  {
    if Consistent(c) && Visibility(c, ty) != v {
      SetVisibleMembership(c.filterTypes, v, ty);
    }
  }

  /** Any sequence of visibility setter calls on a consistent configuration
      keeps it consistent, and leaves the flag of every type it does not
      name as it was. */
  function ApplyVisibility(c: Config, changes: seq<(DanmakuType, bool)>): (r: Config)
    requires Consistent(c)
    ensures Consistent(r)
    ensures forall ty :: (forall k :: 0 <= k < |changes| ==> changes[k].0 != ty) ==>
              Visibility(r, ty) == Visibility(c, ty)
    decreases |changes|
  {
    if changes == [] then c
    else
      VisibilityKeepsConsistent(c, changes[0].0, changes[0].1);
      ApplyVisibility(SetDanmakuVisibility(c, changes[0].0, changes[0].1).0, changes[1..])
  }

  /** `setFTDanmakuVisibility`. */
  function SetFTDanmakuVisibility(c: Config, v: bool): (r: (Config, seq<FilterCall>))
    ensures r.0.ftVisible == v
    ensures r.0.fbVisible == c.fbVisible && r.0.l2rVisible == c.l2rVisible
    ensures r.0.r2lVisible == c.r2lVisible && r.0.specialVisible == c.specialVisible
    ensures Consistent(c) ==> Consistent(r.0) && (FixTop in r.0.filterTypes <==> !v)
  {
    VisibilityKeepsConsistent(c, FixTop, v);
    SetDanmakuVisibility(c, FixTop, v)
  }

  /** `setFBDanmakuVisibility`. */
  function SetFBDanmakuVisibility(c: Config, v: bool): (r: (Config, seq<FilterCall>))
    ensures r.0.fbVisible == v
    ensures r.0.ftVisible == c.ftVisible && r.0.l2rVisible == c.l2rVisible
    ensures r.0.r2lVisible == c.r2lVisible && r.0.specialVisible == c.specialVisible
    ensures Consistent(c) ==> Consistent(r.0) && (FixBottom in r.0.filterTypes <==> !v)
  {
    VisibilityKeepsConsistent(c, FixBottom, v);
    SetDanmakuVisibility(c, FixBottom, v)
  }

  /** `setL2RDanmakuVisibility`. */
  function SetL2RDanmakuVisibility(c: Config, v: bool): (r: (Config, seq<FilterCall>))
    ensures r.0.l2rVisible == v
    ensures r.0.ftVisible == c.ftVisible && r.0.fbVisible == c.fbVisible
    ensures r.0.r2lVisible == c.r2lVisible && r.0.specialVisible == c.specialVisible
    ensures Consistent(c) ==> Consistent(r.0) && (ScrollLR in r.0.filterTypes <==> !v)
  {
    VisibilityKeepsConsistent(c, ScrollLR, v);
    SetDanmakuVisibility(c, ScrollLR, v)
  }

  /** `setR2LDanmakuVisibility`. */
  function SetR2LDanmakuVisibility(c: Config, v: bool): (r: (Config, seq<FilterCall>))
    ensures r.0.r2lVisible == v
    ensures r.0.ftVisible == c.ftVisible && r.0.fbVisible == c.fbVisible
    ensures r.0.l2rVisible == c.l2rVisible && r.0.specialVisible == c.specialVisible
    ensures Consistent(c) ==> Consistent(r.0) && (ScrollRL in r.0.filterTypes <==> !v)
  {
    VisibilityKeepsConsistent(c, ScrollRL, v);
    SetDanmakuVisibility(c, ScrollRL, v)
  }

  /** `setSecialDanmakuVisibility`. */
  function SetSpecialDanmakuVisibility(c: Config, v: bool): (r: (Config, seq<FilterCall>))
    ensures r.0.specialVisible == v
    ensures r.0.ftVisible == c.ftVisible && r.0.fbVisible == c.fbVisible
    ensures r.0.l2rVisible == c.l2rVisible && r.0.r2lVisible == c.r2lVisible
    ensures Consistent(c) ==> Consistent(r.0) && (Special in r.0.filterTypes <==> !v)
  {
    VisibilityKeepsConsistent(c, Special, v);
    SetDanmakuVisibility(c, Special, v)
  }

  /** Hiding and then showing a type again restores a consistent
      configuration exactly: the same flags and the same filter list, in the
      same order. */
  lemma {:induction false} HideThenShow(c: Config, ty: DanmakuType)
    requires Consistent(c) && Visibility(c, ty)
    ensures var r := SetDanmakuVisibility(SetDanmakuVisibility(c, ty, false).0, ty, true).0;
            && Consistent(r)
            && r.filterTypes == c.filterTypes
            && forall t :: Visibility(r, t) == Visibility(c, t)
  {
    var c1 := SetDanmakuVisibility(c, ty, false).0;
    VisibilityKeepsConsistent(c, ty, false);
    VisibilityKeepsConsistent(c1, ty, true);
    assert c1.filterTypes == c.filterTypes + [ty];
    RemoveLastAppended(c.filterTypes, ty);
  }

  /** Removing a type just appended to a list that lacked it gives the list
      back. */
  lemma {:induction false} RemoveLastAppended(s: seq<DanmakuType>, x: DanmakuType)
    requires x !in s
    ensures RemoveFirst(s + [x], x) == s
    decreases |s|
  {
    if s != [] {
      assert (s + [x])[1..] == s[1..] + [x];
      RemoveLastAppended(s[1..], x);
    }
  }

  /** `setMaximumVisibleSizeInScreen`: the limit is always recorded; 0 (no
      limit) unregisters both the quantity and the elapsed-time filter, -1
      (automatic) unregisters the quantity filter and registers the
      elapsed-time one, and any other value becomes the quantity filter's
      data. */
  function SetMaximumVisibleSizeInScreen(c: Config, maxSize: int): (r: (Config, seq<FilterCall>))
    ensures r.0 == c.(maximumNumsInScreen := maxSize)
    ensures maxSize == 0 ==> r.1 == [UnregisterQuantity, UnregisterElapsedTime]
    ensures maxSize == -1 ==> r.1 == [UnregisterQuantity, RegisterElapsedTime]
    ensures maxSize != 0 && maxSize != -1 ==> r.1 == [SetQuantityFilter(maxSize)]
  {
    var c1 := c.(maximumNumsInScreen := maxSize);
    if maxSize == 0 then (c1, [UnregisterQuantity, UnregisterElapsedTime])
    else if maxSize == -1 then (c1, [UnregisterQuantity, RegisterElapsedTime])
    else (c1, [SetQuantityFilter(maxSize)])
  }

  /** The quantity filter receives data exactly when the limit is neither 0
      nor -1, and then only that limit; the special values always unregister
      the quantity filter. */
  lemma QuantityDataOnlyForExplicitLimits(c: Config, maxSize: int)
    ensures var calls := SetMaximumVisibleSizeInScreen(c, maxSize).1;
            && ((exists k :: 0 <= k < |calls| && calls[k].SetQuantityFilter?) <==> maxSize != 0 && maxSize != -1)
            && (forall k :: 0 <= k < |calls| && calls[k].SetQuantityFilter? ==> calls[k].maxSize == maxSize)
            && (UnregisterQuantity in calls <==> maxSize == 0 || maxSize == -1)
  {
    var calls := SetMaximumVisibleSizeInScreen(c, maxSize).1;
    if maxSize != 0 && maxSize != -1 {
      assert calls[0].SetQuantityFilter?;
    }
  }

  /** `setDanmakuStyle`: the style is always recorded; NONE clears both
      switches, SHADOW turns on only the shadow, DEFAULT and STROKEN turn on
      only the stroke and take the new stroke width, and any other style
      leaves the switches and width alone. */
  function SetDanmakuStyle(c: Config, d: DisplayStyle, style: int, size: real): (r: (Config, DisplayStyle))
    ensures r.0 == c.(danmakuStyle := style)
    ensures style == StyleNone ==> !r.1.hasShadow && !r.1.hasStroke
    ensures style == StyleShadow ==> r.1.hasShadow && !r.1.hasStroke
    ensures style == StyleDefault || style == StyleStroken ==>
              !r.1.hasShadow && r.1.hasStroke && r.1.strokeWidth == size
    ensures style != StyleDefault && style != StyleStroken ==> r.1.strokeWidth == d.strokeWidth
    ensures style !in {StyleDefault, StyleNone, StyleShadow, StyleStroken} ==> r.1 == d
  {
    var c1 := c.(danmakuStyle := style);
    if style == StyleNone then (c1, d.(hasShadow := false, hasStroke := false))
    else if style == StyleShadow then (c1, d.(hasShadow := true, hasStroke := false))
    else if style == StyleDefault || style == StyleStroken then (c1, DisplayStyle(false, true, size))
    else (c1, d)
  }

  /** Shadow and stroke are never switched on together by a style that is
      not ignored, and the switches a known style sets do not depend on the
      switches before it. */
  lemma StyleSwitchesExclusive(c: Config, d: DisplayStyle, e: DisplayStyle, style: int, size: real)
    requires style in {StyleDefault, StyleNone, StyleShadow, StyleStroken}
    ensures var r := SetDanmakuStyle(c, d, style, size).1;
            var q := SetDanmakuStyle(c, e, style, size).1;
            && !(r.hasShadow && r.hasStroke)
            && r.hasShadow == q.hasShadow && r.hasStroke == q.hasStroke
  {
  }

  /** Setting the same style twice is the same as setting it once. */
  lemma SetDanmakuStyleIdempotent(c: Config, d: DisplayStyle, style: int, size: real)
    ensures var r := SetDanmakuStyle(c, d, style, size);
            SetDanmakuStyle(r.0, r.1, style, size) == r
  {
  }
}

/** The older, tiered pointer-accuracy classifier of pointeraccuracy.src.js
    (version 0.1.0).

    With no native `pointer` result it falls back on three tiers, in order: a
    double device pixel ratio means coarse; otherwise the screen-width tier
    decides ('small' is coarse, 'medium' is coarse only with touch support,
    anything else is fine). The width tier is a fourth field, `resolution`,
    written by `classifyScreenSize` from three width media queries.

    The object's listener and mode fields behave exactly as in the current
    version, so this module reuses its `State`, `Notification` and
    `SetPointerModeStep`. */
module LegacyPointerAccuracy {
  import opened Wrappers
  import opened Browser
  import opened PointerAccuracy

  /** The screen-width tiers: the strings 'small', 'medium' and 'large'. */
  datatype Resolution = Small | Medium | Large

  const SmallScreenQuery: string := "screen and (max-width: 1023px)"
  const MediumScreenQuery: string := "screen and (min-width: 1024px) and (max-width: 1280px)"
  const LargeScreenQuery: string := "screen and (min-width: 1281px)"

  /** The four spellings of "device pixel ratio at least 2" the classifier
      asks: WebKit's, the unprefixed draft one, the standard `min-resolution`
      and Opera's. */
  const WebkitDprQuery: string := "screen and (-webkit-min-device-pixel-ratio: 2)"
  const DraftDprQuery: string := "screen and (min-device-pixel-ratio: 2)"
  const ResolutionDprQuery: string := "screen and (min-resolution: 2dppx)"
  const OperaDprQuery: string := "screen and (-o-min-device-pixel-ratio: 2/1)"
  const DoubleDprQueries: set<string> := {WebkitDprQuery, DraftDprQuery, ResolutionDprQuery, OperaDprQuery}

  /** The object's four fields: the three of the current version and the
      width tier. */
  datatype LegacyState = LegacyState(core: State, resolution: Option<Resolution>)

  datatype LegacyStep = LegacyStep(state: LegacyState, fired: seq<Notification>)

  const LegacyUnset: LegacyState := LegacyState(Unset, None)

  /** `classifyScreenSize`: the first width query that matches sets the tier;
      when none matches, the stored tier `prev` stays. */
  function ScreenSize(env: Env, prev: Option<Resolution>): (r: Option<Resolution>)
    ensures r == Some(Small) <==>
              Matches(env, SmallScreenQuery)
              || (NoWidthQueryMatches(env) && prev == Some(Small))
    ensures r == Some(Medium) <==>
              (!Matches(env, SmallScreenQuery) && Matches(env, MediumScreenQuery))
              || (NoWidthQueryMatches(env) && prev == Some(Medium))
    ensures r == Some(Large) <==>
              (!Matches(env, SmallScreenQuery) && !Matches(env, MediumScreenQuery)
               && Matches(env, LargeScreenQuery))
              || (NoWidthQueryMatches(env) && prev == Some(Large))
    ensures NoWidthQueryMatches(env) ==> r == prev
  {
    if Matches(env, SmallScreenQuery) then Some(Small)
    else if Matches(env, MediumScreenQuery) then Some(Medium)
    else if Matches(env, LargeScreenQuery) then Some(Large)
    else prev
  }

  predicate NoWidthQueryMatches(env: Env) {
    !Matches(env, SmallScreenQuery) && !Matches(env, MediumScreenQuery) && !Matches(env, LargeScreenQuery)
  }

  /** `hasDoubleDevicePixelRatio`: true exactly when at least one of the four
      pixel-ratio queries matches. */
  function HasDoubleDevicePixelRatio(env: Env): (r: bool)
    ensures r <==> DoubleDprQueries * env.matching != {}
  {
    var found := Matches(env, WebkitDprQuery) || Matches(env, DraftDprQuery)
                 || Matches(env, ResolutionDprQuery) || Matches(env, OperaDprQuery);
    assert found ==>
      (if Matches(env, WebkitDprQuery) then WebkitDprQuery
       else if Matches(env, DraftDprQuery) then DraftDprQuery
       else if Matches(env, ResolutionDprQuery) then ResolutionDprQuery
       else OperaDprQuery) in DoubleDprQueries * env.matching;
    found
  }

  /** The fallback tiers of `classify`, used when there is no native result:
      a double pixel ratio means coarse whatever else holds; otherwise the
      result is coarse exactly for a small screen, or a medium one with touch
      support. Every other tier, including an unset one, is fine. */
  function FallbackTiers(doubleDpr: bool, res: Option<Resolution>, touch: bool): (m: Mode)
    ensures doubleDpr ==> m == Coarse
    ensures !doubleDpr ==> (m == Coarse <==> res == Some(Small) || (res == Some(Medium) && touch))
  {
    if doubleDpr then Coarse
    else if res == Some(Small) then Coarse
    else if res == Some(Medium) then (if touch then Coarse else Fine)
    else Fine
  }

  /** The decision of `classify` as written: with a native result stored, the
      source reads an undeclared variable and throws a ReferenceError before
      any mode is set (`None`); otherwise the fallback tiers decide. */
  function LegacyDecideAsWritten(native: Option<Mode>, doubleDpr: bool, res: Option<Resolution>, touch: bool): (r: Option<Mode>)
    ensures r.None? <==> native.Some?
    ensures native.None? ==> r == Some(FallbackTiers(doubleDpr, res, touch))
  {
    if native.Some? then None
    else Some(FallbackTiers(doubleDpr, res, touch))
  }

  /** The decision of `classify` as intended: the native result wins when
      there is one, as its comment says and the current version does;
      otherwise the fallback tiers decide. The class below uses this one. */
  function LegacyDecide(native: Option<Mode>, doubleDpr: bool, res: Option<Resolution>, touch: bool): (m: Mode)
    ensures native.Some? ==> m == native.value
    ensures native.None? ==> m == FallbackTiers(doubleDpr, res, touch)
  {
    if native.Some? then native.value
    else FallbackTiers(doubleDpr, res, touch)
  }

  /** `classify`: derive the mode from the tiers and store it through
      `setPointerMode`; the width tier is only read. */
  function LegacyClassifyStep(s: LegacyState, env: Env): (r: LegacyStep)
    ensures r.state.resolution == s.resolution
    ensures r.state.core.native == s.core.native && r.state.core.listener == s.core.listener
    ensures r.state.core.mode.Some?
    ensures s.core.native.None? && HasDoubleDevicePixelRatio(env) ==> r.state.core.mode == Some(Coarse)
    ensures r.state.core.mode
            == Some(LegacyDecide(s.core.native, HasDoubleDevicePixelRatio(env), s.resolution, HasTouchSupport(env)))
    ensures r.fired == if r.state.core.mode != s.core.mode && s.core.listener.Some?
                       then [Notification(s.core.listener.value, r.state.core.mode.value)]
                       else []
  {
    var m := LegacyDecide(s.core.native, HasDoubleDevicePixelRatio(env), s.resolution, HasTouchSupport(env));
    var step := SetPointerModeStep(s.core, m);
    LegacyStep(LegacyState(step.state, s.resolution), step.fired)
  }

  /** `init(cb)`: store `cb` as the listener, run the native probe (keeping
      an earlier native value when neither query matches), classify the
      screen width, then classify once. */
  function LegacyInitStep(s: LegacyState, env: Env, cb: Option<CallbackId>): (r: LegacyStep)
    ensures r.state.core.listener == cb
    ensures r.state.core.native == ProbeNative(env, s.core.native)
    ensures r.state.resolution == ScreenSize(env, s.resolution)
    ensures r.state.core.mode.Some?
    ensures forall n :: n in r.fired ==> Some(n.callback) == cb
    ensures r.state.core.mode
            == Some(LegacyDecide(ProbeNative(env, s.core.native), HasDoubleDevicePixelRatio(env),
                                 ScreenSize(env, s.resolution), HasTouchSupport(env)))
    ensures r.fired == if r.state.core.mode != s.core.mode && cb.Some?
                       then [Notification(cb.value, r.state.core.mode.value)]
                       else []
  {
    var probed := LegacyState(s.core.(listener := cb, native := ProbeNative(env, s.core.native)),
                              ScreenSize(env, s.resolution));
    LegacyClassifyStep(probed, env)
  }

  /** The older pointer-accuracy object. `notified` records every call of the
      listener, in order. */
  class LegacyClassifier {
    var listener: Option<CallbackId>
    var resolution: Option<Resolution>
    var pointerModeNative: Option<Mode>
    var pointerMode: Option<Mode>
    ghost var notified: seq<Notification>

    function Snapshot(): LegacyState
      reads this
    {
      LegacyState(State(pointerModeNative, pointerMode, listener), resolution)
    }

    constructor ()
      ensures Snapshot() == LegacyUnset
      ensures notified == []
    {
      listener, resolution, pointerModeNative, pointerMode := None, None, None, None;
      notified := [];
    }

    method Init(env: Env, cb: Option<CallbackId>)
      modifies this
      ensures Snapshot() == LegacyInitStep(old(Snapshot()), env, cb).state
      ensures notified == old(notified) + LegacyInitStep(old(Snapshot()), env, cb).fired
    {
      listener := cb;
      if Matches(env, FineQuery) {
        pointerModeNative := Some(Fine);
      } else if Matches(env, CoarseQuery) {
        pointerModeNative := Some(Coarse);
      }
      ClassifyScreenSize(env);
      Classify(env);
    }

    method Classify(env: Env)
      modifies this
      ensures Snapshot() == LegacyClassifyStep(old(Snapshot()), env).state
      ensures notified == old(notified) + LegacyClassifyStep(old(Snapshot()), env).fired
    {
      var mode: Mode;
      if pointerModeNative.Some? {
        mode := pointerModeNative.value;
      } else if HasDoubleDevicePixelRatio(env) {
        mode := Coarse;
      } else if resolution == Some(Small) {
        mode := Coarse;
      } else if resolution == Some(Medium) {
        if HasTouchSupport(env) {
          mode := Coarse;
        } else {
          mode := Fine;
        }
      } else {
        mode := Fine;
      }
      SetPointerMode(mode);
    }

    method ClassifyScreenSize(env: Env)
      modifies this`resolution
      ensures resolution == ScreenSize(env, old(resolution))
    {
      if Matches(env, SmallScreenQuery) {
        resolution := Some(Small);
      } else if Matches(env, MediumScreenQuery) {
        resolution := Some(Medium);
      } else if Matches(env, LargeScreenQuery) {
        resolution := Some(Large);
      }
    }

    method SetListener(cb: Option<CallbackId>)
      modifies this`listener
      ensures Snapshot().core == SetModeListenerStep(old(Snapshot()).core, cb).state
      ensures resolution == old(resolution) && notified == old(notified)
    {
      listener := cb;
    }

    method SetPointerMode(mode: Mode)
      modifies this`pointerMode, this`notified
      ensures Snapshot().core == SetPointerModeStep(old(Snapshot()).core, mode).state
      ensures notified == old(notified) + SetPointerModeStep(old(Snapshot()).core, mode).fired
      ensures resolution == old(resolution)
    {
      if pointerMode != Some(mode) {
        pointerMode := Some(mode);
        if listener.Some? {
          notified := notified + [Notification(listener.value, mode)];
        }
      }
    }
  }

  // ---------------------------------------------------------------------
  // The width tiers

  /** A screen whose viewport is `w` CSS pixels wide: each width query
      matches exactly when its range contains `w`. Widths are real numbers,
      as CSS pixels may be fractional under zoom. */
  predicate ScreenOfWidth(env: Env, w: real) {
    && (Matches(env, SmallScreenQuery) <==> w <= 1023.0)
    && (Matches(env, MediumScreenQuery) <==> 1024.0 <= w <= 1280.0)
    && (Matches(env, LargeScreenQuery) <==> 1281.0 <= w)
  }

  /** The tier an integer width belongs to. */
  function TierOfWidth(w: int): Resolution {
    if w <= 1023 then Small
    else if w <= 1280 then Medium
    else Large
  }

  /** On a screen of integer width exactly one width query matches, and
      `classifyScreenSize` stores the tier of that width, whatever was
      stored before. */
  lemma ScreenSizeByIntegerWidth(env: Env, w: int, prev: Option<Resolution>)
    requires ScreenOfWidth(env, w as real)
    ensures var small, medium, large :=
              Matches(env, SmallScreenQuery), Matches(env, MediumScreenQuery), Matches(env, LargeScreenQuery);
            (small && !medium && !large) || (!small && medium && !large) || (!small && !medium && large)
    ensures ScreenSize(env, prev) == Some(TierOfWidth(w))
  {
  }

  /** A fractional width inside one of the two gaps between the ranges (for
      example 1023.5 pixels) matches no width query, so the stored tier stays
      what it was, possibly unset. */
  lemma ScreenSizeKeepsTierInGaps(env: Env, w: real, prev: Option<Resolution>)
    requires ScreenOfWidth(env, w)
    requires 1023.0 < w < 1024.0 || 1280.0 < w < 1281.0
    ensures NoWidthQueryMatches(env)
    ensures ScreenSize(env, prev) == prev
  {
  }

  // ---------------------------------------------------------------------
  // The fallback tiers

  /** With no native result and no double pixel ratio, a large screen and a
      screen whose tier is still unset are both fine, whatever touch support
      says. */
  lemma LargeOrUnsetIsFine(touch: bool)
    ensures FallbackTiers(false, Some(Large), touch) == Fine
    ensures FallbackTiers(false, None, touch) == Fine
  {
  }

  /** The defect of `classify` as written: with a native result stored, it
      throws instead of reporting it, while the intended decision reports the
      native value. */
  lemma NativeBranchThrowsAsWritten(dpr: bool, res: Option<Resolution>, touch: bool)
    ensures LegacyDecideAsWritten(Some(Fine), dpr, res, touch) == None
    ensures LegacyDecide(Some(Fine), dpr, res, touch) == Fine
  {
  }

  /** Where the written code runs to completion, it agrees with the intended
      decision. */
  lemma AsWrittenAgreesWithoutNative(dpr: bool, res: Option<Resolution>, touch: bool)
    ensures LegacyDecideAsWritten(None, dpr, res, touch) == Some(LegacyDecide(None, dpr, res, touch))
  {
  }

  /** `init` on the fresh object always calls the listener it is given
      exactly once, with the mode it stores. */
  lemma InitNotifiesNewListenerOnce(env: Env, cb: CallbackId)
    ensures LegacyInitStep(LegacyUnset, env, Some(cb)).fired
            == [Notification(cb, LegacyInitStep(LegacyUnset, env, Some(cb)).state.core.mode.value)]
  {
  }

  /** Re-running `init` in the same environment with the same listener
      changes nothing and notifies nobody. */
  lemma LegacyInitIsIdempotent(s: LegacyState, env: Env, cb: Option<CallbackId>)
    ensures LegacyInitStep(LegacyInitStep(s, env, cb).state, env, cb)
            == LegacyStep(LegacyInitStep(s, env, cb).state, [])
  {
  }
}

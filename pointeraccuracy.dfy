/** The pointer-accuracy classifier of src/pointeraccuracy.js (version 0.9.2).

    It approximates the `pointer` media feature of W3C Media Queries Level 4
    (section 7.1): it reports `'fine'` (mouse, stylus) or `'coarse'` (touch).
    The native `(pointer:fine)` / `(pointer:coarse)` queries decide when they
    match; otherwise touch support decides. The object keeps the native
    result, the current mode and a single listener slot, and it notifies the
    listener only when the mode actually changes.

    The pure functions below (`ProbeNative`, `Decide` and the `...Step`
    functions over `State`) say what each operation does to the object's
    fields; the class `Classifier` is the object itself, and each of its
    methods is proved to move its fields exactly as the matching step function
    says. The trace lemmas at the end are about repeated classification, the
    way the host calls it again after an environment change. */
module PointerAccuracy {
  import opened Wrappers
  import opened Browser

  /** The two values the classifier reports: the strings 'fine' and 'coarse'. */
  datatype Mode = Fine | Coarse

  const FineQuery: string := "(pointer:fine)"
  const CoarseQuery: string := "(pointer:coarse)"

  /** The two window properties that signal touch support: the standard one
      and the legacy one of Internet Explorer 10. */
  const TouchIndicators: set<string> := {"ontouchstart", "onmsgesturechange"}

  /** Which callback a listener slot holds. The slot counts as registered only
      when it holds a function; any other value (`null`, a string, ...) is
      `None` here, since the source skips the call for it. */
  type CallbackId = nat

  /** One call of the listener: which callback was called, with which mode. */
  datatype Notification = Notification(callback: CallbackId, mode: Mode)

  /** The object's three fields. */
  datatype State = State(native: Option<Mode>, mode: Option<Mode>, listener: Option<CallbackId>)

  /** The fields after an operation, and the listener calls it made, in order. */
  datatype Step = Step(state: State, fired: seq<Notification>)

  /** The object as the script creates it: every field `null`. */
  const Unset: State := State(None, None, None)

  /** `hasTouchSupport`: touch is supported when at least one of the two
      touch indicators is present on `window`. */
  function HasTouchSupport(env: Env): (r: bool)
    ensures r <==> TouchIndicators * env.windowProps != {}
  {
    var found := InWindow(env, "ontouchstart") || InWindow(env, "onmsgesturechange");
    assert found ==> (if InWindow(env, "ontouchstart") then "ontouchstart" else "onmsgesturechange") in TouchIndicators * env.windowProps;
    found
  }

  /** The native probe of `init`: `(pointer:fine)` is asked first, then
      `(pointer:coarse)`; when neither matches, the stored value `prev` stays. */
  function ProbeNative(env: Env, prev: Option<Mode>): (r: Option<Mode>)
    ensures r == Some(Fine) <==>
              Matches(env, FineQuery) || (!Matches(env, CoarseQuery) && prev == Some(Fine))
    ensures r == Some(Coarse) <==>
              !Matches(env, FineQuery) && (Matches(env, CoarseQuery) || prev == Some(Coarse))
    ensures r == None <==>
              !Matches(env, FineQuery) && !Matches(env, CoarseQuery) && prev == None
  {
    if Matches(env, FineQuery) then Some(Fine)
    else if Matches(env, CoarseQuery) then Some(Coarse)
    else prev
  }

  /** The decision tree of `classify`: the native result wins when there is
      one; otherwise touch support means coarse and its absence fine. */
  function Decide(native: Option<Mode>, touch: bool): (m: Mode)
    ensures native.Some? ==> m == native.value
    ensures native.None? ==> (m == Coarse <==> touch)
  {
    if native.Some? then native.value
    else if touch then Coarse
    else Fine
  }

  /** `setPointerMode(m)`: the stored mode becomes `m`; the registered
      listener, if any, is called once with `m`, and only when `m` differs
      from the mode stored before. */
  function SetPointerModeStep(s: State, m: Mode): (r: Step)
    ensures r.state.mode == Some(m)
    ensures r.state.native == s.native && r.state.listener == s.listener
    ensures s.mode == Some(m) ==> r.state == s
    ensures r.fired != [] <==> s.mode != Some(m) && s.listener.Some?
    ensures r.fired != [] ==> r.fired == [Notification(s.listener.value, m)]
  {
    if s.mode == Some(m) then Step(s, [])
    else
      var fired := if s.listener.Some? then [Notification(s.listener.value, m)] else [];
      Step(s.(mode := Some(m)), fired)
  }

  /** `classify`: derive the mode from the native result and touch support,
      then store it through `setPointerMode`. */
  function ClassifyStep(s: State, env: Env): (r: Step)
    ensures r.state.mode.Some?
    ensures s.native.Some? ==> r.state.mode == s.native
    ensures s.native.None? ==> (r.state.mode == Some(Coarse) <==> HasTouchSupport(env))
    ensures r.state.native == s.native && r.state.listener == s.listener
    ensures r.fired == if r.state.mode != s.mode && s.listener.Some?
                       then [Notification(s.listener.value, r.state.mode.value)]
                       else []
  {
    SetPointerModeStep(s, Decide(s.native, HasTouchSupport(env)))
  }

  /** `init`: run the native probe, keeping any earlier native value when
      neither query matches, then classify once. */
  function InitStep(s: State, env: Env): (r: Step)
    ensures r.state.mode.Some?
    ensures r.state.native == ProbeNative(env, s.native)
    ensures r.state.listener == s.listener
    ensures Matches(env, FineQuery) ==> r.state.mode == Some(Fine)
    ensures !Matches(env, FineQuery) && Matches(env, CoarseQuery) ==> r.state.mode == Some(Coarse)
    ensures !Matches(env, FineQuery) && !Matches(env, CoarseQuery) && s.native.None? ==>
              (r.state.mode == Some(Coarse) <==> HasTouchSupport(env))
    ensures r.state.mode == Some(Decide(ProbeNative(env, s.native), HasTouchSupport(env)))
    ensures r.fired == if r.state.mode != s.mode && s.listener.Some?
                       then [Notification(s.listener.value, r.state.mode.value)]
                       else []
  {
    ClassifyStep(s.(native := ProbeNative(env, s.native)), env)
  }

  /** `setModeListener(cb)`: only the listener slot changes, and nobody is
      notified. */
  function SetModeListenerStep(s: State, cb: Option<CallbackId>): (r: Step)
    ensures r.fired == []
    ensures r.state.listener == cb
    ensures r.state.native == s.native && r.state.mode == s.mode
  {
    Step(s.(listener := cb), [])
  }

  /** The pointer-accuracy object. `notified` records every call of the
      listener, in order. */
  class Classifier {
    var listener: Option<CallbackId>
    var pointerModeNative: Option<Mode>
    var pointerMode: Option<Mode>
    ghost var notified: seq<Notification>

    function Snapshot(): State
      reads this
    {
      State(pointerModeNative, pointerMode, listener)
    }

    constructor ()
      ensures Snapshot() == Unset
      ensures notified == []
    {
      listener, pointerModeNative, pointerMode := None, None, None;
      notified := [];
    }

    method Init(env: Env)
      modifies this
      ensures Snapshot() == InitStep(old(Snapshot()), env).state
      ensures notified == old(notified) + InitStep(old(Snapshot()), env).fired
    {
      if Matches(env, FineQuery) {
        pointerModeNative := Some(Fine);
      } else if Matches(env, CoarseQuery) {
        pointerModeNative := Some(Coarse);
      }
      Classify(env);
    }

    method Classify(env: Env)
      modifies this
      ensures Snapshot() == ClassifyStep(old(Snapshot()), env).state
      ensures notified == old(notified) + ClassifyStep(old(Snapshot()), env).fired
    {
      var mode: Mode;
      if pointerModeNative.Some? {
        mode := pointerModeNative.value;
      } else if HasTouchSupport(env) {
        mode := Coarse;
      } else {
        mode := Fine;
      }
      SetPointerMode(mode);
    }

    method SetModeListener(cb: Option<CallbackId>)
      modifies this`listener
      ensures Snapshot() == SetModeListenerStep(old(Snapshot()), cb).state
      ensures notified == old(notified)
    {
      listener := cb;
    }

    method SetPointerMode(mode: Mode)
      modifies this`pointerMode, this`notified
      ensures Snapshot() == SetPointerModeStep(old(Snapshot()), mode).state
      ensures notified == old(notified) + SetPointerModeStep(old(Snapshot()), mode).fired
    {
      if pointerMode != Some(mode) {
        pointerMode := Some(mode);
        if listener.Some? {
          notified := notified + [Notification(listener.value, mode)];
        }
      }
    }

    /** `getPointerMode`: the stored mode, unset until the first
        classification. */
    function GetPointerMode(): (m: Option<Mode>)
      reads this
      ensures m == Snapshot().mode
    {
      pointerMode
    }

    /** `isPointerFine` */
    function IsPointerFine(): (r: bool)
      reads this
      ensures r <==> pointerMode == Some(Fine)
      ensures pointerMode.None? ==> !r
    {
      pointerMode == Some(Fine)
    }

    /** `isPointerCoarse`: never true together with `isPointerFine`; once a
        mode is stored, exactly one of the two holds. */
    function IsPointerCoarse(): (r: bool)
      reads this
      ensures pointerMode.None? ==> !r
      ensures r ==> !IsPointerFine()
      ensures pointerMode.Some? ==> (r <==> !IsPointerFine())
    {
      match pointerMode
      case Some(Coarse) => true
      case _ => false
    }
  }

  // ---------------------------------------------------------------------
  // Properties of single operations

  /** Both native queries matching gives 'fine': fine is asked first. */
  lemma FineQueryWinsOverCoarse(s: State, env: Env)
    requires Matches(env, FineQuery) && Matches(env, CoarseQuery)
    ensures InitStep(s, env).state.native == Some(Fine)
    ensures InitStep(s, env).state.mode == Some(Fine)
  {
  }

  /** Running `init` a second time in the same environment changes nothing
      and notifies nobody. */
  lemma InitIsIdempotent(s: State, env: Env)
    ensures InitStep(InitStep(s, env).state, env) == Step(InitStep(s, env).state, [])
  {
  }

  /** A second `classify` in the same environment changes nothing and
      notifies nobody. */
  lemma ClassifyIsIdempotent(s: State, env: Env)
    ensures ClassifyStep(ClassifyStep(s, env).state, env) == Step(ClassifyStep(s, env).state, [])
  {
  }

  /** With a native result stored, touch support has no effect on `classify`. */
  lemma NativeIgnoresTouch(s: State, env1: Env, env2: Env)
    requires s.native.Some?
    ensures ClassifyStep(s, env1) == ClassifyStep(s, env2)
  {
  }

  /** The scenario: neither native query matches, touch is present, a listener
      is registered on the fresh object; `init` stores 'coarse' and calls the
      listener exactly once, with 'coarse'. */
  lemma TouchOnlyScenario(env: Env, cb: CallbackId)
    requires !Matches(env, FineQuery) && !Matches(env, CoarseQuery)
    requires HasTouchSupport(env)
    ensures InitStep(SetModeListenerStep(Unset, Some(cb)).state, env)
            == Step(State(None, Some(Coarse), Some(cb)), [Notification(cb, Coarse)])
  {
  }

  // ---------------------------------------------------------------------
  // Repeated classification

  /** `classify` run once in each environment of `envs`, in order, as the host
      does after each environment change. */
  function Reclassify(s: State, envs: seq<Env>): (r: Step)
    ensures r.state.native == s.native && r.state.listener == s.listener
    ensures envs != [] ==> r.state.mode == Some(Decide(s.native, HasTouchSupport(envs[|envs| - 1])))
    ensures envs == [] ==> r == Step(s, [])
    ensures s.listener.None? ==> r.fired == []
    ensures s.listener.Some? && r.fired == [] ==> r.state.mode == s.mode
    ensures |r.fired| <= |envs|
    decreases |envs|
  {
    if envs == [] then Step(s, [])
    else
      var first := ClassifyStep(s, envs[0]);
      var rest := Reclassify(first.state, envs[1..]);
      Step(rest.state, first.fired + rest.fired)
  }

  /** No two consecutive notifications carry the same mode. */
  predicate NoRepeatedModes(ns: seq<Notification>) {
    forall i :: 0 < i < |ns| ==> ns[i - 1].mode != ns[i].mode
  }

  /** Over any run of reclassifications, every listener call goes to the
      callback registered when the run started. */
  lemma {:induction false} ReclassifyNotifiesRegistered(s: State, envs: seq<Env>)
    ensures forall n :: n in Reclassify(s, envs).fired ==> Some(n.callback) == s.listener
    decreases |envs|
  {
    if envs != [] {
      ReclassifyNotifiesRegistered(ClassifyStep(s, envs[0]).state, envs[1..]);
    }
  }

  /** Over any run of reclassifications, the listener sees only changes: the
      first call differs from the mode stored before the run, no two
      consecutive calls carry the same mode, and the last call carries the
      final mode. */
  lemma {:induction false} ReclassifyNotifiesOnlyChanges(s: State, envs: seq<Env>)
    ensures NoRepeatedModes(Reclassify(s, envs).fired)
    ensures Reclassify(s, envs).fired != [] ==> Some(Reclassify(s, envs).fired[0].mode) != s.mode
    ensures Reclassify(s, envs).fired != [] ==>
              Some(Last(Reclassify(s, envs).fired).mode) == Reclassify(s, envs).state.mode
    decreases |envs|
  {
    if envs != [] {
      var first := ClassifyStep(s, envs[0]);
      var rest := Reclassify(first.state, envs[1..]);
      ReclassifyNotifiesOnlyChanges(first.state, envs[1..]);
      var fired := first.fired + rest.fired;
      assert Reclassify(s, envs) == Step(rest.state, fired);
      if first.fired != [] {
        if rest.fired != [] {
          assert Last(fired) == Last(rest.fired);
          NoRepeatedModesAppend(first.fired, rest.fired);
        } else {
          assert fired == first.fired;
        }
      } else {
        assert fired == rest.fired;
        if rest.fired != [] {
          assert first.state.mode == s.mode;
        }
      }
    }
  }

  function Last(ns: seq<Notification>): Notification
    requires ns != []
  {
    ns[|ns| - 1]
  }

  /** Helper: a single call followed by a run that starts with a different
      mode has no repeats when the run has none. */
  lemma NoRepeatedModesAppend(a: seq<Notification>, b: seq<Notification>)
    requires |a| == 1 && b != [] && b[0].mode != a[0].mode
    requires NoRepeatedModes(b)
    ensures NoRepeatedModes(a + b)
  {
  }

  /** With a listener registered, a run of reclassifications calls it at all
      exactly when, in some environment of the run, `classify` derives a mode
      other than the one stored before the run. */
  lemma {:induction false} ReclassifySilentIffNoChange(s: State, envs: seq<Env>)
    requires s.listener.Some?
    ensures Reclassify(s, envs).fired == [] <==>
            forall e :: e in envs ==> Some(Decide(s.native, HasTouchSupport(e))) == s.mode
    decreases |envs|
  {
    if envs != [] {
      var first := ClassifyStep(s, envs[0]);
      ReclassifySilentIffNoChange(first.state, envs[1..]);
      assert Reclassify(s, envs).fired == first.fired + Reclassify(first.state, envs[1..]).fired;
      assert forall e :: e in envs <==> e == envs[0] || e in envs[1..];
      if first.fired == [] {
        assert first.state == s;
      }
    }
  }

  /** With a native result stored, a whole run of reclassifications, whatever
      the touch signals do, calls the listener at most once, only with the
      native value, and not at all when that value is already the mode. */
  lemma {:induction false} NativeRunNotifiesAtMostOnce(s: State, envs: seq<Env>)
    requires s.native.Some?
    ensures |Reclassify(s, envs).fired| <= 1
    ensures forall n :: n in Reclassify(s, envs).fired ==> n.mode == s.native.value
    ensures s.mode == s.native ==> Reclassify(s, envs).fired == []
    decreases |envs|
  {
    if envs != [] {
      var first := ClassifyStep(s, envs[0]);
      NativeRunNotifiesAtMostOnce(first.state, envs[1..]);
      assert Reclassify(s, envs).fired == first.fired + Reclassify(first.state, envs[1..]).fired;
    }
  }

  /** After one `classify`, further reclassifications in environments with
      the same touch support change nothing and never call the listener
      again. */
  lemma {:induction false} RepeatedClassifyIsSilent(s: State, env: Env, envs: seq<Env>)
    requires forall e :: e in envs ==> HasTouchSupport(e) == HasTouchSupport(env)
    ensures Reclassify(ClassifyStep(s, env).state, envs) == Step(ClassifyStep(s, env).state, [])
    decreases |envs|
  {
    if envs != [] {
      var t := ClassifyStep(s, env).state;
      assert envs[0] in envs;
      assert ClassifyStep(t, envs[0]) == ClassifyStep(t, env);
      ClassifyIsIdempotent(s, env);
      assert forall e :: e in envs[1..] ==> e in envs;
      RepeatedClassifyIsSilent(s, env, envs[1..]);
    }
  }
}

# pointeraccuracy.js in Dafny

`Pointeraccuracy` is a heuristic classifier. It decides whether the user's
pointing device is `'fine'` (mouse, stylus) or `'coarse'` (touch). It
approximates the `pointer` media feature of W3C Media Queries Level 4
(section 7.1). The native `(pointer:fine)` and `(pointer:coarse)` queries
decide when the browser supports them. Otherwise touch support decides. The
object keeps the native result, the current mode and a single listener slot.
It calls the listener only when the mode actually changes.

The repository holds two versions, and both are modelled:

- `pointeraccuracy.dfy`, module `PointerAccuracy`: the current version
  (`src/pointeraccuracy.js`, 0.9.2).
- `pointeraccuracy_src.dfy`, module `LegacyPointerAccuracy`: the older tiered
  version (`pointeraccuracy.src.js`, 0.1.0). With no native result it tries a
  double device pixel ratio first, then a screen-width tier (small, medium or
  large).
- `browser.dfy`, module `Browser`: what the classifier can observe of the
  browser. An `Env` holds the set of media queries that currently match
  (`window.matchMedia(q).matches`) and the set of property names present on
  `window` (`'ontouchstart' in window`). Each probe becomes a plain function
  of that value, and every query string is a named constant.
- `wrappers.dfy`, module `Wrappers`: `Option`, which stands for the source's
  `null`.

How each version is modelled:

- The object is a class (`Classifier`, `LegacyClassifier`) whose fields are
  the source's fields.
- The listener slot is an `Option<CallbackId>`. It is `None` when the slot
  holds no function, because then the source skips the call.
- Every listener call is appended to a ghost log `notified`, as a
  `Notification(callback, mode)`.
- Each method is proved to move the fields and the log exactly as a pure step
  function over the datatype `State` says (`InitStep`, `ClassifyStep`,
  `SetPointerModeStep`, ...).
- The contracts of the step functions and the lemmas beside them state what
  the source promises.
- `Reclassify` runs `classify` once per environment in a sequence. This is
  how the host calls it again after an environment change. The trace lemmas
  about it prove that the listener only ever sees changes.

`init` writes `pointerModeNative` only when one of the two queries matches,
so an earlier native value survives a later `init` in which neither matches
(`ProbeNative`).

## Model

| member | source | states |
|---|---|---|
| `PointerAccuracy.HasTouchSupport` | src/pointeraccuracy.js:76-79 | touch is supported exactly when at least one of the two indicators (`ontouchstart`, `onmsgesturechange`) is present on `window` |
| `PointerAccuracy.ProbeNative` | src/pointeraccuracy.js:28-33 | the native result is 'fine' when `(pointer:fine)` matches, even if `(pointer:coarse)` also does; it is 'coarse' when only the coarse query matches; when neither matches, the earlier value stays, so it is unset only if neither matches and it was unset before |
| `PointerAccuracy.Decide` | src/pointeraccuracy.js:44-53 | a stored native result is the answer whatever touch says; without one the answer is 'coarse' exactly when touch is supported |
| `PointerAccuracy.SetPointerModeStep` | src/pointeraccuracy.js:62-70 | afterwards the mode is `m` and the other fields are unchanged; an unchanged `m` changes nothing; the listener is called when and only when `m` is new and a listener is registered, and then exactly once, with `m` |
| `PointerAccuracy.ClassifyStep` | src/pointeraccuracy.js:41-55 | the mode is set, never unset; it is the native result when there is one, otherwise 'coarse' exactly when touch is supported; native result and listener are untouched; the listener gets one call with the new mode exactly when the mode changed and a listener is registered |
| `PointerAccuracy.InitStep` | src/pointeraccuracy.js:23-36 | the native result becomes the probe's; the mode is always set afterwards and is the decision on the probed native result and touch support: 'fine' when the fine query matches, 'coarse' when only the coarse one does, the kept native value when neither matches and one was stored, otherwise by touch support; the listener is untouched; the listener gets one call with the new mode exactly when the mode changed and a listener is registered |
| `PointerAccuracy.SetModeListenerStep` | src/pointeraccuracy.js:57-60 | only the listener slot changes; the native result and the mode stay, and nobody is notified |
| `PointerAccuracy.Classifier.constructor` | src/pointeraccuracy.js:18-21 | the object starts with every field unset and no notification |
| `PointerAccuracy.Classifier.Init` | src/pointeraccuracy.js:23-36 | the fields and the notification log move exactly as `InitStep` says |
| `PointerAccuracy.Classifier.Classify` | src/pointeraccuracy.js:41-55 | the fields and the notification log move exactly as `ClassifyStep` says |
| `PointerAccuracy.Classifier.SetModeListener` | src/pointeraccuracy.js:57-60 | only the listener slot changes, to `cb`; the log is unchanged |
| `PointerAccuracy.Classifier.SetPointerMode` | src/pointeraccuracy.js:62-70 | the fields and the notification log move exactly as `SetPointerModeStep` says |
| `PointerAccuracy.Classifier.GetPointerMode` | src/pointeraccuracy.js:72-74 | returns the stored mode, which is unset on a fresh object and set after any `Init` or `Classify` |
| `PointerAccuracy.Classifier.IsPointerFine` | src/pointeraccuracy.js:81-83 | true exactly when the stored mode is 'fine'; false while the mode is unset |
| `PointerAccuracy.Classifier.IsPointerCoarse` | src/pointeraccuracy.js:85-87 | false while the mode is unset; never true together with `IsPointerFine`; once a mode is stored, exactly one of the two holds |
| `PointerAccuracy.FineQueryWinsOverCoarse` | src/pointeraccuracy.js:28-32 | when both native queries match, `init` stores 'fine' as the native result and as the mode |
| `PointerAccuracy.InitIsIdempotent` | src/pointeraccuracy.js:23-36 | a second `init` in the same environment changes nothing and notifies nobody |
| `PointerAccuracy.ClassifyIsIdempotent` | src/pointeraccuracy.js:41-70 | a second `classify` in the same environment changes nothing and notifies nobody |
| `PointerAccuracy.NativeIgnoresTouch` | src/pointeraccuracy.js:44-46 | with a native result stored, `classify` gives the same fields and notifications in any two environments |
| `PointerAccuracy.TouchOnlyScenario` | src/pointeraccuracy.js:28-54 | on a fresh object with a listener, no native match, and touch present: `init` stores 'coarse' and calls the listener exactly once, with 'coarse' |
| `PointerAccuracy.Reclassify` | src/pointeraccuracy.js:41-70 | over a run of `classify` calls, native result and listener never change; after a non-empty run the mode is the one `classify` derives in the last environment; without a listener nothing is notified; with a listener, a run with no calls leaves the mode unchanged |
| `PointerAccuracy.ReclassifyNotifiesRegistered` | src/pointeraccuracy.js:66-67 | every listener call in a run goes to the callback registered when the run started |
| `PointerAccuracy.ReclassifyNotifiesOnlyChanges` | src/pointeraccuracy.js:62-69 | in a run, the first listener call differs from the mode stored before, no two consecutive calls carry the same mode, and the last call carries the final mode |
| `PointerAccuracy.ReclassifySilentIffNoChange` | src/pointeraccuracy.js:41-69 | with a listener registered, a run makes no call at all exactly when every environment of the run derives the mode stored before it (both directions) |
| `PointerAccuracy.NativeRunNotifiesAtMostOnce` | src/pointeraccuracy.js:44-69 | with a native result stored, a whole run makes at most one listener call, only with the native value, and none when that value already is the mode, whatever touch does |
| `PointerAccuracy.RepeatedClassifyIsSilent` | src/pointeraccuracy.js:41-69 | after one `classify`, further calls in environments with the same touch support change nothing and never call the listener again |
| `LegacyPointerAccuracy.ScreenSize` | pointeraccuracy.src.js:75-84 | the first matching width query (small, then medium, then large) sets the tier; when none matches the stored tier stays |
| `LegacyPointerAccuracy.HasDoubleDevicePixelRatio` | pointeraccuracy.src.js:111-120 | true exactly when at least one of the four pixel-ratio queries matches |
| `LegacyPointerAccuracy.FallbackTiers` | pointeraccuracy.src.js:56-70 | a double pixel ratio gives 'coarse' whatever the tier and touch; otherwise the result is 'coarse' exactly for 'small', or for 'medium' with touch support |
| `LegacyPointerAccuracy.LegacyDecideAsWritten` | pointeraccuracy.src.js:53-71 | as written, a stored native result makes `classify` throw (no mode); without one the fallback tiers decide |
| `LegacyPointerAccuracy.LegacyDecide` | pointeraccuracy.src.js:50-73 | as intended, a stored native result is the answer; without one the fallback tiers decide |
| `LegacyPointerAccuracy.LegacyClassifyStep` | pointeraccuracy.src.js:50-73 | the mode is always set afterwards and is the tier decision (`LegacyDecide`) on the native result, pixel ratio, stored tier and touch support; with no native result a double pixel ratio gives 'coarse'; the tier, native result and listener are untouched; the listener is called once with the new mode exactly when the mode changed and a listener is registered |
| `LegacyPointerAccuracy.LegacyInitStep` | pointeraccuracy.src.js:25-46 | `cb` replaces the listener; the native result and the tier are probed, each keeping its earlier value when no query matches; the mode is set afterwards to the tier decision on the probed native result, pixel ratio, probed tier and touch support; `cb` gets one call with that mode exactly when the mode changed and `cb` is a function, and no other call is made |
| `LegacyPointerAccuracy.LegacyClassifier.constructor` | pointeraccuracy.src.js:20-24 | the object starts with every field unset and no notification |
| `LegacyPointerAccuracy.LegacyClassifier.Init` | pointeraccuracy.src.js:25-46 | the fields and the notification log move exactly as `LegacyInitStep` says |
| `LegacyPointerAccuracy.LegacyClassifier.Classify` | pointeraccuracy.src.js:50-73 | the fields and the notification log move exactly as `LegacyClassifyStep` says |
| `LegacyPointerAccuracy.LegacyClassifier.ClassifyScreenSize` | pointeraccuracy.src.js:75-84 | only the tier changes, as `ScreenSize` says |
| `LegacyPointerAccuracy.LegacyClassifier.SetListener` | pointeraccuracy.src.js:86-89 | only the listener slot changes, to `cb`; the log is unchanged |
| `LegacyPointerAccuracy.LegacyClassifier.SetPointerMode` | pointeraccuracy.src.js:91-100 | the same deduplicating rule as the current version (`SetPointerModeStep`); the tier is unchanged |
| `LegacyPointerAccuracy.ScreenSizeByIntegerWidth` | pointeraccuracy.src.js:77-82 | on a screen of integer width exactly one width query matches, and the stored tier becomes that width's tier: up to 1023 small, 1024 to 1280 medium, from 1281 large |
| `LegacyPointerAccuracy.ScreenSizeKeepsTierInGaps` | pointeraccuracy.src.js:75-84 | a fractional width strictly between 1023 and 1024, or between 1280 and 1281, matches no width query, so the stored tier stays (possibly unset) |
| `LegacyPointerAccuracy.LargeOrUnsetIsFine` | pointeraccuracy.src.js:67-68 | with no double pixel ratio, 'large' and an unset tier both give 'fine', whatever touch says |
| `LegacyPointerAccuracy.NativeBranchThrowsAsWritten` | pointeraccuracy.src.js:53-54 | with a native result, the written decision throws while the intended one reports the native value |
| `LegacyPointerAccuracy.AsWrittenAgreesWithoutNative` | pointeraccuracy.src.js:53-71 | without a native result the written and the intended decision agree |
| `LegacyPointerAccuracy.InitNotifiesNewListenerOnce` | pointeraccuracy.src.js:25-46 | `init(cb)` on a fresh object calls `cb` exactly once, with the mode it stores |
| `LegacyPointerAccuracy.LegacyInitIsIdempotent` | pointeraccuracy.src.js:25-46 | a second `init` with the same listener in the same environment changes nothing and notifies nobody |

## Left out

- Host reads: `window.matchMedia(...)` and `'ontouchstart' in window` / `'onmsgesturechange' in window` are browser calls. Their results are the two sets of an `Env` parameter, so the model does not say how a browser evaluates a media query. `ScreenOfWidth` is the one place that ties the width queries to a viewport width. The model assumes `window.matchMedia` exists; in a browser without it, `init` throws a TypeError at src/pointeraccuracy.js:28 (and pointeraccuracy.src.js:30), which is not modelled.
- The listener as code: a callback is only an identifier. A call is recorded in the ghost log `notified`. What the listener does is not modelled, including a listener that re-enters `classify`.
- `window.onresize` (pointeraccuracy.src.js:39-42): browser event wiring. The repeated classification after an environment change is modelled for the current version only, by `Reclassify`.
- `alert` (pointeraccuracy.src.js:36) and `console.log` (pointeraccuracy.src.js:99): diagnostics without effect on the state.
- `getPointerMode` of the older version (pointeraccuracy.src.js:102-104): it reads the undeclared `thiz`, so it always throws. It is not modelled.
- `isPointerFine`, `isPointerCoarse` and `hasTouchSupport` of the older version (pointeraccuracy.src.js:106-128): they are the same code as in the current version. `hasTouchSupport` is shared (`PointerAccuracy.HasTouchSupport`). The other two are not repeated for `LegacyClassifier`.
- `LegacyPointerAccuracy.LegacyClassifier.Classify`: with a native result stored it uses the corrected decision (`LegacyDecide`), not the throwing line 54. What the written line does is modelled separately by `LegacyDecideAsWritten` (see Findings).
- `LegacyPointerAccuracy.LegacyClassifier.Init`: the same correction applies, because `init` calls `classify` last.
- Gruntfile.js: build and minification configuration.
- Modes are a two-value datatype, not strings. This is exact because the source only ever stores and compares the two strings 'fine' and 'coarse' with `!==` / `===`.

## Findings

| source | as written | input that shows it | evidently intended | confidence | as-written member | corrected member |
|---|---|---|---|---|---|---|
| pointeraccuracy.src.js:54 | `mode = pointerModeNative;` reads a name declared nowhere (it exists only as an object property, line 23), so `classify` throws a ReferenceError whenever a native result is stored | a browser where `(pointer:fine)` matches: `init` stores 'fine', then `classify` throws before `setPointerMode` | `mode = thiz.pointerModeNative;`, so the native result is used, as the comment on line 53 and the current version (src/pointeraccuracy.js:46) do | high; not executed | `LegacyPointerAccuracy.LegacyDecideAsWritten`, `LegacyPointerAccuracy.NativeBranchThrowsAsWritten` | `LegacyPointerAccuracy.LegacyDecide` |

# Post-Process Animator, modelled in Dafny

The Post-Process Animator is a Unity component. It animates the parameters of post-processing
effects (bloom intensity, vignette colour, ...) by handing a getter/setter pair over one
parameter to the DOTween engine. This project models its bookkeeping layer:

- **Binding** (`Parameters`). A settings object holds named parameter wrappers and an `active`
  flag. `GetTweenProperties` resolves a field name into a getter/setter pair over that one
  wrapper's payload.
- **Tween engine** (`Tweening`). DOTween appears only through what the animator uses of it.
  A handle is an id with a `killed` flag, an ordered list of completion callbacks, and the goal
  it was built for. The engine can create, kill, re-callback and complete handles. Completion
  first writes a driven handle's end value through its setter, then runs the callbacks in order
  and auto-kills the handle. A killed handle never completes.
- **Track** (`EffectTrack.Effect`, the source's `Effect<T>`). It holds the live settings, an
  equal copy taken at `Init`, and a registry from id to handle. A non-empty id holds at most
  one handle: registering again kills the displaced handle and overwrites the entry. The empty
  id leaves a handle untracked. With `disableOnComplete`, the handle's completion becomes
  "previous callbacks, then `settings.active = false`". The pure function `Manage` states the
  whole registry step, and the lemmas beside it state its consequences.
- **Manager** (`Animator.PostProcessAnimator`). `Awake` builds one initialised track per
  settings type found in the profile. A duplicate type fails the way `Dictionary.Add` does.
  `GetEffect` fails for a type that was never discovered.

`Scenario` is a client that uses the contracts alone. It discovers two tracks, tweens one
property twice, and drives completion by hand (`CompleteRetween`): the parameter ends at the
second tween's end value and the effect is deactivated.

Where the code behaves in a way one might not expect, the model follows it:

- A field whose wrapper is of another kind is not rejected when the binding is resolved. This
  covers binding a `FloatParameter` to an `IntParameter` field, and a field holding a wrapper no
  typed overload handles (a `BoolParameter`, a texture, a vector or an enum parameter; in the
  model an `OtherValue`). `GetTweenProperties` succeeds, `Tween` creates and registers the handle,
  and only the getter and setter fail when called (`Getter`, `Setter`: `KindMismatch`).
- The typed overloads always use the property name as the registry id. There is no separate key.
- Nothing cancels the active handles when the component is torn down. The source has no such code.

## Model

| member | source | states |
|---|---|---|
| `Parameters.KindOf` | PostProcessAnimator.cs:36-55 | the end value of each typed overload selects the wrapper kind that holds values of its own type |
| `Parameters.FirstIndexOfType` | PostProcessAnimator.cs:27 | the setting a profile hands out for a type is its first setting of that type, if there is one |
| `Parameters.EffectSettings.Clone` | PostProcessAnimator.cs:28 | the original-settings snapshot is a new object with the same type, `active` flag and parameter values |
| `Parameters.ReadField` | PostProcessAnimator.cs:17 | reading succeeds exactly when the field exists and its wrapper has the requested kind (never for a wrapper of a type no overload handles); it yields that wrapper's value; otherwise it names the failure |
| `Parameters.WriteField` | PostProcessAnimator.cs:16 | writing succeeds exactly when field, wrapper and value kinds agree; only that field's value changes and the key set stays the same |
| `Parameters.ReadAfterWrite` | PostProcessAnimator.cs:15-18 | after a successful write through a binding, the binding reads back the value written |
| `Parameters.Getter` | PostProcessAnimator.cs:17 | the getter re-reads the bound field's current payload and fails on a wrapper of another kind |
| `Parameters.Setter` | PostProcessAnimator.cs:16 | the setter writes only the bound field's payload and leaves `active` alone; afterwards the getter returns what was written; on failure nothing changes |
| `Tweening.KillRef` | PostProcessAnimator.cs:60 | `?.Kill()` kills exactly the referenced handle (none for null) and changes nothing else about any handle |
| `Tweening.WithDisable` | PostProcessAnimator.cs:69-74 | the wrapped completion keeps every previous callback, in order and first, followed by one deactivation of the settings |
| `Tweening.TweenDriver.To` | PostProcessAnimator.cs:38 | creating a tween adds one live handle, with no callbacks, that drives the given binding towards the end value |
| `Tweening.TweenDriver.Create` | PostProcessAnimator.cs:32 | a caller-built handle is a new live handle with the caller's completion callbacks |
| `Tweening.TweenDriver.Kill` | PostProcessAnimator.cs:60 | killing updates the handles as `KillRef` says and runs no callback |
| `Tweening.TweenDriver.SetOnComplete` | PostProcessAnimator.cs:71 | replacing the completion callback changes only that handle's callback list |
| `Tweening.TweenDriver.Complete` | PostProcessAnimator.cs:38-40 | a killed handle's completion does nothing; a live handle that drives a binding first writes the end value through the setter (lines 16 and 38), so afterwards the getter returns the end value; then the callbacks run in order (lines 71-74), every settings object they deactivate is inactive, no other parameter changes, and the handle is killed; a setter that fails kills the handle and runs no callback |
| `EffectTrack.Manage` | PostProcessAnimator.cs:57-76 | a non-empty id maps to the new handle and other entries are unchanged; the empty id leaves the registry alone; the empty id is never a key; exactly the displaced non-null handle is killed; only the new handle's completion is wrapped, and only with `disableOnComplete` |
| `EffectTrack.ManageSize` | PostProcessAnimator.cs:58-65 | a new id adds one entry, a present id keeps the key set and size, the empty id keeps the size |
| `EffectTrack.AfterTween` | PostProcessAnimator.cs:36-41 | a typed tween appends one live handle driving the bound field and keeps the registry invariant |
| `EffectTrack.RetweenSameProperty` | PostProcessAnimator.cs:36-65 | two tweens of one property leave exactly that property's entry added, holding the second handle; the first handle and any earlier one are killed; the second stays live; other entries are untouched |
| `EffectTrack.UntrackedCoexist` | PostProcessAnimator.cs:32-34 | two handles adopted with the default empty id leave the registry unchanged and kill nothing, so both stay live |
| `EffectTrack.ReadoptKillsHandle` | PostProcessAnimator.cs:59-61 | adopting again the handle an id already holds kills that handle and leaves it registered |
| `EffectTrack.Effect.constructor` | PostProcessAnimator.cs:97 | a newly created track has no settings, no snapshot and an empty registry |
| `EffectTrack.Effect.Init` | PostProcessAnimator.cs:26-30 | success exactly when the profile holds a setting of the track's type; the live settings are that setting, the snapshot is a fresh equal copy, the registry is empty; otherwise the settings are cleared and the call fails |
| `EffectTrack.Effect.GetTweenProperties` | PostProcessAnimator.cs:78-83 | resolution succeeds exactly when the name is a field of the live settings, whatever wrapper that field holds, giving a binding to that field of those settings; an unknown name, and the empty name, fail |
| `EffectTrack.Effect.Tween` | PostProcessAnimator.cs:36-55 | an unknown (or empty) property fails and leaves registry and handles unchanged; otherwise the new state is a fresh handle driving the property, registered under the property name as `Manage` states; no callback runs |
| `EffectTrack.Effect.TweenHandle` | PostProcessAnimator.cs:32-34 | adopting a handle is `Manage` under the given id (default empty, so untracked) |
| `EffectTrack.Effect.ManageTweenForID` | PostProcessAnimator.cs:57-76 | the new registry and handles are `Manage` of the old ones; a null handle with `disableOnComplete` fails after the registry has been updated |
| `Animator.FirstRepeat` | PostProcessAnimator.cs:94-101 | how far registration gets: the types before it are pairwise distinct, and the type at it repeats an earlier one |
| `Animator.FirstRepeatUnique` | PostProcessAnimator.cs:94-101 | that position is the only one with those two properties |
| `Animator.PostProcessAnimator.NewTrack` | PostProcessAnimator.cs:95-99 | a created and initialised track has the given type, the profile's setting of that type, a snapshot equal to that setting in type, `active` flag and parameter values, and an empty registry; the track and its snapshot are newly allocated |
| `Animator.PostProcessAnimator.BuildTracks` | PostProcessAnimator.cs:94-101 | the loop registers the settings' types in order and stops at the first type that repeats an earlier one; each registered type maps to its own newly allocated, initialised track, whose snapshot is a newly allocated object of that type with the setting's `active` flag and parameter values |
| `Animator.PostProcessAnimator.Awake` | PostProcessAnimator.cs:89-102 | success exactly when no type repeats; the registry keys are the types registered before the first repeat; each maps to a newly allocated, initialised track of that type, whose snapshot is a newly allocated object of that type with the setting's `active` flag and parameter values; different types map to different tracks |
| `Animator.PostProcessAnimator.GetEffect` | PostProcessAnimator.cs:104-106 | lookup succeeds exactly for a registered type and returns its track; otherwise it fails and returns no default track |

## Left out

- DOTween's interpolation is not modelled: easing, the intermediate per-frame writes, and the
  float and Color arithmetic. A handle records its binding, end value and duration as data, and
  only the final write of the end value, at completion, is modelled. Floats are `real`.
- Tweening.TweenDriver.Complete: a setter that fails (a wrapper of another kind) is modelled as
  DOTween's default safe mode handles it: the tween is killed and its completion callbacks never
  run. With safe mode off, the exception would reach the engine's update loop instead.
- DOTween options other than the default auto-kill after completion are not modelled. These
  include `SetAutoKill(false)`, `onKill` and kill-with-complete.
- Caller-supplied completion callbacks are opaque tags. Their own effects on the model's state
  are not modelled.
- Unity plumbing is not modelled: `MonoBehaviour`, `GetComponent<PostProcessVolume>`, and the
  profile clone at line 91. `Awake` receives the settings list of the already-cloned profile.
  `Instantiate` of one setting is abstracted as a fresh copy equal in value (`EffectSettings.Clone`).
- Reflection is replaced by a map from field name to parameter value. Runtime generic
  construction is replaced by an `EffectType` tag and the `Effect` constructor. Exceptions are
  `Failure` values. The settings type is matched exactly, not by subclass.
- A wrapper is identified by its settings object and field name. The source captures the wrapper
  object itself. The two differ only if a settings field is reassigned after the binding is resolved. This
  component never does that, but the fields are public, so a caller could.
- The deactivation callback holds the settings object from the time of wrapping. The source reads
  `Effect.settings` when the callback fires. These differ only if `settings` is reassigned in
  between, by `Init` or by a caller (the field is public, line 21).
- The three typed `Tween` overloads (float, int, Color) are one method over a tagged value.
  The raw overload is `TweenHandle`, because Dafny has no overloading.
- EffectTrack.Effect.constructor: the empty registry stands for the source's registry that is
  null until `Init` (line 24). Calls made on a track before a successful `Init` are not modelled:
  `Tween`, `TweenHandle` and `ManageTweenForID` require an initialised track, and
  `GetTweenProperties` requires live settings. In the source, adopting a non-null handle under the empty id
  succeeds before `Init`, with or without `disableOnComplete`. With it, lines 69-74 only install
  the wrapped callback, and that callback throws at line 73 when it fires while `settings` is
  still null. A non-empty id throws at line 59; a typed tween throws at line 80.
- EffectTrack.Effect.TweenHandle: ids are non-null strings. A null id passes the check at line 58
  and throws at line 59 in the source; the model has no null string.
- EffectTrack.Effect.GetTweenProperties: the inherited `active` flag is not an entry of the
  parameter map, so the name "active" fails with `FieldNotFound`. In the source it resolves like
  any public field, and only the getter and setter fail.
- EffectTrack.Effect.Tween: tweening the name "active" fails without creating a handle, for the
  reason given for `GetTweenProperties`. In the source the handle is created and registered.

/** One effect's animation track: its live settings, a snapshot of the original values,
    and the registry of tween handles by id. */
module EffectTrack {
  import opened Outcomes
  import opened Parameters
  import opened Tweening

  /** A track's registry together with the engine's handles it refers to. */
  datatype TrackState = TrackState(tweens: map<string, TweenRef>, handles: seq<HandleState>)

  /** Registry invariant: the empty id is never a key, and every stored handle exists. */
  predicate Tracked(st: TrackState) {
    && "" !in st.tweens
    && forall k :: k in st.tweens ==> Known(st.tweens[k], |st.handles|)
  }

  /** The handle a registration under `id` displaces (Null when there is none). */
  function Displaced(tweens: map<string, TweenRef>, id: string): TweenRef {
    if id != "" && id in tweens then tweens[id] else Null
  }

  /** Registering `tween` under `id`, then wrapping its completion when asked to. */
  function Manage(st: TrackState, tween: TweenRef, id: string, disableOnComplete: bool, s: EffectSettings): (r: TrackState)
    requires Tracked(st) && Known(tween, |st.handles|)
    ensures Tracked(r) && |r.handles| == |st.handles|
    ensures id == "" ==> r.tweens == st.tweens
    ensures id != "" ==> r.tweens.Keys == st.tweens.Keys + {id} && r.tweens[id] == tween
    ensures forall k :: k in st.tweens && k != id ==> r.tweens[k] == st.tweens[k]
    ensures forall h :: 0 <= h < |st.handles| ==>
      && (r.handles[h].killed <==> st.handles[h].killed || (id != "" && id in st.tweens && st.tweens[id] == Ref(h)))
      && r.handles[h].goal == st.handles[h].goal
      && r.handles[h].onComplete ==
           if disableOnComplete && tween == Ref(h) then WithDisable(st.handles[h].onComplete, s)
           else st.handles[h].onComplete
  {
    var tweens := if id == "" then st.tweens else st.tweens[id := tween];
    var handles := KillRef(st.handles, Displaced(st.tweens, id));
    if disableOnComplete && tween.Ref? then
      TrackState(tweens, handles[tween.id := handles[tween.id].(onComplete := WithDisable(handles[tween.id].onComplete, s))])
    else
      TrackState(tweens, handles)
  }

  /** Registering under a non-empty id adds one entry when the id is new and keeps
      the size when it replaces; the empty id leaves the registry as it was. */
  lemma ManageSize(st: TrackState, tween: TweenRef, id: string, disableOnComplete: bool, s: EffectSettings)
    requires Tracked(st) && Known(tween, |st.handles|)
    ensures var r := Manage(st, tween, id, disableOnComplete, s);
      && (id == "" ==> |r.tweens| == |st.tweens|)
      && (id != "" && id in st.tweens ==> r.tweens.Keys == st.tweens.Keys && |r.tweens| == |st.tweens|)
      && (id != "" && id !in st.tweens ==> |r.tweens| == |st.tweens| + 1)
  {
  }

  /** A typed tween: a fresh live handle driving `p` towards `endValue`, registered
      under the property name. */
  function AfterTween(st: TrackState, p: TweenProperties, endValue: Value, duration: real,
                      disableOnComplete: bool, s: EffectSettings): (r: TrackState)
    requires Tracked(st)
    ensures Tracked(r) && |r.handles| == |st.handles| + 1
    ensures r.handles[|st.handles|].goal == Drive(p, endValue, duration)
    ensures !r.handles[|st.handles|].killed
  {
    var created := TrackState(st.tweens, st.handles + [HandleState(false, [], Drive(p, endValue, duration))]);
    Manage(created, Ref(|st.handles|), p.field, disableOnComplete, s)
  }

  /** Tweening the same property twice leaves exactly one tracked handle for it, the
      second; the first is killed, so is whatever the property held before, and the
      other entries are untouched. */
  lemma RetweenSameProperty(st: TrackState, p: TweenProperties, v1: Value, v2: Value,
                                                d1: real, d2: real, disable: bool, s: EffectSettings)
    requires Tracked(st) && p.field != ""
    ensures var n := |st.handles|;
      var r := AfterTween(AfterTween(st, p, v1, d1, disable, s), p, v2, d2, disable, s);
      && r.tweens.Keys == st.tweens.Keys + {p.field}
      && r.tweens[p.field] == Ref(n + 1)
      && r.handles[n].killed && !r.handles[n + 1].killed
      && (forall k :: k in st.tweens && k != p.field ==> r.tweens[k] == st.tweens[k])
      && (p.field in st.tweens && st.tweens[p.field].Ref? ==> r.handles[st.tweens[p.field].id].killed)
  {
  }

  /** Handles adopted without an id are never tracked: two such adoptions leave the
      registry as it was and kill nothing, so both handles stay live. */
  lemma UntrackedCoexist(st: TrackState, t1: HandleId, t2: HandleId, disable: bool, s: EffectSettings)
    requires Tracked(st) && t1 < |st.handles| && t2 < |st.handles|
    requires !st.handles[t1].killed && !st.handles[t2].killed
    ensures var r := Manage(Manage(st, Ref(t1), "", disable, s), Ref(t2), "", disable, s);
      && r.tweens == st.tweens
      && forall h :: 0 <= h < |st.handles| ==> r.handles[h].killed == st.handles[h].killed
  {
  }

  /** Re-adopting the very handle an id already holds kills it and keeps it registered:
      the displaced handle is never compared with the new one. */
  lemma ReadoptKillsHandle(st: TrackState, h: HandleId, id: string, disable: bool, s: EffectSettings)
    requires Tracked(st) && id in st.tweens && st.tweens[id] == Ref(h)
    ensures h < |st.handles|
    ensures var r := Manage(st, Ref(h), id, disable, s);
      r.tweens == st.tweens && r.handles[h].killed
  {
  }

  class Effect {
    const effectType: EffectType
    /** The tween engine, global in the running program. */
    const driver: TweenDriver
    var settings: EffectSettings?
    var originalSettings: EffectSettings?
    var tweens: map<string, TweenRef>

    ghost predicate Valid()
      reads this, driver
    {
      && settings != null && originalSettings != null && settings != originalSettings
      && settings.effectType == effectType
      && Tracked(State())
    }

    function State(): TrackState
      reads this, driver
    {
      TrackState(tweens, driver.handles)
    }

    /** A fresh, not yet initialised track. */
    constructor (effectType: EffectType, driver: TweenDriver)
      ensures this.effectType == effectType && this.driver == driver
      ensures settings == null && originalSettings == null && tweens == map[]
    {
      this.effectType := effectType;
      this.driver := driver;
      settings := null;
      originalSettings := null;
      tweens := map[];
    }

    /** Takes the profile's setting of this track's type as the live settings, a fresh
        equal copy of it as the original, and an empty registry. */
    method Init(profile: seq<EffectSettings>) returns (outcome: Outcome)
      modifies this
      ensures var i := FirstIndexOfType(profile, effectType);
        && (outcome.Pass? <==> i < |profile|)
        && (outcome.Pass? ==>
              && settings == profile[i] && tweens == map[] && Valid()
              && fresh(originalSettings)
              && originalSettings.effectType == settings.effectType
              && originalSettings.active == settings.active
              && originalSettings.parameters == settings.parameters)
        && (outcome.Fail? ==>
              && outcome == Fail(SettingNotFound) && settings == null
              && originalSettings == old(originalSettings) && tweens == old(tweens))
    {
      var i := FirstIndexOfType(profile, effectType);
      if i == |profile| {
        settings := null;
        return Fail(SettingNotFound);
      }
      settings := profile[i];
      originalSettings := new EffectSettings.Clone(profile[i]);
      tweens := map[];
      outcome := Pass;
    }

    /** Resolves `fieldName` of the live settings into a binding read and written as `kind`;
        an unknown name, and the empty name no field has, fail here, before any handle exists. */
    function GetTweenProperties(fieldName: string, kind: Kind): (r: Result<TweenProperties>)
      reads this, settings
      requires settings != null
      ensures r.Ok? <==> fieldName != "" && fieldName in settings.parameters
      ensures r.Ok? ==> r.value.target == settings && r.value.field == fieldName && r.value.kind == kind
      ensures r.Err? ==> r.failure == FieldNotFound(fieldName)
    {
      if fieldName != "" && fieldName in settings.parameters then Ok(TweenProperties(settings, fieldName, kind))
      else Err(FieldNotFound(fieldName))
    }

    /** Tweens the parameter `property` to `endValue` (a float, int or Color target) and
        registers the handle under the property name. */
    method Tween(property: string, endValue: TweenValue, duration: real, disableOnComplete: bool := false)
      returns (outcome: Outcome)
      requires Valid()
      modifies this`tweens, driver
      ensures Valid() && driver.log == old(driver.log)
      ensures outcome.Pass? <==> property != "" && property in settings.parameters
      ensures outcome.Fail? ==> outcome == Fail(FieldNotFound(property)) && State() == old(State())
      ensures outcome.Pass? ==>
        State() == AfterTween(old(State()), TweenProperties(settings, property, KindOf(endValue)),
                              endValue, duration, disableOnComplete, settings)
    {
      var props := GetTweenProperties(property, KindOf(endValue));
      if props.Err? {
        return Fail(props.failure);
      }
      var h := driver.To(props.value, endValue, duration);
      outcome := ManageTweenForID(Ref(h), property, disableOnComplete);
    }

    /** Adopts a handle built by the caller; it is tracked only under a non-empty id. */
    method TweenHandle(tween: TweenRef, disableOnComplete: bool := false, id: string := "")
      returns (outcome: Outcome)
      requires Valid() && Known(tween, |driver.handles|)
      modifies this`tweens, driver
      ensures Valid() && driver.log == old(driver.log)
      ensures State() == Manage(old(State()), tween, id, disableOnComplete, settings)
      ensures outcome == if disableOnComplete && tween.Null? then Fail(NullTween) else Pass
    {
      outcome := ManageTweenForID(tween, id, disableOnComplete);
    }

    /** Registers `tween` under `id` (killing the handle it displaces), then, when asked,
        makes its completion run the previous callbacks and deactivate the settings.
        A null handle with `disableOnComplete` fails after the registry was updated. */
    method ManageTweenForID(tween: TweenRef, id: string, disableOnComplete: bool) returns (outcome: Outcome)
      requires Valid() && Known(tween, |driver.handles|)
      modifies this`tweens, driver
      ensures Valid() && driver.log == old(driver.log)
      ensures State() == Manage(old(State()), tween, id, disableOnComplete, settings)
      ensures outcome == if disableOnComplete && tween.Null? then Fail(NullTween) else Pass
    {
      if id != "" {
        if id in tweens {
          driver.Kill(tweens[id]);
          tweens := tweens[id := tween];
        } else {
          tweens := tweens[id := tween];
        }
      }
      if disableOnComplete {
        if tween.Null? {
          return Fail(NullTween);
        }
        var previous := driver.handles[tween.id].onComplete;
        driver.SetOnComplete(tween.id, WithDisable(previous, settings));
      }
      outcome := Pass;
    }
  }
}

/** The animator component: discovers the settings in a profile, builds one track per
    settings type, and hands tracks out by type. */
module Animator {
  import opened Outcomes
  import opened Parameters
  import opened Tweening
  import opened EffectTrack

  function TypesOf(profile: seq<EffectSettings>): (ts: seq<EffectType>)
    ensures |ts| == |profile|
    ensures forall i :: 0 <= i < |profile| ==> ts[i] == profile[i].effectType
  {
    seq(|profile|, i requires 0 <= i < |profile| => profile[i].effectType)
  }

  function Elements(ts: seq<EffectType>): set<EffectType> {
    set t | t in ts
  }

  predicate NoRepeats(ts: seq<EffectType>) {
    forall i, j :: 0 <= i < j < |ts| ==> ts[i] != ts[j]
  }

  /** The index of the first type that repeats an earlier one, or |ts| when all differ:
      how far a dictionary that refuses duplicate keys gets through `ts`. */
  function FirstRepeat(ts: seq<EffectType>): (n: nat)
    ensures n <= |ts|
    ensures NoRepeats(ts[..n])
    ensures n < |ts| ==> ts[n] in ts[..n]
  {
    if |ts| == 0 then 0
    else
      var front := ts[..|ts| - 1];
      var m := FirstRepeat(front);
      assert ts[..m] == front[..m];
      if m < |front| then m
      else if ts[|ts| - 1] in front then |ts| - 1
      else
        assert ts[..|ts|] == ts;
        |ts|
  }

  /** The position FirstRepeat gives is the only one with its two properties. */
  lemma {:induction false} FirstRepeatUnique(ts: seq<EffectType>, n: nat)
    requires n <= |ts| && NoRepeats(ts[..n])
    requires n < |ts| ==> ts[n] in ts[..n]
    ensures n == FirstRepeat(ts)
  {
  }

  /** `e` is the freshly initialised track of type `t` over `profile`: its live settings
      are the profile's setting of that type, its original an equal copy, its registry empty. */
  ghost predicate Discovered(e: Effect, t: EffectType, profile: seq<EffectSettings>, driver: TweenDriver)
    reads e, e.driver, e.settings, e.originalSettings
  {
    && e.effectType == t && e.driver == driver
    && e.Valid() && e.tweens == map[]
    && FirstIndexOfType(profile, t) < |profile|
    && e.settings == profile[FirstIndexOfType(profile, t)]
    && e.originalSettings.effectType == t
    && e.originalSettings.parameters == e.settings.parameters
    && e.originalSettings.active == e.settings.active
  }

  /** Appending a type not seen before keeps a prefix free of repeats. */
  lemma ExtendDistinct(ts: seq<EffectType>, i: nat)
    requires i < |ts| && NoRepeats(ts[..i]) && ts[i] !in Elements(ts[..i])
    ensures NoRepeats(ts[..i + 1])
    ensures Elements(ts[..i + 1]) == Elements(ts[..i]) + {ts[i]}
  {
  }

  class PostProcessAnimator {
    /** The tween engine shared by every track. */
    const driver: TweenDriver
    var effects: map<EffectType, Effect>

    constructor (driver: TweenDriver)
      ensures this.driver == driver && effects == map[]
    {
      this.driver := driver;
      effects := map[];
    }

    /** Builds one initialised track per setting of `profile`, keyed by its type; a
        second setting of an already registered type fails, keeping the tracks built
        before it. */
    method Awake(profile: seq<EffectSettings>) returns (outcome: Outcome)
      modifies this
      ensures var n := FirstRepeat(TypesOf(profile));
        && (outcome.Pass? <==> n == |profile|)
        && (outcome.Fail? ==> outcome == Fail(DuplicateEffect))
        && effects.Keys == Elements(TypesOf(profile)[..n])
      ensures forall t :: t in effects ==> Discovered(effects[t], t, profile, driver)
      ensures forall t :: t in effects ==> fresh(effects[t]) && fresh(effects[t].originalSettings)
      ensures forall t, u :: t in effects && u in effects && t != u ==> effects[t] != effects[u]
    {
      var built, n := BuildTracks(profile);
      // Registration stops at the first repeat, or registers every setting.
      assert n == |profile| ==> TypesOf(profile)[..n] == TypesOf(profile);
      FirstRepeatUnique(TypesOf(profile), n);
      effects := built;
      outcome := if n == |profile| then Pass else Fail(DuplicateEffect);
    }

    /** The registration loop: creates tracks in profile order until a type repeats,
        and reports how many settings it got through. */
    method BuildTracks(profile: seq<EffectSettings>) returns (built: map<EffectType, Effect>, n: nat)
      ensures n <= |profile| && NoRepeats(TypesOf(profile)[..n])
      ensures n < |profile| ==> TypesOf(profile)[n] in TypesOf(profile)[..n]
      ensures built.Keys == Elements(TypesOf(profile)[..n])
      ensures forall t :: t in built ==> Discovered(built[t], t, profile, driver)
      ensures forall t :: t in built ==> fresh(built[t]) && fresh(built[t].originalSettings)
      ensures forall t, u :: t in built && u in built && t != u ==> built[t] != built[u]
    {
      ghost var ts := TypesOf(profile);
      ghost var tracks: set<Effect> := {};
      ghost var snapshots: set<EffectSettings> := {};
      built := map[];
      n := 0;
      while n < |profile|
        invariant 0 <= n <= |profile|
        invariant NoRepeats(ts[..n])
        invariant built.Keys == Elements(ts[..n])
        invariant fresh(tracks) && fresh(snapshots)
        invariant forall t :: t in built ==>
          && Discovered(built[t], t, profile, driver)
          && built[t] in tracks && built[t].originalSettings in snapshots
        invariant forall t, u :: t in built && u in built && t != u ==> built[t] != built[u]
      {
        var t := profile[n].effectType;
        var e := NewTrack(t, profile);
        if t in built {
          break;
        }
        ExtendDistinct(ts, n);
        built := built[t := e];
        tracks := tracks + {e};
        snapshots := snapshots + {e.originalSettings};
        n := n + 1;
      }
    }

    /** Creates the track for type `t` and initialises it from `profile`. */
    method NewTrack(t: EffectType, profile: seq<EffectSettings>) returns (e: Effect)
      requires FirstIndexOfType(profile, t) < |profile|
      ensures fresh(e) && fresh(e.originalSettings) && Discovered(e, t, profile, driver)
    {
      e := new Effect(t, driver);
      var initialised := e.Init(profile);
    }

    /** The track of type `t`; a type not discovered by Awake is a lookup failure,
        never a default track. */
    function GetEffect(t: EffectType): (r: Result<Effect>)
      reads this
      ensures r.Ok? <==> t in effects
      ensures r.Ok? ==> r.value == effects[t]
      ensures r.Err? ==> r.failure == EffectNotFound
    {
      if t in effects then Ok(effects[t]) else Err(EffectNotFound)
    }
  }
}

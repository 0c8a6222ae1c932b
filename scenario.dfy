/** A caller's view of the animator, proved from the contracts alone: two tracks are
    discovered, one property is tweened twice, and completion is driven by hand. */
module Scenario {
  import opened Outcomes
  import opened Parameters
  import opened Tweening
  import opened EffectTrack
  import opened Animator

  method Discovery() {
    var bloomSettings := new EffectSettings(Bloom, map["intensity" := FloatValue(0.0)]);
    var vignetteSettings := new EffectSettings(Vignette, map["intensity" := FloatValue(0.0)]);
    var profile := [bloomSettings, vignetteSettings];
    assert TypesOf(profile) == [Bloom, Vignette];
    FirstRepeatUnique(TypesOf(profile), 2);

    var driver := new TweenDriver();
    var animator := new PostProcessAnimator(driver);
    var awoke := animator.Awake(profile);
    assert awoke == Pass;
    assert TypesOf(profile)[..2] == [Bloom, Vignette];
    assert animator.effects.Keys == {Bloom, Vignette};
    assert animator.GetEffect(Grain) == Err(EffectNotFound);
    assert animator.effects[Bloom].settings == bloomSettings;
    assert animator.effects[Bloom].originalSettings.effectType == Bloom;
    assert animator.effects[Bloom].originalSettings != bloomSettings;
    assert animator.effects[Bloom] != animator.effects[Vignette];
  }

  method Retween(bloom: Effect, vignette: Effect)
    requires bloom.Valid() && bloom.tweens == map[] && bloom.driver.handles == [] && bloom.driver.log == []
    requires bloom.settings.parameters == map["intensity" := FloatValue(0.0)] && bloom.settings.active
    requires vignette != bloom && vignette.tweens == map[]
    modifies bloom, bloom.driver, bloom.settings
  {
    var driver := bloom.driver;
    var settings := bloom.settings;

    // An unknown parameter fails before any handle exists.
    var missing := bloom.Tween("glow", FloatValue(1.0), 1.0);
    assert missing == Fail(FieldNotFound("glow"));
    assert driver.handles == [];

    // Tweening the same parameter twice: only the second handle stays tracked.
    var first := bloom.Tween("intensity", FloatValue(5.0), 1.0);
    assert bloom.tweens == map["intensity" := Ref(0)];
    var second := bloom.Tween("intensity", FloatValue(2.0), 1.0, true);
    assert bloom.tweens.Keys == {"intensity"} && bloom.tweens["intensity"] == Ref(1);
    assert driver.handles[0].killed && !driver.handles[1].killed;
    assert driver.handles[1].onComplete == [Deactivate(settings)];
    assert vignette.tweens == map[];
    assert driver.handles[0].goal == Drive(TweenProperties(settings, "intensity", FloatKind), FloatValue(5.0), 1.0);
    assert driver.handles[1].goal == Drive(TweenProperties(settings, "intensity", FloatKind), FloatValue(2.0), 1.0);
  }

  /** Completion after `Retween`: the killed handle never completes; the live one lands
      its end value, then deactivates the effect. */
  method CompleteRetween(driver: TweenDriver, settings: EffectSettings)
    requires settings.parameters == map["intensity" := FloatValue(0.0)] && settings.active
    requires |driver.handles| == 2 && driver.log == []
    requires driver.handles[0] ==
      HandleState(true, [], Drive(TweenProperties(settings, "intensity", FloatKind), FloatValue(5.0), 1.0))
    requires driver.handles[1] ==
      HandleState(false, [Deactivate(settings)], Drive(TweenProperties(settings, "intensity", FloatKind), FloatValue(2.0), 1.0))
    modifies driver, settings
  {
    driver.Complete(0);
    assert driver.log == [] && settings.active;
    assert settings.parameters == map["intensity" := FloatValue(0.0)];
    driver.Complete(1);
    assert driver.log == [Deactivate(settings)];
    assert !settings.active;
    assert settings.parameters == map["intensity" := FloatValue(2.0)];
  }

  /** A field of a type no overload targets (the BoolParameter `enabled`) still resolves
      and is registered; only its getter fails. */
  method OtherFieldKind(bloom: Effect)
    requires bloom.Valid() && bloom.tweens == map["enabled" := Null]
    requires bloom.settings.parameters == map["enabled" := OtherValue("BoolParameter")]
    modifies bloom, bloom.driver
  {
    var driver := bloom.driver;
    var n := |driver.handles|;
    var outcome := bloom.Tween("enabled", FloatValue(1.0), 1.0);
    assert outcome == Pass;
    assert bloom.tweens == map["enabled" := Ref(n)];
    assert Getter(TweenProperties(bloom.settings, "enabled", FloatKind)) == Err(KindMismatch("enabled"));
  }
}

/** The tween engine, seen only through what the animator uses of it: handles that can be
    killed and that carry an ordered list of completion callbacks. Interpolation itself
    (easing, per-frame advancement) is not modelled; completion writes the end value. */
module Tweening {
  import opened Outcomes
  import opened Parameters

  /** Handles are identified by their position in the engine's handle list. */
  type HandleId = nat

  /** A possibly-null handle reference, as a dictionary value or an argument. */
  datatype TweenRef = Null | Ref(id: HandleId)

  /** A completion action: a caller-supplied callback (opaque, identified by a tag)
      or the animator's "set `target.active` to false". */
  datatype Callback = Custom(tag: nat) | Deactivate(target: EffectSettings)

  /** What a handle was built to do: drive a bound parameter towards `endValue` over
      `duration`, or something a caller assembled itself. */
  datatype Goal = Prebuilt | Drive(properties: TweenProperties, endValue: Value, duration: real)

  datatype HandleState = HandleState(killed: bool, onComplete: seq<Callback>, goal: Goal)

  predicate Known(t: TweenRef, count: nat) {
    t.Ref? ==> t.id < count
  }

  /** Killing through a possibly-null reference: exactly the referenced handle becomes
      killed, and nothing else about any handle changes. */
  function KillRef(handles: seq<HandleState>, t: TweenRef): (r: seq<HandleState>)
    requires Known(t, |handles|)
    ensures |r| == |handles|
    ensures forall h :: 0 <= h < |handles| ==>
      && (r[h].killed <==> handles[h].killed || t == Ref(h))
      && r[h].onComplete == handles[h].onComplete
      && r[h].goal == handles[h].goal
  {
    if t.Null? then handles else handles[t.id := handles[t.id].(killed := true)]
  }

  /** The completion behaviour "run the previous callbacks, then deactivate `s`". */
  function WithDisable(onComplete: seq<Callback>, s: EffectSettings): (r: seq<Callback>)
    ensures |r| == |onComplete| + 1
    ensures r[..|onComplete|] == onComplete
    ensures r[|onComplete|] == Deactivate(s)
  {
    onComplete + [Deactivate(s)]
  }

  /** The settings objects a completion list may deactivate. */
  function Deactivated(onComplete: seq<Callback>): set<EffectSettings> {
    set c | c in onComplete && c.Deactivate? :: c.target
  }

  /** The settings object whose parameter a goal drives, if any. */
  function Driven(g: Goal): set<EffectSettings> {
    if g.Drive? then {g.properties.target} else {}
  }

  /** Whether a goal's final write goes through: a driven binding must accept its end
      value; a caller-built handle writes nothing the model sees. */
  predicate Lands(g: Goal)
    reads Driven(g)
  {
    g.Drive? ==> WriteField(g.properties.target.parameters, g.properties.field, g.properties.kind, g.endValue).Ok?
  }

  class TweenDriver {
    var handles: seq<HandleState>
    /** Every completion callback the engine has invoked, in invocation order. */
    var log: seq<Callback>

    constructor ()
      ensures handles == [] && log == []
    {
      handles := [];
      log := [];
    }

    /** Creates a live handle that drives the binding `p` towards `endValue`. */
    method To(p: TweenProperties, endValue: Value, duration: real) returns (h: HandleId)
      modifies this
      ensures h == |old(handles)|
      ensures handles == old(handles) + [HandleState(false, [], Drive(p, endValue, duration))]
      ensures log == old(log)
    {
      h := |handles|;
      handles := handles + [HandleState(false, [], Drive(p, endValue, duration))];
    }

    /** Creates a live handle assembled by a caller, with its own completion callbacks. */
    method Create(onComplete: seq<Callback>) returns (h: HandleId)
      modifies this
      ensures h == |old(handles)|
      ensures handles == old(handles) + [HandleState(false, onComplete, Prebuilt)]
      ensures log == old(log)
    {
      h := |handles|;
      handles := handles + [HandleState(false, onComplete, Prebuilt)];
    }

    /** `t?.Kill()`: a null reference kills nothing. Killing never runs the callbacks. */
    method Kill(t: TweenRef)
      requires Known(t, |handles|)
      modifies this
      ensures handles == KillRef(old(handles), t)
      ensures log == old(log)
    {
      if t.Ref? {
        handles := handles[t.id := handles[t.id].(killed := true)];
      }
    }

    /** Replaces the completion callbacks of handle `h`. */
    method SetOnComplete(h: HandleId, onComplete: seq<Callback>)
      requires h < |handles|
      modifies this
      ensures handles == old(handles)[h := old(handles)[h].(onComplete := onComplete)]
      ensures log == old(log)
    {
      handles := handles[h := handles[h].(onComplete := onComplete)];
    }

    /** Natural completion of handle `h`, the engine's last update of a live tween: a
        driven binding first receives its end value through the setter, then the
        completion callbacks run in order and the handle is killed (auto-kill). A killed
        handle does nothing. A setter that fails kills the handle before it completes, so
        no callback runs (the engine's default safe mode). */
    method Complete(h: HandleId)
      requires h < |handles|
      modifies this, Deactivated(handles[h].onComplete), Driven(handles[h].goal)
      ensures old(handles[h].killed) ==>
        && handles == old(handles) && log == old(log)
        && unchanged(Deactivated(old(handles[h].onComplete))) && unchanged(Driven(old(handles[h].goal)))
      ensures !old(handles[h].killed) ==> handles == old(handles)[h := old(handles[h]).(killed := true)]
      ensures !old(handles[h].killed) && !old(Lands(handles[h].goal)) ==>
        && log == old(log)
        && unchanged(Deactivated(old(handles[h].onComplete))) && unchanged(Driven(old(handles[h].goal)))
      ensures !old(handles[h].killed) && old(Lands(handles[h].goal)) ==>
        && log == old(log) + old(handles[h].onComplete)
        && (forall c :: c in old(handles[h].onComplete) && c.Deactivate? ==> !c.target.active)
        && (forall s :: s in Driven(old(handles[h].goal)) && s !in Deactivated(old(handles[h].onComplete)) ==>
              s.active == old(s.active))
      ensures var g := old(handles[h].goal);
        !old(handles[h].killed) && g.Drive? && old(Lands(g)) ==>
          && g.properties.target.parameters ==
               old(WriteField(g.properties.target.parameters, g.properties.field, g.properties.kind, g.endValue)).value
          && Getter(g.properties) == Ok(g.endValue)
      ensures forall s :: s in Deactivated(old(handles[h].onComplete)) && s !in Driven(old(handles[h].goal)) ==>
        s.parameters == old(s.parameters)
    {
      var cbs := handles[h].onComplete;
      var goal := handles[h].goal;
      if handles[h].killed {
        return;
      }
      if goal.Drive? {
        var written := Setter(goal.properties, goal.endValue);
        if written.Fail? {
          handles := handles[h := handles[h].(killed := true)];
          return;
        }
      }
      label landed:
      var i := 0;
      while i < |cbs|
        invariant 0 <= i <= |cbs|
        invariant handles == old(handles)
        invariant log == old(log) + cbs[..i]
        invariant forall j :: 0 <= j < i && cbs[j].Deactivate? ==> !cbs[j].target.active
        invariant forall s :: s in Deactivated(cbs) + Driven(goal) ==> s.parameters == old@landed(s.parameters)
        invariant forall s :: s in Driven(goal) && s !in Deactivated(cbs) ==> s.active == old(s.active)
      {
        var c := cbs[i];
        if c.Deactivate? {
          assert c.target in Deactivated(cbs);
          c.target.active := false;
        }
        log := log + [c];
        i := i + 1;
      }
      assert cbs[..i] == cbs;
      handles := handles[h := handles[h].(killed := true)];
    }
  }
}

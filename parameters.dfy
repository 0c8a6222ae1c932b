/** Effect settings and the binding of a named parameter to a getter/setter pair. */
module Parameters {
  import opened Outcomes

  /** The runtime type of a settings object: the post-processing effects the
      rendering framework ships, plus user-defined ones. */
  datatype EffectType =
    | AmbientOcclusion | AutoExposure | Bloom | ChromaticAberration | ColorGrading
    | DepthOfField | Grain | LensDistortion | MotionBlur | ScreenSpaceReflections
    | Vignette | UserEffect(name: string)

  datatype Color = Color(r: real, g: real, b: real, a: real)

  /** What a public field of a settings object holds: the payload of a FloatParameter,
      IntParameter or ColorParameter wrapper, or a field of any other type (a
      BoolParameter, a texture, a vector or enum parameter, ...), named by its type. */
  datatype Value = FloatValue(f: real) | IntValue(i: int) | ColorValue(c: Color) | OtherValue(typeName: string)

  /** The values a typed tween can target: there is no overload for any other type. */
  type TweenValue = v: Value | !v.OtherValue? witness FloatValue(0.0)

  /** The wrapper type a binding is resolved against. */
  datatype Kind = FloatKind | IntKind | ColorKind

  /** Whether `v` is the payload of a wrapper of kind `k`. */
  predicate HasKind(v: Value, k: Kind) {
    match v
    case FloatValue(_) => k == FloatKind
    case IntValue(_) => k == IntKind
    case ColorValue(_) => k == ColorKind
    case OtherValue(_) => false
  }

  /** The wrapper kind an end value selects. */
  function KindOf(v: TweenValue): (k: Kind)
    ensures HasKind(v, k)
  {
    match v
    case FloatValue(_) => FloatKind
    case IntValue(_) => IntKind
    case ColorValue(_) => ColorKind
  }

  /** A settings object: its `active` flag and its parameter wrappers by field name. */
  class EffectSettings {
    const effectType: EffectType
    var active: bool
    var parameters: map<string, Value>

    constructor (effectType: EffectType, parameters: map<string, Value>)
      requires "" !in parameters
      ensures this.effectType == effectType && active && this.parameters == parameters
    {
      this.effectType := effectType;
      active := true;
      this.parameters := parameters;
    }

    /** A fresh copy equal in value to `src`, as the engine's deep clone gives. */
    constructor Clone(src: EffectSettings)
      ensures effectType == src.effectType && active == src.active
      ensures parameters == src.parameters
    {
      effectType := src.effectType;
      active := src.active;
      parameters := src.parameters;
    }
  }

  /** The index of the first setting of type `t` in a profile, or |profile| if none:
      the setting a profile hands out for a type. */
  function FirstIndexOfType(profile: seq<EffectSettings>, t: EffectType): (i: nat)
    ensures i <= |profile|
    ensures i < |profile| ==> profile[i].effectType == t
    ensures forall j :: 0 <= j < i ==> profile[j].effectType != t
  {
    if |profile| == 0 then 0
    else if profile[0].effectType == t then 0
    else 1 + FirstIndexOfType(profile[1..], t)
  }

  /** Reading the payload of field `field` through a wrapper of kind `kind`. */
  function ReadField(parameters: map<string, Value>, field: string, kind: Kind): (r: Result<Value>)
    ensures r.Ok? <==> field in parameters && HasKind(parameters[field], kind)
    ensures r.Ok? ==> r.value == parameters[field] && HasKind(r.value, kind)
    ensures field !in parameters ==> r == Err(FieldNotFound(field))
    ensures field in parameters && r.Err? ==> r == Err(KindMismatch(field))
  {
    if field !in parameters then Err(FieldNotFound(field))
    else if !HasKind(parameters[field], kind) then Err(KindMismatch(field))
    else Ok(parameters[field])
  }

  /** Writing `x` into the payload of field `field` through a wrapper of kind `kind`:
      on success only that field changes. */
  function WriteField(parameters: map<string, Value>, field: string, kind: Kind, x: Value): (r: Result<map<string, Value>>)
    ensures r.Ok? <==> field in parameters && HasKind(parameters[field], kind) && HasKind(x, kind)
    ensures r.Ok? ==> r.value.Keys == parameters.Keys && r.value[field] == x
    ensures r.Ok? ==> forall f :: f in parameters && f != field ==> r.value[f] == parameters[f]
    ensures field !in parameters ==> r == Err(FieldNotFound(field))
    ensures field in parameters && r.Err? ==> r == Err(KindMismatch(field))
  {
    if field !in parameters then Err(FieldNotFound(field))
    else if !HasKind(parameters[field], kind) || !HasKind(x, kind) then Err(KindMismatch(field))
    else Ok(parameters[field := x])
  }

  /** A value written through a binding is what the binding then reads back. */
  lemma ReadAfterWrite(parameters: map<string, Value>, field: string, kind: Kind, x: Value)
    requires WriteField(parameters, field, kind, x).Ok?
    ensures ReadField(WriteField(parameters, field, kind, x).value, field, kind) == Ok(x)
  {
  }

  /** A resolved binding: the wrapper under `field` of `target`, accessed as `kind`. */
  datatype TweenProperties = TweenProperties(target: EffectSettings, field: string, kind: Kind)

  /** The getter of a binding: re-reads the payload each time it is called. */
  function Getter(p: TweenProperties): (r: Result<Value>)
    reads p.target
    ensures r.Ok? ==> p.field in p.target.parameters && r.value == p.target.parameters[p.field]
    ensures r.Ok? <==> p.field in p.target.parameters && HasKind(p.target.parameters[p.field], p.kind)
  {
    ReadField(p.target.parameters, p.field, p.kind)
  }

  /** The setter of a binding: writes the payload of that one parameter in place. */
  method Setter(p: TweenProperties, x: Value) returns (outcome: Outcome)
    modifies p.target
    ensures p.target.active == old(p.target.active)
    ensures var w := WriteField(old(p.target.parameters), p.field, p.kind, x);
      && (outcome.Pass? <==> w.Ok?)
      && (w.Ok? ==> p.target.parameters == w.value)
      && (w.Err? ==> outcome == Fail(w.failure) && p.target.parameters == old(p.target.parameters))
    ensures outcome.Pass? ==> Getter(p) == Ok(x)
    ensures outcome.Fail? ==> unchanged(p.target)
  {
    var w := WriteField(p.target.parameters, p.field, p.kind, x);
    if w.Err? {
      return Fail(w.failure);
    }
    p.target.parameters := w.value;
    ReadAfterWrite(old(p.target.parameters), p.field, p.kind, x);
    outcome := Pass;
  }
}

/**
 * The effect flags of a sound (AudioGlobals.cs lines 46-74): each sound carries an
 * `AudioEffects` value, and the static `globalAudioEffects` can switch effects off
 * for every sound. A sound gets an effect only when both its own flag and the
 * global one let it through.
 */
module AudioGlobals {
  import opened Wrappers

  /** A Unity `Vector3`, with reals for floats. */
  datatype Vec3 = Vec3(x: real, y: real, z: real)

  const Zero := Vec3(0.0, 0.0, 0.0)

  /** A Unity `Transform`, known by its identity; its point transforms are passed in where they are used. */
  datatype Transform = Transform(instanceId: int)

  /**
   * `AudioConfig` (lines 8-31): the effects and singleton flag of a sound, and the
   * id of the instance it last played (`lastPlayedId`, the field `PlaySound` reads and
   * writes).
   */
  class AudioConfig {
    var audioEffects: AudioEffects
    var singletone: bool
    var lastPlayedId: int

    constructor (audioEffects: AudioEffects, singletone: bool, lastPlayedId: int)
      ensures this.audioEffects == audioEffects && this.singletone == singletone && this.lastPlayedId == lastPlayedId
    {
      this.audioEffects, this.singletone, this.lastPlayedId := audioEffects, singletone, lastPlayedId;
    }
  }

  /** `AudioProps` (lines 33-37): the start position and the transform to follow (`attatchTo`, which `SetProps` reads). */
  datatype AudioProps = AudioProps(pos: Vec3, attatchTo: Option<Transform>)

  /** `CustomProp` (lines 39-43): a named event parameter; a null name is `None`. */
  class CustomProp {
    var name: Option<string>
    var value: real

    constructor (name: Option<string>, value: real)
      ensures this.name == name && this.value == value
    {
      this.name, this.value := name, value;
    }
  }

  /** `AudioEffects` (lines 46-52). */
  datatype AudioEffects = All | BypassTracing | BypassZones | BypassAll

  /** The enum's underlying value. */
  function Value(e: AudioEffects): (r: int)
    ensures r in {0, 10, 11, 20}
  {
    match e
    case All => 0
    case BypassTracing => 10
    case BypassZones => 11
    case BypassAll => 20
  }

  /** `HasTracing`, with the static `globalAudioEffects` as the parameter `global`. */
  predicate HasTracing(e: AudioEffects, global: AudioEffects) {
    (e == All || e == BypassZones) && (global == All || global == BypassZones)
  }

  /** `HasZones`. */
  predicate HasZones(e: AudioEffects, global: AudioEffects) {
    (e == All || e == BypassTracing) && (global == All || global == BypassTracing)
  }

  /** `HasAny`. */
  predicate HasAny(e: AudioEffects, global: AudioEffects) {
    e != BypassAll && global != BypassAll
  }

  /**
   * What each test means in terms of bypasses: tracing runs unless the sound or
   * the global setting bypasses it or everything, and likewise zones. Some
   * effect runs exactly when tracing or zones run, or when the two sides bypass
   * one effect each (which leaves neither running).
   */
  lemma EffectsByBypass(e: AudioEffects, global: AudioEffects)
    ensures HasTracing(e, global) <==>
      (e != BypassTracing && e != BypassAll && global != BypassTracing && global != BypassAll)
    ensures HasZones(e, global) <==>
      (e != BypassZones && e != BypassAll && global != BypassZones && global != BypassAll)
    ensures HasAny(e, global) <==>
      (HasTracing(e, global) || HasZones(e, global) ||
       (e == BypassTracing && global == BypassZones) || (e == BypassZones && global == BypassTracing))
  {
  }

  /** The enum values are distinct, so the flags are told apart by their value. */
  lemma ValueInjective(a: AudioEffects, b: AudioEffects)
    ensures Value(a) == Value(b) <==> a == b
  {
  }

  /** `bypassAll`, on the sound or globally, switches every effect off. */
  lemma BypassAllDisablesEverything(e: AudioEffects, global: AudioEffects)
    requires e == BypassAll || global == BypassAll
    ensures !HasAny(e, global) && !HasTracing(e, global) && !HasZones(e, global)
  {
  }

  /** Either effect implies that the sound has some effect. */
  lemma EffectImpliesAny(e: AudioEffects, global: AudioEffects)
    ensures HasTracing(e, global) ==> HasAny(e, global)
    ensures HasZones(e, global) ==> HasAny(e, global)
  {
  }

  /**
   * Tracing and zones together need `all` on both sides; with some effect but
   * neither of the two, one side bypasses tracing and the other bypasses zones.
   */
  lemma EffectsCombined(e: AudioEffects, global: AudioEffects)
    ensures HasTracing(e, global) && HasZones(e, global) <==> e == All && global == All
    ensures HasAny(e, global) && !HasTracing(e, global) && !HasZones(e, global) <==>
      (e == BypassTracing && global == BypassZones) || (e == BypassZones && global == BypassTracing)
  {
  }
}

/**
 * A playing sound (AudioInstance.cs): its id, which is negative once the sound
 * is inactive, its lifecycle state, its position and parent, and the handle
 * `AudioInstanceRef` that users hold, which stays valid only while the id it
 * captured is still the instance's id. The callbacks an instance raises and
 * the disposals it performs are recorded in the `notified` and `disposals`
 * logs; the FMOD calls themselves are not modelled.
 */
module AudioInstances {
  import opened Wrappers
  import opened AudioGlobals

  /** `State` (lines 147-154). */
  datatype State = PendingCreation | PendingPlay | Playing | PendingDestroy | Destroyed

  /** The enum's underlying value; the lifecycle only moves to higher values. */
  function Rank(s: State): (r: nat)
    ensures r % 10 == 0 && r <= 40
  {
    match s
    case PendingCreation => 0
    case PendingPlay => 10
    case Playing => 20
    case PendingDestroy => 30
    case Destroyed => 40
  }

  /** The `AudioCallback` values the instance raises. */
  datatype AudioCallback = Started | Stopped | Beat | Marker

  /**
   * An effect input (`AudioTracer.TraceInput`, `AudioZones.ZoneInput`) as the
   * instance sees it: absent, or present with its `resultIsReady` flag.
   */
  predicate InputReady(input: Option<bool>) {
    input.None? || input.value
  }

  class AudioInstance {
    var id: int
    var state: State
    var audioEffects: AudioEffects
    var handle: int
    var traceInput: Option<bool>
    var zoneInput: Option<bool>
    var parentTrans: Option<Transform>
    var position: Vec3
    var posL: Vec3
    var notified: seq<AudioCallback>
    var disposals: seq<bool>

    /**
     * A new instance (line 62; AudioManager.cs lines 166-182): inactive (id -1),
     * in the first state, with its effects, FMOD handle and effect inputs.
     */
    constructor (audioEffects: AudioEffects, handle: int, traceInput: Option<bool>, zoneInput: Option<bool>)
      ensures id == -1 && state == PendingCreation && this.audioEffects == audioEffects && this.handle == handle
      ensures this.traceInput == traceInput && this.zoneInput == zoneInput && parentTrans == None
      ensures position == Zero && posL == Zero && notified == [] && disposals == []
    {
      id, state, this.audioEffects, this.handle := -1, PendingCreation, audioEffects, handle;
      this.traceInput, this.zoneInput, parentTrans := traceInput, zoneInput, None;
      position, posL := Zero, Zero;
      notified, disposals := [], [];
    }

    /** `IsPlaying` (lines 206-209): started and not yet stopping, in the lifecycle order. */
    predicate IsPlaying(): (r: bool)
      reads this
      ensures r <==> Rank(PendingPlay) < Rank(state) < Rank(PendingDestroy)
    {
      state == Playing
    }

    /**
     * `IsActive` (lines 214-217): the sound is or will be playing. The id -1 that
     * construction and inactivation write reads as inactive.
     */
    predicate IsActive(): (r: bool)
      reads this
      ensures id == -1 ==> !r
    {
      id >= 0
    }

    /**
     * `SetPosition` (lines 186-190): the world position is always set; with a
     * parent the local position becomes the parent's `InverseTransformPoint`
     * of it (`inverse`).
     */
    method SetPosition(newPos: Vec3, inverse: (Transform, Vec3) -> Vec3)
      modifies this`position, this`posL
      ensures position == newPos
      ensures parentTrans.Some? ==> posL == inverse(parentTrans.value, newPos)
      ensures parentTrans.None? ==> posL == old(posL)
    {
      if parentTrans.Some? {
        posL := inverse(parentTrans.value, newPos);
      }
      position := newPos;
    }

    /**
     * `SetParent` (lines 192-201): the old parent is always dropped; a new one is
     * taken with the local position of the current world position.
     */
    method SetParent(newParent: Option<Transform>, inverse: (Transform, Vec3) -> Vec3)
      modifies this`parentTrans, this`posL
      ensures parentTrans == newParent
      ensures newParent.Some? ==> posL == inverse(newParent.value, position)
      ensures newParent.None? ==> posL == old(posL)
    {
      if parentTrans.Some? {
        parentTrans := None;
      }
      if newParent == parentTrans {
        return;
      }
      posL := inverse(newParent.value, position);
      parentTrans := newParent;
    }

    /**
     * `SetProps` (lines 156-163): no props change nothing; otherwise take the
     * props' parent, then its position.
     */
    method SetProps(newProps: Option<AudioProps>, inverse: (Transform, Vec3) -> Vec3)
      modifies this`parentTrans, this`posL, this`position
      ensures newProps.None? ==> unchanged(this)
      ensures newProps.Some? ==>
        parentTrans == newProps.value.attatchTo && position == newProps.value.pos &&
        posL == (if parentTrans.Some? then inverse(parentTrans.value, position) else old(posL))
    {
      if newProps.None? {
        return;
      }
      SetParent(newProps.value.attatchTo, inverse);
      SetPosition(newProps.value.pos, inverse);
    }

    /** Both effect inputs are absent or have their result ready. */
    predicate InputsReady()
      reads this
    {
      InputReady(traceInput) && InputReady(zoneInput)
    }

    /**
     * The state update at the head of `TickSource` (lines 259-270): a pending
     * sound whose inputs are ready starts (raising `Started`); the rest of the
     * tick runs only while playing.
     */
    method TickHead() returns (continues: bool)
      modifies this`state, this`notified
      ensures old(state) == PendingPlay && InputsReady() ==> state == Playing && notified == old(notified) + [Started]
      ensures !(old(state) == PendingPlay && InputsReady()) ==> state == old(state) && notified == old(notified)
      ensures continues <==> IsPlaying()
      ensures Rank(old(state)) <= Rank(state)
    {
      if state == PendingPlay && InputReady(traceInput) && InputReady(zoneInput) {
        notified := notified + [Started];
        state := Playing;
      }
      if state != Playing {
        return false;
      }
      return true;
    }
  }

  /** The effect input `PlaySound` gives a new instance: present, and ready, exactly when the effect is on (AudioManager.cs lines 181-182). */
  function CreatedInput(effectOn: bool): (r: Option<bool>)
    ensures r.Some? <==> effectOn
    ensures InputReady(r)
  {
    if effectOn then Some(true) else None
  }

  /**
   * `AudioInstanceRef` (lines 10-48): the instance and the id it had when the
   * reference was made.
   */
  class AudioInstanceRef {
    const ai: AudioInstance
    const id: int

    constructor (ai: AudioInstance)
      ensures this.ai == ai && id == ai.id && IsValid()
    {
      this.ai := ai;
      id := ai.id;
    }

    /**
     * `IsValid` (lines 44-47): while valid, the instance is active exactly when
     * the captured id was an active one; a reference made to an active instance
     * is invalid once that instance is inactive.
     */
    predicate IsValid(): (r: bool)
      reads ai
      ensures r ==> (ai.IsActive() <==> id >= 0)
      ensures id >= 0 && !ai.IsActive() ==> !r
    {
      id == ai.id
    }

    /** `_ai` (lines 26-33), with the shared dummy instance as a parameter. */
    function Ai(dummyAI: AudioInstance): (r: AudioInstance)
      reads ai
      ensures IsValid() ==> r == ai
      ensures !IsValid() ==> r == dummyAI
    {
      if id != ai.id then dummyAI else ai
    }

    /** `TryGetAudioInstance` (lines 38-42). */
    function TryGetAudioInstance(): (r: AudioInstance?)
      reads ai
      ensures r != null <==> IsValid()
      ensures r != null ==> r == ai
    {
      if id != ai.id then null else ai
    }
  }

  /**
   * A reference made to an active instance is invalid once the instance is
   * inactivated (its id set to -1), and it stays invalid unless the instance
   * gets back the very id it had.
   */
  lemma InactivatedRefInvalid(r: AudioInstanceRef, dummyAI: AudioInstance)
    requires r.id >= 0 && r.ai.id == -1
    ensures !r.IsValid() && r.TryGetAudioInstance() == null && r.Ai(dummyAI) == dummyAI
  {
  }
}

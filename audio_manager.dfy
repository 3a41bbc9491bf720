/**
 * The sound registry of AudioManager.cs: `PlaySound` creates and registers
 * instances under increasing ids, and the FMOD event callback moves an
 * instance through its lifecycle and unregisters it when it stops or is
 * destroyed. The FMOD handle of an instance is an `int`; locking and the
 * foreign callback thread are not modelled, the callbacks run one at a time.
 */
module AudioManager {
  import opened Wrappers
  import opened AudioGlobals
  import opened AudioInstances

  /** The `FMOD.RESULT` values the callback returns. */
  datatype FmodResult = Ok | ErrBadCommand | Err(code: int)

  /** `EVENT_CALLBACK_TYPE`: the kinds the callback handles (lines 223-245) and any other. */
  datatype CallbackType =
    | EventCreated | EventStopped | EventDestroyed | TimelineBeat | TimelineMarker
    | CreateProgrammerSound | DestroyProgrammerSound | OtherCallback(mask: int)

  /** An FMOD `StudioListener`, by identity, with its transform's position. */
  datatype Listener = Listener(instanceId: int, position: Vec3)

  /** Every element occurs at most once. */
  ghost predicate Distinct<T>(s: seq<T>) {
    forall x :: x in s ==> multiset(s)[x] == 1
  }

  /** `List.Remove`: `s` without the first occurrence of `x`. */
  function RemoveFirst<T(==)>(s: seq<T>, x: T): (r: seq<T>)
    ensures multiset(r) == multiset(s) - multiset{x}
    ensures x !in s ==> r == s
  {
    if s == [] then []
    else if s[0] == x then (assert s == [s[0]] + s[1..]; s[1..])
    else (assert s == [s[0]] + s[1..]; [s[0]] + RemoveFirst(s[1..], x))
  }

  /** Removing an element from a sequence without repeats leaves the others and drops it. */
  lemma RemoveFirstDistinct<T>(s: seq<T>, x: T)
    requires Distinct(s)
    ensures Distinct(RemoveFirst(s, x))
    ensures forall y :: y in RemoveFirst(s, x) <==> y in s && y != x
  {
    var r := RemoveFirst(s, x);
    forall y
      ensures y in r <==> y in s && y != x
    {
      assert y in r <==> multiset(r)[y] > 0;
      assert y in s <==> multiset(s)[y] > 0;
    }
    forall y | y in r
      ensures multiset(r)[y] == 1
    {
      assert multiset(r)[y] > 0;
    }
  }

  lemma DistinctSnoc<T>(s: seq<T>, x: T)
    requires Distinct(s) && x !in s
    ensures Distinct(s + [x])
  {
    forall y | y in s + [x]
      ensures multiset(s + [x])[y] == 1
    {
      assert multiset(s + [x]) == multiset(s) + multiset{x};
      if y != x {
        assert y in s;
      }
    }
  }

  class Manager {
    var idToAI: map<int, AudioInstance>
    var handleToAI: map<int, AudioInstance>
    var allAIs: seq<AudioInstance>
    /** The static `AudioInstance.nextId` (AudioInstance.cs line 52). */
    var nextId: int
    var listener: Option<Listener>
    var camPos: Vec3
    /** The static `AudioGlobals.globalAudioEffects`. */
    var globalAudioEffects: AudioEffects

    /**
     * The registry's invariant: registered instances carry their key as id,
     * below `nextId`; `allAIs` lists exactly the registered instances, each
     * once; an instance under a handle that is active is registered under its id.
     */
    ghost predicate Valid()
      reads this, idToAI.Values`id, allAIs`id, handleToAI.Values`id
    {
      0 <= nextId &&
      (forall id :: id in idToAI ==> 0 <= id < nextId && idToAI[id].id == id && idToAI[id] in allAIs) &&
      (forall a :: a in allAIs ==> a.id in idToAI && idToAI[a.id] == a) &&
      Distinct(allAIs) &&
      (forall h :: h in handleToAI && handleToAI[h].id >= 0 ==>
        handleToAI[h].id in idToAI && idToAI[handleToAI[h].id] == handleToAI[h])
    }

    /** An instance under a handle is registered exactly when it is active. */
    lemma RegisteredIffActive(h: int)
      requires Valid() && h in handleToAI
      ensures handleToAI[h].IsActive() <==> exists id :: id in idToAI && idToAI[id] == handleToAI[h]
      ensures handleToAI[h].IsActive() <==> handleToAI[h] in allAIs
    {
      var ai := handleToAI[h];
      if ai.IsActive() {
        assert idToAI[ai.id] == ai;
      }
    }

    constructor ()
      ensures Valid() && idToAI == map[] && handleToAI == map[] && allAIs == [] && nextId == 0
      ensures listener == None && globalAudioEffects == All
    {
      idToAI, handleToAI, allAIs, nextId := map[], map[], [], 0;
      listener, camPos, globalAudioEffects := None, Zero, All;
    }

    /** The next id is not taken, so ids handed out are unique. */
    lemma NextIdUnused()
      requires Valid()
      ensures nextId !in idToAI
      ensures forall id :: id in idToAI ==> id < nextId
    {
    }

    /**
     * `PlaySound` (lines 145-207). A singleton config whose last instance is
     * still registered gets that instance, with the new props. Otherwise a new
     * instance (with the FMOD handle `handle`) is held under its handle, gets
     * the effect inputs its flags allow, the id `nextId`, which becomes the
     * config's last played id, and is registered and listed.
     */
    method PlaySound(config: AudioConfig, props: Option<AudioProps>, handle: int, inverse: (Transform, Vec3) -> Vec3)
      returns (r: AudioInstanceRef)
      requires Valid()
      requires !(config.singletone && config.lastPlayedId in idToAI) ==> handle !in handleToAI
      modifies this`idToAI, this`handleToAI, this`allAIs, this`nextId,
               config`lastPlayedId, idToAI.Values`parentTrans, idToAI.Values`posL, idToAI.Values`position
      ensures Valid() && r.IsValid()
      ensures old(config.singletone && config.lastPlayedId in idToAI) ==>
        r.ai == old(idToAI[config.lastPlayedId]) && idToAI == old(idToAI) && handleToAI == old(handleToAI) &&
        allAIs == old(allAIs) && nextId == old(nextId) && config.lastPlayedId == old(config.lastPlayedId)
      ensures !old(config.singletone && config.lastPlayedId in idToAI) ==>
        fresh(r.ai) && r.ai.id == old(nextId) && nextId == old(nextId) + 1 && config.lastPlayedId == r.ai.id &&
        idToAI == old(idToAI)[r.ai.id := r.ai] && handleToAI == old(handleToAI)[handle := r.ai] &&
        allAIs == old(allAIs) + [r.ai] && r.ai.handle == handle &&
        r.ai.state == PendingCreation && r.ai.audioEffects == config.audioEffects &&
        r.ai.traceInput == CreatedInput(HasTracing(config.audioEffects, globalAudioEffects)) &&
        r.ai.zoneInput == CreatedInput(HasZones(config.audioEffects, globalAudioEffects)) &&
        r.ai.notified == [] && r.ai.disposals == []
      ensures props.Some? ==> r.ai.position == props.value.pos && r.ai.parentTrans == props.value.attatchTo
    {
      if config.singletone && config.lastPlayedId in idToAI {
        r := PlayExisting(config, props, inverse);
      } else {
        r := PlayNew(config, props, handle, inverse);
      }
    }

    /** The singleton path of `PlaySound` (lines 149-163): the last instance gets the new props. */
    method PlayExisting(config: AudioConfig, props: Option<AudioProps>, inverse: (Transform, Vec3) -> Vec3)
      returns (r: AudioInstanceRef)
      requires Valid() && config.lastPlayedId in idToAI
      modifies idToAI.Values`parentTrans, idToAI.Values`posL, idToAI.Values`position
      ensures Valid() && r.IsValid() && r.ai == idToAI[config.lastPlayedId]
      ensures props.Some? ==> r.ai.position == props.value.pos && r.ai.parentTrans == props.value.attatchTo
    {
      var existing := idToAI[config.lastPlayedId];
      existing.SetProps(props, inverse);
      r := new AudioInstanceRef(existing);
    }

    /** A new sound (lines 165-206): created, held, registered, then given its props. */
    method PlayNew(config: AudioConfig, props: Option<AudioProps>, handle: int, inverse: (Transform, Vec3) -> Vec3)
      returns (r: AudioInstanceRef)
      requires Valid() && handle !in handleToAI
      modifies this`idToAI, this`handleToAI, this`allAIs, this`nextId, config`lastPlayedId
      ensures Valid() && r.IsValid()
      ensures fresh(r.ai) && r.ai.id == old(nextId) && nextId == old(nextId) + 1 && config.lastPlayedId == r.ai.id
      ensures idToAI == old(idToAI)[r.ai.id := r.ai] && handleToAI == old(handleToAI)[handle := r.ai]
      ensures allAIs == old(allAIs) + [r.ai] && r.ai.handle == handle
      ensures r.ai.state == PendingCreation && r.ai.audioEffects == config.audioEffects
      ensures r.ai.traceInput == CreatedInput(HasTracing(config.audioEffects, globalAudioEffects))
      ensures r.ai.zoneInput == CreatedInput(HasZones(config.audioEffects, globalAudioEffects))
      ensures r.ai.notified == [] && r.ai.disposals == []
      ensures props.Some? ==> r.ai.position == props.value.pos && r.ai.parentTrans == props.value.attatchTo
    {
      var ai := NewInstance(config.audioEffects, handle);
      ghost var kept := (ai.state, ai.audioEffects, ai.handle, ai.traceInput, ai.zoneInput, ai.notified, ai.disposals);
      Register(config, ai);
      assert (ai.state, ai.audioEffects, ai.handle, ai.traceInput, ai.zoneInput, ai.notified, ai.disposals) == kept;
      ghost var regs := (idToAI, handleToAI, allAIs, nextId, config.lastPlayedId, ai.id);
      ai.SetProps(props, inverse);
      assert (ai.state, ai.audioEffects, ai.handle, ai.traceInput, ai.zoneInput, ai.notified, ai.disposals) == kept;
      assert (idToAI, handleToAI, allAIs, nextId, config.lastPlayedId, ai.id) == regs;
      r := new AudioInstanceRef(ai);
    }

    /**
     * The new instance of `PlaySound` (lines 166-182), held under its handle,
     * which FMOD has just made and `Dictionary.Add` demands to be new.
     */
    method NewInstance(audioEffects: AudioEffects, handle: int) returns (ai: AudioInstance)
      requires Valid() && handle !in handleToAI
      modifies this`handleToAI
      ensures Valid() && fresh(ai) && handleToAI == old(handleToAI)[handle := ai]
      ensures ai.id == -1 && ai.handle == handle && ai.state == PendingCreation && ai.audioEffects == audioEffects
      ensures ai.traceInput == CreatedInput(HasTracing(audioEffects, globalAudioEffects))
      ensures ai.zoneInput == CreatedInput(HasZones(audioEffects, globalAudioEffects))
      ensures ai.parentTrans == None && ai.notified == [] && ai.disposals == []
    {
      var traceInput := CreatedInput(HasTracing(audioEffects, globalAudioEffects));
      var zoneInput := CreatedInput(HasZones(audioEffects, globalAudioEffects));
      ai := new AudioInstance(audioEffects, handle, traceInput, zoneInput);
      handleToAI := handleToAI[handle := ai];
    }

    /** The id registration of `PlaySound` (lines 185-193). */
    method Register(config: AudioConfig, ai: AudioInstance)
      requires Valid() && ai.id == -1
      modifies this`idToAI, this`allAIs, this`nextId, config`lastPlayedId, ai`id
      ensures Valid()
      ensures ai.id == old(nextId) && nextId == old(nextId) + 1 && config.lastPlayedId == ai.id
      ensures idToAI == old(idToAI)[ai.id := ai] && allAIs == old(allAIs) + [ai]
    {
      DistinctSnoc(allAIs, ai);
      ai.id := nextId;
      nextId := nextId + 1;
      config.lastPlayedId := ai.id;
      idToAI := idToAI[ai.id := ai];
      allAIs := allAIs + [ai];
    }

    /**
     * `OnInactivate` (lines 366-378): an inactive instance is left alone; an
     * active one is unregistered from `idToAI` and `allAIs` and gets id -1.
     */
    method OnInactivate(ai: AudioInstance, handle: int)
      requires Valid() && handle in handleToAI && handleToAI[handle] == ai
      modifies this`idToAI, this`allAIs, ai`id
      ensures Valid()
      ensures old(ai.id) < 0 ==> idToAI == old(idToAI) && allAIs == old(allAIs) && ai.id == old(ai.id)
      ensures old(ai.id) >= 0 ==>
        idToAI == old(idToAI) - {old(ai.id)} && allAIs == RemoveFirst(old(allAIs), ai) && ai.id == -1
      ensures ai.id < 0 && ai !in allAIs && forall id :: id in idToAI ==> idToAI[id] != ai
    {
      RegisteredIffActive(handle);
      if ai.id < 0 {
        return;
      }
      RemoveFirstDistinct(allAIs, ai);
      idToAI := idToAI - {ai.id};
      allAIs := RemoveFirst(allAIs, ai);
      ai.id := -1;
    }

    /**
     * `OnCreated` (lines 290-364): a sound with effects whose channel group
     * cannot be had returns that error and stays where it was; otherwise it
     * becomes pending to play.
     */
    method OnCreated(ai: AudioInstance, channelGroup: FmodResult) returns (result: FmodResult)
      requires Valid()
      modifies ai`state
      ensures Valid()
      ensures HasAny(ai.audioEffects, globalAudioEffects) && channelGroup != Ok ==>
        result == channelGroup && ai.state == old(ai.state)
      ensures !(HasAny(ai.audioEffects, globalAudioEffects) && channelGroup != Ok) ==>
        result == Ok && ai.state == PendingPlay
    {
      if HasAny(ai.audioEffects, globalAudioEffects) {
        result := channelGroup;
        if result != Ok {
          return;
        }
      }
      result := Ok;
      ai.state := PendingPlay;
    }

    /** `OnStopped` (lines 380-390): inactivate, raise `Stopped`, dispose without destroying, wait for destruction. */
    method OnStopped(ai: AudioInstance, handle: int)
      requires Valid() && handle in handleToAI && handleToAI[handle] == ai
      modifies this`idToAI, this`allAIs, ai`id, ai`notified, ai`disposals, ai`state
      ensures Valid() && ai.id < 0 && ai !in allAIs && (forall id :: id in idToAI ==> idToAI[id] != ai)
      ensures ai.state == PendingDestroy && ai.notified == old(ai.notified) + [Stopped] && ai.disposals == old(ai.disposals) + [false]
      ensures handleToAI == old(handleToAI)
      ensures old(ai.id) < 0 ==> idToAI == old(idToAI) && allAIs == old(allAIs)
      ensures old(ai.id) >= 0 ==> idToAI == old(idToAI) - {old(ai.id)} && allAIs == RemoveFirst(old(allAIs), ai)
    {
      OnInactivate(ai, handle);
      ai.notified := ai.notified + [Stopped];
      ai.disposals := ai.disposals + [false];
      ai.state := PendingDestroy;
    }

    /**
     * `OnDestroy` (lines 392-412): inactivate; raise `Stopped` and dispose for
     * destruction only if the stop callback has not done so; end destroyed and
     * drop the handle.
     */
    method OnDestroy(ai: AudioInstance, handle: int)
      requires Valid() && handle in handleToAI && handleToAI[handle] == ai
      modifies this`idToAI, this`allAIs, this`handleToAI,
               ai`id, ai`notified, ai`disposals, ai`state
      ensures Valid() && ai.id < 0 && ai !in allAIs && (forall id :: id in idToAI ==> idToAI[id] != ai)
      ensures ai.state == Destroyed && handleToAI == old(handleToAI) - {handle}
      ensures old(ai.state) != PendingDestroy ==>
        ai.notified == old(ai.notified) + [Stopped] && ai.disposals == old(ai.disposals) + [true]
      ensures old(ai.state) == PendingDestroy ==> ai.notified == old(ai.notified) && ai.disposals == old(ai.disposals)
      ensures old(ai.id) < 0 ==> idToAI == old(idToAI) && allAIs == old(allAIs)
      ensures old(ai.id) >= 0 ==> idToAI == old(idToAI) - {old(ai.id)} && allAIs == RemoveFirst(old(allAIs), ai)
    {
      OnInactivate(ai, handle);
      if ai.state != PendingDestroy {
        ai.notified := ai.notified + [Stopped];
        ai.disposals := ai.disposals + [true];
      }
      ai.state := Destroyed;
      handleToAI := handleToAI - {handle};
    }

    /**
     * `EventCallback` (lines 210-252) for the instance registered under
     * `handle`; `channelGroup` is what FMOD's `getChannelGroup` answers. An
     * unknown callback kind is refused with `ERR_BADCOMMAND`.
     */
    method EventCallback(kind: CallbackType, handle: int, channelGroup: FmodResult) returns (result: FmodResult)
      requires Valid() && handle in handleToAI
      modifies this`idToAI, this`allAIs, this`handleToAI,
               {handleToAI[handle]}`id, {handleToAI[handle]}`state, {handleToAI[handle]}`notified, {handleToAI[handle]}`disposals
      ensures Valid()
      ensures kind != EventDestroyed ==> handleToAI == old(handleToAI)
      ensures result == ErrBadCommand <==> (kind.OtherCallback? || (kind == EventCreated && channelGroup == ErrBadCommand &&
        HasAny(old(handleToAI[handle]).audioEffects, globalAudioEffects)))
      ensures var ai := old(handleToAI[handle]);
        && (kind == EventCreated ==>
              ai.state == (if HasAny(ai.audioEffects, globalAudioEffects) && channelGroup != Ok then old(ai.state) else PendingPlay) &&
              ai.notified == old(ai.notified) && ai.disposals == old(ai.disposals) && ai.id == old(ai.id) &&
              idToAI == old(idToAI) && allAIs == old(allAIs))
        && (kind == EventStopped ==>
              ai.state == PendingDestroy && ai.id < 0 && (forall id :: id in idToAI ==> idToAI[id] != ai) &&
              ai.notified == old(ai.notified) + [Stopped] && ai.disposals == old(ai.disposals) + [false])
        && (kind == EventStopped || kind == EventDestroyed ==>
              (old(ai.id) < 0 ==> idToAI == old(idToAI) && allAIs == old(allAIs)) &&
              (old(ai.id) >= 0 ==> idToAI == old(idToAI) - {old(ai.id)} && allAIs == RemoveFirst(old(allAIs), ai)))
        && (kind == EventDestroyed ==>
              ai.state == Destroyed && ai.id < 0 && (forall id :: id in idToAI ==> idToAI[id] != ai) &&
              handleToAI == old(handleToAI) - {handle} &&
              (old(ai.state) == PendingDestroy ==> ai.notified == old(ai.notified) && ai.disposals == old(ai.disposals)) &&
              (old(ai.state) != PendingDestroy ==> ai.notified == old(ai.notified) + [Stopped] && ai.disposals == old(ai.disposals) + [true]))
        && (kind.TimelineBeat? || kind.TimelineMarker? ==>
              ai.notified == old(ai.notified) + [if kind.TimelineBeat? then Beat else Marker] &&
              ai.state == old(ai.state) && ai.disposals == old(ai.disposals) && ai.id == old(ai.id) &&
              idToAI == old(idToAI) && allAIs == old(allAIs))
        && (kind.CreateProgrammerSound? || kind.DestroyProgrammerSound? || kind.OtherCallback? ==>
              unchanged(this) && unchanged(ai))
    {
      var ai := handleToAI[handle];
      result := Ok;
      match kind
      case EventCreated =>
        result := OnCreated(ai, channelGroup);
      case EventStopped =>
        OnStopped(ai, handle);
      case EventDestroyed =>
        OnDestroy(ai, handle);
      case TimelineBeat =>
        ai.notified := ai.notified + [Beat];
      case TimelineMarker =>
        ai.notified := ai.notified + [Marker];
      case CreateProgrammerSound =>
      case DestroyProgrammerSound =>
      case OtherCallback(_) =>
        result := ErrBadCommand;
    }

    /**
     * `SetListener` (lines 52-69); `found` is what the scene search would find.
     * Without a new listener an existing one is kept; otherwise the new (or
     * found) listener is taken with its position, and the answer says whether
     * there is a listener.
     */
    method SetListener(newListener: Option<Listener>, found: Option<Listener>) returns (ok: bool)
      modifies this`listener, this`camPos
      ensures ok <==> listener.Some?
      ensures newListener.None? && old(listener).Some? ==> listener == old(listener) && camPos == old(camPos)
      ensures newListener.None? && old(listener).None? && found.None? ==> listener == None && camPos == old(camPos)
      ensures newListener.Some? ==> listener == newListener && camPos == newListener.value.position
      ensures newListener.None? && old(listener).None? && found.Some? ==> listener == found && camPos == found.value.position
    {
      var chosen := newListener;
      if chosen.None? {
        if listener.Some? {
          return true;
        }
        chosen := found;
        if chosen.None? {
          return false;
        }
      }
      camPos := chosen.value.position;
      listener := chosen;
      return true;
    }
  }

  /**
   * One sound's lifecycle: play, creation, a tick, stop and destruction. With
   * its inputs ready on creation the first tick starts it, the stop callback
   * raises `Stopped` once, destruction does not raise it again, and the
   * outstanding reference is invalid at the end.
   */
  method Lifecycle(m: Manager, config: AudioConfig, handle: int, inverse: (Transform, Vec3) -> Vec3)
    returns (r: AudioInstanceRef)
    requires m.Valid() && !config.singletone && handle !in m.handleToAI
    modifies m, config, m.idToAI.Values
    ensures m.Valid() && !r.IsValid() && r.ai.state == Destroyed && handle !in m.handleToAI
    ensures r.ai.notified == [Started, Stopped] && r.ai.disposals == [false]
  {
    r := StartSound(m, config, handle, inverse);
    EndSound(m, r, handle);
  }

  /** Play, creation and the first tick of a sound, which then plays. */
  method StartSound(m: Manager, config: AudioConfig, handle: int, inverse: (Transform, Vec3) -> Vec3)
    returns (r: AudioInstanceRef)
    requires m.Valid() && !config.singletone && handle !in m.handleToAI
    modifies m, config, m.idToAI.Values
    ensures m.Valid() && r.IsValid() && fresh(r.ai) && handle in m.handleToAI && m.handleToAI[handle] == r.ai && r.id >= 0
    ensures r.ai.state == Playing && r.ai.notified == [Started] && r.ai.disposals == []
  {
    r := m.PlaySound(config, None, handle, inverse);
    var ai := r.ai;
    assert m.handleToAI[handle] == ai && ai.notified == [] && ai.disposals == [] && ai.InputsReady();
    var created := m.EventCallback(EventCreated, handle, Ok);
    assert ai.state == PendingPlay && ai.notified == [] && ai.disposals == [] && ai.id == r.id && m.Valid();
    ghost var regs := (m.idToAI, m.handleToAI, m.allAIs, m.nextId, ai.id, ai.disposals);
    var playing := ai.TickHead();
    assert (m.idToAI, m.handleToAI, m.allAIs, m.nextId, ai.id, ai.disposals) == regs;
  }

  /** The stop and destruction callbacks of a playing sound. */
  method EndSound(m: Manager, r: AudioInstanceRef, handle: int)
    requires m.Valid() && r.IsValid() && handle in m.handleToAI && m.handleToAI[handle] == r.ai && r.id >= 0
    requires r.ai.state == Playing
    modifies m, r.ai
    ensures m.Valid() && !r.IsValid() && r.ai.state == Destroyed && handle !in m.handleToAI
    ensures r.ai.notified == old(r.ai.notified) + [Stopped] && r.ai.disposals == old(r.ai.disposals) + [false]
  {
    var ai := r.ai;
    var stopped := m.EventCallback(EventStopped, handle, Ok);
    assert ai.state == PendingDestroy && ai.notified == old(ai.notified) + [Stopped] && ai.disposals == old(ai.disposals) + [false];
    var destroyed := m.EventCallback(EventDestroyed, handle, Ok);
  }
}

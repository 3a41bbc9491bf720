/**
 * The surface registry of AudioSurface.cs: the acoustic properties of every
 * registered surface, kept in a managed and a native list in step, the lookup
 * from surface type and material name to surface index, and the per-collider
 * tables that give the surface a ray hit on a collider (and triangle) sees.
 * The float properties are modelled as reals.
 */
module AudioSurface {
  import opened Wrappers

  /** `SurfaceType` (lines 177-190). */
  datatype SurfaceType = Defualt | Steel | Metal | Porcelain | Concrete | Rock | Wood | Carpet | Glass | Plastic | Sky

  /** A `Surface`'s four properties (lines 273-278); a value of -1 or below marks a property as unset. */
  datatype Surface = Surface(reflectness: real, metallicness: real, brightness: real, tail: real) {

    /**
     * `IsAnyValid` (lines 331-334): some property is set; a surface that sets
     * none is one whose every property `SetInvalidFrom` would replace.
     */
    predicate IsAnyValid(): (r: bool)
      ensures !r <==> forall w {:trigger Fill(reflectness, w)} ::
        Fill(reflectness, w) == w && Fill(metallicness, w) == w && Fill(brightness, w) == w && Fill(tail, w) == w
    {
      assert Fill(reflectness, 0.0) != 0.0 || Fill(reflectness, 1.0) != 1.0 || reflectness <= -1.0;
      assert Fill(metallicness, 0.0) != 0.0 || Fill(metallicness, 1.0) != 1.0 || metallicness <= -1.0;
      assert Fill(brightness, 0.0) != 0.0 || Fill(brightness, 1.0) != 1.0 || brightness <= -1.0;
      assert Fill(tail, 0.0) != 0.0 || Fill(tail, 1.0) != 1.0 || tail <= -1.0;
      reflectness > -1.0 || brightness > -1.0 || tail > -1.0 || metallicness > -1.0
    }

    /** `SetInvalidFrom` (lines 340-346) on a copy: each unset property is taken from `from`. */
    function SetInvalidFrom(from: Surface): (r: Surface)
      ensures r.IsAnyValid() <== IsAnyValid() || from.IsAnyValid()
    {
      Surface(Fill(reflectness, from.reflectness), Fill(metallicness, from.metallicness),
              Fill(brightness, from.brightness), Fill(tail, from.tail))
    }
  }

  /** One property of `SetInvalidFrom`: `v` when set, else `w`. */
  function Fill(v: real, w: real): real {
    if v <= -1.0 then w else v
  }

  /** The properties a `Surface(startValue)` with `startValue < -1` gets (lines 285-293). */
  const DefaultSurface := Surface(0.0, 0.0, 0.5, 0.0)

  /** The `Surface(startValue)` constructor (lines 283-299). */
  function MakeSurface(startValue: real): (r: Surface)
    ensures startValue < -1.0 ==> r == DefaultSurface
    ensures startValue >= -1.0 ==>
      r.reflectness == startValue && r.metallicness == startValue && r.brightness == startValue && r.tail == startValue
  {
    if startValue < -1.0 then DefaultSurface
    else Surface(startValue, startValue, startValue, startValue)
  }

  /** Only `Surface(-1)`, the component's `surfaceOverrides` default (line 18), sets no property. */
  lemma MakeSurfaceValidity(startValue: real)
    ensures MakeSurface(startValue).IsAnyValid() <==> startValue != -1.0
  {
  }

  /**
   * `SetInvalidFrom` takes exactly the unset properties from `from`, so a
   * surface that sets nothing becomes `from`, one that sets everything stays
   * as it is, and applying it twice is applying it once.
   */
  lemma SetInvalidFromProperties(s: Surface, from: Surface)
    ensures !s.IsAnyValid() ==> s.SetInvalidFrom(from) == from
    ensures s.reflectness > -1.0 && s.metallicness > -1.0 && s.brightness > -1.0 && s.tail > -1.0 ==>
      s.SetInvalidFrom(from) == s
    ensures s.SetInvalidFrom(from).SetInvalidFrom(from) == s.SetInvalidFrom(from)
  {
  }

  /** The type-and-properties an `AudioSurface` component with the default overrides registers is the base surface (lines 46-51). */
  lemma DefaultOverridesTakeBase(base: Surface)
    ensures MakeSurface(-1.0).SetInvalidFrom(base) == base
  {
    MakeSurfaceValidity(-1.0);
    SetInvalidFromProperties(MakeSurface(-1.0), base);
  }

  /** `_maxSurfaceTypesPerCol` (line 382). */
  const MaxSurfaceTypesPerCol := 8

  /**
   * The first of the ranges `0 <= i < count`, from `from` on, that holds the
   * triangle index `triI` (`mins[i] <= triI < maxs[i]`), as its index.
   */
  function FirstRange(mins: seq<int>, maxs: seq<int>, count: nat, triI: int, from: nat): (r: Option<nat>)
    requires count <= |mins| && count <= |maxs|
    ensures r.Some? ==>
      from <= r.value < count && mins[r.value] <= triI < maxs[r.value] &&
      forall i :: from <= i < r.value ==> !(mins[i] <= triI < maxs[i])
    ensures r.None? <==> forall i :: from <= i < count ==> !(mins[i] <= triI < maxs[i])
    decreases count - from
  {
    if from >= count then None
    else if triI < mins[from] || triI >= maxs[from] then FirstRange(mins, maxs, count, triI, from + 1)
    else Some(from)
  }

  /** Only the first `count` ranges matter, so a copy of just those gives the same answer. */
  lemma {:induction false} FirstRangePrefix(mins: seq<int>, maxs: seq<int>, count: nat, triI: int, from: nat)
    requires count <= |mins| && count <= |maxs|
    ensures FirstRange(mins[..count], maxs[..count], count, triI, from) == FirstRange(mins, maxs, count, triI, from)
    decreases count - from
  {
    if from < count {
      assert mins[..count][from] == mins[from] && maxs[..count][from] == maxs[from];
      FirstRangePrefix(mins, maxs, count, triI, from + 1);
    }
  }

  /**
   * `TriRanges` (lines 384-389): for a mesh collider with several sub-meshes, the
   * triangle index range `[mins[i], maxs[i])` of sub-mesh `i` and its surface
   * index, in fixed buffers of `MaxSurfaceTypesPerCol` entries.
   */
  datatype TriRanges = TriRanges(surfaceCount: int, mins: seq<int>, maxs: seq<int>, surfaceIs: seq<int>) {

    /** As `TryCreateTriRanges` leaves it: more than one and at most `MaxSurfaceTypesPerCol` ranges (lines 397-421, 441). */
    predicate WellFormed() {
      |mins| == |maxs| == |surfaceIs| == MaxSurfaceTypesPerCol && 2 <= surfaceCount <= MaxSurfaceTypesPerCol
    }

    /** `TriRanges.GetSurfaceI` (lines 446-455): the first range holding `triI`, else the first surface. */
    function GetSurfaceI(triI: int): (r: int)
      requires WellFormed()
      ensures (exists i :: 0 <= i < surfaceCount && mins[i] <= triI < maxs[i]) ==>
        exists i :: 0 <= i < surfaceCount && mins[i] <= triI < maxs[i] && r == surfaceIs[i] &&
          forall k :: 0 <= k < i ==> !(mins[k] <= triI < maxs[k])
      ensures (forall i :: 0 <= i < surfaceCount ==> !(mins[i] <= triI < maxs[i])) ==> r == surfaceIs[0]
    {
      match FirstRange(mins, maxs, surfaceCount, triI, 0)
      case Some(i) => surfaceIs[i]
      case None => surfaceIs[0]
    }

    /** `ToReference` (lines 457-477): managed arrays holding just the first `surfaceCount` entries. */
    function ToReference(): (r: Reference)
      requires WellFormed()
      ensures |r.mins| == |r.maxs| == |r.surfaceIs| == surfaceCount
      ensures forall i :: 0 <= i < surfaceCount ==>
        r.mins[i] == mins[i] && r.maxs[i] == maxs[i] && r.surfaceIs[i] == surfaceIs[i]
    {
      Reference(mins[..surfaceCount], maxs[..surfaceCount], surfaceIs[..surfaceCount])
    }
  }

  /** `TriRanges.Reference` (lines 479-495): the managed copy, whose arrays are never written after `ToReference`. */
  datatype Reference = Reference(mins: seq<int>, maxs: seq<int>, surfaceIs: seq<int>) {

    predicate WellFormed() {
      |mins| == |maxs| == |surfaceIs| > 0
    }

    /** `Reference.GetSurfaceI` (lines 485-494): the same search over all `maxs.Length` entries. */
    function GetSurfaceI(triI: int): (r: int)
      requires WellFormed()
      ensures r in surfaceIs
    {
      match FirstRange(mins, maxs, |maxs|, triI, 0)
      case Some(i) => surfaceIs[i]
      case None => surfaceIs[0]
    }
  }

  /** The managed copy answers every triangle lookup the way the native ranges do. */
  lemma ToReferenceSameLookup(t: TriRanges, triI: int)
    requires t.WellFormed()
    ensures t.ToReference().WellFormed()
    ensures t.ToReference().GetSurfaceI(triI) == t.GetSurfaceI(triI)
  {
    FirstRangePrefix(t.mins, t.maxs, t.surfaceCount, triI, 0);
  }

  /**
   * The lookup `GetSurface`/`GetSurfaceType` and their `_native` variants share:
   * the entry at `i` when in range, else the entry at `fallback`; `None` when
   * that is out of range too, where the list or array indexer throws
   * `ArgumentOutOfRangeException` (or `IndexOutOfRangeException`).
   */
  function Slot<T>(xs: seq<T>, i: int, fallback: int): (r: Option<T>)
    ensures 0 <= i < |xs| ==> r == Some(xs[i])
    ensures !(0 <= i < |xs|) && 0 <= fallback < |xs| ==> r == Some(xs[fallback])
    ensures r.None? <==> !(0 <= i < |xs|) && !(0 <= fallback < |xs|)
  {
    if i < 0 || i >= |xs| then
      (if 0 <= fallback < |xs| then Some(xs[fallback]) else None)
    else Some(xs[i])
  }

  /**
   * `GetSurface_native` (lines 715-720): an out-of-range index reads slot 0, so
   * the answer is a registered surface exactly when there is one; only an empty
   * array throws.
   */
  function GetSurfaceNative(surfI: int, surfaces: seq<Surface>): (r: Option<Surface>)
    ensures r.Some? <==> 0 < |surfaces|
    ensures r.Some? ==> r.value in surfaces
    ensures 0 <= surfI < |surfaces| ==> r == Some(surfaces[surfI])
  {
    Slot(surfaces, surfI, 0)
  }

  /** `GetSurfaceType_native` (lines 732-737): as `GetSurfaceNative`, over the surface types. */
  function GetSurfaceTypeNative(surfI: int, surfaceTypes: seq<SurfaceType>): (r: Option<SurfaceType>)
    ensures r.Some? <==> 0 < |surfaceTypes|
    ensures r.Some? ==> r.value in surfaceTypes
    ensures 0 <= surfI < |surfaceTypes| ==> r == Some(surfaceTypes[surfI])
  {
    Slot(surfaceTypes, surfI, 0)
  }

  /**
   * `GetSurfaceI_native` (lines 682-695) over the native tables: the triangle
   * ranges when `triI >= 0` and the collider has them, else the collider's
   * surface index, else 0.
   */
  function GetSurfaceINative(colId: int, triI: int, triRanges: map<int, TriRanges>, surfaceIs: map<int, int>): (r: int)
    requires forall id :: id in triRanges ==> triRanges[id].WellFormed()
    ensures triI >= 0 && colId in triRanges ==> r == triRanges[colId].GetSurfaceI(triI)
    ensures (triI < 0 || colId !in triRanges) && colId !in surfaceIs ==> r == 0
  {
    if triI < 0 || colId !in triRanges then
      (if colId in surfaceIs then surfaceIs[colId] else 0)
    else triRanges[colId].GetSurfaceI(triI)
  }

  /** `SurfaceConfig` (lines 130-134): a type, the material names that map to it, and its properties. */
  datatype SurfaceConfig = SurfaceConfig(surfaceType: SurfaceType, materialNames: Option<seq<string>>, surface: Surface)

  /**
   * The static registry of AudioSurface.cs (lines 498-528). Colliders are
   * identified by their instance ID; `defualtSurfaceIndex` is
   * `AudioSettings._defualtSurfaceIndex`.
   */
  class Registry {
    var surfaces: seq<Surface>
    var surfacesNative: seq<Surface>
    var surfaceTypes: seq<SurfaceType>
    var surfaceTypesNative: seq<SurfaceType>
    var materialNamesToSurfaceI: map<string, int>
    var surfaceTypeToSurfaceI: map<SurfaceType, int>
    var registeredColliders: set<int>
    var colIdToSurfaceI: map<int, int>
    var colIdToSurfaceINative: map<int, int>
    var colIdToTriRanges: map<int, Reference>
    var colIdToTriRangesNative: map<int, TriRanges>
    var defualtSurfaceIndex: int

    /**
     * The managed and native tables agree, and every registered collider has
     * exactly one entry: triangle ranges or a surface index.
     */
    ghost predicate Valid()
      reads this
    {
      surfacesNative == surfaces && surfaceTypesNative == surfaceTypes && |surfaces| == |surfaceTypes| &&
      colIdToSurfaceINative == colIdToSurfaceI &&
      colIdToTriRanges.Keys == colIdToTriRangesNative.Keys &&
      (forall id :: id in colIdToTriRangesNative ==>
        colIdToTriRangesNative[id].WellFormed() && colIdToTriRanges[id] == colIdToTriRangesNative[id].ToReference()) &&
      colIdToTriRanges.Keys !! colIdToSurfaceI.Keys &&
      registeredColliders == colIdToTriRanges.Keys + colIdToSurfaceI.Keys
    }

    /** The registry after `Allocate` (lines 532-545): empty tables. */
    constructor (defualtSurfaceIndex: int)
      ensures Valid() && this.defualtSurfaceIndex == defualtSurfaceIndex
      ensures surfaces == [] && registeredColliders == {} && materialNamesToSurfaceI == map[] &&
        surfaceTypeToSurfaceI == map[]
    {
      surfaces, surfacesNative, surfaceTypes, surfaceTypesNative := [], [], [], [];
      materialNamesToSurfaceI, surfaceTypeToSurfaceI := map[], map[];
      registeredColliders := {};
      colIdToSurfaceI, colIdToSurfaceINative := map[], map[];
      colIdToTriRanges, colIdToTriRangesNative := map[], map[];
      this.defualtSurfaceIndex := defualtSurfaceIndex;
    }

    /**
     * `Surface.Register` (lines 305-325): with `0 <= surfI < count` overwrite that
     * slot of all four lists and return `surfI`; otherwise append to all four and
     * return the old count.
     */
    method Register(s: Surface, surfaceType: SurfaceType, surfI: int) returns (r: int)
      requires Valid()
      modifies this`surfaces, this`surfacesNative, this`surfaceTypes, this`surfaceTypesNative
      ensures Valid()
      ensures 0 <= surfI < old(|surfaces|) ==>
        r == surfI && surfaces == old(surfaces)[surfI := s] && surfaceTypes == old(surfaceTypes)[surfI := surfaceType]
      ensures !(0 <= surfI < old(|surfaces|)) ==>
        r == old(|surfaces|) && surfaces == old(surfaces) + [s] && surfaceTypes == old(surfaceTypes) + [surfaceType]
      ensures 0 <= r < |surfaces| && surfaces[r] == s && surfaceTypes[r] == surfaceType
    {
      if surfI > -1 && surfI < |surfaces| {
        surfaces := surfaces[surfI := s];
        surfacesNative := surfacesNative[surfI := s];
        surfaceTypes := surfaceTypes[surfI := surfaceType];
        surfaceTypesNative := surfaceTypesNative[surfI := surfaceType];
        return surfI;
      }
      r := |surfaces|;
      surfacesNative := surfacesNative + [s];
      surfaces := surfaces + [s];
      surfaceTypes := surfaceTypes + [surfaceType];
      surfaceTypesNative := surfaceTypesNative + [surfaceType];
    }

    /**
     * `SurfaceConfig.Register` (lines 139-152): register the surface over the
     * type's existing slot (or append when the type has none), point the type and
     * every listed material name at the slot it got.
     */
    method RegisterConfig(config: SurfaceConfig) returns (newSurfI: int)
      requires Valid()
      modifies this`surfaces, this`surfacesNative, this`surfaceTypes, this`surfaceTypesNative,
               this`surfaceTypeToSurfaceI, this`materialNamesToSurfaceI
      ensures Valid()
      ensures config.surfaceType in old(surfaceTypeToSurfaceI) && 0 <= old(surfaceTypeToSurfaceI[config.surfaceType]) < old(|surfaces|) ==>
        newSurfI == old(surfaceTypeToSurfaceI[config.surfaceType]) && |surfaces| == old(|surfaces|)
      ensures 0 <= newSurfI < |surfaces| && surfaces[newSurfI] == config.surface && surfaceTypes[newSurfI] == config.surfaceType
      ensures config.surfaceType in old(surfaceTypeToSurfaceI) && 0 <= old(surfaceTypeToSurfaceI[config.surfaceType]) < old(|surfaces|) ==>
        surfaces == old(surfaces)[newSurfI := config.surface] &&
        surfaceTypes == old(surfaceTypes)[newSurfI := config.surfaceType]
      ensures !(config.surfaceType in old(surfaceTypeToSurfaceI) && 0 <= old(surfaceTypeToSurfaceI[config.surfaceType]) < old(|surfaces|)) ==>
        newSurfI == old(|surfaces|) &&
        surfaces == old(surfaces) + [config.surface] &&
        surfaceTypes == old(surfaceTypes) + [config.surfaceType]
      ensures surfaceTypeToSurfaceI == old(surfaceTypeToSurfaceI)[config.surfaceType := newSurfI]
      ensures config.materialNames.None? ==> materialNamesToSurfaceI == old(materialNamesToSurfaceI)
      ensures config.materialNames.Some? ==>
        materialNamesToSurfaceI == MapNames(old(materialNamesToSurfaceI), config.materialNames.value, newSurfI)
    {
      var existing := if config.surfaceType in surfaceTypeToSurfaceI then surfaceTypeToSurfaceI[config.surfaceType] else -1;
      newSurfI := Register(config.surface, config.surfaceType, existing);
      surfaceTypeToSurfaceI := surfaceTypeToSurfaceI[config.surfaceType := newSurfI];
      if config.materialNames.None? {
        return;
      }
      MapMaterialNames(config.materialNames.value, newSurfI);
    }

    /** The loop over the material names of `SurfaceConfig.Register` (lines 145-148). */
    method MapMaterialNames(names: seq<string>, surfI: int)
      modifies this`materialNamesToSurfaceI
      ensures materialNamesToSurfaceI == MapNames(old(materialNamesToSurfaceI), names, surfI)
    {
      var i := 0;
      while i < |names|
        invariant 0 <= i <= |names|
        invariant materialNamesToSurfaceI == MapNames(old(materialNamesToSurfaceI), names[..i], surfI)
      {
        MapNamesSnoc(old(materialNamesToSurfaceI), names[..i], names[i], surfI);
        assert names[..i + 1] == names[..i] + [names[i]];
        materialNamesToSurfaceI := materialNamesToSurfaceI[names[i] := surfI];
        i := i + 1;
      }
      assert names[..|names|] == names;
    }

    /**
     * `RegisterCollider` (lines 602-639): a no-op for a registered collider.
     * Otherwise a collider without an `AudioSurface` whose mesh has triangle
     * ranges (`triRanges`, what `TryCreateTriRanges` found) gets those; any
     * other collider gets a surface index: its `AudioSurface`'s
     * (`audioSurfaceIndex`), else its material's (`materialSurfI`), else the
     * default index when it has neither renderer nor material.
     */
    method RegisterCollider(colId: int, audioSurfaceIndex: Option<int>, triRanges: Option<TriRanges>,
                            materialSurfI: Option<int>)
      requires Valid()
      requires triRanges.Some? ==> triRanges.value.WellFormed()
      modifies this`registeredColliders, this`colIdToSurfaceI, this`colIdToSurfaceINative,
               this`colIdToTriRanges, this`colIdToTriRangesNative
      ensures Valid()
      ensures colId in old(registeredColliders) ==> unchanged(this)
      ensures registeredColliders == old(registeredColliders) + {colId}
      ensures colId !in old(registeredColliders) && audioSurfaceIndex.None? && triRanges.Some? ==>
        colIdToTriRangesNative == old(colIdToTriRangesNative)[colId := triRanges.value] &&
        colIdToSurfaceI == old(colIdToSurfaceI)
      ensures colId !in old(registeredColliders) && (audioSurfaceIndex.Some? || triRanges.None?) ==>
        colIdToTriRangesNative == old(colIdToTriRangesNative) &&
        colIdToSurfaceI == old(colIdToSurfaceI)[colId := ColliderSurfaceI(audioSurfaceIndex, materialSurfI, defualtSurfaceIndex)]
    {
      if colId in registeredColliders {
        return;
      }
      registeredColliders := registeredColliders + {colId};
      if audioSurfaceIndex.None? && triRanges.Some? {
        colIdToTriRangesNative := colIdToTriRangesNative[colId := triRanges.value];
        colIdToTriRanges := colIdToTriRanges[colId := triRanges.value.ToReference()];
        return;
      }
      var surfI := ColliderSurfaceI(audioSurfaceIndex, materialSurfI, defualtSurfaceIndex);
      colIdToSurfaceINative := colIdToSurfaceINative[colId := surfI];
      colIdToSurfaceI := colIdToSurfaceI[colId := surfI];
    }

    /**
     * `UnregisterCollider` (lines 641-660): a no-op for an unregistered collider;
     * otherwise drop it and whichever entry it has.
     */
    method UnregisterCollider(colId: int)
      requires Valid()
      modifies this`registeredColliders, this`colIdToSurfaceI, this`colIdToSurfaceINative,
               this`colIdToTriRanges, this`colIdToTriRangesNative
      ensures Valid()
      ensures colId !in old(registeredColliders) ==> unchanged(this)
      ensures registeredColliders == old(registeredColliders) - {colId}
      ensures colIdToTriRangesNative == old(colIdToTriRangesNative) - {colId}
      ensures colIdToSurfaceI == old(colIdToSurfaceI) - {colId}
    {
      if colId !in registeredColliders {
        return;
      }
      registeredColliders := registeredColliders - {colId};
      if colId in colIdToTriRangesNative {
        colIdToTriRangesNative := colIdToTriRangesNative - {colId};
        colIdToTriRanges := colIdToTriRanges - {colId};
        return;
      }
      if colId in colIdToSurfaceINative {
        colIdToSurfaceINative := colIdToSurfaceINative - {colId};
        colIdToSurfaceI := colIdToSurfaceI - {colId};
      }
    }

    /** `ReRegisterCollider` (lines 596-600): unregister, then register afresh. */
    method ReRegisterCollider(colId: int, audioSurfaceIndex: Option<int>, triRanges: Option<TriRanges>,
                              materialSurfI: Option<int>)
      requires Valid()
      requires triRanges.Some? ==> triRanges.value.WellFormed()
      modifies this`registeredColliders, this`colIdToSurfaceI, this`colIdToSurfaceINative,
               this`colIdToTriRanges, this`colIdToTriRangesNative
      ensures Valid() && colId in registeredColliders
      ensures registeredColliders == old(registeredColliders) + {colId}
      ensures audioSurfaceIndex.None? && triRanges.Some? ==>
        colIdToTriRangesNative == (old(colIdToTriRangesNative) - {colId})[colId := triRanges.value] &&
        colIdToSurfaceI == old(colIdToSurfaceI) - {colId}
      ensures audioSurfaceIndex.Some? || triRanges.None? ==>
        colIdToTriRangesNative == old(colIdToTriRangesNative) - {colId} &&
        colIdToSurfaceI == (old(colIdToSurfaceI) - {colId})[colId := ColliderSurfaceI(audioSurfaceIndex, materialSurfI, defualtSurfaceIndex)]
      ensures GetSurfaceI(colId, -1) ==
        if audioSurfaceIndex.None? && triRanges.Some? then defualtSurfaceIndex
        else ColliderSurfaceI(audioSurfaceIndex, materialSurfI, defualtSurfaceIndex)
      ensures audioSurfaceIndex.None? && triRanges.Some? ==>
        forall triI :: triI >= 0 ==> GetSurfaceI(colId, triI) == triRanges.value.GetSurfaceI(triI)
    {
      UnregisterCollider(colId);
      RegisterCollider(colId, audioSurfaceIndex, triRanges, materialSurfI);
    }

    /**
     * `GetSurfaceI(colId, triI)` (lines 665-676) over the managed tables: the
     * triangle ranges when `triI >= 0` and the collider has them, else the
     * collider's surface index, else the default index.
     */
    function GetSurfaceI(colId: int, triI: int): (r: int)
      requires Valid()
      reads this
      ensures triI >= 0 && colId in colIdToTriRanges ==> r == colIdToTriRanges[colId].GetSurfaceI(triI)
      ensures (triI < 0 || colId !in colIdToTriRanges) && colId in colIdToSurfaceI ==> r == colIdToSurfaceI[colId]
      ensures colId !in registeredColliders ==> r == defualtSurfaceIndex
    {
      if triI < 0 || colId !in colIdToTriRanges then
        (if colId in colIdToSurfaceI then colIdToSurfaceI[colId] else defualtSurfaceIndex)
      else
        assert colIdToTriRanges[colId] == colIdToTriRangesNative[colId].ToReference();
        ToReferenceSameLookup(colIdToTriRangesNative[colId], triI);
        colIdToTriRanges[colId].GetSurfaceI(triI)
    }

    /**
     * `GetSurface` (lines 705-709): an out-of-range index reads the default slot;
     * it throws (`None`) when that is out of range too.
     */
    function GetSurface(surfI: int): (r: Option<Surface>)
      requires Valid()
      reads this
      ensures r.Some? ==> r.value in surfaces
      ensures 0 <= surfI < |surfaces| ==> r == Some(surfaces[surfI])
      ensures r.None? <==> !(0 <= surfI < |surfaces|) && !(0 <= defualtSurfaceIndex < |surfaces|)
    {
      Slot(surfaces, surfI, defualtSurfaceIndex)
    }

    /** `GetSurfaceType` (lines 722-726): as `GetSurface`, over the surface types. */
    function GetSurfaceType(surfI: int): (r: Option<SurfaceType>)
      requires Valid()
      reads this
      ensures r.Some? ==> r.value in surfaceTypes
      ensures 0 <= surfI < |surfaceTypes| ==> r == Some(surfaceTypes[surfI])
      ensures r.None? <==> !(0 <= surfI < |surfaceTypes|) && !(0 <= defualtSurfaceIndex < |surfaceTypes|)
    {
      Slot(surfaceTypes, surfI, defualtSurfaceIndex)
    }

    /**
     * The managed and native collider lookups agree whenever the collider has an
     * entry that answers the query; otherwise (an unregistered collider, or one
     * with triangle ranges asked about no triangle) the managed lookup gives the
     * default index and the native one 0.
     */
    lemma NativeLookupAgrees(colId: int, triI: int)
      requires Valid()
      ensures colId in colIdToSurfaceI || (triI >= 0 && colId in colIdToTriRanges) ==>
        GetSurfaceINative(colId, triI, colIdToTriRangesNative, colIdToSurfaceINative) == GetSurfaceI(colId, triI)
      ensures !(colId in colIdToSurfaceI || (triI >= 0 && colId in colIdToTriRanges)) ==>
        GetSurfaceINative(colId, triI, colIdToTriRangesNative, colIdToSurfaceINative) == 0 &&
        GetSurfaceI(colId, triI) == defualtSurfaceIndex
    {
      if triI >= 0 && colId in colIdToTriRangesNative {
        assert colIdToTriRanges[colId] == colIdToTriRangesNative[colId].ToReference();
        ToReferenceSameLookup(colIdToTriRangesNative[colId], triI);
      }
    }

    /**
     * The managed getters and the native ones agree on every in-range index, and
     * on out-of-range ones too when the default index is slot 0 (both throw on
     * empty tables).
     */
    lemma NativeSurfaceAgrees(surfI: int)
      requires Valid()
      requires !(0 <= surfI < |surfaces|) ==> defualtSurfaceIndex == 0
      ensures GetSurface(surfI) == GetSurfaceNative(surfI, surfacesNative)
      ensures GetSurfaceType(surfI) == GetSurfaceTypeNative(surfI, surfaceTypesNative)
    {
    }
  }

  /** The surface index `RegisterCollider` gives a collider without triangle ranges (lines 617-635). */
  function ColliderSurfaceI(audioSurfaceIndex: Option<int>, materialSurfI: Option<int>, defualtSurfaceIndex: int): (r: int)
    ensures audioSurfaceIndex.Some? ==> r == audioSurfaceIndex.value
    ensures audioSurfaceIndex.None? ==> r == materialSurfI.GetOr(defualtSurfaceIndex)
  {
    if audioSurfaceIndex.Some? then audioSurfaceIndex.value else materialSurfI.GetOr(defualtSurfaceIndex)
  }

  /** `m` with every name in `names` mapped to `surfI`, in order. */
  function MapNames(m: map<string, int>, names: seq<string>, surfI: int): (r: map<string, int>)
    ensures r.Keys == m.Keys + set n | n in names
    ensures forall n :: n in names ==> r[n] == surfI
    ensures forall n :: n in m && n !in names ==> r[n] == m[n]
  {
    if names == [] then m else MapNames(m, names[..|names| - 1], surfI)[names[|names| - 1] := surfI]
  }

  lemma MapNamesSnoc(m: map<string, int>, names: seq<string>, name: string, surfI: int)
    ensures MapNames(m, names + [name], surfI) == MapNames(m, names, surfI)[name := surfI]
  {
    assert (names + [name])[..|names|] == names;
  }
}

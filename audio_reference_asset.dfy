/**
 * An audio reference asset (AudioReferenceAsset.cs): its default custom
 * props, the merge of those defaults into a props array the editor shows,
 * and the singleton play that reuses a still valid instance.
 */
module AudioReferenceAssets {
  import opened Wrappers
  import opened AudioGlobals
  import opened AudioInstances
  import AudioManager

  /** The name and value of a custom prop. */
  datatype PropState = PropState(name: Option<string>, value: real)

  /** A prop the user has not filled in yet: no name, or an empty name with value 0 (line 26). */
  predicate IsNew(p: PropState) {
    p.name.None? || (p.name == Some("") && p.value == 0.0)
  }

  /**
   * What one entry becomes (lines 25-28): it takes the default's name, and
   * the default's value only when it was new.
   */
  function Merge(p: PropState, d: PropState): (r: PropState)
    ensures r.name == d.name
    ensures r.value == d.value || r.value == p.value
    ensures !IsNew(p) ==> r.value == p.value
  {
    PropState(d.name, if IsNew(p) then d.value else p.value)
  }

  /** A new entry becomes the default outright. */
  lemma MergeNewIsDefault(p: PropState, d: PropState)
    requires IsNew(p)
    ensures Merge(p, d) == d
  {
  }

  /**
   * With a default of non-empty name, merging again changes nothing: the
   * merged entry is no longer new.
   */
  lemma MergeIdempotent(p: PropState, d: PropState)
    requires d.name.Some? && d.name.value != ""
    ensures Merge(Merge(p, d), d) == Merge(p, d)
  {
  }

  /**
   * A default with an empty name is not a fixed point: an entry that was set
   * to a value of 0 is taken for new on the next merge.
   */
  lemma MergeEmptyNameNotIdempotent()
    ensures var p, d := PropState(Some("x"), 0.0), PropState(Some(""), 1.0);
      Merge(Merge(p, d), d) != Merge(p, d)
  {
  }

  /** The state of a props entry: a null entry counts as a new `CustomProp` (null name, value 0). */
  function StateOf(p: CustomProp?): (r: PropState)
    reads p
    ensures p == null ==> IsNew(r)
    ensures p != null ==> r.name == p.name && r.value == p.value
  {
    if p == null then PropState(None, 0.0) else PropState(p.name, p.value)
  }

  /**
   * The props entries hold no object twice and none of the defaults: the
   * entries are separate serialized objects.
   */
  ghost predicate Separate(props: array<CustomProp?>, defaults: seq<CustomProp>)
    reads props
  {
    (forall i, j :: 0 <= i < j < props.Length && props[i] != null ==> props[i] != props[j]) &&
    (forall i, j :: 0 <= i < props.Length && 0 <= j < |defaults| ==> props[i] != defaults[j])
  }

  /** The non-null entries of a props array. */
  ghost function Entries(props: array<CustomProp?>): set<CustomProp>
    reads props
  {
    set i | 0 <= i < props.Length && props[i] != null :: props[i]
  }

  /**
   * `GetWithLenght` (declared outside the core), as line 22 uses it: a new
   * array of length `n` that keeps the entries of the old one that fit, with
   * nulls after them.
   */
  method GetWithLength(props: array<CustomProp?>, n: nat) returns (res: array<CustomProp?>)
    ensures fresh(res) && res.Length == n
    ensures forall i :: 0 <= i < n ==> res[i] == if i < props.Length then props[i] else null
  {
    res := new CustomProp?[n];
    var i := 0;
    while i < n
      invariant 0 <= i <= n
      invariant forall j :: 0 <= j < i ==> res[j] == if j < props.Length then props[j] else null
    {
      res[i] := if i < props.Length then props[i] else null;
      i := i + 1;
    }
  }

  class AudioReferenceAsset {
    /** The default custom props; a null array is `None`. */
    var defaultCustomProps: Option<seq<CustomProp>>

    constructor (defaultCustomProps: Option<seq<CustomProp>>)
      ensures this.defaultCustomProps == defaultCustomProps
    {
      this.defaultCustomProps := defaultCustomProps;
    }

    /** `HasDefaultCustomProps` (lines 13-16): neither a null array nor an empty one. */
    predicate HasDefaultCustomProps(): (r: bool)
      reads this
      ensures !r <==> defaultCustomProps == None || defaultCustomProps == Some([])
    {
      defaultCustomProps.Some? && |defaultCustomProps.value| > 0
    }

    /**
     * `UpdateDefaultCustomProps` (lines 18-30). Without defaults the props
     * array is left as it is. Otherwise the answer has one entry per
     * default, none null: an entry of the old array keeps its object, a
     * missing one is a new object, and each has the merge of its old state
     * with its default.
     */
    method UpdateDefaultCustomProps(props: array<CustomProp?>) returns (res: array<CustomProp?>)
      requires defaultCustomProps.Some? ==> Separate(props, defaultCustomProps.value)
      modifies Entries(props)
      ensures !HasDefaultCustomProps() ==> res == props && unchanged(Entries(props))
      ensures HasDefaultCustomProps() ==> fresh(res) && res.Length == |defaultCustomProps.value|
      ensures HasDefaultCustomProps() ==> forall i :: 0 <= i < res.Length ==>
        res[i] != null &&
        StateOf(res[i]) == Merge(old(StateOf(if i < props.Length then props[i] else null)), StateOf(defaultCustomProps.value[i])) &&
        (if i < props.Length && props[i] != null then res[i] == props[i] else fresh(res[i]))
    {
      if !HasDefaultCustomProps() {
        return props;
      }
      var defaults := defaultCustomProps.value;
      res := GetWithLength(props, |defaults|);
      var i := 0;
      while i < res.Length
        modifies res, Entries(props)
        invariant 0 <= i <= res.Length
        invariant forall j :: 0 <= j < res.Length && j >= i ==> res[j] == if j < props.Length then props[j] else null
        invariant forall j :: 0 <= j < i ==>
          res[j] != null &&
          StateOf(res[j]) == Merge(old(StateOf(if j < props.Length then props[j] else null)), StateOf(defaults[j])) &&
          (if j < props.Length && props[j] != null then res[j] == props[j] else fresh(res[j]))
        invariant forall j :: i <= j < props.Length && props[j] != null ==> StateOf(props[j]) == old(StateOf(props[j]))
        invariant forall j :: 0 <= j < |defaults| ==> StateOf(defaults[j]) == old(StateOf(defaults[j]))
      {
        MergeEntry(props, res, defaults, i);
        i := i + 1;
      }
    }

    /** The body of the loop of `UpdateDefaultCustomProps` (lines 25-28) for entry `i`. */
    static method MergeEntry(props: array<CustomProp?>, res: array<CustomProp?>, defaults: seq<CustomProp>, i: nat)
      requires i < res.Length == |defaults| && Separate(props, defaults) && res != props
      requires res[i] == if i < props.Length then props[i] else null
      modifies res, if i < props.Length && props[i] != null then {props[i]} else {}
      ensures res[i] != null && StateOf(res[i]) == Merge(old(StateOf(res[i])), StateOf(defaults[i]))
      ensures if i < props.Length && props[i] != null then res[i] == props[i] else fresh(res[i])
      ensures forall j :: 0 <= j < res.Length && j != i ==> res[j] == old(res[j])
      ensures forall j :: 0 <= j < props.Length && j != i && props[j] != null ==> StateOf(props[j]) == old(StateOf(props[j]))
      ensures forall j :: 0 <= j < |defaults| ==> StateOf(defaults[j]) == old(StateOf(defaults[j]))
    {
      if res[i] == null {
        res[i] := new CustomProp(None, 0.0);
      }
      var p := res[i];
      if p.name.None? || (p.name == Some("") && p.value == 0.0) {
        p.value := defaults[i].value;
      }
      p.name := defaults[i].name;
    }
  }

  /**
   * `PlaySingletone` (lines 70-81), with the reference's play as
   * `PlaySound` of its config: a valid reference is kept and nothing is
   * played; otherwise the sound is played and the new reference answered.
   */
  method PlaySingletone(m: AudioManager.Manager, config: AudioConfig, aiRef: AudioInstanceRef, props: Option<AudioProps>,
                        handle: int, inverse: (Transform, Vec3) -> Vec3)
    returns (r: AudioInstanceRef, played: bool)
    requires m.Valid()
    requires !(config.singletone && config.lastPlayedId in m.idToAI) ==> handle !in m.handleToAI
    modifies m`idToAI, m`handleToAI, m`allAIs, m`nextId, config`lastPlayedId,
             m.idToAI.Values`parentTrans, m.idToAI.Values`posL, m.idToAI.Values`position
    ensures m.Valid() && r.IsValid()
    ensures old(aiRef.IsValid()) ==> r == aiRef && !played && unchanged(m) && unchanged(config)
    ensures !old(aiRef.IsValid()) ==> played && r.ai in m.allAIs && r.ai.id in m.idToAI && m.idToAI[r.ai.id] == r.ai
    ensures !old(aiRef.IsValid()) && old(config.singletone && config.lastPlayedId in m.idToAI) ==>
      r.ai == old(m.idToAI[config.lastPlayedId]) && m.idToAI == old(m.idToAI) && m.handleToAI == old(m.handleToAI) &&
      m.allAIs == old(m.allAIs) && m.nextId == old(m.nextId) && config.lastPlayedId == old(config.lastPlayedId)
    ensures !old(aiRef.IsValid()) && !old(config.singletone && config.lastPlayedId in m.idToAI) ==>
      fresh(r.ai) && r.ai.id == old(m.nextId) && m.nextId == old(m.nextId) + 1 && config.lastPlayedId == r.ai.id &&
      m.idToAI == old(m.idToAI)[r.ai.id := r.ai] && m.handleToAI == old(m.handleToAI)[handle := r.ai] &&
      m.allAIs == old(m.allAIs) + [r.ai] && r.ai.handle == handle && r.ai.state == PendingCreation &&
      r.ai.audioEffects == config.audioEffects
  {
    if aiRef.IsValid() {
      return aiRef, false;
    }
    r := m.PlaySound(config, props, handle, inverse);
    played := true;
  }
}

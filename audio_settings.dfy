/**
 * The global settings of AudioSettings.cs that the rest of the core reads:
 * the conversion of the occlusion distances from meters to voxel distance
 * units, the registry of buses by path that `Setup` builds, the bus lookup,
 * the global pause and the stop of all sounds.
 */
module AudioSettings {
  import opened Wrappers
  import opened AudioInstances
  import AudioManager

  /**
   * `Mathf.RoundToInt` on an exact real: the nearest integer, and at a tie
   * the even one (it rounds with `Math.Round`).
   */
  function RoundToInt(x: real): (r: int)
    ensures x - 0.5 <= r as real <= x + 0.5
    ensures r as real == x - 0.5 || r as real == x + 0.5 ==> r % 2 == 0
  {
    var f := x.Floor;
    if x - f as real < 0.5 then f
    else if x - f as real > 0.5 then f + 1
    else if f % 2 == 0 then f
    else f + 1
  }

  /** Whole numbers are left as they are. */
  lemma RoundWhole(n: int)
    ensures RoundToInt(n as real) == n
  {
    assert (n as real).Floor == n;
  }

  /** Rounding keeps the order of its arguments. */
  lemma RoundMonotone(x: real, y: real)
    requires x <= y
    ensures RoundToInt(x) <= RoundToInt(y)
  {
  }

  /** Distance units per voxel step, the face cost of the flood fills. */
  const UnitsPerVoxel := 5

  /**
   * `_voxComputeDistanceVox` (line 55): a distance in meters as distance units
   * of voxels of side `voxelSize`, rounded; it is within half a unit of the
   * exact conversion.
   */
  function VoxUnits(meters: real, voxelSize: real): (r: int)
    requires voxelSize > 0.0
    ensures (meters * UnitsPerVoxel as real) / voxelSize - 0.5 <= r as real <= (meters * UnitsPerVoxel as real) / voxelSize + 0.5
  {
    RoundToInt((meters * UnitsPerVoxel as real) / voxelSize)
  }

  /**
   * `_indirectExtraDistanceVox` (line 56): the same conversion of a `ushort`
   * distance, cast back to `ushort`, which keeps the value modulo 2^16.
   */
  function IndirectExtraVox(meters: nat, voxelSize: real): (r: nat)
    requires meters < 0x1_0000 && voxelSize > 0.0
    ensures r < 0x1_0000
    ensures VoxUnits(meters as real, voxelSize) < 0x1_0000 ==> r == VoxUnits(meters as real, voxelSize)
  {
    var v := VoxUnits(meters as real, voxelSize);
    RoundMonotone(0.0, (meters as real * UnitsPerVoxel as real) / voxelSize);
    RoundWhole(0);
    v % 0x1_0000
  }

  /** A whole number of units per distance converts exactly. */
  lemma VoxUnitsExact(meters: real, voxelSize: real, n: int)
    requires voxelSize > 0.0 && meters * UnitsPerVoxel as real == n as real * voxelSize
    ensures VoxUnits(meters, voxelSize) == n
  {
    assert (meters * UnitsPerVoxel as real) / voxelSize == n as real;
    RoundWhole(n);
  }

  /** A longer distance never converts to fewer units. */
  lemma VoxUnitsMonotone(m1: real, m2: real, voxelSize: real)
    requires voxelSize > 0.0 && m1 <= m2
    ensures VoxUnits(m1, voxelSize) <= VoxUnits(m2, voxelSize)
  {
    assert m1 * UnitsPerVoxel as real <= m2 * UnitsPerVoxel as real;
    assert (m1 * UnitsPerVoxel as real) / voxelSize <= (m2 * UnitsPerVoxel as real) / voxelSize;
    RoundMonotone((m1 * UnitsPerVoxel as real) / voxelSize, (m2 * UnitsPerVoxel as real) / voxelSize);
  }

  /** Only the ratio of distance to voxel size matters: scaling both leaves the units unchanged. */
  lemma VoxUnitsScale(meters: real, voxelSize: real, k: real)
    requires voxelSize > 0.0 && k > 0.0
    ensures VoxUnits(meters * k, voxelSize * k) == VoxUnits(meters, voxelSize)
  {
    var x := (meters * UnitsPerVoxel as real) / voxelSize;
    assert x * (voxelSize * k) == meters * k * UnitsPerVoxel as real;
    assert (meters * k * UnitsPerVoxel as real) / (voxelSize * k) == x;
  }

  /**
   * Converting the units back to meters, the `vDis / 5 * voxelSize` of the
   * samplers (taken here without their integer division), lands within a tenth
   * of a voxel of the distance converted.
   */
  lemma VoxUnitsRoundTrip(meters: real, voxelSize: real)
    requires voxelSize > 0.0
    ensures var back := VoxUnits(meters, voxelSize) as real * voxelSize / UnitsPerVoxel as real;
            meters - voxelSize / 10.0 <= back <= meters + voxelSize / 10.0
  {
    var x := (meters * UnitsPerVoxel as real) / voxelSize;
    var r := VoxUnits(meters, voxelSize) as real;
    assert x * voxelSize == 5.0 * meters;
    var e := r - x;
    assert -0.5 <= e <= 0.5;
    assert r * voxelSize == x * voxelSize + e * voxelSize;
    assert -0.5 * voxelSize <= e * voxelSize <= 0.5 * voxelSize;
    WithinTenth(meters, voxelSize, x * voxelSize, r * voxelSize, e * voxelSize);
    assert r * voxelSize / UnitsPerVoxel as real == (r * voxelSize) / 5.0;
  }

  /** The linear step of `VoxUnitsRoundTrip`, over the products as plain reals. */
  lemma WithinTenth(meters: real, voxelSize: real, xv: real, rv: real, ev: real)
    requires xv == 5.0 * meters && rv == xv + ev && -0.5 * voxelSize <= ev <= 0.5 * voxelSize
    ensures meters - voxelSize / 10.0 <= rv / 5.0 <= meters + voxelSize / 10.0
  {
  }

  /**
   * The defaults agree with the conversion at half-meter voxels: 70 m of
   * compute distance are 700 units (lines 153-155) and 3 m of extra indirect
   * distance 30 units (lines 156-157).
   */
  lemma DefaultDistances()
    ensures VoxUnits(70.0, 0.5) == 700
    ensures IndirectExtraVox(3, 0.5) == 30
  {
    VoxUnitsExact(70.0, 0.5, 700);
    VoxUnitsExact(3.0, 0.5, 30);
  }

  /**
   * A `BusConfig` (declared outside the core): its short path, its full
   * `bus:/` path (`GetFullPath`), whether the global pause reaches it, and
   * whether it is paused.
   */
  class BusConfig {
    const path: string
    const fullPath: string
    const isPausable: bool
    var paused: bool

    constructor (path: string, fullPath: string, isPausable: bool)
      ensures this.path == path && this.fullPath == fullPath && this.isPausable == isPausable && !paused
    {
      this.path, this.fullPath, this.isPausable := path, fullPath, isPausable;
      paused := false;
    }
  }

  /** `Dictionary.TryAdd`: only a new key is added. */
  function TryAdd(m: map<string, BusConfig>, k: string, b: BusConfig): (r: map<string, BusConfig>)
    ensures k in r && (k !in m ==> r[k] == b)
    ensures forall k' :: k' in m ==> k' in r && r[k'] == m[k']
    ensures forall k' :: k' in r ==> k' in m || k' == k
  {
    if k in m then m else m[k := b]
  }

  /**
   * One bus of the loop of `Setup` (lines 86-95): its path is added if new;
   * its full path is tried when the path was new or outside play mode, and
   * otherwise the duplicate is only logged.
   */
  function AddBus(m: map<string, BusConfig>, b: BusConfig, isPlaying: bool): map<string, BusConfig> {
    if b.path !in m || !isPlaying then TryAdd(TryAdd(m, b.path, b), b.fullPath, b)
    else m
  }

  /** The map `Setup` builds from the buses, in order, on an empty map (line 84). */
  function BusMapOf(buses: seq<BusConfig>, isPlaying: bool): map<string, BusConfig>
    decreases |buses|
  {
    if buses == [] then map[]
    else AddBus(BusMapOf(buses[..|buses| - 1], isPlaying), buses[|buses| - 1], isPlaying)
  }

  /** The entry under `k` is one of `buses`, with `k` as its short or full path. */
  ghost predicate MapsToNamed(m: map<string, BusConfig>, k: string, buses: seq<BusConfig>)
    requires k in m
  {
    m[k] in buses && (m[k].path == k || m[k].fullPath == k)
  }

  /** Every key of the map names its bus, by short or full path. */
  lemma {:induction false} BusMapSound(buses: seq<BusConfig>, isPlaying: bool)
    ensures forall k :: k in BusMapOf(buses, isPlaying) ==> MapsToNamed(BusMapOf(buses, isPlaying), k, buses)
    decreases |buses|
  {
    if buses != [] {
      var init, last := buses[..|buses| - 1], buses[|buses| - 1];
      BusMapSound(init, isPlaying);
      assert buses == init + [last];
      var m, m' := BusMapOf(init, isPlaying), BusMapOf(buses, isPlaying);
      assert m' == AddBus(m, last, isPlaying);
      forall k | k in m'
        ensures MapsToNamed(m', k, buses)
      {
        if k in m {
          assert MapsToNamed(m, k, init);
          assert m'[k] == m[k];
        } else {
          assert m'[k] == last;
        }
      }
    }
  }

  /** Every bus's short path is a key; outside play mode every full path is one too. */
  lemma {:induction false} BusMapComplete(buses: seq<BusConfig>, isPlaying: bool)
    ensures var m := BusMapOf(buses, isPlaying);
      (forall b :: b in buses ==> b.path in m) && (!isPlaying ==> forall b :: b in buses ==> b.fullPath in m)
    decreases |buses|
  {
    if buses != [] {
      var init, last := buses[..|buses| - 1], buses[|buses| - 1];
      BusMapComplete(init, isPlaying);
      assert buses == init + [last];
      var m, m' := BusMapOf(init, isPlaying), BusMapOf(buses, isPlaying);
      assert m' == AddBus(m, last, isPlaying);
      forall b | b in buses
        ensures b.path in m' && (!isPlaying ==> b.fullPath in m')
      {
        if b != last {
          assert b in init;
        }
      }
    }
  }

  /** Entries, once in the map, keep their bus as later buses are added. */
  lemma {:induction false} BusMapGrows(buses: seq<BusConfig>, n: nat, isPlaying: bool)
    requires n <= |buses|
    ensures forall k :: k in BusMapOf(buses[..n], isPlaying) ==>
      k in BusMapOf(buses, isPlaying) && BusMapOf(buses, isPlaying)[k] == BusMapOf(buses[..n], isPlaying)[k]
    decreases |buses| - n
  {
    if n < |buses| {
      BusMapGrows(buses, n + 1, isPlaying);
      assert buses[..n + 1][..n] == buses[..n];
    } else {
      assert buses[..n] == buses;
    }
  }

  /**
   * In play mode the first bus with a given path wins (lines 89-94): the
   * entry under a bus's path is that bus or one before it, and a later bus
   * with a path already taken adds nothing.
   */
  lemma FirstPathWins(buses: seq<BusConfig>, i: nat)
    requires i < |buses|
    ensures buses[i].path in BusMapOf(buses, true) &&
      exists j :: 0 <= j <= i && BusMapOf(buses, true)[buses[i].path] == buses[j]
    ensures buses[i].path in BusMapOf(buses[..i], true) ==> BusMapOf(buses[..i + 1], true) == BusMapOf(buses[..i], true)
  {
    var prefix := buses[..i + 1];
    assert prefix[..i] == buses[..i];
    BusMapGrows(buses, i + 1, true);
    BusMapSound(buses[..i], true);
    if buses[i].path in BusMapOf(buses[..i], true) {
      var e := BusMapOf(buses[..i], true)[buses[i].path];
      assert e in buses[..i];
      var j :| 0 <= j < i && buses[..i][j] == e;
      assert BusMapOf(buses, true)[buses[i].path] == buses[j];
    } else {
      assert BusMapOf(buses, true)[buses[i].path] == buses[i];
    }
  }

  /** The settings asset: its buses, the path registry and the global pause (`audioIsPaused`). */
  class Settings {
    var buses: seq<BusConfig>
    var busPathToBus: map<string, BusConfig>
    var audioIsPaused: bool

    constructor (buses: seq<BusConfig>)
      ensures this.buses == buses && busPathToBus == map[] && !audioIsPaused
    {
      this.buses := buses;
      busPathToBus, audioIsPaused := map[], false;
    }

    /** The bus registry of `Setup` (lines 84-95), in or out of play mode. */
    method BuildBusMap(isPlaying: bool)
      modifies this`busPathToBus
      ensures busPathToBus == BusMapOf(buses, isPlaying)
    {
      busPathToBus := map[];
      var i := 0;
      while i < |buses|
        invariant 0 <= i <= |buses|
        invariant busPathToBus == BusMapOf(buses[..i], isPlaying)
      {
        var bus := buses[i];
        assert buses[..i + 1][..i] == buses[..i];
        if bus.path !in busPathToBus || !isPlaying {
          busPathToBus := TryAdd(busPathToBus, bus.path, bus);
          busPathToBus := TryAdd(busPathToBus, bus.fullPath, bus);
        }
        i := i + 1;
      }
      assert buses[..i] == buses;
    }

    /** `GetBus` (lines 119-129): the bus registered under the path, or none. */
    function GetBus(busPath: string): (r: Option<BusConfig>)
      reads this
      ensures r.Some? <==> busPath in busPathToBus
      ensures r.Some? ==> r.value == busPathToBus[busPath]
    {
      if busPath in busPathToBus then Some(busPathToBus[busPath]) else None
    }

    /**
     * After `Setup` every bus is found under its path, and whatever is found
     * is one of the buses, with that short or full path.
     */
    lemma GetBusAfterSetup(isPlaying: bool, busPath: string)
      requires busPathToBus == BusMapOf(buses, isPlaying)
      ensures GetBus(busPath).Some? ==>
        GetBus(busPath).value in buses && (GetBus(busPath).value.path == busPath || GetBus(busPath).value.fullPath == busPath)
      ensures forall b :: b in buses ==> GetBus(b.path).Some?
    {
      BusMapSound(buses, isPlaying);
      BusMapComplete(buses, isPlaying);
    }

    /** The paused flag `SetAudioPaused` gives bus `b`. */
    ghost function PausedAfter(b: BusConfig, pause: bool, forceSet: bool, was: bool): bool {
      if b.isPausable || forceSet then pause else was
    }

    /**
     * `SetAudioPaused` (lines 199-210): nothing happens when the flag already
     * has the value; otherwise the flag is set and every pausable bus (every
     * bus with `forceSet`) is paused or unpaused; the others keep their state.
     */
    method SetAudioPaused(pause: bool, forceSet: bool)
      modifies this`audioIsPaused, buses
      ensures old(audioIsPaused) == pause ==> audioIsPaused == pause && forall b :: b in buses ==> b.paused == old(b.paused)
      ensures old(audioIsPaused) != pause ==> (audioIsPaused == pause &&
        forall b :: b in buses ==> b.paused == PausedAfter(b, pause, forceSet, old(b.paused)))
    {
      if audioIsPaused == pause {
        return;
      }
      audioIsPaused := pause;
      var i := 0;
      while i < |buses|
        modifies buses
        invariant 0 <= i <= |buses|
        invariant forall b :: b in buses[..i] ==> b.paused == PausedAfter(b, pause, forceSet, old(b.paused))
        invariant forall b :: b in buses && b !in buses[..i] ==> b.paused == old(b.paused)
      {
        var bus := buses[i];
        assert buses[..i + 1] == buses[..i] + [bus];
        if bus.isPausable || forceSet {
          bus.paused := pause;
        }
        i := i + 1;
      }
      assert buses[..i] == buses;
    }
  }

  /** The sounds `StopAllAudio` stops: the non-persistent ones, or all of them with `forceStop`. */
  function ToStop(ais: seq<AudioInstance>, persistent: set<AudioInstance>, forceStop: bool): (r: seq<AudioInstance>)
    ensures forall a :: a in r ==> a in ais && (a !in persistent || forceStop)
    ensures forall a :: a in ais && (a !in persistent || forceStop) ==> a in r
    ensures |r| <= |ais|
    decreases |ais|
  {
    if ais == [] then []
    else
      var init := ToStop(ais[..|ais| - 1], persistent, forceStop);
      assert ais == ais[..|ais| - 1] + [ais[|ais| - 1]];
      var a := ais[|ais| - 1];
      if a !in persistent || forceStop then init + [a] else init
  }

  /** With `forceStop` every sound is stopped, in the order of the list. */
  lemma {:induction false} ForceStopsAll(ais: seq<AudioInstance>, persistent: set<AudioInstance>)
    ensures ToStop(ais, persistent, true) == ais
    decreases |ais|
  {
    if ais != [] {
      ForceStopsAll(ais[..|ais| - 1], persistent);
      assert ais == ais[..|ais| - 1] + [ais[|ais| - 1]];
    }
  }

  /** How FMOD is asked to stop a sound (`AudioInstance.Stop`, AudioInstance.cs lines 227-233). */
  datatype StopMode = AllowFadeout | Immediate

  /**
   * `StopAllAudio` (lines 215-225) over the registered sounds (a copy of
   * `allAIs`); `persistent` holds the sounds flagged persistent. It answers
   * the sounds it stops, in order, and the stop mode.
   */
  method StopAllAudio(m: AudioManager.Manager, persistent: set<AudioInstance>, stopImmediately: bool, forceStop: bool)
    returns (stopped: seq<AudioInstance>, mode: StopMode)
    ensures stopped == ToStop(m.allAIs, persistent, forceStop)
    ensures mode == (if stopImmediately then Immediate else AllowFadeout)
  {
    var ais := m.allAIs;
    stopped := [];
    mode := if stopImmediately then Immediate else AllowFadeout;
    var i := 0;
    while i < |ais|
      invariant 0 <= i <= |ais|
      invariant stopped == ToStop(ais[..i], persistent, forceStop)
    {
      assert ais[..i + 1][..i] == ais[..i];
      var ai := ais[i];
      if ai in persistent && !forceStop {
        i := i + 1;
        continue;
      }
      stopped := stopped + [ai];
      i := i + 1;
    }
    assert ais[..i] == ais;
  }
}

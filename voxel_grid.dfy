/**
 * Grid arithmetic shared by the two occlusion flood fills (AudioOcclusion and
 * AudioTracer): the flat voxel index `x*countYZ + y*countZ + z`, its decoding,
 * the one-voxel margin test, the 26-neighbour offset table supplied by the
 * voxel provider, the integer "air distance" and the indirection test.
 */
module VoxelGrid {

  /** C# `byte`. */
  newtype u8 = x: int | 0 <= x < 0x100

  /** C# `ushort`. */
  newtype u16 = x: int | 0 <= x < 0x1_0000

  /** The distance sentinel: `0xFFFF` means "not reached". */
  const Unreached: u16 := 0xFFFF

  /** The direct-index sentinel: `-1` means "no direct voxel". */
  const NoDirect: int := -1

  /** Voxels closer than this to a grid face are never spread from. */
  const VoxMargin: int := 1

  /** Number of entries in a voxel's neighbour table. */
  const DirCount: int := 26

  /** A C# `(ushort)` cast: keeps the low 16 bits of `x`. */
  function Wrap16(x: int): (r: u16)
    ensures 0 <= x < 0x1_0000 ==> r as int == x
    ensures (x - r as int) % 0x1_0000 == 0
  {
    (x % 0x1_0000) as u16
  }

  /** Dimensions of the voxel world, as the voxel provider reports them. */
  datatype VoxWorld = VoxWorld(countX: int, countY: int, countZ: int) {

    predicate Valid() {
      countX > 0 && countY > 0 && countZ > 0
    }

    function CountYZ(): int {
      countY * countZ
    }

    function CountXYZ(): int {
      countX * CountYZ()
    }
  }

  /** A voxel coordinate, or a coordinate difference. */
  datatype Coord = Coord(x: int, y: int, z: int)

  function Add(a: Coord, b: Coord): Coord {
    Coord(a.x + b.x, a.y + b.y, a.z + b.z)
  }

  function Sub(a: Coord, b: Coord): Coord {
    Coord(a.x - b.x, a.y - b.y, a.z - b.z)
  }

  predicate InGrid(w: VoxWorld, c: Coord) {
    0 <= c.x < w.countX && 0 <= c.y < w.countY && 0 <= c.z < w.countZ
  }

  /** The flat index of a coordinate; applied to a difference it gives the flat offset. */
  function Encode(w: VoxWorld, c: Coord): int {
    c.x * w.CountYZ() + c.y * w.countZ + c.z
  }

  lemma MulMonotone(a: int, b: int, c: int)
    requires a <= b && c >= 0
    ensures a * c <= b * c
  {
  }

  /** `q*d + r` with `0 <= r < d` has quotient `q` and remainder `r`. */
  lemma {:induction false} DivModUnique(q: int, r: int, d: int)
    requires d > 0 && 0 <= r < d
    ensures (q * d + r) / d == q && (q * d + r) % d == r
  {
    var n := q * d + r;
    var q', r' := n / d, n % d;
    assert n == q' * d + r' && 0 <= r' < d;
    if q' < q {
      MulMonotone(q' + 1, q, d);
      assert false;
    } else if q' > q {
      MulMonotone(q + 1, q', d);
      assert false;
    }
  }

  /** Encoding a coordinate inside the grid gives an index inside the grid. */
  lemma {:induction false} EncodeInRange(w: VoxWorld, c: Coord)
    requires w.Valid() && InGrid(w, c)
    ensures 0 <= Encode(w, c) < w.CountXYZ()
  {
    var cz, cyz := w.countZ, w.CountYZ();
    MulMonotone(c.y, w.countY - 1, cz);
    assert (w.countY - 1) * cz == cyz - cz;
    assert 0 <= c.y * cz + c.z < cyz;
    MulMonotone(c.x, w.countX - 1, cyz);
    assert (w.countX - 1) * cyz == w.CountXYZ() - cyz;
    assert 0 <= c.x * cyz;
  }

  /** Lines 287-290 and 313-320 of AudioOcclusion.cs: divide out the flat index. */
  function Decode(w: VoxWorld, i: int): (c: Coord)
    requires w.Valid() && 0 <= i < w.CountXYZ()
    ensures InGrid(w, c) && Encode(w, c) == i
  {
    var cyz := w.CountYZ();
    var x := i / cyz;
    var rem := i % cyz;
    var c := Coord(x, rem / w.countZ, rem % w.countZ);
    assert c.y < w.countY by {
      if c.y >= w.countY {
        MulMonotone(w.countY, c.y, w.countZ);
        assert false;
      }
    }
    assert c.x < w.countX by {
      if c.x >= w.countX {
        MulMonotone(w.countX, c.x, cyz);
        assert false;
      }
    }
    c
  }

  /** Decoding undoes encoding: the flat index is a bijection onto the grid. */
  lemma {:induction false} DecodeEncode(w: VoxWorld, c: Coord)
    requires w.Valid() && InGrid(w, c)
    ensures 0 <= Encode(w, c) < w.CountXYZ() && Decode(w, Encode(w, c)) == c
  {
    EncodeInRange(w, c);
    var cz, cyz := w.countZ, w.CountYZ();
    var low := c.y * cz + c.z;
    MulMonotone(c.y, w.countY - 1, cz);
    assert 0 <= low < cyz;
    DivModUnique(c.x, low, cyz);
    DivModUnique(c.y, c.z, cz);
  }

  /** The voxel lies at least `VoxMargin` voxels inside every face (lines 313-321). */
  predicate Interior(w: VoxWorld, i: int)
    requires w.Valid() && 0 <= i < w.CountXYZ()
  {
    var c := Decode(w, i);
    VoxMargin <= c.x && c.x + VoxMargin < w.countX &&
    VoxMargin <= c.y && c.y + VoxMargin < w.countY &&
    VoxMargin <= c.z && c.z + VoxMargin < w.countZ
  }

  /** A step to one of the 26 Moore neighbours. */
  predicate UnitStep(d: Coord) {
    -1 <= d.x <= 1 && -1 <= d.y <= 1 && -1 <= d.z <= 1 && d != Coord(0, 0, 0)
  }

  /**
   * The voxel provider's neighbour table: 26 flat offsets, the k-th being
   * `dx*countYZ + dy*countZ + dz` for the unit step `deltas[k]`.
   */
  ghost predicate MooreTable(w: VoxWorld, dirs: seq<int>, deltas: seq<Coord>) {
    |dirs| == DirCount && |deltas| == DirCount &&
    forall k :: 0 <= k < DirCount ==> UnitStep(deltas[k]) && dirs[k] == Encode(w, deltas[k])
  }

  /** The provider's per-direction costs: 26 of them, each positive. */
  predicate PositiveCosts(costs: seq<u16>) {
    |costs| == DirCount && forall k :: 0 <= k < DirCount ==> costs[k] >= 1
  }

  /** The flat encoding is additive, so a coordinate step is a fixed flat offset. */
  lemma {:induction false} EncodeAdd(w: VoxWorld, c: Coord, d: Coord)
    ensures Encode(w, Add(c, d)) == Encode(w, c) + Encode(w, d)
  {
    var cyz, cz := w.CountYZ(), w.countZ;
    assert (c.x + d.x) * cyz == c.x * cyz + d.x * cyz;
    assert (c.y + d.y) * cz == c.y * cz + d.y * cz;
  }

  /** A unit step from a coordinate at least one voxel inside every face stays in the grid. */
  lemma StepInGrid(w: VoxWorld, c: Coord, d: Coord)
    requires VoxMargin <= c.x && c.x + VoxMargin < w.countX
    requires VoxMargin <= c.y && c.y + VoxMargin < w.countY
    requires VoxMargin <= c.z && c.z + VoxMargin < w.countZ
    requires UnitStep(d)
    ensures InGrid(w, Add(c, d)) && Add(c, d) != c
  {
  }

  /**
   * Every neighbour of an interior voxel is inside the grid, and it is the voxel
   * one unit step away: the margin test makes every `voxI + voxDirs[i]` safe.
   */
  lemma {:induction false} NeighbourInRange(w: VoxWorld, i: int, d: Coord)
    requires w.Valid() && 0 <= i < w.CountXYZ() && Interior(w, i) && UnitStep(d)
    ensures 0 <= i + Encode(w, d) < w.CountXYZ()
    ensures Decode(w, i + Encode(w, d)) == Add(Decode(w, i), d)
    ensures i + Encode(w, d) != i
  {
    var c := Decode(w, i);
    var n := Add(c, d);
    StepInGrid(w, c, d);
    EncodeAdd(w, c, d);
    DecodeEncode(w, n);
  }

  function Abs(x: int): nat {
    if x < 0 then -x else x
  }

  /**
   * The three conditional swaps of lines 332-343 of AudioOcclusion.cs: the
   * result is the input sorted in descending order.
   */
  function Sort3(a: int, b: int, c: int): (r: (int, int, int))
    ensures r.0 >= r.1 >= r.2
    ensures multiset{r.0, r.1, r.2} == multiset{a, b, c}
  {
    var (x1, y1) := Order(a, b);
    var (y2, z2) := Order(y1, c);
    var (x3, y3) := Order(x1, y2);
    (x3, y3, z2)
  }

  /** The sorted triple keeps the sum, leads with the maximum and ends with one of the inputs. */
  lemma SortedSum(a: int, b: int, c: int)
    ensures var s := Sort3(a, b, c);
            s.0 + s.1 + s.2 == a + b + c && (s.2 == a || s.2 == b || s.2 == c) && s.0 >= a && s.0 >= b && s.0 >= c
  {
    var (x1, y1) := Order(a, b);
    assert x1 + y1 == a + b && x1 >= a && x1 >= b;
    var (y2, z2) := Order(y1, c);
    assert y2 + z2 == y1 + c && (z2 == y1 || z2 == c);
    var (x3, y3) := Order(x1, y2);
    assert x3 + y3 == x1 + y2 && x3 >= x1 && x3 >= y2;
  }

  /** One conditional swap `if (p < q) (q, p) = (p, q)`: the larger value first. */
  function Order(p: int, q: int): (r: (int, int))
    ensures r.0 >= r.1
    ensures multiset{r.0, r.1} == multiset{p, q}
  {
    if p < q then (q, p) else (p, q)
  }

  /** Two descending triples holding the same multiset are the same triple. */
  lemma {:induction false} SortedTriplesUnique(r: (int, int, int), s: (int, int, int))
    requires r.0 >= r.1 >= r.2 && s.0 >= s.1 >= s.2
    requires multiset{r.0, r.1, r.2} == multiset{s.0, s.1, s.2}
    ensures r == s
  {
    var m := multiset{r.0, r.1, r.2};
    assert s.0 in m && s.1 in m && s.2 in m;
    assert r.0 in multiset{s.0, s.1, s.2} && r.2 in multiset{s.0, s.1, s.2};
    assert r.0 == s.0;
    assert multiset{r.1, r.2} == multiset{s.1, s.2} by {
      assert multiset{r.1, r.2} == m - multiset{r.0};
      assert multiset{s.1, s.2} == m - multiset{s.0};
    }
    assert r.2 in multiset{s.1, s.2} && s.2 in multiset{r.1, r.2};
  }

  /**
   * The integer air distance of line 345: `5*max + 2*(mid + min)` of the
   * absolute coordinate differences, cast to `ushort`.
   */
  function AirDis(delta: Coord): u16 {
    var s := Sort3(Abs(delta.x), Abs(delta.y), Abs(delta.z));
    Wrap16(5 * s.0 + 2 * (s.1 + s.2))
  }

  /**
   * Short of the cast wrapping, the air distance lies between five units per
   * voxel along the longest axis and five units per face step of the Manhattan
   * distance, and it is 0 only for the listener's own voxel.
   */
  lemma AirDisBounds(delta: Coord)
    requires 5 * (Abs(delta.x) + Abs(delta.y) + Abs(delta.z)) < 0x1_0000
    ensures var r, ax, ay, az := AirDis(delta) as int, Abs(delta.x), Abs(delta.y), Abs(delta.z);
            5 * ax <= r && 5 * ay <= r && 5 * az <= r && r <= 5 * (ax + ay + az) &&
            (r == 0 <==> delta == Coord(0, 0, 0))
  {
    var ax, ay, az := Abs(delta.x), Abs(delta.y), Abs(delta.z);
    var s := Sort3(ax, ay, az);
    SortedSum(ax, ay, az);
    assert 0 <= s.2 <= s.1 <= s.0 && s.0 + s.1 + s.2 == ax + ay + az;
    assert AirDis(delta) as int == 5 * s.0 + 2 * (s.1 + s.2);
  }


  /** The air distance depends only on the multiset `{|dx|, |dy|, |dz|}`. */
  lemma {:induction false} AirDisSymmetric(d: Coord, e: Coord)
    requires multiset{Abs(d.x), Abs(d.y), Abs(d.z)} == multiset{Abs(e.x), Abs(e.y), Abs(e.z)}
    ensures AirDis(d) == AirDis(e)
  {
    SortedTriplesUnique(Sort3(Abs(d.x), Abs(d.y), Abs(d.z)), Sort3(Abs(e.x), Abs(e.y), Abs(e.z)));
  }

  /**
   * On one unit step the air distance is 5 for a face, 7 for an edge and 9 for
   * a corner neighbour: five units per voxel of straight travel.
   */
  lemma AirDisOfUnitStep(d: Coord)
    requires UnitStep(d)
    ensures var nonZero := (if d.x != 0 then 1 else 0) + (if d.y != 0 then 1 else 0) + (if d.z != 0 then 1 else 0);
            AirDis(d) as int == 5 + 2 * (nonZero - 1)
  {
    var a, b, c := Abs(d.x), Abs(d.y), Abs(d.z);
    Sort3Bits(a, b, c);
    assert a + b + c == (if d.x != 0 then 1 else 0) + (if d.y != 0 then 1 else 0) + (if d.z != 0 then 1 else 0);
  }

  /** Sorting three bits puts the ones first. */
  lemma Sort3Bits(a: int, b: int, c: int)
    requires 0 <= a <= 1 && 0 <= b <= 1 && 0 <= c <= 1
    ensures Sort3(a, b, c) == (if a + b + c >= 1 then 1 else 0, if a + b + c >= 2 then 1 else 0, if a + b + c == 3 then 1 else 0)
  {
  }

  /** Inputs of one flood fill: the job struct's scalar fields and the grid it reads. */
  datatype Job = Job(
    world: VoxWorld,
    types: seq<u8>,
    dirs: seq<int>,
    costs: seq<u16>,
    camVoxI: int,
    maxHearRadiusVox: u16,
    indirectExtraDistance: u16,
    solidTypeStart: u8)

  /** The shape of a job: a non-empty grid, a type per voxel, 26 directions and the listener inside the grid. */
  predicate WellFormed(j: Job) {
    j.world.Valid() &&
    |j.types| == j.world.CountXYZ() &&
    |j.dirs| == DirCount && |j.costs| == DirCount &&
    0 <= j.camVoxI < j.world.CountXYZ()
  }

  /**
   * What the voxel provider guarantees of the grid: a non-empty world with a type
   * per voxel, and the Moore neighbour table with positive costs.
   */
  ghost predicate ValidGrid(j: Job, deltas: seq<Coord>) {
    j.world.Valid() &&
    |j.types| == j.world.CountXYZ() &&
    MooreTable(j.world, j.dirs, deltas) &&
    PositiveCosts(j.costs)
  }

  /**
   * The hearing radius, the indirection penalty and any step cost add up to less
   * than the write-once threshold 65000, so no `(ushort)` cast of the fill wraps.
   */
  predicate Budget(costs: seq<u16>, maxHearRadiusVox: u16, indirectExtraDistance: u16) {
    forall k :: 0 <= k < |costs| ==>
      maxHearRadiusVox as int + indirectExtraDistance as int + costs[k] as int < 65000
  }

  /** A job ready to run: a valid grid, the listener inside it, and the distance budget. */
  ghost predicate ValidJob(j: Job, deltas: seq<Coord>) {
    ValidGrid(j, deltas) &&
    WellFormed(j) &&
    Budget(j.costs, j.maxHearRadiusVox, j.indirectExtraDistance)
  }

  /** The air distance from the listener voxel to voxel `v`. */
  function AirDisTo(j: Job, v: int): u16
    requires WellFormed(j) && 0 <= v < j.world.CountXYZ()
  {
    AirDis(Sub(Decode(j.world, v), Decode(j.world, j.camVoxI)))
  }

  /**
   * Lines 326-354: a voxel without a direct voxel (`directI < 0`) is an indirection
   * point when its air distance `air` from the listener is shorter than the path
   * distance `dis` found; the test is the C# `int` subtraction `airDis - activeDis < 0`.
   */
  predicate IsIndirection(air: u16, dis: u16, directI: int): (r: bool)
    ensures r ==> directI < 0 && air < dis && dis > 0
  {
    directI < 0 && air as int - dis as int < 0
  }

  /** The local `activeDis` a dequeued voxel spreads with: an indirection point adds the penalty. */
  function ActiveDis(j: Job, air: u16, dis: u16, directI: int): u16 {
    if IsIndirection(air, dis, directI) then Wrap16(dis as int + j.indirectExtraDistance as int) else dis
  }

  /** The local `directVoxI` a dequeued voxel `v` hands to the neighbours it writes. */
  function DirectOut(air: u16, dis: u16, directI: int, v: int): int {
    if IsIndirection(air, dis, directI) then v else directI
  }

  /**
   * The dequeued voxel `v`'s spreading distance and outgoing direct voxel as the
   * fill computes them from its stored distance `dis` and direct voxel `directI`.
   */
  method Outgoing(j: Job, v: int, dis: u16, directI: int) returns (activeDis: u16, directVoxI: int)
    requires WellFormed(j) && 0 <= v < j.world.CountXYZ()
    ensures activeDis == ActiveDis(j, AirDisTo(j, v), dis, directI)
    ensures directVoxI == DirectOut(AirDisTo(j, v), dis, directI, v)
  {
    activeDis, directVoxI := dis, directI;
    if directVoxI < 0 {
      var airDis := AirDisTo(j, v);
      if airDis as int - activeDis as int < 0 {
        activeDis := Wrap16(activeDis as int + j.indirectExtraDistance as int);
        directVoxI := v;
      }
    }
  }

  /**
   * The indirection test in both directions, and what it changes: only the local
   * distance gains the penalty, and a voxel that already has a direct voxel keeps
   * both its distance and its direct voxel.
   */
  lemma IndirectionEffect(j: Job, deltas: seq<Coord>, air: u16, dis: u16, directI: int, v: int)
    requires ValidJob(j, deltas) && dis <= j.maxHearRadiusVox
    ensures IsIndirection(air, dis, directI) <==> directI < 0 && air < dis
    ensures IsIndirection(air, dis, directI) ==>
              ActiveDis(j, air, dis, directI) as int == dis as int + j.indirectExtraDistance as int &&
              DirectOut(air, dis, directI, v) == v
    ensures !IsIndirection(air, dis, directI) ==>
              ActiveDis(j, air, dis, directI) == dis && DirectOut(air, dis, directI, v) == directI
  {
    assert j.maxHearRadiusVox as int + j.indirectExtraDistance as int + j.costs[0] as int < 65000;
  }

  /** The listener voxel, at distance 0, is never an indirection point. */
  lemma ListenerIsDirect(j: Job, air: u16, directI: int)
    ensures !IsIndirection(air, 0, directI)
    ensures ActiveDis(j, air, 0, directI) == 0
  {
  }

  /**
   * Per-voxel tables of the interior test and of the air distance from the
   * listener; the flood fills' invariants read them instead of re-deriving the
   * coordinates of every voxel they mention.
   */
  ghost predicate Geometry(j: Job, inner: seq<bool>, air: seq<u16>)
    requires WellFormed(j)
  {
    |inner| == |air| == j.world.CountXYZ() &&
    (forall i {:trigger Interior(j.world, i)} :: 0 <= i < j.world.CountXYZ() ==> inner[i] == Interior(j.world, i)) &&
    (forall i {:trigger AirDisTo(j, i)} :: 0 <= i < j.world.CountXYZ() ==> air[i] == AirDisTo(j, i))
  }

  lemma MakeGeometry(j: Job) returns (inner: seq<bool>, air: seq<u16>)
    requires WellFormed(j)
    ensures Geometry(j, inner, air)
  {
    var n := j.world.CountXYZ();
    inner := seq(n, i requires 0 <= i < n => Interior(j.world, i));
    air := seq(n, i requires 0 <= i < n => AirDisTo(j, i));
  }

  /**
   * Lines 367-375: a written neighbour `v` at distance `d` is enqueued when it is
   * within hearing range and not solid; the listener voxel is enqueued
   * unconditionally (line 293).
   */
  predicate Enqueueable(j: Job, v: int, d: u16): (r: bool)
    requires 0 <= v < |j.types|
    ensures v == j.camVoxI ==> r
    ensures r && v != j.camVoxI ==> d <= j.maxHearRadiusVox && j.types[v] <= j.solidTypeStart
  {
    v == j.camVoxI || (d <= j.maxHearRadiusVox && j.types[v] <= j.solidTypeStart)
  }
}

/**
 * The earlier, label-correcting variant of the occlusion flood fill
 * (`AudioTracer.ComputeOcclusion_job.Execute`, AudioTracer.cs lines 251-368)
 * and the static state that double-buffers its result. The margin test and the
 * indirection test are those of `AudioOcclusion`; the neighbour update differs:
 * a neighbour is rewritten whenever the candidate distance is strictly smaller
 * than the stored one, so a voxel may be written and enqueued several times.
 * The fill ends when the queue empties: every distance only ever decreases.
 */
module AudioTracer {
  import opened VoxelGrid
  import opened SearchQueue
  import opened Wrappers
  import Occ = AudioOcclusion

  /** Sum of all stored distances: with the queue length, the outer loop's termination measure. */
  function Sum(D: seq<u16>): nat {
    if D == [] then 0 else Sum(D[..|D| - 1]) + D[|D| - 1] as int
  }

  /** Writing one entry changes the sum by what that entry changed. */
  lemma {:induction false} SumUpdate(D: seq<u16>, x: int, d: u16)
    requires 0 <= x < |D|
    ensures Sum(D[x := d]) == Sum(D) - D[x] as int + d as int
  {
    var n := |D|;
    if x == n - 1 {
      assert D[x := d][..n - 1] == D[..n - 1];
    } else {
      assert D[x := d][..n - 1] == D[..n - 1][x := d];
      SumUpdate(D[..n - 1], x, d);
    }
  }

  /** No stored distance went up from `D0` to `D1`. */
  ghost predicate NoIncrease(D0: seq<u16>, D1: seq<u16>) {
    |D0| == |D1| && forall i :: 0 <= i < |D0| ==> D1[i] <= D0[i]
  }

  lemma NoIncreaseTrans(D0: seq<u16>, D1: seq<u16>, D2: seq<u16>)
    requires NoIncrease(D0, D1) && NoIncrease(D1, D2)
    ensures NoIncrease(D0, D2)
  {
    forall i | 0 <= i < |D0|
      ensures D2[i] <= D0[i]
    {
      assert D2[i] <= D1[i];
    }
  }

  /**
   * Between two steps of the fill: the listener voxel holds 0 and no direct
   * voxel, a voxel never written keeps both sentinels, every direct index
   * names an interior voxel the fill may spread from, and every other reached
   * voxel is `Supported`: it was written from a neighbour.
   */
  ghost predicate TInv(j: Job, inner: seq<bool>, D: seq<u16>, I: seq<int>)
    requires WellFormed(j)
  {
    |D| == |I| == |inner| == j.world.CountXYZ() &&
    D[j.camVoxI] == 0 && I[j.camVoxI] == NoDirect &&
    (forall v {:trigger D[v]} :: 0 <= v < |D| && !Occ.Reached(D[v]) ==> D[v] == Unreached && I[v] == NoDirect) &&
    (forall v {:trigger I[v]} :: 0 <= v < |D| ==> NoDirect <= I[v] < |D|) &&
    (forall v {:trigger D[I[v]]} :: 0 <= v < |D| && I[v] >= 0 ==> inner[I[v]] && Enqueueable(j, I[v], D[I[v]])) &&
    (forall v {:trigger Supported(j, inner, D, v)} ::
      0 <= v < |D| && v != j.camVoxI && Occ.Reached(D[v]) ==> Supported(j, inner, D, v))
  }

  /**
   * The voxel `p = v - dirs[k]` is one `v` can have been written from: an
   * interior voxel the fill may spread from, whose distance plus the step cost
   * `costs[k]` is at most `v`'s.
   */
  ghost predicate SupportedVia(j: Job, inner: seq<bool>, D: seq<u16>, v: int, k: int)
    requires WellFormed(j) && |D| == |inner| == j.world.CountXYZ() && 0 <= v < |D| && 0 <= k < DirCount
  {
    var p := v - j.dirs[k];
    0 <= p < |D| && inner[p] && Enqueueable(j, p, D[p]) && D[v] as int >= D[p] as int + j.costs[k] as int
  }

  /** Some neighbour of `v` supports its distance (lines 335-342 write only such candidates). */
  ghost predicate Supported(j: Job, inner: seq<bool>, D: seq<u16>, v: int)
    requires WellFormed(j) && |D| == |inner| == j.world.CountXYZ() && 0 <= v < |D|
  {
    exists k :: 0 <= k < DirCount && SupportedVia(j, inner, D, v, k)
  }

  /** `v` can have been written from `p`: one of the 26 steps leads from `p` to `v` and supports `v`'s distance. */
  ghost predicate Link(j: Job, inner: seq<bool>, D: seq<u16>, p: int, v: int)
    requires WellFormed(j) && |D| == |inner| == j.world.CountXYZ() && 0 <= v < |D|
  {
    exists k :: 0 <= k < DirCount && v - j.dirs[k] == p && SupportedVia(j, inner, D, v, k)
  }

  /** `path` is a chain of `Link`s from the listener voxel to `v`. */
  ghost predicate ListenerChain(j: Job, inner: seq<bool>, D: seq<u16>, path: seq<int>, v: int)
    requires WellFormed(j) && |D| == |inner| == j.world.CountXYZ()
  {
    |path| >= 1 && path[0] == j.camVoxI && path[|path| - 1] == v &&
    (forall i :: 0 <= i < |path| ==> 0 <= path[i] < |D|) &&
    (forall i :: 0 <= i < |path| - 1 ==> Link(j, inner, D, path[i], path[i + 1]))
  }

  /**
   * Every distance comes from the listener: each reached voxel ends a chain of
   * `Link`s that starts at the listener voxel, every step adding at least its
   * positive cost.
   */
  lemma {:induction false} ReachedFromListener(j: Job, deltas: seq<Coord>, inner: seq<bool>, D: seq<u16>, I: seq<int>, v: int)
    requires ValidJob(j, deltas) && TInv(j, inner, D, I)
    requires 0 <= v < |D| && Occ.Reached(D[v])
    ensures exists path :: ListenerChain(j, inner, D, path, v)
    decreases D[v]
  {
    if v == j.camVoxI {
      assert ListenerChain(j, inner, D, [v], v);
      return;
    }
    assert Supported(j, inner, D, v);
    var k :| 0 <= k < DirCount && SupportedVia(j, inner, D, v, k);
    var p := v - j.dirs[k];
    assert j.costs[k] > 0;
    assert Link(j, inner, D, p, v);
    ReachedFromListener(j, deltas, inner, D, I, p);
    var prefix :| ListenerChain(j, inner, D, prefix, p);
    var path := prefix + [v];
    forall i | 0 <= i < |path| - 1
      ensures Link(j, inner, D, path[i], path[i + 1])
    {
      if i < |prefix| - 1 {
        assert path[i] == prefix[i] && path[i + 1] == prefix[i + 1];
      } else {
        assert path[i] == p && path[i + 1] == v;
      }
    }
    assert ListenerChain(j, inner, D, path, v);
  }

  /** Every queued index is a voxel the fill may spread from. */
  ghost predicate TPendingOk(j: Job, D: seq<u16>, pending: seq<int>)
    requires WellFormed(j) && |D| == j.world.CountXYZ()
  {
    forall i :: 0 <= i < |pending| ==> 0 <= pending[i] < |D| && Enqueueable(j, pending[i], D[pending[i]])
  }

  /**
   * No neighbour of the interior voxel `v` (`innerV`) can be improved from `v`:
   * each holds at most `v`'s spreading distance (from its air distance `airV`,
   * distance and direct voxel `iv`) plus the step cost.
   */
  ghost predicate Relaxed(j: Job, D: seq<u16>, v: int, innerV: bool, airV: u16, iv: int)
    requires WellFormed(j) && |D| == j.world.CountXYZ() && 0 <= v < |D|
  {
    innerV ==>
      forall k :: 0 <= k < DirCount ==>
        0 <= v + j.dirs[k] < |D| && D[v + j.dirs[k]] as int <= ActiveDis(j, airV, D[v], iv) as int + j.costs[k] as int
  }

  /** Every voxel the fill may spread from is still queued, or relaxed, or is `except`. */
  ghost predicate RelaxedOutside(j: Job, inner: seq<bool>, air: seq<u16>, D: seq<u16>, I: seq<int>,
                                 pending: seq<int>, except: int)
    requires WellFormed(j) && |D| == |I| == |inner| == |air| == j.world.CountXYZ()
  {
    forall v {:trigger Relaxed(j, D, v, inner[v], air[v], I[v])} ::
      0 <= v < |D| && v != except && Enqueueable(j, v, D[v]) && v !in pending ==>
      Relaxed(j, D, v, inner[v], air[v], I[v])
  }

  /** The first `k` neighbours of `u` hold at most `u`'s spreading distance `a` plus the step cost. */
  ghost predicate RelaxedUpTo(j: Job, D: seq<u16>, u: int, a: u16, k: int)
    requires WellFormed(j) && 0 <= k <= DirCount
  {
    forall i :: 0 <= i < k ==> 0 <= u + j.dirs[i] < |D| && D[u + j.dirs[i]] as int <= a as int + j.costs[i] as int
  }

  lemma RelaxedUpToLower(j: Job, D0: seq<u16>, D1: seq<u16>, u: int, a: u16, k: int)
    requires WellFormed(j) && 0 <= k <= DirCount
    requires RelaxedUpTo(j, D0, u, a, k) && NoIncrease(D0, D1)
    ensures RelaxedUpTo(j, D1, u, a, k)
  {
    forall i | 0 <= i < k
      ensures 0 <= u + j.dirs[i] < |D1| && D1[u + j.dirs[i]] as int <= a as int + j.costs[i] as int
    {
      assert D1[u + j.dirs[i]] <= D0[u + j.dirs[i]];
    }
  }

  lemma RelaxedUpToNext(j: Job, D: seq<u16>, u: int, a: u16, k: int)
    requires WellFormed(j) && 0 <= k < DirCount
    requires RelaxedUpTo(j, D, u, a, k)
    requires 0 <= u + j.dirs[k] < |D| && D[u + j.dirs[k]] as int <= a as int + j.costs[k] as int
    ensures RelaxedUpTo(j, D, u, a, k + 1)
  {
  }

  /** Relaxing all 26 neighbours of `u` leaves `u` relaxed, so only the queue is left to check. */
  lemma SpreadRelaxes(j: Job, inner: seq<bool>, air: seq<u16>, D: seq<u16>, I: seq<int>, pending: seq<int>, u: int)
    requires WellFormed(j) && |D| == |I| == |inner| == |air| == j.world.CountXYZ() && 0 <= u < |D|
    requires RelaxedUpTo(j, D, u, ActiveDis(j, air[u], D[u], I[u]), DirCount)
    requires RelaxedOutside(j, inner, air, D, I, pending, u)
    ensures RelaxedOutside(j, inner, air, D, I, pending, -1)
  {
    assert Relaxed(j, D, u, inner[u], air[u], I[u]);
  }

  /** A dequeued voxel is the only one the queue no longer covers. */
  lemma TDequeueKeeps(j: Job, inner: seq<bool>, air: seq<u16>, D: seq<u16>, I: seq<int>, pending: seq<int>)
    requires WellFormed(j) && |D| == |I| == |inner| == |air| == j.world.CountXYZ() && |pending| > 0
    requires RelaxedOutside(j, inner, air, D, I, pending, -1)
    ensures RelaxedOutside(j, inner, air, D, I, pending[1..], pending[0])
  {
    forall v | 0 <= v < |D| && v != pending[0] && Enqueueable(j, v, D[v]) && v !in pending[1..]
      ensures Relaxed(j, D, v, inner[v], air[v], I[v])
    {
      assert pending == [pending[0]] + pending[1..];
      assert v !in pending;
    }
  }

  /** A dequeued voxel in the margin has no neighbours to relax (lines 289-299). */
  lemma TSkipKeeps(j: Job, inner: seq<bool>, air: seq<u16>, D: seq<u16>, I: seq<int>, pending: seq<int>, u: int)
    requires WellFormed(j) && |D| == |I| == |inner| == |air| == j.world.CountXYZ() && 0 <= u < |D| && !inner[u]
    requires RelaxedOutside(j, inner, air, D, I, pending, u)
    ensures RelaxedOutside(j, inner, air, D, I, pending, -1)
  {
    assert Relaxed(j, D, u, inner[u], air[u], I[u]);
  }

  /** Lowering the entry of another voxel `x` keeps voxel `v` relaxed. */
  lemma LowerKeepsRelaxed(j: Job, D: seq<u16>, x: int, d: u16, v: int, innerV: bool, airV: u16, iv: int)
    requires WellFormed(j) && |D| == j.world.CountXYZ() && 0 <= x < |D| && 0 <= v < |D| && x != v && d <= D[x]
    requires Relaxed(j, D, v, innerV, airV, iv)
    ensures Relaxed(j, D[x := d], v, innerV, airV, iv)
  {
    var D' := D[x := d];
    assert D'[v] == D[v];
    if innerV {
      forall k | 0 <= k < DirCount
        ensures 0 <= v + j.dirs[k] < |D'| && D'[v + j.dirs[k]] as int <= ActiveDis(j, airV, D'[v], iv) as int + j.costs[k] as int
      {
        assert D'[v + j.dirs[k]] <= D[v + j.dirs[k]];
      }
    }
  }

  /**
   * Lowering the entry of `x = u + dirs[k]`, from the interior voxel `u` the
   * fill may spread from, to a distance at least `u`'s plus the step cost keeps
   * the invariant when `x` gets a direct index the invariant allows.
   */
  lemma LowerKeepsInv(j: Job, inner: seq<bool>, D: seq<u16>, I: seq<int>, x: int, d: u16, ix: int, u: int, k: int)
    requires WellFormed(j) && TInv(j, inner, D, I)
    requires 0 <= x < |D| && x != j.camVoxI && d < D[x] && Occ.Reached(d)
    requires ix == NoDirect || (0 <= ix < |D| && inner[ix] && Enqueueable(j, ix, D[ix]))
    requires 0 <= k < DirCount && 0 <= u < |D| && x == u + j.dirs[k] && x != u && inner[u] && Enqueueable(j, u, D[u])
    requires d as int >= D[u] as int + j.costs[k] as int
    ensures TInv(j, inner, D[x := d], I[x := ix])
  {
    var D', I' := D[x := d], I[x := ix];
    forall v | 0 <= v < |D'| && I'[v] >= 0
      ensures inner[I'[v]] && Enqueueable(j, I'[v], D'[I'[v]])
    {
      assert D'[I'[v]] <= D[I'[v]];
    }
    forall v | 0 <= v < |D'| && v != j.camVoxI && Occ.Reached(D'[v])
      ensures Supported(j, inner, D', v)
    {
      if v == x {
        assert x - j.dirs[k] == u && D'[u] == D[u];
        assert SupportedVia(j, inner, D', v, k);
      } else {
        assert D'[v] == D[v];
        assert Supported(j, inner, D, v);
        var k' :| 0 <= k' < DirCount && SupportedVia(j, inner, D, v, k');
        assert D'[v - j.dirs[k']] <= D[v - j.dirs[k']];
        assert SupportedVia(j, inner, D', v, k');
      }
    }
  }

  /** Lowering an entry keeps every queued voxel one the fill may spread from. */
  lemma LowerKeepsPending(j: Job, D: seq<u16>, pending: seq<int>, x: int, d: u16)
    requires WellFormed(j) && |D| == j.world.CountXYZ() && TPendingOk(j, D, pending)
    requires 0 <= x < |D| && d <= D[x]
    ensures TPendingOk(j, D[x := d], pending)
    ensures Enqueueable(j, x, d) ==> TPendingOk(j, D[x := d], pending + [x])
  {
    forall i | 0 <= i < |pending|
      ensures D[x := d][pending[i]] <= D[pending[i]]
    {
    }
  }

  /**
   * Lowering `x` (a neighbour of the voxel `u` being spread from) keeps every
   * other voxel relaxed; `x` itself needs nothing when it may not spread, and is
   * covered once it is queued.
   */
  lemma LowerKeepsRelaxedOutside(j: Job, inner: seq<bool>, air: seq<u16>, D: seq<u16>, I: seq<int>,
                                 pending: seq<int>, u: int, x: int, d: u16, ix: int)
    requires WellFormed(j) && |D| == |I| == |inner| == |air| == j.world.CountXYZ()
    requires RelaxedOutside(j, inner, air, D, I, pending, u)
    requires 0 <= x < |D| && d <= D[x]
    ensures RelaxedOutside(j, inner, air, D[x := d], I[x := ix], pending + [x], u)
    ensures !Enqueueable(j, x, d) ==> RelaxedOutside(j, inner, air, D[x := d], I[x := ix], pending, u)
  {
    var D', I' := D[x := d], I[x := ix];
    forall v | 0 <= v < |D'| && v != u && Enqueueable(j, v, D'[v]) && v !in pending && v != x
      ensures Relaxed(j, D', v, inner[v], air[v], I'[v])
    {
      assert D'[v] == D[v] && I'[v] == I[v];
      assert Relaxed(j, D, v, inner[v], air[v], I[v]);
      LowerKeepsRelaxed(j, D, x, d, v, inner[v], air[v], I[v]);
    }
  }

  /**
   * Lines 335-342 on the buffer contents: the neighbour `x = u + dirs[k]`, whose
   * stored distance exceeds the candidate `u`'s spreading distance plus the step
   * cost, gets that candidate and `u`'s outgoing direct voxel. This keeps the
   * invariant and the queue's and the closure's facts, lowers the sum of the
   * distances, and raises none.
   */
  lemma LowerKeepsAll(j: Job, deltas: seq<Coord>, inner: seq<bool>, air: seq<u16>, D: seq<u16>, I: seq<int>,
                      pending: seq<int>, u: int, k: int, closing: bool)
    requires ValidJob(j, deltas) && Geometry(j, inner, air)
    requires TInv(j, inner, D, I)
    requires 0 <= u < |D| && Interior(j.world, u) && Enqueueable(j, u, D[u])
    requires 0 <= k < DirCount && 0 <= u + j.dirs[k] < |D| && u + j.dirs[k] != u
    requires Wrap16(ActiveDis(j, air[u], D[u], I[u]) as int + j.costs[k] as int) < D[u + j.dirs[k]]
    requires TPendingOk(j, D, pending)
    requires closing ==> RelaxedOutside(j, inner, air, D, I, pending, u)
    ensures var x, a := u + j.dirs[k], ActiveDis(j, air[u], D[u], I[u]);
            var d := Wrap16(a as int + j.costs[k] as int);
            var D', I' := D[x := d], I[x := DirectOut(air[u], D[u], I[u], u)];
            x != j.camVoxI && d as int == a as int + j.costs[k] as int &&
            TInv(j, inner, D', I') && TPendingOk(j, D', pending) &&
            (Enqueueable(j, x, d) ==> TPendingOk(j, D', pending + [x])) &&
            (closing ==> RelaxedOutside(j, inner, air, D', I', pending + [x], u)) &&
            (closing && !Enqueueable(j, x, d) ==> RelaxedOutside(j, inner, air, D', I', pending, u)) &&
            Sum(D') < Sum(D) && NoIncrease(D, D')
  {
    var x, a := u + j.dirs[k], ActiveDis(j, air[u], D[u], I[u]);
    var d := Wrap16(a as int + j.costs[k] as int);
    var ix := DirectOut(air[u], D[u], I[u], u);
    assert inner[u];
    Occ.SpreadFits(j, deltas, air[u], D[u], I[u], u, k);
    assert x != j.camVoxI;
    assert D[u] <= a by {
      assert j.maxHearRadiusVox as int + j.indirectExtraDistance as int + j.costs[0] as int < 65000;
    }
    LowerKeepsInv(j, inner, D, I, x, d, ix, u, k);
    LowerKeepsPending(j, D, pending, x, d);
    if closing {
      LowerKeepsRelaxedOutside(j, inner, air, D, I, pending, u, x, d, ix);
    }
    SumUpdate(D, x, d);
    assert NoIncrease(D, D[x := d]);
  }

  /** The state right after the listener voxel is seeded (lines 254-275). */
  lemma TSeedKeepsInv(j: Job, deltas: seq<Coord>, inner: seq<bool>, air: seq<u16>, D: seq<u16>, I: seq<int>)
    requires ValidJob(j, deltas) && |D| == |I| == |inner| == |air| == j.world.CountXYZ()
    requires forall i :: 0 <= i < |D| ==> D[i] == Unreached && I[i] == NoDirect
    ensures TInv(j, inner, D[j.camVoxI := 0], I)
    ensures TPendingOk(j, D[j.camVoxI := 0], [j.camVoxI])
    ensures RelaxedOutside(j, inner, air, D[j.camVoxI := 0], I, [j.camVoxI], -1)
  {
    var D' := D[j.camVoxI := 0];
    assert j.maxHearRadiusVox as int + j.indirectExtraDistance as int + j.costs[0] as int < 65000;
    forall v | 0 <= v < |D'| && v != j.camVoxI
      ensures !Enqueueable(j, v, D'[v])
    {
      assert D'[v] == Unreached;
    }
  }

  /**
   * Lines 335-342: the neighbour `next = u + dirs[k]`, whose stored distance
   * exceeds the candidate `nextDis`, gets `nextDis` and `u`'s outgoing direct voxel.
   */
  method LowerNeighbour(j: Job, ghost deltas: seq<Coord>, ghost inner: seq<bool>, ghost air: seq<u16>,
                        dis: array<u16>, directI: array<int>, u: int, k: int, activeDis: u16, directVoxI: int,
                        nextDis: u16, ghost pending: seq<int>, ghost closing: bool)
    returns (next: int)
    requires ValidJob(j, deltas) && Geometry(j, inner, air)
    requires dis.Length == directI.Length == j.world.CountXYZ()
    requires 0 <= u < dis.Length && Interior(j.world, u) && Enqueueable(j, u, dis[u])
    requires 0 <= k < DirCount && 0 <= u + j.dirs[k] < dis.Length && u + j.dirs[k] != u
    requires activeDis == ActiveDis(j, air[u], dis[u], directI[u]) && directVoxI == DirectOut(air[u], dis[u], directI[u], u)
    requires nextDis == Wrap16(activeDis as int + j.costs[k] as int) && nextDis < dis[u + j.dirs[k]]
    requires TInv(j, inner, dis[..], directI[..]) && TPendingOk(j, dis[..], pending)
    requires closing ==> RelaxedOutside(j, inner, air, dis[..], directI[..], pending, u)
    modifies dis, directI
    ensures next == u + j.dirs[k] && next != j.camVoxI
    ensures dis[..] == old(dis[..])[next := nextDis] && directI[..] == old(directI[..])[next := directVoxI]
    ensures TInv(j, inner, dis[..], directI[..]) && TPendingOk(j, dis[..], pending)
    ensures Enqueueable(j, next, nextDis) ==> TPendingOk(j, dis[..], pending + [next])
    ensures closing ==> RelaxedOutside(j, inner, air, dis[..], directI[..], pending + [next], u)
    ensures closing && !Enqueueable(j, next, nextDis) ==> RelaxedOutside(j, inner, air, dis[..], directI[..], pending, u)
    ensures Sum(dis[..]) < old(Sum(dis[..])) && NoIncrease(old(dis[..]), dis[..])
  {
    next := u + j.dirs[k];
    ghost var D, I := dis[..], directI[..];
    LowerKeepsAll(j, deltas, inner, air, D, I, pending, u, k, closing);
    directI[next] := directVoxI;
    dis[next] := nextDis;
    assert dis[..] == D[next := nextDis] && directI[..] == I[next := directVoxI];
  }

  /**
   * Lines 343-362: a lowered neighbour is enqueued unless it is beyond the
   * hearing radius or solid, or the buffer is full (`full`, the editor-build
   * guard of lines 351-357).
   */
  method Admit(j: Job, queue: array<int>, head: int, tail0: int, count0: int, ghost pending0: seq<int>,
               next: int, nextDis: u16)
    returns (tail: int, count: int, full: bool, ghost pending: seq<int>)
    requires WellFormed(j) && 0 <= next < |j.types| && next != j.camVoxI
    requires Ring(queue[..], head, tail0, count0, pending0)
    modifies queue
    ensures Ring(queue[..], head, tail, count, pending)
    ensures !full ==> pending == if Enqueueable(j, next, nextDis) then pending0 + [next] else pending0
    ensures full ==> count0 == SearchQueueSize && pending == pending0 && count == count0
  {
    tail, count, full, pending := tail0, count0, false, pending0;
    if nextDis > j.maxHearRadiusVox {
      return;
    }
    if j.types[next] > j.solidTypeStart {
      return;
    }
    if count == SearchQueueSize {
      full := true;
      return;
    }
    tail, count := Enqueue(queue, head, tail, count, pending, next);
    pending := pending + [next];
  }

  /**
   * One pass of the lines 333-363 loop: the candidate for neighbour `k` of the
   * dequeued interior voxel `u` is `u`'s spreading distance plus the step cost;
   * the neighbour is lowered to it when that is strictly better (lines 337-342)
   * and then enqueued as `Admit` says. Either way the neighbour ends at most at
   * the candidate, and no distance goes up.
   */
  method Visit(j: Job, ghost deltas: seq<Coord>, ghost inner: seq<bool>, ghost air: seq<u16>,
               dis: array<u16>, directI: array<int>, queue: array<int>,
               u: int, k: int, activeDis: u16, directVoxI: int, head: int, tail0: int, count0: int,
               ghost pending0: seq<int>, ghost closing: bool, ghost D0: seq<u16>)
    returns (tail: int, count: int, full: bool, ghost pending: seq<int>)
    requires ValidJob(j, deltas) && Geometry(j, inner, air)
    requires dis.Length == directI.Length == j.world.CountXYZ() && queue.Length == SearchQueueSize
    requires queue != directI
    requires 0 <= u < dis.Length && Interior(j.world, u) && Enqueueable(j, u, dis[u])
    requires 0 <= k < DirCount
    requires activeDis == ActiveDis(j, air[u], dis[u], directI[u]) && directVoxI == DirectOut(air[u], dis[u], directI[u], u)
    requires TInv(j, inner, dis[..], directI[..])
    requires Ring(queue[..], head, tail0, count0, pending0) && TPendingOk(j, dis[..], pending0)
    requires closing ==> RelaxedOutside(j, inner, air, dis[..], directI[..], pending0, u)
    requires RelaxedUpTo(j, dis[..], u, activeDis, k) && NoIncrease(D0, dis[..])
    modifies dis, directI, queue
    ensures dis[u] == old(dis[u]) && directI[u] == old(directI[u])
    ensures RelaxedUpTo(j, dis[..], u, activeDis, k + 1) && NoIncrease(D0, dis[..])
    ensures TInv(j, inner, dis[..], directI[..])
    ensures Ring(queue[..], head, tail, count, pending) && TPendingOk(j, dis[..], pending)
    ensures closing && !full ==> RelaxedOutside(j, inner, air, dis[..], directI[..], pending, u)
    ensures Sum(dis[..]) <= old(Sum(dis[..]))
    ensures Sum(dis[..]) == old(Sum(dis[..])) ==> count == count0
  {
    var next := u + j.dirs[k];
    NeighbourInRange(j.world, u, deltas[k]);
    Occ.SpreadFits(j, deltas, air[u], dis[u], directI[u], u, k);
    var nextDis := Wrap16(activeDis as int + j.costs[k] as int);
    if dis[next] <= nextDis {
      tail, count, full, pending := tail0, count0, false, pending0;
      RelaxedUpToNext(j, dis[..], u, activeDis, k);
      return;
    }
    tail, count, full, pending :=
      VisitLowered(j, deltas, inner, air, dis, directI, queue, u, k, activeDis, directVoxI, nextDis,
                   head, tail0, count0, pending0, closing, D0);
  }

  /** The branch of `Visit` where the candidate `nextDis` is better than the stored distance. */
  method VisitLowered(j: Job, ghost deltas: seq<Coord>, ghost inner: seq<bool>, ghost air: seq<u16>,
                      dis: array<u16>, directI: array<int>, queue: array<int>,
                      u: int, k: int, activeDis: u16, directVoxI: int, nextDis: u16, head: int, tail0: int, count0: int,
                      ghost pending0: seq<int>, ghost closing: bool, ghost D0: seq<u16>)
    returns (tail: int, count: int, full: bool, ghost pending: seq<int>)
    requires ValidJob(j, deltas) && Geometry(j, inner, air)
    requires dis.Length == directI.Length == j.world.CountXYZ() && queue.Length == SearchQueueSize
    requires queue != directI
    requires 0 <= u < dis.Length && Interior(j.world, u) && Enqueueable(j, u, dis[u])
    requires 0 <= k < DirCount && 0 <= u + j.dirs[k] < dis.Length && u + j.dirs[k] != u
    requires activeDis == ActiveDis(j, air[u], dis[u], directI[u]) && directVoxI == DirectOut(air[u], dis[u], directI[u], u)
    requires nextDis == Wrap16(activeDis as int + j.costs[k] as int) && nextDis < dis[u + j.dirs[k]]
    requires nextDis as int == activeDis as int + j.costs[k] as int
    requires TInv(j, inner, dis[..], directI[..])
    requires Ring(queue[..], head, tail0, count0, pending0) && TPendingOk(j, dis[..], pending0)
    requires closing ==> RelaxedOutside(j, inner, air, dis[..], directI[..], pending0, u)
    requires RelaxedUpTo(j, dis[..], u, activeDis, k) && NoIncrease(D0, dis[..])
    modifies dis, directI, queue
    ensures dis[u] == old(dis[u]) && directI[u] == old(directI[u])
    ensures RelaxedUpTo(j, dis[..], u, activeDis, k + 1) && NoIncrease(D0, dis[..])
    ensures TInv(j, inner, dis[..], directI[..])
    ensures Ring(queue[..], head, tail, count, pending) && TPendingOk(j, dis[..], pending)
    ensures closing && !full ==> RelaxedOutside(j, inner, air, dis[..], directI[..], pending, u)
    ensures Sum(dis[..]) < old(Sum(dis[..]))
  {
    ghost var D1 := dis[..];
    var next := LowerNeighbour(j, deltas, inner, air, dis, directI, u, k, activeDis, directVoxI, nextDis, pending0, closing);
    tail, count, full, pending := Admit(j, queue, head, tail0, count0, pending0, next, nextDis);
    RelaxedUpToLower(j, D1, dis[..], u, activeDis, k);
    RelaxedUpToNext(j, dis[..], u, activeDis, k);
    NoIncreaseTrans(D0, D1, dis[..]);
  }

  /**
   * The lines 333-363 loop for one dequeued interior voxel `u`: every neighbour
   * ends at most at `u`'s spreading distance plus the step cost, unless the
   * buffer is found full (`full`), which leaves the rest of the neighbours unvisited.
   */
  method Spread(j: Job, ghost deltas: seq<Coord>, ghost inner: seq<bool>, ghost air: seq<u16>,
                dis: array<u16>, directI: array<int>, queue: array<int>,
                u: int, activeDis: u16, directVoxI: int, head: int, tail0: int, count0: int,
                ghost pending0: seq<int>, ghost closing: bool)
    returns (tail: int, count: int, full: bool, ghost pending: seq<int>)
    requires ValidJob(j, deltas) && Geometry(j, inner, air)
    requires dis.Length == directI.Length == j.world.CountXYZ() && queue.Length == SearchQueueSize
    requires queue != directI
    requires 0 <= u < dis.Length && Interior(j.world, u) && Enqueueable(j, u, dis[u])
    requires activeDis == ActiveDis(j, air[u], dis[u], directI[u]) && directVoxI == DirectOut(air[u], dis[u], directI[u], u)
    requires TInv(j, inner, dis[..], directI[..])
    requires Ring(queue[..], head, tail0, count0, pending0) && TPendingOk(j, dis[..], pending0)
    requires closing ==> RelaxedOutside(j, inner, air, dis[..], directI[..], pending0, u)
    modifies dis, directI, queue
    ensures TInv(j, inner, dis[..], directI[..])
    ensures Ring(queue[..], head, tail, count, pending) && TPendingOk(j, dis[..], pending)
    ensures closing && !full ==> RelaxedOutside(j, inner, air, dis[..], directI[..], pending, -1)
    ensures NoIncrease(old(dis[..]), dis[..])
    ensures Sum(dis[..]) <= old(Sum(dis[..]))
    ensures Sum(dis[..]) == old(Sum(dis[..])) ==> count == count0
  {
    tail, count, full, pending := tail0, count0, false, pending0;
    ghost var D0, du, iu := dis[..], dis[u], directI[u];
    var k := 0;
    while k < DirCount && !full
      invariant 0 <= k <= DirCount
      invariant dis[u] == du && directI[u] == iu
      invariant TInv(j, inner, dis[..], directI[..])
      invariant Ring(queue[..], head, tail, count, pending) && TPendingOk(j, dis[..], pending)
      invariant closing && !full ==> RelaxedOutside(j, inner, air, dis[..], directI[..], pending, u)
      invariant RelaxedUpTo(j, dis[..], u, activeDis, k) && NoIncrease(D0, dis[..])
      invariant Sum(dis[..]) <= Sum(D0)
      invariant Sum(dis[..]) == Sum(D0) ==> count == count0
    {
      tail, count, full, pending :=
        Visit(j, deltas, inner, air, dis, directI, queue, u, k, activeDis, directVoxI, head, tail, count, pending,
              closing, D0);
      k := k + 1;
    }
    if closing && !full {
      SpreadRelaxes(j, inner, air, dis[..], directI[..], pending, u);
    }
  }

  /**
   * Lines 253-275: clear both result buffers, set the listener voxel's distance
   * to 0 and enqueue it.
   */
  method Seed(j: Job, ghost deltas: seq<Coord>, dis: array<u16>, directI: array<int>, queue: array<int>)
    returns (head: int, tail: int, count: int, ghost pending: seq<int>, ghost inner: seq<bool>, ghost air: seq<u16>)
    requires ValidJob(j, deltas)
    requires dis.Length == directI.Length == j.world.CountXYZ() && queue.Length == SearchQueueSize
    requires queue != directI
    modifies dis, directI, queue
    ensures Geometry(j, inner, air)
    ensures TInv(j, inner, dis[..], directI[..])
    ensures Ring(queue[..], head, tail, count, pending) && TPendingOk(j, dis[..], pending)
    ensures RelaxedOutside(j, inner, air, dis[..], directI[..], pending, -1)
    ensures head == 0 && count == 1 && pending == [j.camVoxI]
    ensures dis[j.camVoxI] == 0 && directI[j.camVoxI] == NoDirect
    ensures forall v :: 0 <= v < dis.Length && v != j.camVoxI ==> dis[v] == Unreached && directI[v] == NoDirect
  {
    Occ.ClearBuffers(dis, directI);
    inner, air := MakeGeometry(j);
    TSeedKeepsInv(j, deltas, inner, air, dis[..], directI[..]);
    dis[j.camVoxI] := 0;
    head, tail, count := 0, 0, 0;
    EmptyRing(queue[..]);
    tail, count := Enqueue(queue, head, tail, count, [], j.camVoxI);
    pending := [j.camVoxI];
  }

  /**
   * One pass of the lines 282-364 loop: dequeue a voxel; skip it when it lies
   * in the grid's margin (lines 290-300); otherwise take its spreading distance
   * and outgoing direct voxel, turning it into an indirection point when its
   * distance exceeds its straight-line distance to the listener (lines 302-331),
   * and spread to its neighbours. Each pass lowers the sum of the distances or
   * shrinks the queue, and never raises a distance.
   */
  method Step(j: Job, ghost deltas: seq<Coord>, ghost inner: seq<bool>, ghost air: seq<u16>,
              dis: array<u16>, directI: array<int>, queue: array<int>, head0: int, tail0: int, count0: int,
              ghost pending0: seq<int>, overflowed0: bool)
    returns (head: int, tail: int, count: int, overflowed: bool, ghost pending: seq<int>)
    requires ValidJob(j, deltas) && Geometry(j, inner, air)
    requires dis.Length == directI.Length == j.world.CountXYZ() && queue.Length == SearchQueueSize
    requires queue != directI
    requires TInv(j, inner, dis[..], directI[..])
    requires Ring(queue[..], head0, tail0, count0, pending0) && TPendingOk(j, dis[..], pending0)
    requires !overflowed0 ==> RelaxedOutside(j, inner, air, dis[..], directI[..], pending0, -1)
    requires 0 < count0
    modifies dis, directI, queue
    ensures TInv(j, inner, dis[..], directI[..])
    ensures Ring(queue[..], head, tail, count, pending) && TPendingOk(j, dis[..], pending)
    ensures !overflowed ==> RelaxedOutside(j, inner, air, dis[..], directI[..], pending, -1)
    ensures NoIncrease(old(dis[..]), dis[..])
    ensures Sum(dis[..]) < old(Sum(dis[..])) || (Sum(dis[..]) == old(Sum(dis[..])) && count < count0)
  {
    var voxI;
    voxI, head, count := Dequeue(queue, head0, tail0, count0, pending0);
    pending, overflowed := pending0[1..], overflowed0;
    tail := tail0;
    var activeDis := dis[voxI];
    ghost var closing := !overflowed;
    if closing {
      TDequeueKeeps(j, inner, air, dis[..], directI[..], pending0);
    }
    if !Interior(j.world, voxI) {
      if closing {
        TSkipKeeps(j, inner, air, dis[..], directI[..], pending, voxI);
      }
      return;
    }
    var directVoxI;
    activeDis, directVoxI := Outgoing(j, voxI, activeDis, directI[voxI]);
    assert air[voxI] == AirDisTo(j, voxI);
    var full;
    tail, count, full, pending :=
      Spread(j, deltas, inner, air, dis, directI, queue, voxI, activeDis, directVoxI, head, tail, count, pending, closing);
    overflowed := overflowed || full;
  }

  /**
   * Lines 251-368: the tracer's fill. With the label-correcting rule every
   * enqueueable voxel ends relaxed against all 26 of its neighbours: no
   * neighbour could be lowered through it. A full queue (`overflowed`) drops
   * that promise but keeps the invariant.
   */
  method Execute(j: Job, ghost deltas: seq<Coord>, dis: array<u16>, directI: array<int>, queue: array<int>)
    returns (overflowed: bool, ghost inner: seq<bool>, ghost air: seq<u16>)
    requires ValidJob(j, deltas)
    requires dis.Length == directI.Length == j.world.CountXYZ() && queue.Length == SearchQueueSize
    requires queue != directI
    modifies dis, directI, queue
    ensures Geometry(j, inner, air)
    ensures TInv(j, inner, dis[..], directI[..])
    ensures !overflowed ==>
      forall v :: 0 <= v < dis.Length && Enqueueable(j, v, dis[v]) ==> Relaxed(j, dis[..], v, inner[v], air[v], directI[v])
  {
    var head, tail, count;
    ghost var pending;
    head, tail, count, pending, inner, air := Seed(j, deltas, dis, directI, queue);
    overflowed := false;
    while count > 0
      invariant TInv(j, inner, dis[..], directI[..])
      invariant Ring(queue[..], head, tail, count, pending) && TPendingOk(j, dis[..], pending)
      invariant !overflowed ==> RelaxedOutside(j, inner, air, dis[..], directI[..], pending, -1)
      decreases Sum(dis[..]), count
    {
      head, tail, count, overflowed, pending :=
        Step(j, deltas, inner, air, dis, directI, queue, head, tail, count, pending, overflowed);
    }
  }

  /** A run of the tracer's job: its inputs, the geometry tables, whether the queue filled, and what it left in the buffers. */
  datatype Trace = Trace(job: Job, inner: seq<bool>, air: seq<u16>, overflowed: bool, dis: seq<u16>, directI: seq<int>)

  /** `t` records what `Execute` promises of a finished run. */
  ghost predicate Traced(t: Trace)
    requires WellFormed(t.job)
  {
    Geometry(t.job, t.inner, t.air) && TInv(t.job, t.inner, t.dis, t.directI) &&
    (!t.overflowed ==>
      forall v :: 0 <= v < |t.dis| && Enqueueable(t.job, v, t.dis[v]) ==>
        Relaxed(t.job, t.dis, v, t.inner[v], t.air[v], t.directI[v]))
  }

  /** A trigger for `Finished`; it holds of every trace. */
  ghost predicate Token(t: Trace) {
    true
  }

  /** `Traced(t)` behind a trigger only `MakeFinished` and `Completed` supply. */
  ghost predicate Finished(t: Trace) {
    forall x {:trigger Token(x)} :: Token(x) && x == t ==> WellFormed(x.job) && Traced(x)
  }

  lemma MakeFinished(t: Trace)
    requires WellFormed(t.job) && Traced(t)
    ensures Finished(t)
  {
  }

  lemma Completed(t: Trace)
    requires Finished(t)
    ensures WellFormed(t.job) && Traced(t)
  {
    assert Token(t);
  }

  /** Buffer contents as a fresh `FlipFlop` leaves them: every distance and direct voxel at the sentinel. */
  ghost predicate Blank(D: seq<u16>, I: seq<int>) {
    (forall i :: 0 <= i < |D| ==> D[i] == Unreached) && (forall i :: 0 <= i < |I| ==> I[i] == NoDirect)
  }

  /**
   * The static state of `AudioTracer`: the two buffers, the `flipped` bit,
   * `readFlip`/`writeFlip`, the job flag and the job's inputs `job`, whose result
   * arrays are those of `jobFlip`. The job runs when `OnGlobalReadAccessStop`
   * waits for it.
   */
  class Scheduler {
    var voxelSystemIsValid: bool
    var jobIsActive: bool
    var flipped: bool
    var flipA: Occ.FlipFlop?
    var flipB: Occ.FlipFlop?
    var readFlip: Occ.FlipFlop?
    var writeFlip: Occ.FlipFlop?
    var jobFlip: Occ.FlipFlop?
    var queue: array<int>
    var job: Job
    ghost var deltas: seq<Coord>
    ghost var written: Trace
    ghost var readable: Option<Trace>

    ghost function Repr(): set<object?>
      reads this
    {
      {this, queue} +
      (if flipA == null then {} else {flipA, flipA.dis, flipA.directI}) +
      (if flipB == null then {} else {flipB, flipB.dis, flipB.directI})
    }

    /** Two distinct buffers of the grid's size, one read and one written, as `flipped` says. */
    ghost predicate Buffers()
      reads this
    {
      flipA != null && flipB != null && flipA != flipB &&
      flipA.dis != flipB.dis && flipA.directI != flipB.directI &&
      flipA.directI != queue && flipB.directI != queue && queue.Length == SearchQueueSize &&
      ValidGrid(job, deltas) &&
      flipA.dis.Length == flipA.directI.Length == flipB.dis.Length == flipB.directI.Length == job.world.CountXYZ() &&
      writeFlip == (if flipped then flipB else flipA) &&
      readFlip == (if flipped then flipA else flipB)
    }

    /**
     * The buffers exist while the voxel system is valid or a job runs; a running
     * job has a valid grid and listener and writes the write buffer.
     */
    ghost predicate Coherent()
      reads this
    {
      (voxelSystemIsValid || jobIsActive ==> Buffers()) &&
      (jobIsActive ==>
        WellFormed(job) && Budget(job.costs, job.maxHearRadiusVox, job.indirectExtraDistance) && jobFlip == writeFlip)
    }

    /**
     * Between calls, moreover, a job only runs while the system is valid: jobs
     * start only then (line 198), and `OnClearVoxelSystem` waits for the running
     * one after marking the system invalid.
     */
    ghost predicate Valid()
      reads this
    {
      Coherent() && (jobIsActive ==> voxelSystemIsValid)
    }

    /**
     * While the system is valid, the read buffer is blank until a job has
     * completed, and holds the last completed job's finished fill after.
     */
    ghost predicate ReadResult()
      requires Coherent()
      reads this, Repr()
    {
      voxelSystemIsValid ==>
        match readable
        case None => Blank(readFlip.dis[..], readFlip.directI[..])
        case Some(t) =>
          readFlip.dis[..] == t.dis && readFlip.directI[..] == t.directI && t.job.world == job.world && Finished(t)
    }

    /** The static initialisers: nothing set up, no buffers. */
    constructor ()
      ensures Valid() && ReadResult()
      ensures !voxelSystemIsValid && !jobIsActive && !flipped
      ensures flipA == null && flipB == null && readFlip == null && writeFlip == null
    {
      voxelSystemIsValid, jobIsActive, flipped := false, false, false;
      flipA, flipB, readFlip, writeFlip, jobFlip := null, null, null, null, null;
      queue := new int[0];
      job := Job(VoxWorld(0, 0, 0), [], [], [], 0, 0, 0, 0);
      deltas := [];
      written := Trace(job, [], [], false, [], []);
      readable := None;
    }

    /** `GetNextFlip`: toggle `flipped` and return the buffer it now names. */
    method GetNextFlip() returns (f: Occ.FlipFlop?)
      modifies this`flipped
      ensures flipped == !old(flipped)
      ensures f == (if flipped then flipB else flipA)
    {
      flipped := !flipped;
      f := if flipped == false then flipA else flipB;
    }

    /**
     * Picks the readable and the writable buffer with two flips (AudioTracer.cs
     * lines 137-138): they are distinct, and `flipped` ends as it was.
     */
    method PickFlips()
      modifies this`flipped, this`readFlip, this`writeFlip
      ensures flipped == old(flipped)
      ensures writeFlip == (if flipped then flipB else flipA) && readFlip == (if flipped then flipA else flipB)
    {
      readFlip := GetNextFlip();
      writeFlip := GetNextFlip();
    }

    /**
     * Allocates the two distance buffers for `n` voxels and picks the readable
     * and writable one (lines 135-138).
     */
    method AllocateFlips(n: nat)
      modifies this`flipA, this`flipB, this`flipped, this`readFlip, this`writeFlip
      ensures fresh(flipA) && fresh(flipB) && fresh(flipA.dis) && fresh(flipA.directI) && fresh(flipB.dis) && fresh(flipB.directI)
      ensures flipA != flipB && flipA.dis != flipB.dis && flipA.directI != flipB.directI
      ensures flipA.dis.Length == flipA.directI.Length == flipB.dis.Length == flipB.directI.Length == n
      ensures flipped == old(flipped)
      ensures writeFlip == (if flipped then flipB else flipA) && readFlip == (if flipped then flipA else flipB)
      ensures Blank(readFlip.dis[..], readFlip.directI[..]) && Blank(writeFlip.dis[..], writeFlip.directI[..])
    {
      flipA := new Occ.FlipFlop(n);
      flipB := new Occ.FlipFlop(n);
      PickFlips();
    }

    /**
     * `OnSetupVoxelSystem`: a no-op once set up; otherwise allocate both buffers
     * blank, pick distinct read and write buffers, allocate the queue, take the
     * grid for the job and mark the system valid.
     */
    method OnSetupVoxelSystem(j: Job, ghost ds: seq<Coord>)
      requires Valid() && ReadResult() && ValidGrid(j, ds)
      modifies this
      ensures Valid() && ReadResult() && voxelSystemIsValid
      ensures old(voxelSystemIsValid) ==> unchanged(this)
      ensures !old(voxelSystemIsValid) ==>
        !jobIsActive && readable == None && readFlip != writeFlip && fresh(flipA) && fresh(flipB) &&
        fresh(flipA.dis) && fresh(flipA.directI) && fresh(flipB.dis) && fresh(flipB.directI) &&
        job.world == j.world && job.types == j.types && job.dirs == j.dirs && job.costs == j.costs &&
        job.solidTypeStart == j.solidTypeStart &&
        Blank(readFlip.dis[..], readFlip.directI[..]) && Blank(writeFlip.dis[..], writeFlip.directI[..])
    {
      if voxelSystemIsValid {
        return;
      }
      AllocateFlips(j.world.CountXYZ());
      TakeGrid(j, ds);
    }

    /** The rest of `OnSetupVoxelSystem`: allocate the queue, take the grid for the job, mark the system valid. */
    method TakeGrid(j: Job, ghost ds: seq<Coord>)
      modifies this`queue, this`job, this`deltas, this`readable, this`voxelSystemIsValid
      ensures fresh(queue) && queue.Length == SearchQueueSize && deltas == ds
      ensures job == old(job).(world := j.world, types := j.types, dirs := j.dirs, costs := j.costs,
                               solidTypeStart := j.solidTypeStart)
      ensures readable == None && voxelSystemIsValid
    {
      queue := new int[SearchQueueSize];
      job := job.(world := j.world, types := j.types, dirs := j.dirs, costs := j.costs, solidTypeStart := j.solidTypeStart);
      deltas := ds;
      readable := None;
      voxelSystemIsValid := true;
    }

    /**
     * `OnGlobalReadAccessStart`: a no-op while a job runs or the system is
     * invalid, and when the provider finds no listener voxel (`closestAir` is
     * `None`); otherwise point the job at the write buffer with that listener
     * voxel and the hearing radius cast to `ushort`, and start it.
     */
    method OnGlobalReadAccessStart(closestAir: Option<int>, voxComputeDistanceVox: int, indirectExtraDistanceVox: u16)
      requires Valid() && ReadResult()
      requires voxelSystemIsValid && closestAir.Some? ==> 0 <= closestAir.value < job.world.CountXYZ()
      requires voxelSystemIsValid ==> Budget(job.costs, Wrap16(voxComputeDistanceVox), indirectExtraDistanceVox)
      modifies this`jobFlip, this`job, this`jobIsActive
      ensures Valid() && ReadResult()
      ensures old(jobIsActive) || !voxelSystemIsValid || closestAir.None? ==> unchanged(this)
      ensures !old(jobIsActive) && voxelSystemIsValid && closestAir.Some? ==>
        jobIsActive && jobFlip == writeFlip &&
        job == old(job).(camVoxI := closestAir.value, maxHearRadiusVox := Wrap16(voxComputeDistanceVox),
                         indirectExtraDistance := indirectExtraDistanceVox)
    {
      if jobIsActive == true || voxelSystemIsValid == false {
        return;
      }
      if closestAir.None? {
        return;
      }
      jobFlip := writeFlip;
      job := job.(camVoxI := closestAir.value, maxHearRadiusVox := Wrap16(voxComputeDistanceVox),
                  indirectExtraDistance := indirectExtraDistanceVox);
      jobIsActive := true;
    }

    /**
     * `OnGlobalReadAccessStop`: a no-op unless a job runs; otherwise make the
     * buffer it writes the read buffer and the other one the write buffer, wait
     * for the job, and clear the job flag. The read buffer then holds the run's
     * finished fill.
     */
    method OnGlobalReadAccessStop()
      requires Coherent() && ReadResult()
      modifies Repr()
      ensures Valid() && ReadResult() && flipA == old(flipA) && flipB == old(flipB) && queue == old(queue)
      ensures job == old(job) && voxelSystemIsValid == old(voxelSystemIsValid) && !jobIsActive
      ensures !old(jobIsActive) ==> unchanged(this)
      ensures old(jobIsActive) ==>
        readFlip == old(writeFlip) && writeFlip == old(readFlip) && flipped == !old(flipped) &&
        readable.Some? && readable.value.job == old(job) && unchanged(writeFlip.dis, writeFlip.directI)
    {
      if jobIsActive == false {
        return;
      }
      CompleteJob();
    }

    /** The active branch of `OnGlobalReadAccessStop`. */
    method CompleteJob()
      requires Coherent() && jobIsActive
      modifies Repr()
      ensures Valid() && ReadResult() && flipA == old(flipA) && flipB == old(flipB) && queue == old(queue)
      ensures job == old(job) && voxelSystemIsValid == old(voxelSystemIsValid) && !jobIsActive
      ensures readFlip == old(writeFlip) && writeFlip == old(readFlip) && flipped == !old(flipped) &&
        readable.Some? && readable.value.job == old(job)
      ensures unchanged(writeFlip.dis, writeFlip.directI)
    {
      SwapFlips();
      RunJob();
      Publish();
    }

    /**
     * After a job the buffer just written becomes the readable one and the
     * other buffer the next to write (lines 226-227).
     */
    method SwapFlips()
      modifies this`flipped, this`readFlip, this`writeFlip
      ensures readFlip == old(writeFlip) && flipped == !old(flipped)
      ensures writeFlip == (if flipped then flipB else flipA)
    {
      readFlip := writeFlip;
      writeFlip := GetNextFlip();
    }

    /** `o_handle.Complete()`: run the job into `jobFlip`. */
    method RunJob()
      requires jobIsActive && WellFormed(job) && Budget(job.costs, job.maxHearRadiusVox, job.indirectExtraDistance)
      requires jobFlip != null && Buffers()
      requires jobFlip == flipA || jobFlip == flipB
      modifies jobFlip.dis, jobFlip.directI, queue, this`written
      ensures written.job == job && jobFlip.dis[..] == written.dis && jobFlip.directI[..] == written.directI
      ensures Finished(written)
    {
      var overflowed: bool;
      ghost var inner: seq<bool>, air: seq<u16>;
      overflowed, inner, air := Execute(job, deltas, jobFlip.dis, jobFlip.directI, queue);
      written := Trace(job, inner, air, overflowed, jobFlip.dis[..], jobFlip.directI[..]);
      MakeFinished(written);
    }

    /** Marks the job as finished (line 230): the written fill becomes the readable one. */
    method Publish()
      modifies this`jobIsActive, this`readable
      ensures !jobIsActive && readable == Some(written)
    {
      jobIsActive := false;
      readable := Some(written);
    }

    /**
     * `OnClearVoxelSystem`: a no-op when not set up; otherwise mark the system
     * invalid, wait for a running job, and drop both buffers.
     */
    method OnClearVoxelSystem()
      requires Valid() && ReadResult()
      modifies Repr()
      ensures Valid() && ReadResult()
      ensures old(voxelSystemIsValid) ==> !voxelSystemIsValid && !jobIsActive && flipA == null && flipB == null
      ensures !old(voxelSystemIsValid) ==> unchanged(this)
    {
      if voxelSystemIsValid == false {
        return;
      }
      voxelSystemIsValid := false;
      OnGlobalReadAccessStop();
      flipA := null;
      flipB := null;
    }
  }
}

/**
 * AudioOcclusion.cs: the write-once breadth-first flood fill that gives every
 * voxel around the listener a path distance and a "direct voxel" (the corner
 * the sound bent round), the double buffer the job writes into, the scheduler
 * that starts and completes the job around the voxel system's read access, and
 * the rescue lookup of a sound that sits just inside a wall.
 */
module AudioOcclusion {
  import opened VoxelGrid
  import opened SearchQueue
  import opened Wrappers

  /** The job's "already written" test `voxsDis[next] < 65000` (line 360). */
  const WriteLimit: int := 65000

  predicate Reached(d: u16) {
    (d as int) < WriteLimit
  }

  /** Number of voxels still at the sentinel distance: the outer loop's termination measure. */
  function UnreachedCount(D: seq<u16>): (c: nat)
    ensures c <= |D|
  {
    if D == [] then 0 else UnreachedCount(D[..|D| - 1]) + (if Reached(D[|D| - 1]) then 0 else 1)
  }

  /** Writing one entry changes the count by what that entry changed. */
  lemma {:induction false} UnreachedCountUpdate(D: seq<u16>, x: int, d: u16)
    requires 0 <= x < |D|
    ensures UnreachedCount(D[x := d]) as int ==
              UnreachedCount(D) as int - (if Reached(D[x]) then 0 else 1) + (if Reached(d) then 0 else 1)
  {
    var n := |D|;
    if x == n - 1 {
      assert D[x := d][..n - 1] == D[..n - 1];
    } else {
      assert D[x := d][..n - 1] == D[..n - 1][x := d];
      UnreachedCountUpdate(D[..n - 1], x, d);
    }
  }

  /** Write-once from `D0`/`I0` to `D1`/`I1`: a voxel already reached keeps its distance and its direct voxel. */
  ghost predicate KeepsReached(D0: seq<u16>, I0: seq<int>, D1: seq<u16>, I1: seq<int>) {
    |D1| == |D0| && |I1| == |I0| &&
    forall i :: 0 <= i < |D0| && i < |I0| && Reached(D0[i]) ==> D1[i] == D0[i] && I1[i] == I0[i]
  }

  lemma KeepsReachedWrite(D: seq<u16>, I: seq<int>, x: int, d: u16, ix: int)
    requires 0 <= x < |D| == |I| && !Reached(D[x])
    ensures KeepsReached(D, I, D[x := d], I[x := ix])
  {
  }

  lemma KeepsReachedTrans(D0: seq<u16>, I0: seq<int>, D1: seq<u16>, I1: seq<int>, D2: seq<u16>, I2: seq<int>)
    requires KeepsReached(D0, I0, D1, I1) && KeepsReached(D1, I1, D2, I2)
    ensures KeepsReached(D0, I0, D2, I2)
  {
    forall i | 0 <= i < |D0| && i < |I0| && Reached(D0[i])
      ensures D2[i] == D0[i] && I2[i] == I0[i]
    {
      assert D1[i] == D0[i];
    }
  }

  /**
   * Voxel `v` (distance `dv`, direct voxel `iv`) was written while spreading from
   * `p` in direction `k`: `p` is an interior voxel (`innerP`) that was dequeued,
   * and `v` holds `p`'s spreading distance plus the step cost and `p`'s outgoing
   * direct voxel, both computed from `p`'s air distance `airP`, distance `dp` and
   * direct voxel `ip`.
   */
  predicate Supports(j: Job, p: int, k: int, v: int, innerP: bool, airP: u16, dp: u16, ip: int, dv: u16, iv: int)
    requires WellFormed(j)
  {
    0 <= p < j.world.CountXYZ() && 0 <= k < DirCount &&
    innerP && Reached(dp) && Enqueueable(j, p, dp) &&
    v == p + j.dirs[k] &&
    dv as int == ActiveDis(j, airP, dp, ip) as int + j.costs[k] as int &&
    iv == DirectOut(airP, dp, ip, p)
  }

  /**
   * `q` is an indirection point: a dequeued interior voxel (`innerQ`) at distance
   * `dq` without a direct voxel (`iq`) whose air distance `airQ` is shorter than its path.
   */
  predicate DirectPoint(j: Job, q: int, innerQ: bool, airQ: u16, dq: u16, iq: int)
    requires WellFormed(j)
  {
    0 <= q < j.world.CountXYZ() && innerQ && Reached(dq) && Enqueueable(j, q, dq) &&
    iq == NoDirect && IsIndirection(airQ, dq, iq)
  }

  /** The listener voxel is seeded, and an unreached voxel keeps both sentinels. */
  ghost predicate InvBase(j: Job, D: seq<u16>, I: seq<int>)
    requires WellFormed(j)
  {
    |D| == |I| == j.world.CountXYZ() &&
    D[j.camVoxI] == 0 && I[j.camVoxI] == NoDirect &&
    (forall v {:trigger D[v]} :: 0 <= v < |D| && !Reached(D[v]) ==> D[v] == Unreached && I[v] == NoDirect) &&
    (forall v {:trigger I[v]} :: 0 <= v < |D| ==> NoDirect <= I[v] < |D|)
  }

  /** Every direct index names an indirection point. */
  ghost predicate InvDirect(j: Job, inner: seq<bool>, air: seq<u16>, D: seq<u16>, I: seq<int>)
    requires WellFormed(j) && InvBase(j, D, I) && |inner| == |air| == |D|
  {
    forall v {:trigger D[I[v]]} :: 0 <= v < |D| && I[v] >= 0 ==>
      DirectPoint(j, I[v], inner[I[v]], air[I[v]], D[I[v]], I[I[v]])
  }

  /** Every reached voxel other than the listener was written from its recorded parent. */
  ghost predicate InvSupport(j: Job, inner: seq<bool>, air: seq<u16>, D: seq<u16>, I: seq<int>,
                             parent: seq<int>, via: seq<int>)
    requires WellFormed(j) && InvBase(j, D, I) && |inner| == |air| == |D|
  {
    |parent| == |via| == |D| &&
    forall v {:trigger parent[v]} :: 0 <= v < |D| && v != j.camVoxI && Reached(D[v]) ==>
      0 <= parent[v] < |D| &&
      Supports(j, parent[v], via[v], v, inner[parent[v]], air[parent[v]], D[parent[v]], I[parent[v]], D[v], I[v])
  }

  /** What holds of the distance and direct-index buffers between two steps of the fill. */
  ghost predicate Inv(j: Job, inner: seq<bool>, air: seq<u16>, D: seq<u16>, I: seq<int>, parent: seq<int>, via: seq<int>)
    requires WellFormed(j)
  {
    InvBase(j, D, I) && |inner| == |air| == |D| &&
    InvDirect(j, inner, air, D, I) && InvSupport(j, inner, air, D, I, parent, via)
  }

  /** Every queued index is a reached voxel that the fill may spread from. */
  ghost predicate PendingOk(j: Job, D: seq<u16>, pending: seq<int>)
    requires WellFormed(j) && |D| == j.world.CountXYZ()
  {
    forall i :: 0 <= i < |pending| ==>
      0 <= pending[i] < |D| && Reached(D[pending[i]]) && Enqueueable(j, pending[i], D[pending[i]])
  }

  /** All 26 neighbours of an interior voxel (`innerV`) have been reached. */
  ghost predicate Closed(j: Job, D: seq<u16>, v: int, innerV: bool)
    requires WellFormed(j) && |D| == j.world.CountXYZ()
  {
    innerV ==>
      forall k :: 0 <= k < DirCount ==> 0 <= v + j.dirs[k] < |D| && Reached(D[v + j.dirs[k]])
  }

  /** The first `n` neighbours of `v` are inside the grid and reached. */
  ghost predicate FirstReached(j: Job, D: seq<u16>, v: int, n: int)
    requires WellFormed(j) && |D| == j.world.CountXYZ() && 0 <= n <= DirCount
  {
    forall k :: 0 <= k < n ==> 0 <= v + j.dirs[k] < |D| && Reached(D[v + j.dirs[k]])
  }

  /** Write-once keeps reached neighbours reached, so reaching neighbour `n` extends the prefix. */
  lemma FirstReachedKeeps(j: Job, D0: seq<u16>, I0: seq<int>, D1: seq<u16>, I1: seq<int>, v: int, n: int)
    requires WellFormed(j) && |D0| == |I0| == j.world.CountXYZ() && 0 <= n < DirCount
    requires KeepsReached(D0, I0, D1, I1) && FirstReached(j, D0, v, n)
    requires 0 <= v + j.dirs[n] < |D1| && Reached(D1[v + j.dirs[n]])
    ensures FirstReached(j, D1, v, n + 1)
  {
    forall k | 0 <= k < n + 1
      ensures 0 <= v + j.dirs[k] < |D1| && Reached(D1[v + j.dirs[k]])
    {
      if k < n {
        assert Reached(D0[v + j.dirs[k]]);
      }
    }
  }

  /** Every reached voxel the fill may spread from is still queued, or closed, or is `except`. */
  ghost predicate ClosedOutside(j: Job, inner: seq<bool>, D: seq<u16>, pending: seq<int>, except: int)
    requires WellFormed(j) && |D| == j.world.CountXYZ() && |inner| == |D|
  {
    forall v {:trigger Closed(j, D, v, inner[v])} ::
      0 <= v < |D| && v != except && Reached(D[v]) && Enqueueable(j, v, D[v]) && v !in pending ==>
      Closed(j, D, v, inner[v])
  }

  /** The spreading distance of an enqueued voxel leaves room for every step cost without wrapping. */
  lemma SpreadFits(j: Job, deltas: seq<Coord>, air: u16, dis: u16, directI: int, u: int, k: int)
    requires ValidJob(j, deltas) && 0 <= u < j.world.CountXYZ() && 0 <= k < DirCount
    requires Enqueueable(j, u, dis) && (u == j.camVoxI ==> dis == 0)
    ensures ActiveDis(j, air, dis, directI) as int + j.costs[k] as int < WriteLimit
    ensures ActiveDis(j, air, dis, directI) as int <= j.maxHearRadiusVox as int + j.indirectExtraDistance as int
  {
    assert j.maxHearRadiusVox as int + j.indirectExtraDistance as int + j.costs[k] as int < 65000;
  }

  /** The direct voxel a dequeued voxel hands on is none or an indirection point. */
  lemma DirectOutIsPoint(j: Job, inner: seq<bool>, air: seq<u16>, D: seq<u16>, I: seq<int>, u: int)
    requires WellFormed(j) && InvBase(j, D, I) && |inner| == |air| == |D| && InvDirect(j, inner, air, D, I)
    requires 0 <= u < |D| && inner[u] && Reached(D[u]) && Enqueueable(j, u, D[u])
    ensures var dv := DirectOut(air[u], D[u], I[u], u);
            NoDirect <= dv < |D| && (dv >= 0 ==> DirectPoint(j, dv, inner[dv], air[dv], D[dv], I[dv]))
  {
    if !IsIndirection(air[u], D[u], I[u]) && I[u] >= 0 {
      assert DirectPoint(j, I[u], inner[I[u]], air[I[u]], D[I[u]], I[I[u]]);
    }
  }

  /** Writing an unreached voxel `x` keeps the direct-index invariant when its new direct index is none or an indirection point. */
  lemma {:induction false} WriteKeepsDirect(j: Job, inner: seq<bool>, air: seq<u16>, D: seq<u16>, I: seq<int>,
                                           x: int, d: u16, dv: int)
    requires WellFormed(j) && InvBase(j, D, I) && |inner| == |air| == |D| && InvDirect(j, inner, air, D, I)
    requires 0 <= x < |D| && !Reached(D[x]) && x != j.camVoxI && Reached(d)
    requires NoDirect <= dv < |D| && (dv >= 0 ==> DirectPoint(j, dv, inner[dv], air[dv], D[dv], I[dv]))
    ensures InvBase(j, D[x := d], I[x := dv]) && InvDirect(j, inner, air, D[x := d], I[x := dv])
  {
    var D', I' := D[x := d], I[x := dv];
    if dv >= 0 {
      assert D'[dv] == D[dv] && I'[dv] == I[dv];
    }
    forall v | 0 <= v < |D'| && I'[v] >= 0
      ensures DirectPoint(j, I'[v], inner[I'[v]], air[I'[v]], D'[I'[v]], I'[I'[v]])
    {
      if v != x {
        var q := I[v];
        assert DirectPoint(j, q, inner[q], air[q], D[q], I[q]);
        assert D'[q] == D[q] && I'[q] == I[q];
      }
    }
  }

  /**
   * One write of the spread loop (lines 360-363) keeps the parent invariant: an
   * unreached neighbour `x` of the dequeued voxel `u` receives `u`'s spreading
   * distance plus the step cost and `u`'s outgoing direct voxel.
   */
  lemma {:induction false} WriteKeepsSupport(j: Job, inner: seq<bool>, air: seq<u16>, D: seq<u16>, I: seq<int>,
                                            parent: seq<int>, via: seq<int>, u: int, k: int)
    requires WellFormed(j) && InvBase(j, D, I) && |inner| == |air| == |D| && InvSupport(j, inner, air, D, I, parent, via)
    requires 0 <= u < |D| && inner[u] && Reached(D[u]) && Enqueueable(j, u, D[u])
    requires 0 <= k < DirCount
    requires 0 <= u + j.dirs[k] < |D| && u + j.dirs[k] != u && !Reached(D[u + j.dirs[k]])
    requires ActiveDis(j, air[u], D[u], I[u]) as int + j.costs[k] as int < WriteLimit
    requires var x := u + j.dirs[k];
             var d := Wrap16(ActiveDis(j, air[u], D[u], I[u]) as int + j.costs[k] as int);
             InvBase(j, D[x := d], I[x := DirectOut(air[u], D[u], I[u], u)])
    ensures var x := u + j.dirs[k];
            var d := Wrap16(ActiveDis(j, air[u], D[u], I[u]) as int + j.costs[k] as int);
            InvSupport(j, inner, air, D[x := d], I[x := DirectOut(air[u], D[u], I[u], u)], parent[x := u], via[x := k])
  {
    var x := u + j.dirs[k];
    var d := Wrap16(ActiveDis(j, air[u], D[u], I[u]) as int + j.costs[k] as int);
    var dv := DirectOut(air[u], D[u], I[u], u);
    var D', I', parent', via' := D[x := d], I[x := dv], parent[x := u], via[x := k];
    assert D'[u] == D[u] && I'[u] == I[u];
    assert Supports(j, u, k, x, inner[u], air[u], D'[u], I'[u], D'[x], I'[x]);
    forall v | 0 <= v < |D'| && v != j.camVoxI && v != x && Reached(D'[v])
      ensures 0 <= parent'[v] < |D'| &&
              Supports(j, parent'[v], via'[v], v, inner[parent'[v]], air[parent'[v]], D'[parent'[v]], I'[parent'[v]], D'[v], I'[v])
    {
      var p := parent[v];
      assert Supports(j, p, via[v], v, inner[p], air[p], D[p], I[p], D[v], I[v]);
      assert p != x;
      assert D'[p] == D[p] && I'[p] == I[p] && D'[v] == D[v] && I'[v] == I[v];
    }
  }

  /** One write of the spread loop keeps the whole invariant. */
  lemma WriteKeepsInv(j: Job, inner: seq<bool>, air: seq<u16>, D: seq<u16>, I: seq<int>,
                      parent: seq<int>, via: seq<int>, u: int, k: int)
    requires WellFormed(j) && Inv(j, inner, air, D, I, parent, via)
    requires 0 <= u < |D| && inner[u] && Reached(D[u]) && Enqueueable(j, u, D[u])
    requires 0 <= k < DirCount
    requires 0 <= u + j.dirs[k] < |D| && u + j.dirs[k] != u && !Reached(D[u + j.dirs[k]])
    requires ActiveDis(j, air[u], D[u], I[u]) as int + j.costs[k] as int < WriteLimit
    ensures var x := u + j.dirs[k];
            var d := Wrap16(ActiveDis(j, air[u], D[u], I[u]) as int + j.costs[k] as int);
            Reached(d) && x != j.camVoxI &&
            Inv(j, inner, air, D[x := d], I[x := DirectOut(air[u], D[u], I[u], u)], parent[x := u], via[x := k])
  {
    var x := u + j.dirs[k];
    var d := Wrap16(ActiveDis(j, air[u], D[u], I[u]) as int + j.costs[k] as int);
    DirectOutIsPoint(j, inner, air, D, I, u);
    WriteKeepsDirect(j, inner, air, D, I, x, d, DirectOut(air[u], D[u], I[u], u));
    WriteKeepsSupport(j, inner, air, D, I, parent, via, u, k);
  }

  /** Reaching one more voxel keeps every closed voxel closed. */
  lemma ReachKeepsClosed(j: Job, D: seq<u16>, x: int, d: u16, v: int, innerV: bool)
    requires WellFormed(j) && |D| == j.world.CountXYZ() && 0 <= x < |D|
    requires Reached(d) && Closed(j, D, v, innerV)
    ensures Closed(j, D[x := d], v, innerV)
  {
  }

  /** Writing an unreached voxel keeps the queue's entries valid, and a written voxel that may spread can join them. */
  lemma WriteKeepsPending(j: Job, D: seq<u16>, pending: seq<int>, x: int, d: u16)
    requires WellFormed(j) && |D| == j.world.CountXYZ() && PendingOk(j, D, pending)
    requires 0 <= x < |D| && !Reached(D[x]) && Reached(d)
    ensures PendingOk(j, D[x := d], pending)
    ensures Enqueueable(j, x, d) ==> PendingOk(j, D[x := d], pending + [x])
  {
    forall i | 0 <= i < |pending|
      ensures pending[i] != x
    {
    }
  }

  /**
   * Writing an unreached voxel `x` keeps every other voxel closed; `x` itself
   * needs no closing when it may not spread, and is covered once it is queued.
   */
  lemma WriteKeepsClosure(j: Job, inner: seq<bool>, D: seq<u16>, pending: seq<int>, u: int, x: int, d: u16)
    requires WellFormed(j) && |D| == j.world.CountXYZ() && |inner| == |D|
    requires ClosedOutside(j, inner, D, pending, u)
    requires 0 <= x < |D| && !Reached(D[x]) && Reached(d)
    ensures ClosedOutside(j, inner, D[x := d], pending + [x], u)
    ensures !Enqueueable(j, x, d) ==> ClosedOutside(j, inner, D[x := d], pending, u)
  {
    var D' := D[x := d];
    forall v | 0 <= v < |D'| && v != u && Reached(D'[v]) && Enqueueable(j, v, D'[v]) && v !in pending && v != x
      ensures Closed(j, D', v, inner[v])
    {
      assert D'[v] == D[v];
      assert Closed(j, D, v, inner[v]);
      ReachKeepsClosed(j, D, x, d, v, inner[v]);
    }
  }

  /** Lines 274-275: both buffers are filled with `0xFF` bytes (distance `0xFFFF`, direct index `-1`). */
  method ClearBuffers(dis: array<u16>, directI: array<int>)
    modifies dis, directI
    ensures forall i :: 0 <= i < dis.Length ==> dis[i] == Unreached
    ensures forall i :: 0 <= i < directI.Length ==> directI[i] == NoDirect
  {
    for i := 0 to dis.Length
      invariant forall k :: 0 <= k < i ==> dis[k] == Unreached
    {
      dis[i] := Unreached;
    }
    for i := 0 to directI.Length
      invariant forall k :: 0 <= k < i ==> directI[k] == NoDirect
      invariant forall k :: 0 <= k < dis.Length ==> dis[k] == Unreached
    {
      directI[i] := NoDirect;
    }
  }

  /**
   * Lines 359-363 on the buffer contents: writing the unreached neighbour
   * `x = u + dirs[k]` with `u`'s spreading distance plus the step cost and
   * `u`'s outgoing direct voxel keeps the invariant, the queue's and the
   * closure's facts, and reaches one more voxel.
   */
  lemma WriteKeepsAll(j: Job, deltas: seq<Coord>, inner: seq<bool>, air: seq<u16>, D: seq<u16>, I: seq<int>,
                      pending: seq<int>, parent: seq<int>, via: seq<int>, u: int, k: int, closing: bool)
    requires ValidJob(j, deltas) && Geometry(j, inner, air)
    requires |D| == |I| == j.world.CountXYZ()
    requires 0 <= u < |D| && Interior(j.world, u) && Reached(D[u]) && Enqueueable(j, u, D[u])
    requires 0 <= k < DirCount && 0 <= u + j.dirs[k] < |D| && u + j.dirs[k] != u && !Reached(D[u + j.dirs[k]])
    requires Inv(j, inner, air, D, I, parent, via) && PendingOk(j, D, pending)
    requires closing ==> ClosedOutside(j, inner, D, pending, u)
    ensures var x, a := u + j.dirs[k], ActiveDis(j, air[u], D[u], I[u]);
            var d := Wrap16(a as int + j.costs[k] as int);
            var D' := D[x := d];
            x != j.camVoxI && Reached(d) && d as int == a as int + j.costs[k] as int &&
            Inv(j, inner, air, D', I[x := DirectOut(air[u], D[u], I[u], u)], parent[x := u], via[x := k]) &&
            PendingOk(j, D', pending) &&
            (Enqueueable(j, x, d) ==> PendingOk(j, D', pending + [x])) &&
            (closing ==> ClosedOutside(j, inner, D', pending + [x], u)) &&
            (closing && !Enqueueable(j, x, d) ==> ClosedOutside(j, inner, D', pending, u)) &&
            UnreachedCount(D') as int == UnreachedCount(D) as int - 1
  {
    var x, a := u + j.dirs[k], ActiveDis(j, air[u], D[u], I[u]);
    var d := Wrap16(a as int + j.costs[k] as int);
    assert inner[u];
    SpreadFits(j, deltas, air[u], D[u], I[u], u, k);
    WriteKeepsInv(j, inner, air, D, I, parent, via, u, k);
    UnreachedCountUpdate(D, x, d);
    WriteKeepsPending(j, D, pending, x, d);
    if closing {
      WriteKeepsClosure(j, inner, D, pending, u, x, d);
    }
  }

  /**
   * Lines 359-363: the unreached neighbour `next = u + dirs[k]` of the dequeued
   * voxel `u` gets `u`'s spreading distance plus the step cost, and `u`'s
   * outgoing direct voxel.
   */
  method WriteNeighbour(j: Job, ghost deltas: seq<Coord>, ghost inner: seq<bool>, ghost air: seq<u16>,
                        dis: array<u16>, directI: array<int>, u: int, k: int, activeDis: u16, directVoxI: int,
                        ghost pending: seq<int>, ghost parent0: seq<int>, ghost via0: seq<int>, ghost closing: bool)
    returns (next: int, nextDis: u16, ghost parent: seq<int>, ghost via: seq<int>)
    requires ValidJob(j, deltas) && Geometry(j, inner, air)
    requires dis.Length == directI.Length == j.world.CountXYZ()
    requires 0 <= u < dis.Length && Interior(j.world, u) && Reached(dis[u]) && Enqueueable(j, u, dis[u])
    requires 0 <= k < DirCount && 0 <= u + j.dirs[k] < dis.Length && u + j.dirs[k] != u
    requires !Reached(dis[u + j.dirs[k]])
    requires activeDis == ActiveDis(j, air[u], dis[u], directI[u]) && directVoxI == DirectOut(air[u], dis[u], directI[u], u)
    requires Inv(j, inner, air, dis[..], directI[..], parent0, via0)
    requires PendingOk(j, dis[..], pending)
    requires closing ==> ClosedOutside(j, inner, dis[..], pending, u)
    modifies dis, directI
    ensures next == u + j.dirs[k] && next != j.camVoxI && Reached(nextDis)
    ensures nextDis as int == activeDis as int + j.costs[k] as int
    ensures dis[..] == old(dis[..])[next := nextDis] && directI[..] == old(directI[..])[next := directVoxI]
    ensures Inv(j, inner, air, dis[..], directI[..], parent, via)
    ensures PendingOk(j, dis[..], pending)
    ensures Enqueueable(j, next, nextDis) ==> PendingOk(j, dis[..], pending + [next])
    ensures closing ==> ClosedOutside(j, inner, dis[..], pending + [next], u)
    ensures closing && !Enqueueable(j, next, nextDis) ==> ClosedOutside(j, inner, dis[..], pending, u)
    ensures UnreachedCount(dis[..]) as int == old(UnreachedCount(dis[..])) as int - 1
  {
    next := u + j.dirs[k];
    ghost var D, I := dis[..], directI[..];
    WriteKeepsAll(j, deltas, inner, air, D, I, pending, parent0, via0, u, k, closing);
    nextDis := Wrap16(activeDis as int + j.costs[k] as int);
    directI[next] := directVoxI;
    dis[next] := nextDis;
    parent, via := parent0[next := u], via0[next := k];
    assert dis[..] == D[next := nextDis] && directI[..] == I[next := directVoxI];
  }

  /**
   * One pass of the lines 357-389 loop: neighbour `k` of the dequeued interior
   * voxel `u` is written when unreached (lines 359-363), and enqueued when within
   * hearing range and not solid (lines 364-388), unless the buffer is full (`full`).
   */
  method Visit(j: Job, ghost deltas: seq<Coord>, ghost inner: seq<bool>, ghost air: seq<u16>,
               dis: array<u16>, directI: array<int>, queue: array<int>,
               u: int, k: int, activeDis: u16, directVoxI: int, head: int, tail0: int, count0: int,
               ghost pending0: seq<int>, ghost parent0: seq<int>, ghost via0: seq<int>, ghost closing: bool)
    returns (tail: int, count: int, full: bool, ghost pending: seq<int>, ghost parent: seq<int>, ghost via: seq<int>)
    requires ValidJob(j, deltas) && Geometry(j, inner, air)
    requires dis.Length == directI.Length == j.world.CountXYZ() && queue.Length == SearchQueueSize
    requires queue != directI
    requires 0 <= u < dis.Length && Interior(j.world, u) && Reached(dis[u]) && Enqueueable(j, u, dis[u])
    requires 0 <= k < DirCount
    requires activeDis == ActiveDis(j, air[u], dis[u], directI[u]) && directVoxI == DirectOut(air[u], dis[u], directI[u], u)
    requires Inv(j, inner, air, dis[..], directI[..], parent0, via0)
    requires Ring(queue[..], head, tail0, count0, pending0) && PendingOk(j, dis[..], pending0)
    requires closing ==> ClosedOutside(j, inner, dis[..], pending0, u)
    requires count0 <= dis.Length - UnreachedCount(dis[..])
    modifies dis, directI, queue
    ensures dis[u] == old(dis[u]) && directI[u] == old(directI[u])
    ensures KeepsReached(old(dis[..]), old(directI[..]), dis[..], directI[..])
    ensures Inv(j, inner, air, dis[..], directI[..], parent, via)
    ensures Ring(queue[..], head, tail, count, pending) && PendingOk(j, dis[..], pending)
    ensures closing && !full ==>
      ClosedOutside(j, inner, dis[..], pending, u) && 0 <= u + j.dirs[k] < dis.Length && Reached(dis[u + j.dirs[k]])
    ensures full ==> SearchQueueSize < dis.Length
    ensures UnreachedCount(dis[..]) <= old(UnreachedCount(dis[..]))
    ensures count <= count0 + old(UnreachedCount(dis[..])) - UnreachedCount(dis[..])
    ensures count <= dis.Length - UnreachedCount(dis[..])
  {
    var next := u + j.dirs[k];
    NeighbourInRange(j.world, u, deltas[k]);
    if dis[next] < 65000 {
      tail, count, full, pending, parent, via := tail0, count0, false, pending0, parent0, via0;
      assert KeepsReached(dis[..], directI[..], dis[..], directI[..]);
      return;
    }
    tail, count, full, pending, parent, via :=
      VisitUnreached(j, deltas, inner, air, dis, directI, queue, u, k, activeDis, directVoxI, head, tail0, count0,
                     pending0, parent0, via0, closing);
  }

  /** The branch of `Visit` where neighbour `k` is still unreached. */
  method VisitUnreached(j: Job, ghost deltas: seq<Coord>, ghost inner: seq<bool>, ghost air: seq<u16>,
                        dis: array<u16>, directI: array<int>, queue: array<int>,
                        u: int, k: int, activeDis: u16, directVoxI: int, head: int, tail0: int, count0: int,
                        ghost pending0: seq<int>, ghost parent0: seq<int>, ghost via0: seq<int>, ghost closing: bool)
    returns (tail: int, count: int, full: bool, ghost pending: seq<int>, ghost parent: seq<int>, ghost via: seq<int>)
    requires ValidJob(j, deltas) && Geometry(j, inner, air)
    requires dis.Length == directI.Length == j.world.CountXYZ() && queue.Length == SearchQueueSize
    requires queue != directI
    requires 0 <= u < dis.Length && Interior(j.world, u) && Reached(dis[u]) && Enqueueable(j, u, dis[u])
    requires 0 <= k < DirCount && 0 <= u + j.dirs[k] < dis.Length && u + j.dirs[k] != u
    requires !Reached(dis[u + j.dirs[k]])
    requires activeDis == ActiveDis(j, air[u], dis[u], directI[u]) && directVoxI == DirectOut(air[u], dis[u], directI[u], u)
    requires Inv(j, inner, air, dis[..], directI[..], parent0, via0)
    requires Ring(queue[..], head, tail0, count0, pending0) && PendingOk(j, dis[..], pending0)
    requires closing ==> ClosedOutside(j, inner, dis[..], pending0, u)
    requires count0 <= dis.Length - UnreachedCount(dis[..])
    modifies dis, directI, queue
    ensures dis[u] == old(dis[u]) && directI[u] == old(directI[u])
    ensures KeepsReached(old(dis[..]), old(directI[..]), dis[..], directI[..])
    ensures Inv(j, inner, air, dis[..], directI[..], parent, via)
    ensures Ring(queue[..], head, tail, count, pending) && PendingOk(j, dis[..], pending)
    ensures closing && !full ==>
      ClosedOutside(j, inner, dis[..], pending, u) && 0 <= u + j.dirs[k] < dis.Length && Reached(dis[u + j.dirs[k]])
    ensures full ==> SearchQueueSize < dis.Length
    ensures UnreachedCount(dis[..]) <= old(UnreachedCount(dis[..]))
    ensures count <= count0 + old(UnreachedCount(dis[..])) - UnreachedCount(dis[..])
    ensures count <= dis.Length - UnreachedCount(dis[..])
  {
    ghost var D0, I0 := dis[..], directI[..];
    var next, nextDis;
    next, nextDis, parent, via :=
      WriteNeighbour(j, deltas, inner, air, dis, directI, u, k, activeDis, directVoxI, pending0, parent0, via0, closing);
    KeepsReachedWrite(D0, I0, next, nextDis, directVoxI);
    ghost var D1, I1 := dis[..], directI[..];
    tail, count, full, pending := Admit(j, queue, head, tail0, count0, pending0, next, nextDis);
    assert dis[..] == D1 && directI[..] == I1;
  }

  /**
   * Lines 364-388: a written neighbour is enqueued unless it is beyond the hearing
   * radius or solid, or the buffer is full (`full`).
   */
  method Admit(j: Job, queue: array<int>, head: int, tail0: int, count0: int, ghost pending0: seq<int>,
               next: int, nextDis: u16)
    returns (tail: int, count: int, full: bool, ghost pending: seq<int>)
    requires WellFormed(j) && 0 <= next < |j.types| && next != j.camVoxI
    requires Ring(queue[..], head, tail0, count0, pending0)
    modifies queue
    ensures Ring(queue[..], head, tail, count, pending)
    ensures !full ==> pending == if Enqueueable(j, next, nextDis) then pending0 + [next] else pending0
    ensures full ==> count0 == SearchQueueSize && pending == pending0 && count == count0
  {
    tail, count, full, pending := tail0, count0, false, pending0;
    if nextDis > j.maxHearRadiusVox {
      return;
    }
    var nextVoxType := j.types[next];
    // The passthrough branch of line 372 tests `nextVoxType == 0` inside `nextVoxType > 0`; it never runs.
    if nextVoxType > 0 && nextVoxType > j.solidTypeStart {
      return;
    }
    if count == SearchQueueSize {
      full := true;
      return;
    }
    tail, count := Enqueue(queue, head, tail, count, pending, next);
    pending := pending + [next];
  }

  /**
   * The lines 357-389 loop for one dequeued interior voxel `u`: every unreached
   * neighbour is written, and those within hearing range that are not solid are
   * enqueued, until the buffer is found full (`full`, the editor-build guard of
   * lines 377-383, which leaves the rest of the neighbours unvisited).
   */
  method Spread(j: Job, ghost deltas: seq<Coord>, ghost inner: seq<bool>, ghost air: seq<u16>,
                dis: array<u16>, directI: array<int>, queue: array<int>,
                u: int, activeDis: u16, directVoxI: int, head: int, tail0: int, count0: int,
                ghost pending0: seq<int>, ghost parent0: seq<int>, ghost via0: seq<int>, ghost closing: bool)
    returns (tail: int, count: int, full: bool, ghost pending: seq<int>, ghost parent: seq<int>, ghost via: seq<int>)
    requires ValidJob(j, deltas) && Geometry(j, inner, air)
    requires dis.Length == directI.Length == j.world.CountXYZ() && queue.Length == SearchQueueSize
    requires queue != directI
    requires 0 <= u < dis.Length && Interior(j.world, u) && Reached(dis[u]) && Enqueueable(j, u, dis[u])
    requires activeDis == ActiveDis(j, air[u], dis[u], directI[u]) && directVoxI == DirectOut(air[u], dis[u], directI[u], u)
    requires Inv(j, inner, air, dis[..], directI[..], parent0, via0)
    requires Ring(queue[..], head, tail0, count0, pending0) && PendingOk(j, dis[..], pending0)
    requires closing ==> ClosedOutside(j, inner, dis[..], pending0, u)
    requires count0 <= dis.Length - UnreachedCount(dis[..])
    modifies dis, directI, queue
    ensures Inv(j, inner, air, dis[..], directI[..], parent, via)
    ensures Ring(queue[..], head, tail, count, pending) && PendingOk(j, dis[..], pending)
    ensures closing && !full ==> ClosedOutside(j, inner, dis[..], pending, u) && Closed(j, dis[..], u, inner[u])
    ensures KeepsReached(old(dis[..]), old(directI[..]), dis[..], directI[..])
    ensures full ==> SearchQueueSize < dis.Length
    ensures UnreachedCount(dis[..]) <= old(UnreachedCount(dis[..]))
    ensures count <= count0 + old(UnreachedCount(dis[..])) - UnreachedCount(dis[..])
    ensures count <= dis.Length - UnreachedCount(dis[..])
  {
    tail, count, full, pending, parent, via := tail0, count0, false, pending0, parent0, via0;
    ghost var u0 := UnreachedCount(dis[..]);
    ghost var D0, I0 := dis[..], directI[..];
    var k := 0;
    while k < DirCount && !full
      invariant 0 <= k <= DirCount
      invariant Reached(dis[u]) && Enqueueable(j, u, dis[u])
      invariant activeDis == ActiveDis(j, air[u], dis[u], directI[u]) && directVoxI == DirectOut(air[u], dis[u], directI[u], u)
      invariant Inv(j, inner, air, dis[..], directI[..], parent, via)
      invariant Ring(queue[..], head, tail, count, pending) && PendingOk(j, dis[..], pending)
      invariant closing && !full ==> ClosedOutside(j, inner, dis[..], pending, u)
      invariant closing && !full ==> FirstReached(j, dis[..], u, k)
      invariant full ==> SearchQueueSize < dis.Length
      invariant KeepsReached(D0, I0, dis[..], directI[..])
      invariant UnreachedCount(dis[..]) <= u0
      invariant count <= count0 + u0 - UnreachedCount(dis[..])
      invariant count <= dis.Length - UnreachedCount(dis[..])
    {
      ghost var c1, u1 := count, UnreachedCount(dis[..]);
      ghost var D1, I1 := dis[..], directI[..];
      tail, count, full, pending, parent, via :=
        Visit(j, deltas, inner, air, dis, directI, queue, u, k, activeDis, directVoxI, head, tail, count,
              pending, parent, via, closing);
      KeepsReachedTrans(D0, I0, D1, I1, dis[..], directI[..]);
      if closing && !full {
        assert Reached(dis[..][u + j.dirs[k]]);
        FirstReachedKeeps(j, D1, I1, dis[..], directI[..], u, k);
      }
      k := k + 1;
    }
    assert inner[u];
  }

  /** Dequeuing the oldest entry excuses only that voxel from the closure. */
  lemma DequeueKeepsClosure(j: Job, inner: seq<bool>, D: seq<u16>, pending: seq<int>)
    requires WellFormed(j) && |D| == j.world.CountXYZ() && |inner| == |D| && |pending| > 0
    requires ClosedOutside(j, inner, D, pending, -1)
    ensures ClosedOutside(j, inner, D, pending[1..], pending[0])
  {
    forall v | 0 <= v < |D| && v != pending[0] && Reached(D[v]) && Enqueueable(j, v, D[v]) && v !in pending[1..]
      ensures Closed(j, D, v, inner[v])
    {
      assert pending == [pending[0]] + pending[1..];
      assert v !in pending;
    }
  }

  /** A dequeued voxel in the margin is closed without spreading (lines 313-321). */
  lemma SkipKeepsClosure(j: Job, inner: seq<bool>, D: seq<u16>, pending: seq<int>, u: int)
    requires WellFormed(j) && |D| == j.world.CountXYZ() && |inner| == |D| && 0 <= u < |D| && !inner[u]
    requires ClosedOutside(j, inner, D, pending, u)
    ensures ClosedOutside(j, inner, D, pending, -1)
  {
    assert Closed(j, D, u, inner[u]);
  }

  /** The state right after the listener voxel is seeded (lines 274-295). */
  lemma SeedKeepsInv(j: Job, D: seq<u16>, I: seq<int>, parent: seq<int>, via: seq<int>, inner: seq<bool>, air: seq<u16>)
    requires WellFormed(j) && |D| == |I| == |parent| == |via| == |inner| == |air| == j.world.CountXYZ()
    requires forall i :: 0 <= i < |D| ==> D[i] == Unreached && I[i] == NoDirect
    ensures Inv(j, inner, air, D[j.camVoxI := 0], I, parent, via)
    ensures UnreachedCount(D[j.camVoxI := 0]) < |D|
    ensures ClosedOutside(j, inner, D[j.camVoxI := 0], [j.camVoxI], -1)
    ensures PendingOk(j, D[j.camVoxI := 0], [j.camVoxI])
  {
    UnreachedCountUpdate(D, j.camVoxI, 0);
  }

  /**
   * The occlusion job (lines 272-395), in the editor build. Starting from the
   * listener voxel `camVoxI`, it writes every voxel reachable through non-solid
   * voxels within the hearing radius exactly once, breadth first. When the queue
   * never fills (`!overflowed`, guaranteed when the grid fits in it), the result is:
   * every reached voxel other than the listener was written from a dequeued
   * interior neighbour with that neighbour's distance (plus the indirection
   * penalty at an indirection point) plus the step cost, and that neighbour's
   * direct voxel; every direct voxel is an indirection point; and every reached
   * interior voxel the fill may spread from has all 26 neighbours reached.
   */
  method Execute(j: Job, ghost deltas: seq<Coord>, dis: array<u16>, directI: array<int>, queue: array<int>)
    returns (overflowed: bool, ghost inner: seq<bool>, ghost air: seq<u16>, ghost parent: seq<int>, ghost via: seq<int>)
    requires ValidJob(j, deltas)
    requires dis.Length == directI.Length == j.world.CountXYZ() && queue.Length == SearchQueueSize
    requires queue != directI
    modifies dis, directI, queue
    ensures Geometry(j, inner, air)
    ensures Inv(j, inner, air, dis[..], directI[..], parent, via)
    ensures !overflowed ==>
      forall v :: 0 <= v < dis.Length && Reached(dis[v]) && Enqueueable(j, v, dis[v]) ==> Closed(j, dis[..], v, inner[v])
    ensures dis.Length <= SearchQueueSize ==> !overflowed
  {
    var head, tail, count;
    ghost var pending;
    head, tail, count, pending, inner, air, parent, via := Seed(j, deltas, dis, directI, queue);
    overflowed := false;
    while count > 0
      invariant Inv(j, inner, air, dis[..], directI[..], parent, via)
      invariant Ring(queue[..], head, tail, count, pending) && PendingOk(j, dis[..], pending)
      invariant !overflowed ==> ClosedOutside(j, inner, dis[..], pending, -1)
      invariant overflowed ==> SearchQueueSize < dis.Length
      invariant count <= dis.Length - UnreachedCount(dis[..])
      decreases UnreachedCount(dis[..]), count
    {
      head, tail, count, overflowed, pending, parent, via :=
        Step(j, deltas, inner, air, dis, directI, queue, head, tail, count, pending, parent, via, overflowed);
    }
  }

  /**
   * Lines 274-295: clear both result buffers, set the listener voxel's distance
   * to 0 and enqueue it. The geometry tables and the (empty) parent and
   * direction witnesses start here.
   */
  method Seed(j: Job, ghost deltas: seq<Coord>, dis: array<u16>, directI: array<int>, queue: array<int>)
    returns (head: int, tail: int, count: int, ghost pending: seq<int>,
             ghost inner: seq<bool>, ghost air: seq<u16>, ghost parent: seq<int>, ghost via: seq<int>)
    requires ValidJob(j, deltas)
    requires dis.Length == directI.Length == j.world.CountXYZ() && queue.Length == SearchQueueSize
    requires queue != directI
    modifies dis, directI, queue
    ensures Geometry(j, inner, air)
    ensures Inv(j, inner, air, dis[..], directI[..], parent, via)
    ensures Ring(queue[..], head, tail, count, pending) && PendingOk(j, dis[..], pending)
    ensures ClosedOutside(j, inner, dis[..], pending, -1)
    ensures count <= dis.Length - UnreachedCount(dis[..])
    ensures head == 0 && count == 1 && pending == [j.camVoxI]
    ensures dis[j.camVoxI] == 0 && directI[j.camVoxI] == NoDirect
    ensures forall v :: 0 <= v < dis.Length && v != j.camVoxI ==> dis[v] == Unreached && directI[v] == NoDirect
  {
    ClearBuffers(dis, directI);
    inner, air := MakeGeometry(j);
    var n := dis.Length;
    parent, via := seq(n, _ => 0), seq(n, _ => 0);
    SeedKeepsInv(j, dis[..], directI[..], parent, via, inner, air);
    dis[j.camVoxI] := 0;
    head, tail, count := 0, 0, 0;
    EmptyRing(queue[..]);
    tail, count := Enqueue(queue, head, tail, count, [], j.camVoxI);
    pending := [j.camVoxI];
  }

  /**
   * One pass of the lines 298-390 loop: dequeue a voxel; skip it when it lies in
   * the grid's margin (lines 311-321); otherwise take its spreading distance and
   * outgoing direct voxel, turning it into an indirection point when its
   * distance exceeds its straight-line distance to the listener (lines 323-355),
   * and spread to its neighbours. Each pass reaches a voxel or shrinks the queue.
   */
  method Step(j: Job, ghost deltas: seq<Coord>, ghost inner: seq<bool>, ghost air: seq<u16>,
              dis: array<u16>, directI: array<int>, queue: array<int>, head0: int, tail0: int, count0: int,
              ghost pending0: seq<int>, ghost parent0: seq<int>, ghost via0: seq<int>, overflowed0: bool)
    returns (head: int, tail: int, count: int, overflowed: bool,
             ghost pending: seq<int>, ghost parent: seq<int>, ghost via: seq<int>)
    requires ValidJob(j, deltas) && Geometry(j, inner, air)
    requires dis.Length == directI.Length == j.world.CountXYZ() && queue.Length == SearchQueueSize
    requires queue != directI
    requires Inv(j, inner, air, dis[..], directI[..], parent0, via0)
    requires Ring(queue[..], head0, tail0, count0, pending0) && PendingOk(j, dis[..], pending0)
    requires !overflowed0 ==> ClosedOutside(j, inner, dis[..], pending0, -1)
    requires overflowed0 ==> SearchQueueSize < dis.Length
    requires 0 < count0 <= dis.Length - UnreachedCount(dis[..])
    modifies dis, directI, queue
    ensures Inv(j, inner, air, dis[..], directI[..], parent, via)
    ensures Ring(queue[..], head, tail, count, pending) && PendingOk(j, dis[..], pending)
    ensures !overflowed ==> ClosedOutside(j, inner, dis[..], pending, -1)
    ensures overflowed ==> SearchQueueSize < dis.Length
    ensures KeepsReached(old(dis[..]), old(directI[..]), dis[..], directI[..])
    ensures count <= dis.Length - UnreachedCount(dis[..])
    ensures UnreachedCount(dis[..]) < old(UnreachedCount(dis[..])) ||
            (UnreachedCount(dis[..]) == old(UnreachedCount(dis[..])) && count < count0)
  {
    var voxI;
    voxI, head, count := Dequeue(queue, head0, tail0, count0, pending0);
    pending, parent, via, overflowed := pending0[1..], parent0, via0, overflowed0;
    tail := tail0;
    var activeDis := dis[voxI];
    ghost var closing := !overflowed;
    if closing {
      DequeueKeepsClosure(j, inner, dis[..], pending0);
    }
    if !Interior(j.world, voxI) {
      if closing {
        SkipKeepsClosure(j, inner, dis[..], pending, voxI);
      }
      assert KeepsReached(dis[..], directI[..], dis[..], directI[..]);
      return;
    }
    var directVoxI;
    activeDis, directVoxI := Outgoing(j, voxI, activeDis, directI[voxI]);
    assert air[voxI] == AirDisTo(j, voxI);
    var full;
    tail, count, full, pending, parent, via :=
      Spread(j, deltas, inner, air, dis, directI, queue, voxI, activeDis, directVoxI, head, tail, count,
             pending, parent, via, !overflowed);
    overflowed := overflowed || full;
  }

  /**
   * The witness a finished fill leaves behind: the geometry tables, the parent
   * and direction each reached voxel was written from, and whether the queue filled.
   */
  datatype Fill = Fill(inner: seq<bool>, air: seq<u16>, parent: seq<int>, via: seq<int>, overflowed: bool)

  /** A job and the buffer contents and witness it left. */
  datatype Snapshot = Snapshot(job: Job, fill: Fill, dis: seq<u16>, directI: seq<int>)

  /** `D` and `I` hold the result of a completed run of job `j`, as `Execute` promises it. */
  ghost predicate Filled(j: Job, f: Fill, D: seq<u16>, I: seq<int>)
    requires WellFormed(j)
  {
    Geometry(j, f.inner, f.air) && Inv(j, f.inner, f.air, D, I, f.parent, f.via) &&
    (!f.overflowed ==>
      forall v :: 0 <= v < |D| && Reached(D[v]) && Enqueueable(j, v, D[v]) ==> Closed(j, D, v, f.inner[v]))
  }

  /** A trigger for `Finished`; it holds of every snapshot. */
  ghost predicate Token(s: Snapshot) {
    true
  }

  /**
   * `s` records a completed run of its job: `Filled`, behind a trigger that only
   * `MakeFinished` and `Completed` supply, so that the scheduler's reasoning about
   * flags and buffers does not unfold it.
   */
  ghost predicate Finished(s: Snapshot) {
    forall t {:trigger Token(t)} :: Token(t) && t == s ==> WellFormed(t.job) && Filled(t.job, t.fill, t.dis, t.directI)
  }

  lemma MakeFinished(s: Snapshot)
    requires WellFormed(s.job) && Filled(s.job, s.fill, s.dis, s.directI)
    ensures Finished(s)
  {
  }

  lemma Completed(s: Snapshot)
    requires Finished(s)
    ensures WellFormed(s.job) && Filled(s.job, s.fill, s.dis, s.directI)
  {
    assert Token(s);
  }

  /** `FlipFlop`: one of the two result buffers, allocated at the sentinels (lines 149-176). */
  class FlipFlop {
    const dis: array<u16>
    const directI: array<int>

    constructor (voxCountXYZ: nat)
      ensures dis.Length == voxCountXYZ && directI.Length == voxCountXYZ
      ensures fresh(dis) && fresh(directI)
      ensures forall i :: 0 <= i < voxCountXYZ ==> dis[i] == Unreached && directI[i] == NoDirect
    {
      dis := new u16[voxCountXYZ](_ => Unreached);
      directI := new int[voxCountXYZ](_ => NoDirect);
    }
  }

  /**
   * The static state of `AudioOcclusion` that decides which buffer the job writes
   * and which one readers see: the two buffers `flipA`/`flipB`, the `flipped` bit,
   * `readFlip`/`writeFlip`, the job flags, and the job's inputs `job` (whose result
   * arrays are those of `jobFlip`). The job system running the job is `RunOcclusionJob`.
   */
  class Scheduler {
    var voxelSystemIsValid: bool
    var hasComputedOcclusion: bool
    var jobIsActive: bool
    var copyJobIsActive: bool
    var isCompleted: bool
    var flipped: bool
    var flipA: FlipFlop?
    var flipB: FlipFlop?
    var readFlip: FlipFlop?
    var writeFlip: FlipFlop?
    var jobFlip: FlipFlop?
    var queue: array<int>
    var job: Job
    ghost var deltas: seq<Coord>
    ghost var written: Snapshot
    ghost var readable: Snapshot

    ghost function Repr(): set<object?>
      reads this
    {
      {this, queue} +
      (if flipA == null then {} else {flipA, flipA.dis, flipA.directI}) +
      (if flipB == null then {} else {flipB, flipB.dis, flipB.directI})
    }

    /** Two distinct buffers of the grid's size, one read and one written, as `flipped` says. */
    ghost predicate Buffers()
      reads this
    {
      flipA != null && flipB != null && flipA != flipB &&
      flipA.dis != flipB.dis && flipA.directI != flipB.directI &&
      flipA.directI != queue && flipB.directI != queue && queue.Length == SearchQueueSize &&
      ValidGrid(job, deltas) &&
      flipA.dis.Length == flipA.directI.Length == flipB.dis.Length == flipB.directI.Length == job.world.CountXYZ() &&
      writeFlip == (if flipped then flipB else flipA) &&
      readFlip == (if flipped then flipA else flipB)
    }

    /**
     * The buffers exist while the voxel system is valid; a running job has a valid
     * grid and listener and writes the write buffer; `hasComputedOcclusion` only
     * while the system is valid.
     */
    ghost predicate Valid()
      reads this
    {
      (voxelSystemIsValid ==> Buffers()) &&
      (jobIsActive ==>
        voxelSystemIsValid && WellFormed(job) && Budget(job.costs, job.maxHearRadiusVox, job.indirectExtraDistance) &&
        jobFlip == writeFlip) &&
      (hasComputedOcclusion ==> voxelSystemIsValid && readable.job.world == job.world && WellFormed(readable.job))
    }

    /** Once the running job has completed, the buffer it wrote holds its finished fill. */
    ghost predicate WriteResult()
      requires Valid()
      reads this, Repr()
    {
      jobIsActive && isCompleted ==>
        written.job == job && jobFlip.dis[..] == written.dis && jobFlip.directI[..] == written.directI &&
        Finished(written)
    }

    /** While `hasComputedOcclusion` holds, the read buffer holds the last completed job's finished fill. */
    ghost predicate ReadResult()
      requires Valid()
      reads this, Repr()
    {
      hasComputedOcclusion ==>
        readFlip.dis[..] == readable.dis && readFlip.directI[..] == readable.directI &&
        Finished(readable)
    }

    /** What the two buffers hold. */
    ghost predicate Results()
      requires Valid()
      reads this, Repr()
    {
      WriteResult() && ReadResult()
    }

    /** The static initialisers: nothing set up, no buffers. */
    constructor ()
      ensures Valid() && Results()
      ensures !voxelSystemIsValid && !hasComputedOcclusion && !jobIsActive && !copyJobIsActive && !flipped
      ensures flipA == null && flipB == null && readFlip == null && writeFlip == null
    {
      voxelSystemIsValid, hasComputedOcclusion, jobIsActive, copyJobIsActive, isCompleted, flipped :=
        false, false, false, false, false, false;
      flipA, flipB, readFlip, writeFlip, jobFlip := null, null, null, null, null;
      queue := new int[0];
      job := Job(VoxWorld(0, 0, 0), [], [], [], 0, 0, 0, 0);
      deltas := [];
      written := Snapshot(job, Fill([], [], [], [], false), [], []);
      readable := written;
    }

    /** `GetNextFlip`: toggle `flipped` and return the buffer it now names. */
    method GetNextFlip() returns (f: FlipFlop?)
      modifies this`flipped
      ensures flipped == !old(flipped)
      ensures f == (if flipped then flipB else flipA)
    {
      flipped := !flipped;
      f := if flipped == false then flipA else flipB;
    }

    /**
     * Allocates the two fill buffers for `n` voxels and picks the readable and
     * writable one (AudioOcclusion.cs lines 103-106).
     */
    method AllocateFlips(n: nat)
      modifies this`flipA, this`flipB, this`flipped, this`readFlip, this`writeFlip
      ensures fresh(flipA) && fresh(flipB) && fresh(flipA.dis) && fresh(flipA.directI) && fresh(flipB.dis) && fresh(flipB.directI)
      ensures flipA != flipB && flipA.dis != flipB.dis && flipA.directI != flipB.directI
      ensures flipA.dis.Length == flipA.directI.Length == flipB.dis.Length == flipB.directI.Length == n
      ensures flipped == old(flipped)
      ensures writeFlip == (if flipped then flipB else flipA) && readFlip == (if flipped then flipA else flipB)
      ensures forall i :: 0 <= i < n ==>
        readFlip.dis[i] == Unreached && readFlip.directI[i] == NoDirect &&
        writeFlip.dis[i] == Unreached && writeFlip.directI[i] == NoDirect
    {
      flipA := new FlipFlop(n);
      flipB := new FlipFlop(n);
      PickFlips();
    }

    /**
     * Picks the readable and the writable buffer with two flips (lines 105-106):
     * they are distinct, and `flipped` ends as it was.
     */
    method PickFlips()
      modifies this`flipped, this`readFlip, this`writeFlip
      ensures flipped == old(flipped)
      ensures writeFlip == (if flipped then flipB else flipA) && readFlip == (if flipped then flipA else flipB)
    {
      readFlip := GetNextFlip();
      writeFlip := GetNextFlip();
    }

    /**
     * `OnSetupVoxelSystem`: a no-op once set up; otherwise allocate both buffers at
     * the sentinels, pick distinct read and write buffers, take the grid for the job
     * and mark the system valid with nothing computed yet.
     */
    method OnSetupVoxelSystem(j: Job, ghost ds: seq<Coord>)
      requires Valid() && Results() && ValidGrid(j, ds)
      modifies this
      ensures Valid() && Results() && voxelSystemIsValid
      ensures old(voxelSystemIsValid) ==> unchanged(this)
      ensures !old(voxelSystemIsValid) ==>
        !hasComputedOcclusion && !jobIsActive &&
        readFlip != writeFlip && fresh(flipA) && fresh(flipB) &&
        fresh(flipA.dis) && fresh(flipA.directI) && fresh(flipB.dis) && fresh(flipB.directI) &&
        job.world == j.world && job.types == j.types && job.dirs == j.dirs && job.costs == j.costs &&
        job.solidTypeStart == j.solidTypeStart &&
        (forall i :: 0 <= i < j.world.CountXYZ() ==>
          readFlip.dis[i] == Unreached && readFlip.directI[i] == NoDirect &&
          writeFlip.dis[i] == Unreached && writeFlip.directI[i] == NoDirect)
    {
      if voxelSystemIsValid {
        return;
      }
      AllocateFlips(j.world.CountXYZ());
      TakeGrid(j, ds);
    }

    /** The rest of `OnSetupVoxelSystem`: allocate the queue, take the grid for the job, mark the system valid. */
    method TakeGrid(j: Job, ghost ds: seq<Coord>)
      modifies this`queue, this`job, this`deltas, this`hasComputedOcclusion, this`voxelSystemIsValid
      ensures fresh(queue) && queue.Length == SearchQueueSize && deltas == ds
      ensures job == old(job).(world := j.world, types := j.types, dirs := j.dirs, costs := j.costs,
                               solidTypeStart := j.solidTypeStart)
      ensures !hasComputedOcclusion && voxelSystemIsValid
    {
      queue := new int[SearchQueueSize];
      job := job.(world := j.world, types := j.types, dirs := j.dirs, costs := j.costs, solidTypeStart := j.solidTypeStart);
      deltas := ds;
      hasComputedOcclusion := false;
      voxelSystemIsValid := true;
    }

    /** Run the job into `jobFlip` and record that it completed. */
    method RunJob()
      requires jobIsActive && WellFormed(job) && Budget(job.costs, job.maxHearRadiusVox, job.indirectExtraDistance)
      requires jobFlip != null && Buffers()
      requires jobFlip == flipA || jobFlip == flipB
      modifies jobFlip.dis, jobFlip.directI, queue, this`isCompleted, this`written
      ensures isCompleted && written.job == job && jobFlip.dis[..] == written.dis && jobFlip.directI[..] == written.directI
      ensures Finished(written)
    {
      var overflowed: bool;
      ghost var inner: seq<bool>, air: seq<u16>, parent: seq<int>, via: seq<int>;
      overflowed, inner, air, parent, via := Execute(job, deltas, jobFlip.dis, jobFlip.directI, queue);
      written := Snapshot(job, Fill(inner, air, parent, via, overflowed), jobFlip.dis[..], jobFlip.directI[..]);
      MakeFinished(written);
      isCompleted := true;
    }

    /** `o_handle.Complete()`: run the job now unless it has already completed. */
    method WaitForJob()
      requires jobIsActive && WellFormed(job) && Budget(job.costs, job.maxHearRadiusVox, job.indirectExtraDistance)
      requires jobFlip != null && Buffers() && (jobFlip == flipA || jobFlip == flipB)
      requires isCompleted ==>
        written.job == job && jobFlip.dis[..] == written.dis && jobFlip.directI[..] == written.directI &&
        Finished(written)
      modifies jobFlip.dis, jobFlip.directI, queue, this`isCompleted, this`written
      ensures isCompleted && written.job == job && jobFlip.dis[..] == written.dis && jobFlip.directI[..] == written.directI
      ensures Finished(written)
    {
      if !isCompleted {
        RunJob();
      }
    }

    /** The job system running a scheduled job to its end (`isCompleted.Value = true`, line 394). */
    method RunOcclusionJob()
      requires Valid() && Results() && jobIsActive && !isCompleted
      modifies jobFlip.dis, jobFlip.directI, queue, this`isCompleted, this`written
      ensures Valid() && Results() && isCompleted
    {
      RunJob();
    }

    /**
     * `TryCompleteOcclusionJob`: true without change when no job is active; false
     * without change when not forced and the job has not completed; otherwise wait
     * for the job, make the buffer it wrote the read buffer and the other one the
     * write buffer, and mark the occlusion computed.
     */
    method TryCompleteOcclusionJob(force: bool) returns (done: bool)
      requires Valid() && Results()
      modifies Repr()
      ensures Valid() && Results() && flipA == old(flipA) && flipB == old(flipB) && queue == old(queue)
      ensures done == (!old(jobIsActive) || force || old(isCompleted))
      ensures job == old(job) && voxelSystemIsValid == old(voxelSystemIsValid) && copyJobIsActive == old(copyJobIsActive)
      ensures !old(jobIsActive) || !done ==> unchanged(this)
      ensures old(jobIsActive) && done ==>
        !jobIsActive && hasComputedOcclusion &&
        readFlip == old(writeFlip) && writeFlip == old(readFlip) && flipped == !old(flipped) &&
        readable.job == old(job) && voxelSystemIsValid == old(voxelSystemIsValid) &&
        copyJobIsActive == old(copyJobIsActive) && flipA == old(flipA) && flipB == old(flipB) &&
        unchanged(writeFlip.dis, writeFlip.directI)
    {
      if !jobIsActive {
        return true;
      }
      if !force && !isCompleted {
        return false;
      }
      CompleteJob();
      return true;
    }

    /**
     * After a job the buffer just written becomes the readable one and the
     * other buffer the next to write (lines 222-223).
     */
    method SwapFlips()
      modifies this`flipped, this`readFlip, this`writeFlip
      ensures readFlip == old(writeFlip) && flipped == !old(flipped)
      ensures writeFlip == (if flipped then flipB else flipA)
    {
      readFlip := writeFlip;
      writeFlip := GetNextFlip();
    }

    /**
     * The completing half of `TryCompleteOcclusionJob`: swap the buffers, wait for
     * the job (run it if it has not finished) and mark the occlusion computed.
     */
    method CompleteJob()
      requires Valid() && WriteResult() && jobIsActive
      modifies Repr()
      ensures Valid() && Results() && flipA == old(flipA) && flipB == old(flipB) && queue == old(queue)
      ensures !jobIsActive && hasComputedOcclusion &&
        readFlip == old(writeFlip) && writeFlip == old(readFlip) && flipped == !old(flipped) &&
        readable.job == old(job) && voxelSystemIsValid == old(voxelSystemIsValid) &&
        copyJobIsActive == old(copyJobIsActive) && job == old(job)
      ensures unchanged(writeFlip.dis, writeFlip.directI)
    {
      SwapFlips();
      WaitForJob();
      Publish();
    }

    /**
     * Marks the job as finished and occlusion as computed (lines 226-227): the
     * written fill becomes the readable one.
     */
    method Publish()
      modifies this`jobIsActive, this`hasComputedOcclusion, this`readable
      ensures !jobIsActive && hasComputedOcclusion && readable == written
    {
      jobIsActive := false;
      hasComputedOcclusion := true;
      readable := written;
    }

    /**
     * `OnGlobalReadAccessStart`: complete a finished job (and stop if one is still
     * running), then, when the system is valid and a listener voxel was found,
     * start a job that writes the write buffer from that voxel with the hearing
     * radius cast to `ushort`. `closestAir` is the voxel provider's closest visible
     * air voxel (`None` when it finds none).
     */
    method OnGlobalReadAccessStart(closestAir: Option<int>, voxComputeDistanceVox: int, indirectExtraDistanceVox: u16)
      requires Valid() && Results()
      requires voxelSystemIsValid && closestAir.Some? ==> 0 <= closestAir.value < job.world.CountXYZ()
      requires voxelSystemIsValid ==> Budget(job.costs, Wrap16(voxComputeDistanceVox), indirectExtraDistanceVox)
      modifies Repr()
      ensures Valid() && Results() && flipA == old(flipA) && flipB == old(flipB) && queue == old(queue)
      ensures old(jobIsActive) && !old(isCompleted) ==> unchanged(this)
      ensures old(jobIsActive) && old(isCompleted) ==> hasComputedOcclusion && readFlip == old(writeFlip) && readable.job == old(job)
      ensures !(old(jobIsActive) && !old(isCompleted)) ==>
        (jobIsActive <==> voxelSystemIsValid && closestAir.Some?)
      ensures !old(jobIsActive) && !jobIsActive ==> unchanged(this)
      ensures jobIsActive && !(old(jobIsActive) && !old(isCompleted)) ==>
        !isCompleted && copyJobIsActive && jobFlip == writeFlip && jobFlip != readFlip &&
        job.camVoxI == closestAir.value && job.maxHearRadiusVox == Wrap16(voxComputeDistanceVox) &&
        job.indirectExtraDistance == indirectExtraDistanceVox
    {
      var done := TryCompleteOcclusionJob(false);
      if !done {
        return;
      }
      if jobIsActive || !voxelSystemIsValid {
        return;
      }
      if closestAir.None? {
        return;
      }
      StartJob(closestAir.value, Wrap16(voxComputeDistanceVox), indirectExtraDistanceVox);
    }

    /** Point the job at the write buffer, set its listener voxel and radii, and schedule it. */
    method StartJob(camVoxI: int, maxHearRadiusVox: u16, indirectExtraDistanceVox: u16)
      requires Valid() && Results() && voxelSystemIsValid && !jobIsActive
      requires 0 <= camVoxI < job.world.CountXYZ()
      requires Budget(job.costs, maxHearRadiusVox, indirectExtraDistanceVox)
      modifies this`jobFlip, this`job, this`isCompleted, this`jobIsActive, this`copyJobIsActive
      ensures Valid() && Results()
      ensures jobIsActive && !isCompleted && copyJobIsActive && jobFlip == writeFlip
      ensures job == old(job).(camVoxI := camVoxI, maxHearRadiusVox := maxHearRadiusVox,
                               indirectExtraDistance := indirectExtraDistanceVox)
    {
      jobFlip := writeFlip;
      job := job.(camVoxI := camVoxI, maxHearRadiusVox := maxHearRadiusVox,
                  indirectExtraDistance := indirectExtraDistanceVox);
      isCompleted := false;
      jobIsActive := true;
      copyJobIsActive := true;
    }

    /** `OnGlobalReadAccessStop`: wait for the grid copy job, if any. */
    method OnGlobalReadAccessStop()
      requires Valid() && Results()
      modifies this`copyJobIsActive
      ensures Valid() && Results() && !copyJobIsActive
    {
      if !copyJobIsActive {
        return;
      }
      copyJobIsActive := false;
    }

    /**
     * `OnClearVoxelSystem`, with the reset of `hasComputedOcclusion` moved after the
     * forced completion of a running job (see the findings in the project's README):
     * a no-op when not set up; otherwise complete any job, drop both buffers and
     * leave the system invalid with nothing computed.
     */
    method OnClearVoxelSystem()
      requires Valid() && Results()
      modifies Repr()
      ensures Valid() && Results()
      ensures old(voxelSystemIsValid) ==>
        !voxelSystemIsValid && !hasComputedOcclusion && !jobIsActive && !copyJobIsActive &&
        flipA == null && flipB == null
      ensures !old(voxelSystemIsValid) ==> unchanged(this)
    {
      if voxelSystemIsValid == false {
        return;
      }
      OnGlobalReadAccessStop();
      var _ := TryCompleteOcclusionJob(true);
      voxelSystemIsValid := false;
      hasComputedOcclusion := false;
      flipA := null;
      flipB := null;
    }
  }

  /**
   * The flags `OnClearVoxelSystem` and `TryCompleteOcclusionJob` touch:
   * `voxelSystemIsValid`, `hasComputedOcclusion` and `o_jobIsActive`.
   */
  datatype Flags = Flags(valid: bool, hasComputed: bool, jobActive: bool)

  /** `TryCompleteOcclusionJob(true)` on the flags. */
  function ForceComplete(f: Flags): (r: Flags)
    ensures !r.jobActive && r.valid == f.valid
    ensures r.hasComputed == (f.hasComputed || f.jobActive)
  {
    if !f.jobActive then f else f.(jobActive := false, hasComputed := true)
  }

  /** `OnClearVoxelSystem` on the flags, in the order the source writes it. */
  function ClearAsWritten(f: Flags): (r: Flags)
    ensures !f.valid ==> r == f
  {
    if !f.valid then f
    else ForceComplete(f.(valid := false, hasComputed := false))
  }

  /** The same, resetting `hasComputedOcclusion` after the job is completed. */
  function ClearCorrected(f: Flags): (r: Flags)
    ensures !f.valid ==> r == f
    ensures f.valid ==> !r.valid && !r.hasComputed && !r.jobActive
  {
    if !f.valid then f
    else ForceComplete(f).(valid := false, hasComputed := false)
  }

  /**
   * As written, clearing while a job runs leaves `hasComputedOcclusion` true for
   * a system that is no longer valid, whose buffers are then freed: readers that
   * test the flag (AudioBasics.cs lines 53-60) go on reading the freed buffer.
   */
  lemma ClearAsWrittenLeavesComputed(f: Flags)
    requires f.valid && f.jobActive
    ensures ClearAsWritten(f).hasComputed && !ClearAsWritten(f).valid
  {
  }

  /** The corrected order never reports a computed occlusion for an invalid system. */
  lemma ClearCorrectedKeepsFlags(f: Flags)
    requires f.hasComputed ==> f.valid
    ensures ClearCorrected(f).hasComputed ==> ClearCorrected(f).valid
  {
  }

  /**
   * The first neighbour probe `voxI + offsets[i]`, `i` from `from` on, whose
   * distance is within `maxDis`, as the index `i` (the loop of lines 419-427).
   */
  function FirstHearable(D: seq<u16>, voxI: int, offsets: seq<int>, maxDis: int, from: nat): (r: Option<nat>)
    requires forall i :: 1 <= i < |offsets| ==> 0 <= voxI + offsets[i] < |D|
    requires 1 <= from
    ensures r.Some? ==>
      from <= r.value < |offsets| && D[voxI + offsets[r.value]] as int <= maxDis &&
      forall i :: from <= i < r.value ==> D[voxI + offsets[i]] as int > maxDis
    ensures r.None? <==> forall i :: from <= i < |offsets| ==> D[voxI + offsets[i]] as int > maxDis
    decreases |offsets| - from
  {
    if from >= |offsets| then None
    else if D[voxI + offsets[from]] as int > maxDis then FirstHearable(D, voxI, offsets, maxDis, from + 1)
    else Some(from)
  }

  /**
   * The integer part of `SampleOcclusionAtPos` (lines 415-436): the voxel to sample
   * is the sound's own voxel when within the hearing radius `maxDis`, else the first
   * neighbour within it, and `None` (unhearable) when there is none.
   */
  method SampleVoxel(dis: array<u16>, voxI: int, offsets: seq<int>, maxDis: int) returns (r: Option<int>)
    requires 0 <= voxI < dis.Length
    requires forall i :: 1 <= i < |offsets| ==> 0 <= voxI + offsets[i] < dis.Length
    ensures dis[voxI] as int <= maxDis ==> r == Some(voxI)
    ensures dis[voxI] as int > maxDis ==>
      r == (match FirstHearable(dis[..], voxI, offsets, maxDis, 1)
            case None => None
            case Some(i) => Some(voxI + offsets[i]))
    ensures r.Some? ==> 0 <= r.value < dis.Length && dis[r.value] as int <= maxDis
  {
    var vDis := dis[voxI] as int;
    var v := voxI;
    if vDis > maxDis {
      var i := 1;
      while i < |offsets|
        invariant 1 <= i
        invariant FirstHearable(dis[..], voxI, offsets, maxDis, 1) == FirstHearable(dis[..], voxI, offsets, maxDis, i)
        invariant vDis > maxDis && v == voxI
      {
        var vI := voxI + offsets[i];
        var vD := dis[vI] as int;
        if vD > maxDis {
          i := i + 1;
          continue;
        }
        vDis := vD;
        v := vI;
        break;
      }
      if vDis > maxDis {
        return None;
      }
    }
    return Some(v);
  }
}

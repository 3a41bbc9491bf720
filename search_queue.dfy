/**
 * The flood fills' breadth-first queue: a circular buffer of voxel indices
 * of fixed capacity, driven by the locals `queueHead`, `queueTail` and
 * `queueCount` (AudioOcclusion.cs lines 277-279, 292-295, 306-309, 385-388).
 * The caller's guard keeps `count` at or below the capacity, so a push never
 * overwrites a pending entry.
 */
module SearchQueue {

  /** `_searchQueueSize`: capacity of the queue buffer (AudioOcclusion.cs line 131). */
  const SearchQueueSize: int := 524288

  /** The ring slot `(head + i) % SearchQueueSize`. */
  function Slot(head: int, i: int): int {
    (head + i) % SearchQueueSize
  }

  /**
   * The buffer holds the `count` pending indices `pending`, oldest first,
   * starting at slot `head`; `tail` is the next free slot.
   */
  ghost predicate Ring(buffer: seq<int>, head: int, tail: int, count: int, pending: seq<int>) {
    |buffer| == SearchQueueSize &&
    0 <= head < SearchQueueSize &&
    0 <= count <= SearchQueueSize &&
    |pending| == count &&
    tail == Slot(head, count) &&
    forall i :: 0 <= i < count ==> buffer[Slot(head, i)] == pending[i]
  }

  lemma SlotsDistinct(head: int, i: int, k: int)
    requires 0 <= head < SearchQueueSize && 0 <= i < k < SearchQueueSize
    ensures Slot(head, i) != Slot(head, k)
  {
  }

  lemma SlotNext(head: int, i: int)
    requires 0 <= head < SearchQueueSize && 0 <= i
    ensures Slot((head + 1) % SearchQueueSize, i) == Slot(head, i + 1)
  {
  }

  /** An empty queue whose head and tail are both slot 0, as the job starts with. */
  lemma EmptyRing(buffer: seq<int>)
    requires |buffer| == SearchQueueSize
    ensures Ring(buffer, 0, 0, 0, [])
  {
  }

  /** Enqueue `x` at the tail; the caller has checked that the buffer is not full. */
  method Enqueue(buffer: array<int>, head: int, tail: int, count: int, ghost pending: seq<int>, x: int)
    returns (newTail: int, newCount: int)
    requires Ring(buffer[..], head, tail, count, pending) && count < SearchQueueSize
    modifies buffer
    ensures Ring(buffer[..], head, newTail, newCount, pending + [x])
    ensures newCount == count + 1
  {
    buffer[tail] := x;
    newTail := (tail + 1) % SearchQueueSize;
    newCount := count + 1;
    forall i | 0 <= i < count
      ensures buffer[Slot(head, i)] == (pending + [x])[i]
    {
      SlotsDistinct(head, i, count);
    }
  }

  /** Dequeue the oldest pending index. */
  method Dequeue(buffer: array<int>, head: int, tail: int, count: int, ghost pending: seq<int>)
    returns (x: int, newHead: int, newCount: int)
    requires Ring(buffer[..], head, tail, count, pending) && count > 0
    ensures x == pending[0]
    ensures Ring(buffer[..], newHead, tail, newCount, pending[1..])
    ensures newCount == count - 1
  {
    x := buffer[head];
    assert buffer[Slot(head, 0)] == pending[0];
    newHead := (head + 1) % SearchQueueSize;
    newCount := count - 1;
    forall i | 0 <= i < newCount
      ensures buffer[Slot(newHead, i)] == pending[1..][i]
    {
      SlotNext(head, i);
    }
    SlotNext(head, newCount);
  }
}

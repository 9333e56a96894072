/**
 * The desk's z-index counter (`maxZIndex`, `getNextZIndex` in components/DeskScene.tsx).
 *
 * As written, `getNextZIndex` queues `prev => prev + 1` on the state and returns
 * `maxZIndex + 1`, where `maxZIndex` is the value captured when the scene last
 * rendered. Every call made before the next render therefore returns the same
 * number, while the counter still advances once per call. The corrected counter
 * hands out consecutive values; the desk store (module Desk) uses that one.
 */
module ZOrder {

  /** The values returned by `calls` calls of the as-written `getNextZIndex` within one render. */
  function AsWrittenValues(captured: int, calls: nat): (r: seq<int>)
    ensures |r| == calls
    ensures forall i :: 0 <= i < calls ==> r[i] == captured + 1
  {
    if calls == 0 then [] else AsWrittenValues(captured, calls - 1) + [captured + 1]
  }

  /** The counter after those calls: it moved by `calls`, unlike the values handed out. */
  function AsWrittenCounterAfter(captured: int, calls: nat): (c: int)
    ensures calls >= 2 ==> c > AsWrittenValues(captured, calls)[calls - 1]
  {
    captured + calls
  }

  /**
   * The counterexample: two bumps in one render (for example two entries moved
   * before the scene re-renders) both receive z-index 11 from the initial counter 10.
   */
  lemma AsWrittenRepeats()
    ensures AsWrittenValues(10, 2) == [11, 11]
    ensures AsWrittenCounterAfter(10, 2) == 12
  {
    assert AsWrittenValues(10, 1) == [11];
  }

  /** The values a true counter starting at `start` hands out for `calls` allocations. */
  function Allocations(start: int, calls: nat): (r: seq<int>)
    ensures |r| == calls
    ensures forall i :: 0 <= i < calls ==> r[i] == start + i + 1
  {
    if calls == 0 then [] else Allocations(start, calls - 1) + [start + calls]
  }

  /** The design's promise for the corrected counter: strictly increasing, never reused, above the start. */
  lemma {:induction false} AllocationsStrictlyIncrease(start: int, calls: nat)
    ensures forall i, j :: 0 <= i < j < calls ==> Allocations(start, calls)[i] < Allocations(start, calls)[j]
    ensures forall i :: 0 <= i < calls ==> Allocations(start, calls)[i] > start
  {
    if calls > 0 {
      AllocationsStrictlyIncrease(start, calls - 1);
    }
  }

  /** Allocations made in two runs are the allocations made in one. */
  lemma {:induction false} AllocationsCompose(start: int, a: nat, b: nat)
    ensures Allocations(start, a) + Allocations(start + a, b) == Allocations(start, a + b)
  {
    if b > 0 {
      AllocationsCompose(start, a, b - 1);
      assert Allocations(start + a, b) == Allocations(start + a, b - 1) + [start + a + b];
    }
  }
}

/** The simulated sensor pattern shared by the light and the soil-moisture
    controls: each tick moves the previous reading by a random jitter, clamps
    the result into the sensor's range, and appends the new point to a history
    that keeps only the latest `HISTORY_CAPACITY` points, dropping the oldest. */
module Sensor {

  /** Both controls cut their history to 20 points. */
  const HISTORY_CAPACITY: nat := 20

  /** Clamping into [lo, hi]: raise to lo, then lower to hi. */
  function Clamp(x: real, lo: real, hi: real): (r: real)
    requires lo <= hi
    ensures lo <= r <= hi
    ensures forall y :: lo <= y <= hi ==> Dist(r, x) <= Dist(y, x)
  {
    if x < lo then lo else if x > hi then hi else x
  }

  function Dist(a: real, b: real): real {
    if a >= b then a - b else b - a
  }

  /** Clamping never moves two readings further apart; a reading already in
      range is its own clamp. */
  lemma ClampNonExpansive(x: real, y: real, lo: real, hi: real)
    requires lo <= hi
    ensures Dist(Clamp(x, lo, hi), Clamp(y, lo, hi)) <= Dist(x, y)
    ensures lo <= x <= hi ==> Clamp(x, lo, hi) == x
  {
  }

  /** A clamped step from an in-range reading moves it by at most the jitter. */
  lemma StepBounded(prev: real, jitter: real, lo: real, hi: real, bound: real)
    requires lo <= prev <= hi && -bound <= jitter <= bound
    ensures Dist(Clamp(prev + jitter, lo, hi), prev) <= bound
  {
    ClampNonExpansive(prev + jitter, prev, lo, hi);
  }

  /** The last `HISTORY_CAPACITY` points of `s`, or all of them when there are fewer. */
  function Latest<T>(s: seq<T>): seq<T> {
    if |s| > HISTORY_CAPACITY then s[|s| - HISTORY_CAPACITY..] else s
  }

  /** Append a point, then keep only the last HISTORY_CAPACITY points when the
      history has grown past that. */
  function Push<T>(history: seq<T>, point: T): (r: seq<T>)
    ensures |r| == if |history| + 1 < HISTORY_CAPACITY then |history| + 1 else HISTORY_CAPACITY
    ensures r[|r| - 1] == point
    ensures forall k :: 0 <= k < |r| - 1 ==> r[k] == history[|history| - (|r| - 1) + k]
  {
    Latest(history + [point])
  }

  /** The history after a series of ticks. */
  function PushAll<T>(history: seq<T>, points: seq<T>): seq<T>
    decreases |points|
  {
    if |points| == 0 then history else PushAll(Push(history, points[0]), points[1..])
  }

  /** Whatever the series of ticks, the history holds the latest points of
      everything seen, in the order they arrived. */
  lemma {:induction false} PushAllKeepsLatest<T>(history: seq<T>, points: seq<T>)
    requires |history| <= HISTORY_CAPACITY
    ensures PushAll(history, points) == Latest(history + points)
    decreases |points|
  {
    if |points| > 0 {
      var next := Push(history, points[0]);
      PushAllKeepsLatest(next, points[1..]);
      var all := history + points;
      assert history + [points[0]] + points[1..] == all;
      if |history| + 1 > HISTORY_CAPACITY {
        var cut := |history| + 1 - HISTORY_CAPACITY;
        assert next == (history + [points[0]])[cut..];
        assert next + points[1..] == all[cut..];
      }
    }
  }

  /** Starting empty, after 25 ticks the history holds 20 points and the oldest
      kept one is the sixth. */
  lemma TwentyFiveTicks<T>(points: seq<T>)
    requires |points| == 25
    ensures |PushAll([], points)| == 20 && PushAll([], points)[0] == points[5]
  {
    PushAllKeepsLatest([], points);
    assert [] + points == points;
  }
}

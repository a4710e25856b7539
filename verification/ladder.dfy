/** Threshold ladders. An `if x < t0 … else if x < t1 …` chain over
    ascending thresholds picks the band whose index is the number of
    thresholds `x` has reached; that count is the reference the
    classifiers are checked against. */
module Ladder {
  /** How many of the thresholds are at or below `x`. */
  function Reached(x: real, ts: seq<real>): (n: nat)
    ensures n <= |ts|
  {
    if ts == [] then 0 else (if ts[0] <= x then 1 else 0) + Reached(x, ts[1..])
  }

  /** How many of the thresholds are strictly below `x` (for ladders
      written with `>`). */
  function Exceeded(x: real, ts: seq<real>): (n: nat)
    ensures n <= |ts|
  {
    if ts == [] then 0 else (if ts[0] < x then 1 else 0) + Exceeded(x, ts[1..])
  }

  /** A larger value never reaches fewer thresholds. */
  lemma {:induction false} ReachedMonotone(x: real, y: real, ts: seq<real>)
    requires x <= y
    ensures Reached(x, ts) <= Reached(y, ts)
  {
    if ts != [] {
      ReachedMonotone(x, y, ts[1..]);
    }
  }

  lemma {:induction false} ExceededMonotone(x: real, y: real, ts: seq<real>)
    requires x <= y
    ensures Exceeded(x, ts) <= Exceeded(y, ts)
  {
    if ts != [] {
      ExceededMonotone(x, y, ts[1..]);
    }
  }

  ghost predicate Ascending(ts: seq<real>) {
    forall i, j :: 0 <= i < j < |ts| ==> ts[i] < ts[j]
  }

  /** On ascending thresholds, `x` in band `n` (at or above threshold
      `n - 1`, below threshold `n`) has reached exactly `n` of them. */
  lemma {:induction false} ReachedBand(x: real, ts: seq<real>, n: nat)
    requires Ascending(ts) && n <= |ts|
    requires n == 0 || ts[n - 1] <= x
    requires n == |ts| || x < ts[n]
    ensures Reached(x, ts) == n
  {
    if ts != [] {
      if n == 0 {
        ReachedBand(x, ts[1..], 0);
      } else {
        ReachedBand(x, ts[1..], n - 1);
      }
    }
  }

  /** The same for ladders written with `>`: `x` above threshold `n - 1`
      and at most threshold `n` has exceeded exactly `n` of them. */
  lemma {:induction false} ExceededBand(x: real, ts: seq<real>, n: nat)
    requires Ascending(ts) && n <= |ts|
    requires n == 0 || ts[n - 1] < x
    requires n == |ts| || x <= ts[n]
    ensures Exceeded(x, ts) == n
  {
    if ts != [] {
      if n == 0 {
        ExceededBand(x, ts[1..], 0);
      } else {
        ExceededBand(x, ts[1..], n - 1);
      }
    }
  }
}

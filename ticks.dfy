/** Runs of frame times: the elapsed time `delta` of each tick of the game
    loop, as used by every per-tick rule of the model. */
module Ticks {

  /** Total time of a sequence of ticks. */
  function Sum(deltas: seq<real>): real
    decreases |deltas|
  {
    if deltas == [] then 0.0 else deltas[0] + Sum(deltas[1..])
  }

  /** Every tick of the run takes a non-negative time. */
  predicate AllNonNegative(deltas: seq<real>) {
    forall i :: 0 <= i < |deltas| ==> deltas[i] >= 0.0
  }

  lemma {:induction false} SumNonNegative(deltas: seq<real>)
    requires AllNonNegative(deltas)
    ensures Sum(deltas) >= 0.0
    decreases |deltas|
  {
    if deltas != [] {
      SumNonNegative(deltas[1..]);
    }
  }
}

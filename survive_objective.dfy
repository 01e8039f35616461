/** The survive objective: the round is won by staying alive for a set
    duration. A timer accumulates the elapsed time; once it is past the
    duration the objective is completed, and from then on it stays so.
 */
module Survive {

  datatype Status = InProgress | Completed

  /** The objective's changing part: elapsed time and status. */
  datatype Progress = Progress(timer: real, status: Status)

  /** Duration of the objective when none is given, in seconds. */
  const DefaultDuration: real := 120.0

  /** One tick: complete when the timer is already past the duration (and
      leave the timer alone), otherwise add the elapsed time. */
  function Step(duration: real, p: Progress, delta: real): (r: Progress)
    ensures p.status == Completed ==> r.status == Completed
    ensures r.status == Completed ==> p.status == Completed || p.timer > duration
    ensures Consistent(duration, p) ==> Consistent(duration, r)
    ensures delta >= 0.0 ==> r.timer >= p.timer
    ensures r.timer != p.timer ==> p.timer <= duration && r.timer == p.timer + delta
  {
    if p.timer > duration then Progress(p.timer, Completed) else Progress(p.timer + delta, p.status)
  }

  /** The progress after a run of ticks, the last tick applied last. */
  function Run(duration: real, p: Progress, deltas: seq<real>): Progress
    decreases |deltas|
  {
    if deltas == [] then p
    else Step(duration, Run(duration, p, deltas[..|deltas| - 1]), deltas[|deltas| - 1])
  }

  /** Completed only ever with the timer past the duration. */
  predicate Consistent(duration: real, p: Progress) {
    p.status == Completed ==> p.timer > duration
  }

  /** Java's Math.round on a float: the nearest integer, halves rounded up. */
  function Round(v: real): (r: int)
    ensures r as real - 0.5 <= v < r as real + 0.5
  {
    (v + 0.5).Floor
  }

  lemma {:induction false} RunStaysConsistent(duration: real, p: Progress, deltas: seq<real>)
    requires Consistent(duration, p)
    ensures Consistent(duration, Run(duration, p, deltas))
    decreases |deltas|
  {
    if deltas != [] {
      RunStaysConsistent(duration, p, deltas[..|deltas| - 1]);
    }
  }

  /** Completion lags by one tick: the objective is completed after a tick
      exactly when the timer was already past the duration before it, so the
      tick that carries the timer past the duration does not complete it. */
  lemma CompletedTickAfterPassing(duration: real, p: Progress, deltas: seq<real>, last: real)
    requires Consistent(duration, p)
    ensures Run(duration, p, deltas + [last]).status == Completed
            <==> Run(duration, p, deltas).timer > duration
  {
    assert (deltas + [last])[..|deltas|] == deltas;
    RunStaysConsistent(duration, p, deltas);
  }

  /** Completion is terminal: once the timer is past the duration, every
      later tick leaves the timer frozen and the status completed. */
  lemma {:induction false} CompletionIsTerminal(duration: real, p: Progress, deltas: seq<real>)
    requires p.timer > duration
    ensures Run(duration, p, deltas).timer == p.timer
    ensures deltas != [] ==> Run(duration, p, deltas).status == Completed
    decreases |deltas|
  {
    if deltas != [] {
      CompletionIsTerminal(duration, p, deltas[..|deltas| - 1]);
    }
  }

  /** The timer overshoots the duration by at most one tick: with every tick
      at most `bound` long it never exceeds duration + bound. */
  lemma {:induction false} OvershootAtMostOneTick(duration: real, p: Progress, deltas: seq<real>, bound: real)
    requires p.timer <= duration + bound
    requires forall i :: 0 <= i < |deltas| ==> deltas[i] <= bound
    ensures Run(duration, p, deltas).timer <= duration + bound
    decreases |deltas|
  {
    if deltas != [] {
      OvershootAtMostOneTick(duration, p, deltas[..|deltas| - 1], bound);
    }
  }

  /** The remaining time shown is not kept non-negative: a long last tick
      leaves the timer more than half a second past the duration. */
  lemma RemainingCanBeNegative()
    ensures var p := Step(DefaultDuration, Progress(119.9, InProgress), 1.0);
            p.status == InProgress && Round(DefaultDuration - p.timer) == -1
  {
  }

  class SurviveObjective {
    const duration: real
    var timer: real
    var status: Status

    /** An objective of the default duration, 120 seconds. */
    constructor Default()
      ensures duration == DefaultDuration && timer == 0.0 && status == InProgress
      ensures Remaining() == 120
    {
      duration := DefaultDuration;
      timer := 0.0;
      status := InProgress;
    }

    /** An objective of the given duration. */
    constructor (duration: real)
      ensures this.duration == duration && timer == 0.0 && status == InProgress
      ensures Remaining() == Round(duration)
    {
      this.duration := duration;
      timer := 0.0;
      status := InProgress;
    }

    function Snapshot(): Progress
      reads this
    {
      Progress(timer, status)
    }

    /** One tick of `delta` seconds. */
    method Update(delta: real)
      modifies this`timer, this`status
      ensures Snapshot() == Step(duration, old(Snapshot()), delta)
      ensures old(timer) > duration ==> timer == old(timer) && status == Completed
      ensures old(timer) <= duration ==> timer == old(timer) + delta && status == old(status)
    {
      if timer > duration {
        status := Completed;
      } else {
        timer := timer + delta;
      }
    }

    /** The time left, rounded to the nearest second (halves up); negative
        once the timer has overshot the duration by more than half a second. */
    function Remaining(): (r: int)
      reads this
      ensures r as real - 0.5 <= duration - timer < r as real + 0.5
      ensures timer <= duration ==> r >= 0
    {
      Round(duration - timer)
    }
  }
}

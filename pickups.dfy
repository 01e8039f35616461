/** The pickup kinds a player can hold and the table of their remaining durations.

    Durations are Java floats in the game; here they are reals, and the float
    value positive infinity (used for the two weapons) is the sentinel `Forever`.
 */
module Pickups {
  import opened Ticks

  /** The pickup kinds, in declaration (ordinal) order. */
  datatype Pickup = Gun | Lightsaber | ScoreMultiplier | SuperSpeed | RateOfFire | Health | Invulnerable

  /** A remaining duration: a finite number of seconds, or permanent. */
  datatype Dur = Finite(seconds: real) | Forever

  /** The pickup table: the pickups currently held, each with its time left. */
  type Table = map<Pickup, Dur>

  /** The number of pickup kinds. */
  const PickupCount: nat := 7

  /** Position of a kind in declaration order; the order in which the table is visited. */
  function Ordinal(p: Pickup): (i: nat)
    ensures i < PickupCount
  {
    match p
    case Gun => 0
    case Lightsaber => 1
    case ScoreMultiplier => 2
    case SuperSpeed => 3
    case RateOfFire => 4
    case Health => 5
    case Invulnerable => 6
  }

  /** The kind with the given ordinal. */
  function PickupAt(i: nat): (p: Pickup)
    requires i < PickupCount
    ensures Ordinal(p) == i
  {
    if i == 0 then Gun
    else if i == 1 then Lightsaber
    else if i == 2 then ScoreMultiplier
    else if i == 3 then SuperSpeed
    else if i == 4 then RateOfFire
    else if i == 5 then Health
    else Invulnerable
  }

  /** The duration a freshly picked-up item of each kind lasts. */
  function Duration(p: Pickup): (d: Dur)
    ensures d.Forever? <==> p == Gun || p == Lightsaber
    ensures d.Finite? ==> d.seconds >= 0.0
  {
    match p
    case Gun => Forever
    case Lightsaber => Forever
    case ScoreMultiplier => Finite(30.0)
    case SuperSpeed => Finite(10.0)
    case RateOfFire => Finite(60.0)
    case Health => Finite(0.0)
    case Invulnerable => Finite(10.0)
  }

  /** Classifies a random number r (drawn from [0, 1) by the game) into the
      kind of pickup an enemy drops: four bands of width 0.05 for the buffs,
      everything from 0.2 upwards for health. */
  function RandomPickup(r: real): (p: Pickup)
    ensures p != Gun && p != Lightsaber
    ensures p == ScoreMultiplier <==> r < 0.05
    ensures p == Invulnerable <==> 0.05 <= r < 0.1
    ensures p == SuperSpeed <==> 0.1 <= r < 0.15
    ensures p == RateOfFire <==> 0.15 <= r < 0.2
    ensures p == Health <==> 0.2 <= r
  {
    if r < 0.05 then ScoreMultiplier
    else if r >= 0.05 && r < 0.1 then Invulnerable
    else if r >= 0.1 && r < 0.15 then SuperSpeed
    else if r >= 0.15 && r < 0.2 then RateOfFire
    else Health
  }

  /** An entry is dropped by the decrement pass when its time left is at or below zero. */
  predicate Expired(v: Dur)
    ensures v.Forever? ==> !Expired(v)
    ensures v.Finite? && v.seconds > 0.0 ==> !Expired(v)
    ensures v.Finite? && v.seconds <= 0.0 ==> Expired(v)
  {
    v.Finite? && v.seconds <= 0.0
  }

  /** Time left after `delta` seconds; a permanent entry stays permanent. */
  function Decrease(v: Dur, delta: real): (w: Dur)
    ensures w.Forever? <==> v.Forever?
    ensures v.Finite? ==> w.seconds == v.seconds - delta
  {
    match v
    case Finite(s) => Finite(s - delta)
    case Forever => Forever
  }

  /** Granting pickup `p` for `d`: inserted when absent, overwritten (not summed)
      when held with a finite time, left alone when held permanently. */
  function Grant(m: Table, p: Pickup, d: Dur): (r: Table)
    ensures p in r
    ensures r[p] == (if p in m && m[p].Forever? then Forever else d)
    ensures forall k :: k != p ==> (k in r <==> k in m)
    ensures forall k :: k != p && k in m ==> r[k] == m[k]
  {
    if p in m && m[p] == Forever then m else m[p := d]
  }

  /** One decrement pass: every entry expired at the start of the pass is
      removed, every other one loses exactly `delta`; no key is added. */
  function Tick(m: Table, delta: real): (r: Table)
    ensures r.Keys <= m.Keys
    ensures forall k :: k in m ==> (k in r <==> !Expired(m[k]))
    ensures forall k :: k in r ==> r[k] == Decrease(m[k], delta)
  {
    map k | k in m && !Expired(m[k]) :: Decrease(m[k], delta)
  }

  /** The decrement pass part-way through: the kinds with ordinal below `i`
      have been visited, the others are as they were. */
  function TickPrefix(m: Table, delta: real, i: nat): Table {
    map k | k in m && (Ordinal(k) < i ==> !Expired(m[k])) :: if Ordinal(k) < i then Decrease(m[k], delta) else m[k]
  }

  /** Visiting the kind with ordinal `i` (removing it if expired, decrementing
      it otherwise) extends the visited prefix by one. */
  lemma TickPrefixStep(m: Table, delta: real, i: nat)
    requires i < PickupCount
    ensures var k := PickupAt(i);
            var before := TickPrefix(m, delta, i);
            TickPrefix(m, delta, i + 1) ==
              if k !in before then before
              else if Expired(before[k]) then before - {k}
              else before[k := Decrease(before[k], delta)]
  {
  }

  /** Once every kind has been visited, the pass equals `Tick`. */
  lemma TickPrefixComplete(m: Table, delta: real)
    ensures TickPrefix(m, delta, PickupCount) == Tick(m, delta)
  {
  }

  /** The table after a sequence of decrement passes, one per delta. */
  function TickRun(m: Table, deltas: seq<real>): Table
    decreases |deltas|
  {
    if deltas == [] then m else TickRun(Tick(m, deltas[0]), deltas[1..])
  }

  /** A finite entry with `left` seconds survives the ticks `deltas`: it is
      above zero at the start of every one of them. */
  predicate Survives(left: real, deltas: seq<real>)
    decreases |deltas|
  {
    deltas == [] || (left > 0.0 && Survives(left - deltas[0], deltas[1..]))
  }

  /** Granting never shortens a permanent entry: whatever duration is granted,
      a kind held forever is still held forever and the table is unchanged. */
  lemma GrantKeepsPermanent(m: Table, p: Pickup, d: Dur)
    requires p in m && m[p] == Forever
    ensures Grant(m, p, d) == m
  {
  }

  /** Granting the same pickup twice in a row is the same as granting it once. */
  lemma GrantIdempotent(m: Table, p: Pickup, d: Dur)
    ensures Grant(Grant(m, p, d), p, d) == Grant(m, p, d)
  {
  }

  /** A permanent entry (a weapon) is never removed and stays permanent,
      however many decrement passes run. */
  lemma {:induction false} PermanentNeverExpires(m: Table, p: Pickup, deltas: seq<real>)
    requires p in m && m[p] == Forever
    ensures p in TickRun(m, deltas) && TickRun(m, deltas)[p] == Forever
    decreases |deltas|
  {
    if deltas != [] {
      PermanentNeverExpires(Tick(m, deltas[0]), p, deltas[1..]);
    }
  }

  /** The decrement passes add no key. */
  lemma {:induction false} TickRunAddsNoKey(m: Table, deltas: seq<real>)
    ensures TickRun(m, deltas).Keys <= m.Keys
    decreases |deltas|
  {
    if deltas != [] {
      TickRunAddsNoKey(Tick(m, deltas[0]), deltas[1..]);
    }
  }

  /** A finite entry is still held after a run of ticks exactly when it was
      above zero at the start of each of them, and then its time left has gone
      down by exactly the elapsed time. */
  lemma {:induction false} FiniteEntryLifetime(m: Table, p: Pickup, left: real, deltas: seq<real>)
    requires p in m && m[p] == Finite(left)
    ensures p in TickRun(m, deltas) <==> Survives(left, deltas)
    ensures p in TickRun(m, deltas) ==> TickRun(m, deltas)[p] == Finite(left - Sum(deltas))
    decreases |deltas|
  {
    if deltas != [] {
      var m' := Tick(m, deltas[0]);
      if left > 0.0 {
        assert p in m' && m'[p] == Finite(left - deltas[0]);
        FiniteEntryLifetime(m', p, left - deltas[0], deltas[1..]);
      } else {
        assert p !in m';
        TickRunAddsNoKey(m', deltas[1..]);
      }
    }
  }

  /** With non-negative ticks, an entry granted `left` seconds is still held
      after the tick that follows `deltas` exactly when less than `left`
      seconds had elapsed before that tick: removal happens one tick after
      the time runs out, because the pass tests the value before decrementing. */
  lemma {:induction false} ExpiresTickAfterTimeRunsOut(left: real, deltas: seq<real>, last: real)
    requires AllNonNegative(deltas)
    ensures Survives(left, deltas + [last]) <==> left - Sum(deltas) > 0.0
    decreases |deltas|
  {
    if deltas == [] {
      assert deltas + [last] == [last];
      assert Survives(left - last, []);
    } else {
      assert (deltas + [last])[1..] == deltas[1..] + [last];
      ExpiresTickAfterTimeRunsOut(left - deltas[0], deltas[1..], last);
      SumNonNegative(deltas[1..]);
    }
  }

  /** A health pickup (duration 0) is gone after a single decrement pass. */
  lemma HealthGoneAfterOneTick(m: Table, delta: real)
    requires Health in m && m[Health] == Duration(Health)
    ensures Health !in Tick(m, delta)
  {
  }
}

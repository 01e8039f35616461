/** The player: its per-tick state machine, its pickup table, score and
    health bookkeeping, and the movement target it hands to the physics layer.

    Keyboard and mouse are read through an immutable `Input` snapshot; the
    character base class (healing, base damage, whether a base melee or ranged
    attack fires this tick) is supplied by the caller as parameters.
 */
module Players {
  import opened Ticks
  import opened Pickups

  /** What the player shows and how it behaves this tick. */
  datatype State = Default | HoldingGun | HoldingSaber | Swimming | Flying

  /** The keys and mouse buttons held during one tick. */
  datatype Input = Input(keyA: bool, keyD: bool, keyW: bool, keyS: bool, space: bool,
                         leftButton: bool, rightButton: bool)

  /** Which attack, if any, the player attempts this tick. */
  datatype Attack = NoAttack | Melee | Ranged

  const PlayerHealth: int := 8
  const PlayerSpeed: real := 16.0
  const PlayerScoreMultiplier: int := 5
  const SuperSpeedMultiplier: real := 3.0
  const FlightSpeedMultiplier: real := 2.0
  const SwimmingSpeedMultiplier: real := 1.5
  const RangedAttackMultiplier: real := 5.0
  /** The cap the flight timer regenerates up to, in seconds. */
  const FlightTime: real := 1.0
  /** The flight timer a new player starts with (above the cap). */
  const InitialFlyingTimer: real := 5.0
  /** Flight regenerates at one fifth of the rate it depletes. */
  const FlightRegenRate: real := 0.2
  const PlayerWidth: real := 12.0
  const PlayerHeight: real := 18.0

  // ---------------------------------------------------------------------
  // Modes

  /** Flying: flight time left and the fly key held. While flying, the flight
      timer depletes by the full tick; without the fly key the player is never
      flying. */
  predicate IsFlying(flyingTimer: real, space: bool)
    ensures IsFlying(flyingTimer, space) ==> forall delta :: FlightStep(flyingTimer, space, delta) == flyingTimer - delta
    ensures !space ==> !IsFlying(flyingTimer, space)
    ensures space && !IsFlying(flyingTimer, space) ==> flyingTimer <= 0.0
  {
    flyingTimer > 0.0 && space
  }

  /** Swimming: touching water and not flying. Flight takes precedence, so
      the player never flies and swims at once; touching water without the
      fly key is always swimming. */
  predicate IsSwimming(waterBlockCount: int, flyingTimer: real, space: bool)
    ensures IsSwimming(waterBlockCount, flyingTimer, space) ==> !IsFlying(flyingTimer, space)
    ensures IsSwimming(waterBlockCount, flyingTimer, space) ==> waterBlockCount > 0
    ensures waterBlockCount > 0 && !space ==> IsSwimming(waterBlockCount, flyingTimer, space)
  {
    waterBlockCount > 0 && !IsFlying(flyingTimer, space)
  }

  /** Priority of the states, highest first: Flying, Swimming, HoldingGun, HoldingSaber, Default. */
  function Rank(s: State): nat {
    match s
    case Flying => 4
    case Swimming => 3
    case HoldingGun => 2
    case HoldingSaber => 1
    case Default => 0
  }

  /** The condition under which each state may be shown. */
  predicate Eligible(s: State, flying: bool, swimming: bool, weapon: Pickup, m: Table) {
    match s
    case Flying => flying
    case Swimming => swimming
    case HoldingGun => weapon == Gun && Gun in m
    case HoldingSaber => weapon == Lightsaber && Lightsaber in m
    case Default => true
  }

  /** The state chosen each tick: the highest-priority state whose condition holds. */
  function SelectState(flying: bool, swimming: bool, weapon: Pickup, m: Table): (r: State)
    ensures Eligible(r, flying, swimming, weapon, m)
    ensures forall s :: Eligible(s, flying, swimming, weapon, m) ==> Rank(s) <= Rank(r)
  {
    if flying then Flying
    else if swimming then Swimming
    else if weapon == Gun && Gun in m then HoldingGun
    else if weapon == Lightsaber && Lightsaber in m then HoldingSaber
    else Default
  }

  /** Distinct states have distinct priorities, so the highest eligible state is unique. */
  lemma RankInjective(s: State, t: State)
    requires Rank(s) == Rank(t)
    ensures s == t
  {
  }

  // ---------------------------------------------------------------------
  // Timers

  /** The flight timer after one tick: held fly key depletes it while above
      zero; otherwise it regenerates at a fifth of the rate, capped at FlightTime. */
  function FlightStep(t: real, space: bool, delta: real): (r: real)
    ensures !space ==> r <= FlightTime
    ensures !space && t + delta * FlightRegenRate <= FlightTime ==> r == t + delta * FlightRegenRate
    ensures !space && t + delta * FlightRegenRate > FlightTime ==> r == FlightTime
    ensures space && t > 0.0 ==> r == t - delta
    ensures space && t <= 0.0 ==> r == t
  {
    if space then (if t > 0.0 then t - delta else t)
    else (if t + delta * FlightRegenRate < FlightTime then t + delta * FlightRegenRate else FlightTime)
  }

  /** The flight timer after a run of ticks: in tick i the fly key is
      `keys[i]` and the elapsed time `deltas[i]` (the run is as long as the
      shorter of the two). */
  function FlightRun(t: real, keys: seq<bool>, deltas: seq<real>): real
    decreases |keys|
  {
    if keys == [] || deltas == [] then t else FlightRun(FlightStep(t, keys[0], deltas[0]), keys[1..], deltas[1..])
  }

  /** The initial timer, 5 seconds above the 1-second cap, is brought down to
      exactly the cap by one tick without the fly key. */
  lemma InitialTimerCappedAfterOneTick(delta: real)
    requires delta >= 0.0
    ensures FlightStep(InitialFlyingTimer, false, delta) == FlightTime
  {
  }

  /** Once at or under the cap, the flight timer never exceeds it again. */
  lemma {:induction false} FlightStaysCapped(t: real, keys: seq<bool>, deltas: seq<real>)
    requires t <= FlightTime && AllNonNegative(deltas)
    ensures FlightRun(t, keys, deltas) <= FlightTime
    decreases |keys|
  {
    if keys != [] && deltas != [] {
      FlightStaysCapped(FlightStep(t, keys[0], deltas[0]), keys[1..], deltas[1..]);
    }
  }

  /** Even from the initial timer (above the cap), one tick without the fly
      key brings it under the cap, and it stays there. */
  lemma CappedAfterFirstRegeneration(t: real, keys: seq<bool>, deltas: seq<real>)
    requires keys != [] && deltas != [] && !keys[0] && AllNonNegative(deltas)
    ensures FlightRun(t, keys, deltas) <= FlightTime
  {
    FlightStaysCapped(FlightStep(t, keys[0], deltas[0]), keys[1..], deltas[1..]);
  }

  /** An exhausted timer does not move while the fly key stays held: flight
      cannot restart until the key is released. */
  lemma {:induction false} ExhaustedFlightStaysExhausted(t: real, keys: seq<bool>, deltas: seq<real>)
    requires t <= 0.0
    requires forall i :: 0 <= i < |keys| ==> keys[i]
    ensures FlightRun(t, keys, deltas) == t
    decreases |keys|
  {
    if keys != [] && deltas != [] {
      ExhaustedFlightStaysExhausted(FlightStep(t, keys[0], deltas[0]), keys[1..], deltas[1..]);
    }
  }

  /** The dementia countdown after one tick: it counts down while positive
      and is clamped at zero rather than driven below it. */
  function DementiaStep(d: real, delta: real): (r: real)
    ensures d > 0.0 ==> r >= 0.0
    ensures d <= 0.0 ==> r == d
    ensures d > 0.0 && delta >= 0.0 ==> r <= d
  {
    if d > 0.0 then (if d - delta < 0.0 then 0.0 else d - delta) else d
  }

  function DementiaRun(d: real, deltas: seq<real>): real
    decreases |deltas|
  {
    if deltas == [] then d else DementiaRun(DementiaStep(d, deltas[0]), deltas[1..])
  }

  function Max(a: real, b: real): real {
    if a < b then b else a
  }

  /** Over any run of non-negative ticks the countdown equals the time it
      started with minus the elapsed time, clamped at zero. */
  lemma {:induction false} DementiaCountsDownToZero(d: real, deltas: seq<real>)
    requires d >= 0.0 && AllNonNegative(deltas)
    ensures DementiaRun(d, deltas) == Max(0.0, d - Sum(deltas))
    decreases |deltas|
  {
    if deltas == [] {
    } else {
      SumNonNegative(deltas[1..]);
      DementiaCountsDownToZero(DementiaStep(d, deltas[0]), deltas[1..]);
    }
  }

  // ---------------------------------------------------------------------
  // Movement target

  /** Horizontal key direction: D overrides A. */
  function KeyX(input: Input): (r: int)
    ensures input.keyD ==> r == 1
    ensures !input.keyD && input.keyA ==> r == -1
    ensures !input.keyD && !input.keyA ==> r == 0
  {
    if input.keyD then 1 else if input.keyA then -1 else 0
  }

  /** Vertical key direction: S overrides W. */
  function KeyY(input: Input): (r: int)
    ensures input.keyS ==> r == -1
    ensures !input.keyS && input.keyW ==> r == 1
    ensures !input.keyS && !input.keyW ==> r == 0
  {
    if input.keyS then -1 else if input.keyW then 1 else 0
  }

  /** One component of the target direction: the key direction, negated while
      demented, and zeroed when it pushes toward a map edge the player is
      already against (`lowEdge` for the lower, `highEdge` for the upper one). */
  function Axis(key: int, demented: bool, lowEdge: bool, highEdge: bool): (r: int)
    requires -1 <= key <= 1
    ensures -1 <= r <= 1
    ensures r == 0 || r == (if demented then -key else key)
    ensures r < 0 ==> !lowEdge
    ensures r > 0 ==> !highEdge
    ensures key != 0 && r == 0 ==> (if (key > 0) != demented then highEdge else lowEdge)
  {
    var v := if demented then -key else key;
    if (lowEdge && v < 0) || (highEdge && v > 0) then 0 else v
  }

  /** The target direction for a player at (x, y) on a map of the given size. */
  function TargetDirection(input: Input, dementionTimer: real, x: real, y: real,
                           mapWidth: real, mapHeight: real): (r: (int, int))
    ensures -1 <= r.0 <= 1 && -1 <= r.1 <= 1
    ensures r.0 < 0 ==> x - PlayerWidth >= 0.0
    ensures r.0 > 0 ==> x + PlayerWidth * 2.0 <= mapWidth
    ensures r.1 > 0 ==> y + PlayerHeight * 1.5 <= mapHeight
    ensures r.1 < 0 ==> y - PlayerHeight / 2.0 >= 0.0
    ensures dementionTimer <= 0.0 ==> (r.0 == 0 || r.0 == KeyX(input)) && (r.1 == 0 || r.1 == KeyY(input))
    ensures dementionTimer > 0.0 ==> (r.0 == 0 || r.0 == -KeyX(input)) && (r.1 == 0 || r.1 == -KeyY(input))
    ensures x - PlayerWidth >= 0.0 && x + PlayerWidth * 2.0 <= mapWidth
            ==> r.0 == (if dementionTimer > 0.0 then -KeyX(input) else KeyX(input))
    ensures y - PlayerHeight / 2.0 >= 0.0 && y + PlayerHeight * 1.5 <= mapHeight
            ==> r.1 == (if dementionTimer > 0.0 then -KeyY(input) else KeyY(input))
  {
    var demented := dementionTimer > 0.0;
    (Axis(KeyX(input), demented, x - PlayerWidth < 0.0, x + PlayerWidth * 2.0 > mapWidth),
     Axis(KeyY(input), demented, y - PlayerHeight / 2.0 < 0.0, y + PlayerHeight * 1.5 > mapHeight))
  }

  /** The multiplier the player's state applies to its speed. */
  function StateSpeedFactor(s: State): real {
    if s == Flying then FlightSpeedMultiplier
    else if s == Swimming then SwimmingSpeedMultiplier
    else 1.0
  }

  /** Target speed: base speed, tripled with super speed, doubled when flying, one and a half times when swimming. */
  function Speed(s: State, superSpeed: bool): (r: real)
    ensures PlayerSpeed <= r <= PlayerSpeed * SuperSpeedMultiplier * FlightSpeedMultiplier
  {
    PlayerSpeed * (if superSpeed then SuperSpeedMultiplier else 1.0) * StateSpeedFactor(s)
  }

  /** Super speed exactly triples the speed in every state, and flying is
      faster than swimming, which is faster than walking. */
  lemma SpeedOrdering(s: State, superSpeed: bool)
    requires s != Flying && s != Swimming
    ensures Speed(s, true) == SuperSpeedMultiplier * Speed(s, false)
    ensures Speed(Flying, true) == SuperSpeedMultiplier * Speed(Flying, false)
    ensures Speed(Swimming, true) == SuperSpeedMultiplier * Speed(Swimming, false)
    ensures Speed(s, superSpeed) < Speed(Swimming, superSpeed) < Speed(Flying, superSpeed)
  {
  }

  /** Rate at which the actual velocity approaches the target: slower in water. */
  function SmoothingRate(s: State): (r: real)
    ensures s == Swimming ==> r == 1.0
    ensures s != Swimming ==> r == 4.0
  {
    if s == Swimming then 1.0 else 4.0
  }

  // ---------------------------------------------------------------------
  // Attacks

  /** The attack attempted: none while flying or swimming; melee with the left
      button and a lightsaber; otherwise ranged with the right button and a gun. */
  function ChooseAttack(flying: bool, swimming: bool, input: Input, m: Table): (r: Attack)
    ensures r != NoAttack ==> !flying && !swimming
    ensures r == Melee <==> !flying && !swimming && input.leftButton && Lightsaber in m
    ensures r == Ranged ==> input.rightButton && Gun in m
    ensures r == Ranged ==> !(input.leftButton && Lightsaber in m)
    ensures !flying && !swimming && input.rightButton && Gun in m ==> r != NoAttack
  {
    if flying || swimming then NoAttack
    else if input.leftButton && Lightsaber in m then Melee
    else if input.rightButton && Gun in m then Ranged
    else NoAttack
  }

  // ---------------------------------------------------------------------
  // The player object

  class Player {
    var health: int
    var points: int
    var state: State
    var pickupMap: Table
    var flyingTimer: real
    var waterBlockCount: int
    var currentWeapon: Pickup
    var dementionTimer: real
    var rangedAttackTimer: real
    /** Position of the player's body; moved only by the physics layer. */
    var x: real
    var y: real
    /** Target direction, target speed and smoothing rate last handed to the physics layer. */
    var targetDirection: (int, int)
    var targetSpeed: real
    var smoothing: real

    /** A new player at (x0, y0); with the shooting cheat on it starts with a
        permanent rate-of-fire pickup. */
    constructor (x0: real, y0: real, shootingCheat: bool)
      ensures health == PlayerHealth && points == 0 && state == Default
      ensures flyingTimer == InitialFlyingTimer && waterBlockCount == 0
      ensures currentWeapon == Gun && dementionTimer == 0.0
      ensures pickupMap == if shootingCheat then map[RateOfFire := Forever] else map[]
      ensures x == x0 && y == y0
    {
      health := PlayerHealth;
      points := 0;
      state := Default;
      pickupMap := if shootingCheat then map[RateOfFire := Forever] else map[];
      flyingTimer := InitialFlyingTimer;
      waterBlockCount := 0;
      currentWeapon := Gun;
      dementionTimer := 0.0;
      x, y := x0, y0;
    }

    /** Adds to the score, five times the amount while the score multiplier is held. */
    method AddScore(amount: int)
      modifies this`points
      ensures points == old(points) + (if ScoreMultiplier in pickupMap then PlayerScoreMultiplier * amount else amount)
      ensures amount >= 0 ==> points >= old(points)
    {
      var gained := amount;
      if ScoreMultiplier in pickupMap {
        gained := gained * PlayerScoreMultiplier;
      }
      points := points + gained;
    }

    /** Damage is ignored entirely while invulnerable; otherwise the base
        character's damage (`baseDamage(health, amount)`) applies. */
    method Damage(amount: int, baseDamage: (int, int) -> int)
      modifies this`health
      ensures Invulnerable in pickupMap ==> health == old(health)
      ensures Invulnerable !in pickupMap ==> health == baseDamage(old(health), amount)
    {
      if Invulnerable !in pickupMap {
        health := baseDamage(health, amount);
      }
    }

    /** Gives a pickup for `duration`; never shortens a permanent one. */
    method GivePickup(pickup: Pickup, duration: Dur)
      modifies this`pickupMap
      ensures pickupMap == Grant(old(pickupMap), pickup, duration)
    {
      if pickup in pickupMap {
        if pickupMap[pickup] != Forever {
          pickupMap := pickupMap[pickup := duration];
        }
      } else {
        pickupMap := pickupMap[pickup := duration];
      }
    }

    /** Melee attack: the saber becomes the current weapon only when the base
        attack reports success (`succeeded`). */
    method MeleeAttack(succeeded: bool) returns (ok: bool)
      modifies this`currentWeapon
      ensures ok == succeeded
      ensures currentWeapon == if succeeded then Lightsaber else old(currentWeapon)
    {
      if succeeded {
        currentWeapon := Lightsaber;
        return true;
      }
      return false;
    }

    /** Ranged attack: the gun becomes the current weapon only when the base
        attack reports success (`succeeded`). */
    method RangedAttack(succeeded: bool) returns (ok: bool)
      modifies this`currentWeapon
      ensures ok == succeeded
      ensures currentWeapon == if succeeded then Gun else old(currentWeapon)
    {
      if succeeded {
        currentWeapon := Gun;
        return true;
      }
      return false;
    }

    /** The decrement pass, visiting the kinds in declaration order and
        removing or decrementing each held entry in place. */
    method DecrementPickups(delta: real)
      modifies this`pickupMap
      ensures pickupMap == Tick(old(pickupMap), delta)
    {
      ghost var start := pickupMap;
      var i: nat := 0;
      while i < PickupCount
        invariant i <= PickupCount
        invariant pickupMap == TickPrefix(start, delta, i)
      {
        var key := PickupAt(i);
        TickPrefixStep(start, delta, i);
        if key in pickupMap {
          var value := pickupMap[key];
          if Expired(value) {
            pickupMap := pickupMap - {key};
          } else {
            pickupMap := pickupMap[key := Decrease(value, delta)];
          }
        }
        i := i + 1;
      }
      TickPrefixComplete(start, delta);
    }

    /** One tick of the player. `meleeOk` and `rangedOk` are what the base
        character's melee and ranged attacks report if attempted this tick;
        `heal` is the base character's healing. */
    method Update(delta: real, input: Input, mapWidth: real, mapHeight: real,
                  meleeOk: bool, rangedOk: bool, heal: (int, int) -> int)
      modifies this
      ensures dementionTimer == DementiaStep(old(dementionTimer), delta)
      ensures state == SelectState(IsFlying(old(flyingTimer), input.space),
                                   IsSwimming(waterBlockCount, old(flyingTimer), input.space),
                                   old(currentWeapon), old(pickupMap))
      ensures rangedAttackTimer == old(rangedAttackTimer)
        + (if RateOfFire in old(pickupMap) then delta * (RangedAttackMultiplier - 1.0) else 0.0)
      ensures health == if Health in old(pickupMap) then heal(old(health), 2) else old(health)
      ensures pickupMap == Tick(old(pickupMap), delta)
      ensures var attack := ChooseAttack(IsFlying(old(flyingTimer), input.space),
                                         IsSwimming(waterBlockCount, old(flyingTimer), input.space),
                                         input, pickupMap);
              currentWeapon == (if attack == Melee && meleeOk then Lightsaber
                                else if attack == Ranged && rangedOk then Gun
                                else old(currentWeapon))
      ensures flyingTimer == FlightStep(old(flyingTimer), input.space, delta)
      ensures targetDirection == TargetDirection(input, dementionTimer, x, y, mapWidth, mapHeight)
      ensures targetSpeed == Speed(state, SuperSpeed in pickupMap)
      ensures smoothing == SmoothingRate(state)
      ensures points == old(points) && waterBlockCount == old(waterBlockCount)
      ensures x == old(x) && y == old(y)
    {
      var flying, swimming := BeginTick(delta, input, heal);
      FinishTick(flying, swimming, delta, input, mapWidth, mapHeight, meleeOk, rangedOk);
    }

    /** First half of a tick: the dementia countdown, the state selection, the
        effects of the rate-of-fire and health pickups, and the decrement pass.
        Returns whether the player is flying and swimming this tick. */
    method BeginTick(delta: real, input: Input, heal: (int, int) -> int) returns (flying: bool, swimming: bool)
      modifies this`dementionTimer, this`state, this`rangedAttackTimer, this`health, this`pickupMap
      ensures flying == IsFlying(flyingTimer, input.space)
      ensures swimming == IsSwimming(waterBlockCount, flyingTimer, input.space)
      ensures dementionTimer == DementiaStep(old(dementionTimer), delta)
      ensures state == SelectState(flying, swimming, currentWeapon, old(pickupMap))
      ensures rangedAttackTimer == old(rangedAttackTimer)
        + (if RateOfFire in old(pickupMap) then delta * (RangedAttackMultiplier - 1.0) else 0.0)
      ensures health == if Health in old(pickupMap) then heal(old(health), 2) else old(health)
      ensures pickupMap == Tick(old(pickupMap), delta)
    {
      CountDownDementia(delta);

      flying := IsFlying(flyingTimer, input.space);
      swimming := IsSwimming(waterBlockCount, flyingTimer, input.space);
      ChooseState(flying, swimming);

      // The rate-of-fire pickup speeds up the ranged-attack cooldown; the health pickup heals.
      rangedAttackTimer := rangedAttackTimer
        + (if RateOfFire in pickupMap then delta * (RangedAttackMultiplier - 1.0) else 0.0);
      health := if Health in pickupMap then heal(health, 2) else health;

      DecrementPickups(delta);
    }

    /** Second half of a tick: the attack, the flight timer and the movement target. */
    method FinishTick(flying: bool, swimming: bool, delta: real, input: Input,
                      mapWidth: real, mapHeight: real, meleeOk: bool, rangedOk: bool)
      modifies this`currentWeapon, this`flyingTimer, this`targetDirection, this`targetSpeed, this`smoothing
      ensures var attack := ChooseAttack(flying, swimming, input, pickupMap);
              currentWeapon == (if attack == Melee && meleeOk then Lightsaber
                                else if attack == Ranged && rangedOk then Gun
                                else old(currentWeapon))
      ensures flyingTimer == FlightStep(old(flyingTimer), input.space, delta)
      ensures targetDirection == TargetDirection(input, dementionTimer, x, y, mapWidth, mapHeight)
      ensures targetSpeed == Speed(state, SuperSpeed in pickupMap)
      ensures smoothing == SmoothingRate(state)
    {
      AttemptAttack(flying, swimming, input, meleeOk, rangedOk);
      UpdateFlyingTimer(input.space, delta);
      SetTarget(input, mapWidth, mapHeight);
    }

    /** The target direction: the keys' direction, reversed in demented mode,
        with a component dropped when it would walk the player off the map. */
    static method SteerDirection(input: Input, demented: bool,
                                 atLeft: bool, atRight: bool, atBottom: bool, atTop: bool)
      returns (dx: int, dy: int)
      ensures dx == Axis(KeyX(input), demented, atLeft, atRight)
      ensures dy == Axis(KeyY(input), demented, atBottom, atTop)
    {
      dx, dy := KeyDirection(input);
      if demented {
        dx, dy := -dx, -dy;
      }
      if (atLeft && dx < 0) || (atRight && dx > 0) {
        dx := 0;
      }
      if (atTop && dy > 0) || (atBottom && dy < 0) {
        dy := 0;
      }
    }

    /** The speed to move at: base speed, scaled by super speed and by the state. */
    static method MoveSpeed(s: State, superSpeed: bool) returns (speed: real)
      ensures speed == Speed(s, superSpeed)
    {
      speed := PlayerSpeed * (if superSpeed then SuperSpeedMultiplier else 1.0);
      if s == Flying {
        speed := speed * FlightSpeedMultiplier;
      } else if s == Swimming {
        speed := speed * SwimmingSpeedMultiplier;
      }
    }

    /** The direction the movement keys ask for, later keys overriding earlier ones. */
    static method KeyDirection(input: Input) returns (dx: int, dy: int)
      ensures dx == KeyX(input) && dy == KeyY(input)
    {
      dx, dy := 0, 0;
      if input.keyA { dx := -1; }
      if input.keyD { dx := 1; }
      if input.keyW { dy := 1; }
      if input.keyS { dy := -1; }
    }

    /** The attack of one tick: none while flying or swimming, melee before
        ranged, each only with its weapon held. */
    method AttemptAttack(flying: bool, swimming: bool, input: Input, meleeOk: bool, rangedOk: bool)
      modifies this`currentWeapon
      ensures var attack := ChooseAttack(flying, swimming, input, pickupMap);
              currentWeapon == (if attack == Melee && meleeOk then Lightsaber
                                else if attack == Ranged && rangedOk then Gun
                                else old(currentWeapon))
    {
      if !flying && !swimming {
        if input.leftButton && Lightsaber in pickupMap {
          var _ := MeleeAttack(meleeOk);
        } else if input.rightButton && Gun in pickupMap {
          var _ := RangedAttack(rangedOk);
        }
      }
    }

    /** The dementia countdown of one tick. */
    method CountDownDementia(delta: real)
      modifies this`dementionTimer
      ensures dementionTimer == DementiaStep(old(dementionTimer), delta)
    {
      if dementionTimer > 0.0 {
        if dementionTimer - delta < 0.0 {
          dementionTimer := 0.0;
        } else {
          dementionTimer := dementionTimer - delta;
        }
      }
    }

    /** The state selection of one tick, in priority order. */
    method ChooseState(flying: bool, swimming: bool)
      modifies this`state
      ensures state == SelectState(flying, swimming, currentWeapon, pickupMap)
    {
      if flying {
        state := Flying;
      } else if swimming {
        state := Swimming;
      } else if currentWeapon == Gun && Gun in pickupMap {
        state := HoldingGun;
      } else if currentWeapon == Lightsaber && Lightsaber in pickupMap {
        state := HoldingSaber;
      } else {
        state := Default;
      }
    }

    /** The flight timer update of one tick. */
    method UpdateFlyingTimer(space: bool, delta: real)
      modifies this`flyingTimer
      ensures flyingTimer == FlightStep(old(flyingTimer), space, delta)
    {
      if space {
        if flyingTimer > 0.0 {
          flyingTimer := flyingTimer - delta;
        }
      } else {
        var regenerated := flyingTimer + delta * FlightRegenRate;
        flyingTimer := if regenerated < FlightTime then regenerated else FlightTime;
      }
    }

    /** Works out the target direction, speed and smoothing rate for this tick
        and hands them to the physics layer. */
    method SetTarget(input: Input, mapWidth: real, mapHeight: real)
      modifies this`targetDirection, this`targetSpeed, this`smoothing
      ensures targetDirection == TargetDirection(input, dementionTimer, x, y, mapWidth, mapHeight)
      ensures targetSpeed == Speed(state, SuperSpeed in pickupMap)
      ensures smoothing == SmoothingRate(state)
    {
      var atLeft, atRight := x - PlayerWidth < 0.0, x + PlayerWidth * 2.0 > mapWidth;
      var atBottom, atTop := y - PlayerHeight / 2.0 < 0.0, y + PlayerHeight * 1.5 > mapHeight;
      var dx, dy := SteerDirection(input, dementionTimer > 0.0, atLeft, atRight, atBottom, atTop);

      var speed := MoveSpeed(state, SuperSpeed in pickupMap);

      targetDirection := (dx, dy);
      targetSpeed := speed;
      smoothing := if state == Swimming then 1.0 else 4.0;
    }
  }
}

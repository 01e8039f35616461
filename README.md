# Super Duck Invaders: player, projectile and survive objective

A Dafny model of three pieces of per-tick gameplay logic from the game
*Super Duck Invaders*, a libGDX top-down shooter. Each is a state update the
game loop runs once per frame with the elapsed time `delta`.

- **The player** (`player.dfy`, module `Players`, with the pickup table in
  `pickups.dfy`, module `Pickups`). The player holds an enum-keyed table of
  pickups. Each entry is the time left in seconds, and permanent (the
  weapons) entries are the sentinel `Forever`. Granting a pickup inserts or
  overwrites its entry but never shortens a permanent one. Each tick the
  player does the following:
  - counts down the dementia timer, clamped at zero;
  - selects its state by strict priority (flying, swimming, holding the gun,
    holding the saber, default);
  - applies the rate-of-fire and health pickups;
  - runs the decrement pass over the table, which removes entries at or below
    zero and decrements the rest;
  - attempts a melee or ranged attack when neither flying nor swimming;
  - depletes or regenerates the flight timer;
  - computes the target direction, speed and smoothing rate handed to physics.

  Score gains are multiplied by five under the score multiplier. Damage is
  ignored while invulnerable.
- **The projectile** (`projectile.dfy`, module `Projectiles`). On firing, the
  firer's velocity offset is added to a velocity component only when it points
  the same way. Each tick, the next step `velocity * delta` is checked against
  the blocked-tile tests and the map bounds. On a hit the projectile is marked
  removed and one explosion particle of lifetime 0.6 s is requested at its
  position.
- **The survive objective** (`survive_objective.dfy`, module `Survive`). A
  timer accumulates `delta` until it is past the duration (120 s by default).
  At the first tick after that, the objective is completed and the timer
  freezes. `Remaining` is the rounded time left.

Runs of frame times and their total are shared in `ticks.dfy` (module `Ticks`).
The pickup table is a Dafny `map`. The player, projectile and objective are
classes whose methods update their fields in place. Each method is specified
against pure functions (`Grant`, `Tick`, `SelectState`, `FlightStep`,
`DementiaStep`, `TargetDirection`, `Speed`, `ChooseAttack`, `Step`), and the
lemmas prove properties of those functions over runs of ticks.

Modelling conventions:
- Times, positions and velocities are `real`. Java's float positive infinity
  is `Forever`.
- Java's `Math.round` on a float is `floor(v + 0.5)`.
- `hasPickup` is plain key membership `p in pickupMap`, used directly wherever
  the game calls it.
- Keyboard and mouse are an immutable `Input` snapshot.
- The character base class is replaced by parameters:
  - healing is `heal(health, amount)` and base damage is `baseDamage(health, amount)`;
  - whether the base melee or ranged attack fires this tick is the booleans `meleeOk` and `rangedOk`;
  - for the projectile only, the position the physics step integrated is an argument; the player's position is left as it is, since its own physics step is not modelled;
  - the blocked-tile tests are the functions `collidesX` and `collidesY`.

Three behaviours of the code are modelled as written:
- The projectile's removal check runs after the physics step has moved the
  body, so it tests the step after the one just taken.
- `remaining()` can be negative, because the timer may overshoot the duration
  by up to one tick (`Survive.RemainingCanBeNegative`).
- Pickup expiry tests `<= 0` before decrementing. An entry is therefore
  removed one tick after its time runs out (`Pickups.ExpiresTickAfterTimeRunsOut`).

## Model

| member | source | states |
|---|---|---|
| Pickups.Ordinal | core/src/com/superduckinvaders/game/entity/Player.java:454-461 | Every pickup kind has a declaration position below the number of kinds. |
| Pickups.PickupAt | core/src/com/superduckinvaders/game/entity/Player.java:454-461 | Returns the kind at a given declaration position. It is the inverse of `Ordinal`. |
| Pickups.Duration | core/src/com/superduckinvaders/game/entity/Player.java:455-461 | Exactly the gun and lightsaber last forever. Every other duration is finite and non-negative. |
| Pickups.RandomPickup | core/src/com/superduckinvaders/game/entity/Player.java:479-496 | A drop is never a weapon. It is score multiplier iff r < 0.05, invulnerable iff 0.05 <= r < 0.1, super speed iff 0.1 <= r < 0.15, rate of fire iff 0.15 <= r < 0.2, and health iff r >= 0.2. |
| Pickups.Expired | core/src/com/superduckinvaders/game/entity/Player.java:328 | A permanent entry never expires; a finite one is expired exactly when at or below zero. |
| Pickups.Decrease | core/src/com/superduckinvaders/game/entity/Player.java:332 | A finite time goes down by exactly delta. A permanent one stays permanent. |
| Pickups.Grant | core/src/com/superduckinvaders/game/entity/Player.java:216-223 | The granted kind is held afterwards. Its value is the new duration, unless it was held forever, in which case it stays forever. No other key is added, removed or changed. |
| Pickups.Tick | core/src/com/superduckinvaders/game/entity/Player.java:326-334 | Adds no key. A held kind stays iff it was not at or below zero before the pass. Every kept entry is decreased by exactly delta. |
| Pickups.TickPrefixStep | core/src/com/superduckinvaders/game/entity/Player.java:326-334 | Visiting one more kind in declaration order removes it if expired, else decrements it. |
| Pickups.TickPrefixComplete | core/src/com/superduckinvaders/game/entity/Player.java:326-334 | Once every kind has been visited, the in-place pass equals `Tick`. |
| Pickups.GrantKeepsPermanent | core/src/com/superduckinvaders/game/entity/Player.java:216-223 | Granting a kind held forever leaves the table unchanged, whatever the duration. |
| Pickups.GrantIdempotent | core/src/com/superduckinvaders/game/entity/Player.java:216-223 | Granting the same pickup twice equals granting it once. |
| Pickups.PermanentNeverExpires | core/src/com/superduckinvaders/game/entity/Player.java:326-334 | A permanent entry (gun, lightsaber) is still held, and still forever, after any number of passes. |
| Pickups.TickRunAddsNoKey | core/src/com/superduckinvaders/game/entity/Player.java:326-334 | Any number of passes only ever removes keys. |
| Pickups.FiniteEntryLifetime | core/src/com/superduckinvaders/game/entity/Player.java:326-334 | A finite entry is held after a run of ticks iff it was above zero at the start of each tick. If held, its value is its start value minus the elapsed time. |
| Pickups.ExpiresTickAfterTimeRunsOut | core/src/com/superduckinvaders/game/entity/Player.java:327-329 | With non-negative ticks, an entry survives the tick after a run iff less time than it was granted had elapsed before that tick. Removal lags the expiry by one tick. |
| Pickups.HealthGoneAfterOneTick | core/src/com/superduckinvaders/game/entity/Player.java:320-334 | A freshly granted health pickup (duration 0) is gone after one pass. |
| Players.IsFlying | core/src/com/superduckinvaders/game/entity/Player.java:171-173 | Never flying without the fly key; with the key held and not flying, the flight timer is at or below zero; while flying, a tick depletes the flight timer by exactly its length. |
| Players.IsSwimming | core/src/com/superduckinvaders/game/entity/Player.java:178-180 | Swimming only when touching water and not flying, so never flying and swimming at once; touching water without the fly key is always swimming. |
| Players.SelectState | core/src/com/superduckinvaders/game/entity/Player.java:295-314 | The chosen state's condition holds, and no state of higher priority has its condition holding. |
| Players.RankInjective | core/src/com/superduckinvaders/game/entity/Player.java:295-314 | The priority order is strict, so the chosen state is unique. |
| Players.FlightStep | core/src/com/superduckinvaders/game/entity/Player.java:349-356 | Without the fly key, the timer becomes the smaller of t + 0.2 × delta and the 1-second cap: exactly t + 0.2 × delta when that is at most the cap, exactly the cap otherwise. With the key, it drops by delta if positive and is unchanged otherwise. |
| Players.InitialTimerCappedAfterOneTick | core/src/com/superduckinvaders/game/entity/Player.java:105 | The initial flight timer 5 becomes exactly the cap 1 after one non-negative tick without the fly key. |
| Players.FlightStaysCapped | core/src/com/superduckinvaders/game/entity/Player.java:349-356 | Once at or under the cap, the flight timer never exceeds it again. |
| Players.CappedAfterFirstRegeneration | core/src/com/superduckinvaders/game/entity/Player.java:349-356 | From any timer, including the initial 5 above the cap, one tick without the fly key brings it under the cap for good. |
| Players.ExhaustedFlightStaysExhausted | core/src/com/superduckinvaders/game/entity/Player.java:349-353 | An exhausted timer does not move while the fly key stays held. |
| Players.DementiaStep | core/src/com/superduckinvaders/game/entity/Player.java:285-293 | A positive countdown never goes below zero, and never rises for a non-negative delta. A non-positive one is left alone. |
| Players.DementiaCountsDownToZero | core/src/com/superduckinvaders/game/entity/Player.java:285-293 | Over non-negative ticks, the countdown is max(0, start minus elapsed time). |
| Players.KeyX | core/src/com/superduckinvaders/game/entity/Player.java:363-368 | D gives 1 and overrides A. A alone gives -1. Neither gives 0. |
| Players.KeyY | core/src/com/superduckinvaders/game/entity/Player.java:369-374 | S gives -1 and overrides W. W alone gives 1. Neither gives 0. |
| Players.Axis | core/src/com/superduckinvaders/game/entity/Player.java:377-390 | A direction component is in {-1, 0, 1}. It is 0 or the key direction, negated when demented. It is never toward an edge the player is against. It is dropped only when pointing at such an edge. |
| Players.TargetDirection | core/src/com/superduckinvaders/game/entity/Player.java:361-390 | Both components are in {-1, 0, 1}. A component moves toward an edge only if the player is clear of it (x - 12 >= 0, x + 24 <= width, y - 9 >= 0, y + 27 <= height). Each is 0 or the key direction, negated while the dementia timer is positive; when the player is clear of both edges of an axis, that component is exactly the key direction, negated while the dementia timer is positive. |
| Players.Speed | core/src/com/superduckinvaders/game/entity/Player.java:394-401 | Target speed lies between the base 16 and 16 × 3 × 2. |
| Players.SpeedOrdering | core/src/com/superduckinvaders/game/entity/Player.java:394-401 | Super speed exactly triples the speed in every state. Flying is faster than swimming, which is faster than any other state. |
| Players.SmoothingRate | core/src/com/superduckinvaders/game/entity/Player.java:404 | The rate is 1 while swimming and 4 otherwise. |
| Players.ChooseAttack | core/src/com/superduckinvaders/game/entity/Player.java:337-346 | No attack while flying or swimming. Melee iff neither, left button, and lightsaber held. Ranged only with right button and gun held, and only when melee was not taken. Never no attack when ranged is possible. |
| Players.Player.constructor | core/src/com/superduckinvaders/game/entity/Player.java:130-138 | A new player has health 8, score 0, flight timer 5 and the gun as current weapon. Its table is empty, or holds a permanent rate-of-fire entry with the shooting cheat. |
| Players.Player.AddScore | core/src/com/superduckinvaders/game/entity/Player.java:145-148 | The score rises by five times the amount under the score multiplier, by the amount otherwise. Only the score changes. |
| Players.Player.Damage | core/src/com/superduckinvaders/game/entity/Player.java:204-209 | Health is unchanged while invulnerable, and is the base damage's result otherwise. |
| Players.Player.GivePickup | core/src/com/superduckinvaders/game/entity/Player.java:216-223 | The new table is `Grant` of the old one. |
| Players.Player.MeleeAttack | core/src/com/superduckinvaders/game/entity/Player.java:234-242 | Reports the base attack's success. The current weapon becomes the lightsaber exactly on success. |
| Players.Player.RangedAttack | core/src/com/superduckinvaders/game/entity/Player.java:245-253 | Reports the base attack's success. The current weapon becomes the gun exactly on success. |
| Players.Player.DecrementPickups | core/src/com/superduckinvaders/game/entity/Player.java:326-334 | The in-place pass over the kinds in declaration order leaves exactly `Tick` of the old table. |
| Players.Player.Update | core/src/com/superduckinvaders/game/entity/Player.java:282-404 | Gives the whole new state after a tick. The dementia step. The state by priority from the pre-tick flags, weapon and table. The ranged-attack timer raised by the rate-of-fire boost (and by nothing else, see Left out). Healing by 2 under a health pickup. The table after `Tick`. The weapon after the gated attack on the new table. The flight step. The target direction from the new dementia timer. The speed and smoothing from the new state. Score, water contact and position unchanged. |
| Players.Player.BeginTick | core/src/com/superduckinvaders/game/entity/Player.java:285-334 | Covers the first half of a tick: dementia, state, pickup effects, decrement pass. Also returns the flying and swimming flags. |
| Players.Player.FinishTick | core/src/com/superduckinvaders/game/entity/Player.java:337-404 | Covers the second half of a tick: attack, flight timer, movement target. |
| Players.Player.AttemptAttack | core/src/com/superduckinvaders/game/entity/Player.java:337-346 | The current weapon changes only through the attack `ChooseAttack` picks, and only on that attack's success. |
| Players.Player.CountDownDementia | core/src/com/superduckinvaders/game/entity/Player.java:285-293 | The dementia timer becomes `DementiaStep` of its old value. |
| Players.Player.ChooseState | core/src/com/superduckinvaders/game/entity/Player.java:295-314 | The state becomes `SelectState` of the flags, weapon and table. |
| Players.Player.UpdateFlyingTimer | core/src/com/superduckinvaders/game/entity/Player.java:349-356 | The flight timer becomes `FlightStep` of its old value. |
| Players.Player.SetTarget | core/src/com/superduckinvaders/game/entity/Player.java:361-404 | The target direction, speed and smoothing are `TargetDirection`, `Speed` and `SmoothingRate`. |
| Players.Player.SteerDirection | core/src/com/superduckinvaders/game/entity/Player.java:361-390 | The imperative key reading, inversion and edge clamping equal `Axis` on each component. |
| Players.Player.MoveSpeed | core/src/com/superduckinvaders/game/entity/Player.java:394-401 | The imperative speed computation equals `Speed`. |
| Players.Player.KeyDirection | core/src/com/superduckinvaders/game/entity/Player.java:361-374 | The sequence of key tests, later keys overriding earlier ones, equals `KeyX` and `KeyY`. |
| Projectiles.Signum | core/src/com/superduckinvaders/game/entity/Projectile.java:67-68 | The sign is 1, 0 or -1 exactly for positive, zero and negative values. |
| Projectiles.WithOffset | core/src/com/superduckinvaders/game/entity/Projectile.java:67-68 | The offset is added iff its sign equals the component's. The magnitude never drops, a zero component stays zero, and an added offset keeps the sign and adds its magnitude. |
| Projectiles.ZeroOffsetKeepsVelocity | core/src/com/superduckinvaders/game/entity/Projectile.java:36-38 | With offsets 0 the velocity is the rounded component unchanged. |
| Projectiles.OffsetOnlySpeedsUp | core/src/com/superduckinvaders/game/entity/Projectile.java:66-68 | The shot gets faster along an axis iff the component is non-zero and the firer moves the same way. |
| Projectiles.LeavesMap | core/src/com/superduckinvaders/game/entity/Projectile.java:93 | A box that does not leave the map has its moved corner on the map; a box lying on the map that does not move never leaves it. |
| Projectiles.Projectile.WithVelocityOffset | core/src/com/superduckinvaders/game/entity/Projectile.java:54-74 | Sets position and size. Each velocity component is `WithOffset` of the rounded component and its offset. Damage and owner are as given. Not removed. |
| Projectiles.Projectile.constructor | core/src/com/superduckinvaders/game/entity/Projectile.java:36-38 | Without offsets the velocity is exactly the rounded components. |
| Projectiles.Projectile.Update | core/src/com/superduckinvaders/game/entity/Projectile.java:82-99 | Takes the integrated position. Removed afterwards iff it was removed before or the next step hits a blocked tile or leaves the map on any side. Exactly one explosion (lifetime 0.6, at the current position) iff it hit, none otherwise. Only position and the removed flag change, so damage and owner are untouched. |
| Survive.Step | core/src/com/superduckinvaders/game/objective/SurviveObjective.java:36-42 | Completion is never undone and happens only from a timer past the duration; a tick keeps "completed only past the duration"; the timer never falls for a non-negative tick and, when it moves, moved by exactly delta from a timer not past the duration. |
| Survive.Round | core/src/com/superduckinvaders/game/objective/SurviveObjective.java:45 | The result is the integer within half a unit, halves rounded up. |
| Survive.RunStaysConsistent | core/src/com/superduckinvaders/game/objective/SurviveObjective.java:36-42 | The objective is only ever completed with the timer past the duration. |
| Survive.CompletedTickAfterPassing | core/src/com/superduckinvaders/game/objective/SurviveObjective.java:36-42 | Completed after a tick iff the timer was already past the duration before it. The tick that carries it past does not complete it. |
| Survive.CompletionIsTerminal | core/src/com/superduckinvaders/game/objective/SurviveObjective.java:37-41 | Once past the duration, the timer is frozen and every later tick leaves the objective completed. |
| Survive.OvershootAtMostOneTick | core/src/com/superduckinvaders/game/objective/SurviveObjective.java:36-42 | With ticks at most `bound` long, the timer never exceeds duration + bound. |
| Survive.RemainingCanBeNegative | core/src/com/superduckinvaders/game/objective/SurviveObjective.java:36-46 | A 1-second tick at 119.9 s of a 120 s objective leaves it in progress with remaining time -1. |
| Survive.SurviveObjective.Default | core/src/com/superduckinvaders/game/objective/SurviveObjective.java:22-24 | Default duration 120, timer 0, in progress. Remaining time 120. |
| Survive.SurviveObjective.constructor | core/src/com/superduckinvaders/game/objective/SurviveObjective.java:25-28 | Duration as given, timer 0, in progress. Remaining time is the rounded duration. |
| Survive.SurviveObjective.Update | core/src/com/superduckinvaders/game/objective/SurviveObjective.java:36-42 | Past the duration: completed with the timer unchanged. Otherwise: timer up by exactly delta, status untouched. |
| Survive.SurviveObjective.Remaining | core/src/com/superduckinvaders/game/objective/SurviveObjective.java:44-46 | The time left rounded half up. It is non-negative while the timer has not passed the duration. |

## Left out

- Rendering, animation and sound are not modelled: `render`, the attack animation and its timer, state and pickup textures, the shader switch when dementia ends, the swimming sound. They do not affect the logic.
- The physics layer is not modelled: Box2D body creation, the player's `preSolve` contact filter, the base `update` that integrates position, and `setVelocity` smoothing. The player hands on the target direction, speed and smoothing rate; the projectile receives its integrated position.
- Players.Player.SetTarget: hands on the unit-box direction and the speed rather than `targetVelocity.setLength(speed)`. The normalisation needs a square root over floats.
- Projectiles.Projectile.WithVelocityOffset: takes the components `round(cos(angle) * speed)` and `round(sin(angle) * speed)` already computed, because the trigonometry is over floats.
- Pickups.RandomPickup: classifies a given number r; the game draws r from a random source.
- The projectile's loop over the round's entities is not modelled. It skips the owner and has no effect, since its damage branch is disabled.
- Players.Player.AddScore: multiplies exactly by 5 in unbounded integers. The game multiplies the amount by the float 5 and casts it back to `int`, which rounds products above 2^24 and saturates at the `int` limits, and the addition to the score wraps around at 32 bits; none of these is modelled.
- Players.Player.Update: the ranged-attack timer is stated as its old value plus the rate-of-fire boost only. The base class's attack-cooldown bookkeeping inside a successful base ranged or melee attack, and the timer changes of the base `update` called at the end of the tick, are not part of this model.
- Float rounding, NaN and infinities other than the permanent-duration sentinel are not modelled; times and positions are exact reals.
- The character and entity base classes are not part of this model. Healing, base damage and whether a base attack fires are parameters, as are the map size and the blocked-tile tests.
- The objective's description string (`getObjectiveString`) is formatting only. The initial in-progress status comes from the objective base class, which is not part of this model.

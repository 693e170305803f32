# Enemy AI controller — a verified Dafny model

This project models the enemy AI of a Unity action game. The enemy is a
per-frame state machine with five states: Idle, Patrol, Chase, Attack and
Return. It sees the player by a radius-and-cone test. It patrols a ring of
waypoints and waits at each one. It attacks with one of four melee combos,
each a timed run of hits. It delivers damage to a `Damageable` health counter.

Engine services are replaced by plain values:

- `Time.time` is the parameter `now`.
- The NavMeshAgent is the record `NavAgent` (speed, acceleration, stopping
  distance, stopped flag, destination). Its `remainingDistance` and
  `pathPending` arrive as inputs in `Sensors`.
- Vector and quaternion maths become measured inputs: the distance to the
  player, the angle to the player, the facing dot product for a hit, and a flag
  `reoriented` (the turn toward the spawn rotation is within one degree).
- Animator triggers are a set of names.
- `Random.Range` is a stream of draws, `rolls`. The combo selection loop
  consumes them until one is acceptable.
- `Damageable`'s game-object active flag is the field `active`.

Layout:

- `basics.dfy`: `Option` and a 3-vector.
- `combat.dfy`: the combo table, its start-up fill-in and the two lookups.
- `health.dfy`: `Damageable`, plus `Vitals`, a value view of it.
- `machine.dfy`: each controller method as a function on `EnemyData`, the
  record of the controller's fields. It also holds the invariant `Inv`.
- `machine_props.dfy`: the properties, proved about those functions.
- `controller.dfy`: the class `EnemyController`. Each state-changing method
  is proved to change the fields exactly as its counterpart in `machine.dfy`
  does (`CanSeePlayer` as `Spot` and `Sees`, `OnAttackHit` as `HitDamage`
  followed by `Health.AfterHit` on the target's component). The lookup
  `GetCurrentComboRange` changes nothing. A ghost log `hooks` records which
  enter and exit hooks ran, in order.

Behaviours of the code the model keeps:

- `currentTarget` is never cleared. It is only ever set to the player.
- `OnAttackHit` and `OnAttackEnd` do not check the current state.
- Return can go to Patrol and then to Chase in the same frame.
- The FOV angle is taken as measured, without flattening it onto the
  horizontal plane.

## Model

| member | source | states |
|---|---|---|
| Combat.InitializeCombos | EnemyController.cs:96-147 | A table whose length is not four is replaced by four empty slots. The result is always four combos, each with non-empty timings, damages and triggers and the built-in range. With nothing configured it is exactly the built-in table. A four-slot table has each slot filled by `FillSlot` against its built-in combo, so configured non-empty fields are kept. |
| Combat.FillSlot | EnemyController.cs:105-113 | A missing slot becomes the built-in combo. A configured non-empty name or array is kept and an empty one takes the built-in value. The range is always overwritten. |
| Combat.DefaultTableShape | EnemyController.cs:104-146 | Each built-in combo has one animation trigger, three or four timed attacks, and a damage for each timed attack. |
| Machine.StartWaypoints | EnemyController.cs:79-90 | With no waypoints configured there are exactly two: the spawn point and the point 5 units ahead. Otherwise the configured ones are kept. There is always at least one. |
| Machine.FirstAcceptable | EnemyController.cs:444-455 | The combo the retry loop settles on is a valid index. It differs from the previous combo whenever there is more than one combo, and it is one of the draws. |
| Combat.ComboRange | EnemyController.cs:486-493 | The lookup returns the selected combo's range when the index names a combo, and the default `attackRange` otherwise. |
| Combat.AttackDamage | EnemyController.cs:495-505 | The damage is entry `count-1` of the combo's damage array when the counter is between 1 and that array's length, and the default `attackDamage` otherwise. |
| Machine.NextWaypointIndex | EnemyController.cs:310 | The next index stays in [0, N). It is i+1, or 0 after the last waypoint. |
| MachineProps.FirstAcceptableIsFirst | EnemyController.cs:447-451 | The loop keeps the first draw that is not a repeat. |
| MachineProps.StartEntersPatrol | EnemyController.cs:77-94 | Start leaves the enemy in Patrol with the invariant established. From any other serialized state it exits that state, enters Patrol at patrol speed and heads for waypoint 0. From a serialized Patrol it changes nothing. |
| MachineProps.ChangeStateHooks | EnemyController.cs:177-224 | Changing to the current state runs no hook and changes nothing. Otherwise the old state's exit hook runs, then the new state's enter hook, and the old state becomes `previousState`. |
| MachineProps.ChangeStateKeepsInv | EnemyController.cs:177-224 | A state change keeps the invariant `Inv`: indices in range, combo counter at most the combo's length, an attack in flight counted, target only ever the player. |
| MachineProps.EnterStateKeepsInv | EnemyController.cs:206-223 | Every enter hook keeps `Inv`. |
| MachineProps.TriggerAttackKeepsInv | EnemyController.cs:457-484 | Firing an attack within the combo's length keeps `Inv`. |
| MachineProps.SpotKeepsInv | EnemyController.cs:661 | Recording the player as target keeps `Inv`. |
| MachineProps.UpdateStateKeepsInv | EnemyController.cs:155-175 | Every frame's update keeps `Inv`, for any stream of draws in [0, N) that ends the selection loop. |
| MachineProps.UpdateIdleKeepsInv | EnemyController.cs:232-243 | An Idle frame keeps `Inv`. |
| MachineProps.UpdatePatrolKeepsInv | EnemyController.cs:262-296 | A Patrol frame keeps `Inv`, the waypoint index included. |
| MachineProps.UpdateChaseKeepsInv | EnemyController.cs:330-355 | A Chase frame keeps `Inv`, including one that enters Attack and fires its first attack. |
| MachineProps.UpdateAttackKeepsInv | EnemyController.cs:393-442 | An Attack frame keeps `Inv`: firing, waiting, resetting and breaking off. |
| MachineProps.UpdateReturnKeepsInv | EnemyController.cs:589-608 | A Return frame keeps `Inv`, including the double switch through Patrol to Chase. |
| MachineProps.OnAttackEndKeepsInv | EnemyController.cs:534-549 | The end-of-attack callback keeps `Inv` in any state. |
| MachineProps.EnterAttackFiresFirstHit | EnemyController.cs:364-391 | Entering Attack stops the agent and picks a combo other than the previous one. It fires that combo's first attack at once: in flight, counter 1, stamped `now`, triggers cleared, then the first trigger set. |
| MachineProps.TriggerAttackGuard | EnemyController.cs:457-484 | Firing while an attack is in flight changes nothing. Otherwise the attack goes in flight, `lastAttackTime` becomes `now` and the counter rises by exactly one. The triggers change only when the combo has a trigger for the old counter. |
| MachineProps.OnlyFirstHitAnimates | EnemyController.cs:472-481 | With the built-in table, no attack after the first sets a trigger. |
| MachineProps.RangeNeverFallsBack | EnemyController.cs:486-493 | Once started, the range lookup returns the selected combo's range and never the default `attackRange`. With the built-in table that range is 1.2, 1.8, 2.0 or 1.5. |
| MachineProps.HitDamageRule | EnemyController.cs:495-531 | A hit lands exactly when there is a target, the dot product exceeds 0.5 and the distance is at most 1.2 times the combo range. Its damage is `attackDamages[count-1]` when that index is in bounds, and `attackDamage` otherwise. |
| MachineProps.InFlightHitUsesTable | EnemyController.cs:495-505 | During an attack the damage comes from the combo's table, never the fallback, when every timed attack has a damage entry. |
| MachineProps.OnAttackEndRule | EnemyController.cs:534-549 | The callback always clears the in-flight flag. After the combo's last timed attack it resets the counter to 0 and switches to Chase. Before that, counter and state are unchanged. The waypoint index is never touched. |
| MachineProps.StaleAttackEndForcesChase | EnemyController.cs:534-549 | A late end-of-attack event after a finished combo forces Chase from Idle, Patrol or Return, whether or not the player is visible. |
| MachineProps.DetectionRule | EnemyController.cs:617-663 | Detection fails with no player, beyond the detection radius, or beyond half the detection angle, and succeeds otherwise. Only success sets the target, and it sets it to the player. |
| MachineProps.IdleRule | EnemyController.cs:232-243 | Idle moves to Chase when the player is seen and to Patrol otherwise. |
| MachineProps.PatrolRule | EnemyController.cs:271-289 | Without the player in sight the enemy stays in Patrol. The index moves only to (i+1) mod N, and only once the wait begun on arrival has lasted `waypointWaitTime`. The agent is then sent to that waypoint. Otherwise index and agent are unchanged and the wait starts on arrival. |
| MachineProps.PatrolSpotsPlayer | EnemyController.cs:264-269 | Seeing the player in Patrol switches to Chase and targets the player. The waypoint index is kept. |
| MachineProps.ChaseRule | EnemyController.cs:330-355 | With no target, Chase goes to Return. Within the combo range it goes to Attack with the first attack fired. Beyond `maxChaseDistance` it goes to Return, heading for the spawn point. Otherwise it stays in Chase with the target's position as destination. |
| MachineProps.AttackBreakOff | EnemyController.cs:393-416 | Attack with no target goes to Return. Beyond 1.2 times the combo range it goes to Chase. Either way the attack in flight ends and the agent is released. |
| MachineProps.AttackFiresNext | EnemyController.cs:418-429 | With no attack in flight and the next attack's delay elapsed, the next attack fires and the enemy stays in Attack. |
| MachineProps.AttackWaitsForDelay | EnemyController.cs:420-441 | While the next attack is due but its delay has not passed, the frame changes nothing, even after `comboResetTime`. The reset is an `else if`. |
| MachineProps.AttackResets | EnemyController.cs:430-441 | With an attack in flight or the combo used up, the session resets and the enemy chases once `comboResetTime` has passed or the combo is complete. Until then nothing changes. |
| MachineProps.ReturnHomeThenChase | EnemyController.cs:589-608 | Home, reoriented and seeing the player, Return goes to Patrol and then to Chase in one frame. Four hooks run in that frame. |
| MachineProps.ReturnRule | EnemyController.cs:589-602 | Without the player in sight, Return switches to Patrol once home and reoriented, and otherwise changes nothing. |
| MachineProps.ReturnSpotsPlayer | EnemyController.cs:603-607 | Seeing the player in Return before it is home and reoriented switches to Chase, records Return as the previous state and targets the player. |
| MachineProps.ChangeStateKeepsWaypointIndex | EnemyController.cs:177-224 | No state change moves the waypoint index. Entering Patrol from another state sends the agent to the current waypoint. |
| MachineProps.WaypointIndexMovesOnlyInPatrol | EnemyController.cs:306-313 | A frame in any state other than Patrol leaves the waypoint index alone, and a Patrol frame either keeps it or moves it to (i+1) mod N. |
| MachineProps.UpdateFollowsTable | EnemyController.cs:155-175 | Every frame either stays in its state or takes an edge of the transition table. |
| MachineProps.AdvanceInRange | EnemyController.cs:310 | Before the last waypoint, k advances move the index k places. |
| MachineProps.AdvanceCompose | EnemyController.cs:310 | a+b advances are a advances followed by b advances. |
| MachineProps.AdvanceWraps | EnemyController.cs:310 | From index i, N−i advances wrap round to waypoint 0. |
| MachineProps.WaypointCycle | EnemyController.cs:306-313 | N advances come back to the starting waypoint, and every waypoint is visited on the way. |
| Controller.EnemyController.constructor | EnemyController.cs:18-94 | Awake and Start: the waypoint fallback, the combo fill-in, then ChangeState(Patrol). The invariant holds afterwards. The settings default to the field initialisers (`DefaultSettings`). |
| Controller.EnemyController.GetCurrentComboRange | EnemyController.cs:486-493 | The selected combo's range when the index names a combo, and `attackRange` otherwise. Nothing changes. |
| Controller.EnemyController.ChangeState | EnemyController.cs:177-224 | The fields change exactly as `Machine.ChangeState` says. |
| Controller.EnemyController.UpdateState | EnemyController.cs:155-175 | Dispatches to the current state's update. The fields change as `Machine.UpdateState` says. |
| Controller.EnemyController.Update | EnemyController.cs:149-153 | One frame keeps `Valid()`. |
| Controller.EnemyController.EnterIdleState | EnemyController.cs:227-230 | Stops the agent. |
| Controller.EnemyController.UpdateIdleState | EnemyController.cs:232-243 | As `Machine.UpdateIdle`. |
| Controller.EnemyController.EnterPatrolState | EnemyController.cs:252-260 | Patrol speed, acceleration 4, stopping distance 0.1, moving, not waiting, heading for the current waypoint. |
| Controller.EnemyController.UpdatePatrolState | EnemyController.cs:262-296 | As `Machine.UpdatePatrol`. |
| Controller.EnemyController.MoveToCurrentWaypoint | EnemyController.cs:298-304 | The destination becomes the current waypoint. |
| Controller.EnemyController.MoveToNextWaypoint | EnemyController.cs:306-313 | The index advances modulo N and the destination becomes that waypoint. |
| Controller.EnemyController.EnterChaseState | EnemyController.cs:322-328 | Chase speed, acceleration and stopping distance; agent moving. |
| Controller.EnemyController.UpdateChaseState | EnemyController.cs:330-355 | As `Machine.UpdateChase`. |
| Controller.EnemyController.EnterAttackState | EnemyController.cs:364-391 | As `Machine.EnterAttack`: stop, reset the session, clear triggers, select a combo, fire. |
| Controller.EnemyController.UpdateAttackState | EnemyController.cs:393-442 | As `Machine.UpdateAttack`. |
| Controller.EnemyController.SelectComboType | EnemyController.cs:444-455 | The do-while retry loop. It keeps the first draw that `Machine.FirstAcceptable` picks. |
| Controller.EnemyController.TriggerAttack | EnemyController.cs:457-484 | As `Machine.TriggerAttack`. |
| Controller.EnemyController.OnAttackHit | EnemyController.cs:508-531 | When the hit lands and the target has a damageable component, that component's health drops by `Machine.HitDamage`. Otherwise the component is unchanged. |
| Controller.EnemyController.OnAttackEnd | EnemyController.cs:534-549 | As `Machine.OnAttackEnd`. Keeps `Valid()`. |
| Controller.EnemyController.ClearAllAnimationTriggers | EnemyController.cs:551-567 | Removes the thirteen known trigger names and changes nothing else. |
| Controller.EnemyController.ExitAttackState | EnemyController.cs:569-576 | Ends the attack in flight, releases the agent, clears triggers. |
| Controller.EnemyController.EnterReturnState | EnemyController.cs:580-587 | Patrol speed, acceleration 4, stopping distance 0.1, moving, heading for the spawn point. |
| Controller.EnemyController.UpdateReturnState | EnemyController.cs:589-608 | As `Machine.UpdateReturn`. |
| Controller.EnemyController.CanSeePlayer | EnemyController.cs:617-663 | Returns the radius-and-cone test. On success, and only then, the target becomes the player. |
| Health.AfterHit | IDamageable.cs:29-38 | Health drops by exactly the damage, with no clamping. At zero or less the object is inactive. Above zero the active flag is unchanged. |
| Health.AfterHitsHealth | IDamageable.cs:29-31 | A run of hits lowers health by their total. |
| Health.DefeatIsPermanent | IDamageable.cs:40-46 | Once inactive, an object stays inactive whatever it is hit with. |
| Health.LethalHits | IDamageable.cs:29-46 | Hits whose total reaches the starting health leave the object inactive. |
| Health.LastHitDecides | IDamageable.cs:34-37 | If the final health is zero or less, the object is inactive. |
| Health.Damageable.constructor | IDamageable.cs:21-22 | A fresh component has the given maximum, 100 by default. Its health is not yet set (0) and its object is active. |
| Health.Damageable.Start | IDamageable.cs:24-27 | `currentHealth == maxHealth`. |
| Health.Damageable.TakeDamage | IDamageable.cs:29-38 | The new health and active flag are those of `AfterHit`. |
| Health.Damageable.Die | IDamageable.cs:40-46 | The object becomes inactive. |

## Left out

- Turning toward the target in Attack and toward the spawn rotation in Return (`Quaternion.RotateTowards`, `Quaternion.Angle`, `Vector3.Angle`, `Vector3.Dot`) is left to the engine. The model takes the angle, the facing dot product and the `reoriented` flag as inputs, so the frame time `Time.deltaTime` is not a parameter.
- Distances come in as measured inputs rather than computed from positions. The player is the only possible target, so one distance input serves both detection and the target.
- NavMesh pathfinding is not modelled: `remainingDistance` and `pathPending` are inputs.
- Creating the fallback waypoints' `GameObject`s is not modelled. The model keeps their positions only.
- Combat.ComboRange: a negative combo index takes the fallback range. The code checks only the upper bound, but the index is never negative: it starts at 0 and is otherwise a draw from [0, N).
- Configured waypoints are taken as fixed positions. In the code each waypoint is a `Transform` whose current position is read at every `SetDestination`, so a moving waypoint is outside the model.
- `UpdateAnimator`'s bool parameters, all `Debug.Log`/`DrawRay`/`DrawLine` output and `OnDrawGizmosSelected` are presentation only and are left out.
- The unused fields `attackRate`, `maxComboHits`, `nextAttackTime`, `nextFoVCheck`, `playerLayer`, `obstacleLayer`, `patrolTurnSpeed` and `chaseRotationSpeed` are left out. They are unused, or used only by the rotation above.
- Unity's overloaded null check for destroyed objects is not modelled: the player reference is fixed at start. `Damageable.Die` only deactivates its object, so a defeated player is still a valid reference.
- Floating-point rounding is not modelled: times, distances, ranges and health are `real`.
- `Random.Range` is modelled by a stream of draws that contains an acceptable draw. A random source that repeats the previous combo for ever is therefore outside the model.
- The empty exit hooks of Idle, Patrol, Chase and Return are recorded only in the `hooks` log. They change no field.
- A combo's `ComboData` object is a value in the model. Nothing else holds a reference to it, so no aliasing is lost.
- Controller.EnemyController.OnAttackHit: the damageable component of the target is passed in by the caller (`null` when the target has none). The model does not look the component up on the target.
- PlayerController.cs and SkinnedMeshHighlighter.cs are not part of this model. The camera lock-on selector does not appear in the source files modelled here.

/** What the enemy controller guarantees, proved about the functions of module
    Machine (and so, through the class's postconditions, about the controller). */
module MachineProps {
  import opened Basics
  import opened Combat
  import opened Machine

  // ---------------------------------------------------------------------------
  // Combo selection

  /** The selection loop's result: a draw preceded only by rejected draws is
      the one FirstAcceptable picks. */
  lemma {:induction false} FirstAcceptableIsFirst(rolls: seq<int>, n: int, previous: int, k: int)
    requires FairRolls(rolls, n, previous)
    requires 0 <= k < |rolls| && Acceptable(rolls[k], n, previous)
    requires forall j :: 0 <= j < k ==> !Acceptable(rolls[j], n, previous)
    ensures FirstAcceptable(rolls, n, previous) == rolls[k]
    decreases k
  {
    if k > 0 {
      var tail := rolls[1..];
      assert tail[k - 1] == rolls[k];
      assert forall j :: 0 <= j < k - 1 ==> tail[j] == rolls[j + 1];
      FirstAcceptableIsFirst(tail, n, previous, k - 1);
    }
  }

  // ---------------------------------------------------------------------------
  // The invariant

  lemma TriggerAttackKeepsInv(c: Config, e: EnemyData, now: real)
    requires Inv(c, e)
    requires !e.isAttacking ==> e.currentComboCount < |c.combos[e.currentComboType].attackTimings|
    ensures Inv(c, TriggerAttack(c, e, now))
  {
  }

  lemma EnterStateKeepsInv(c: Config, e: EnemyData, now: real, rolls: seq<int>)
    requires Inv(c, e)
    requires e.currentState == Attack ==> FairRolls(rolls, |c.combos|, e.currentComboType)
    ensures Inv(c, EnterState(c, e, now, rolls))
  {
    if e.currentState == Attack {
      var logged := e.(hooks := e.hooks + [Enter(e.currentState)]);
      var reset := logged.(agent := logged.agent.(isStopped := true), isAttacking := false,
                           currentComboCount := 0, lastAttackTime := now,
                           triggers := ClearAllAnimationTriggers(logged.triggers));
      var selected := SelectComboType(c, reset, rolls);
      assert WellFormedCombo(c.combos[selected.currentComboType]);
      TriggerAttackKeepsInv(c, selected, now);
    }
  }

  lemma ChangeStateKeepsInv(c: Config, e: EnemyData, newState: EnemyState, now: real, rolls: seq<int>)
    requires Inv(c, e) && CanChange(c, e, newState, rolls)
    ensures Inv(c, ChangeState(c, e, newState, now, rolls))
  {
    if e.currentState != newState {
      var exited := ExitState(e);
      EnterStateKeepsInv(c, exited.(previousState := exited.currentState, currentState := newState), now, rolls);
    }
  }

  lemma SpotKeepsInv(c: Config, e: EnemyData, s: Sensors)
    requires Inv(c, e)
    ensures Inv(c, Spot(c, e, s))
  {
  }

  lemma UpdateIdleKeepsInv(c: Config, e: EnemyData, s: Sensors, now: real)
    requires Inv(c, e) && e.currentState == Idle
    ensures Inv(c, UpdateIdle(c, e, s, now))
  {
    SpotKeepsInv(c, e, s);
    ChangeStateKeepsInv(c, Spot(c, e, s), Chase, now, s.rolls);
    ChangeStateKeepsInv(c, e, Patrol, now, s.rolls);
  }

  lemma UpdatePatrolKeepsInv(c: Config, e: EnemyData, s: Sensors, now: real)
    requires Inv(c, e) && e.currentState == Patrol
    ensures Inv(c, UpdatePatrol(c, e, s, now))
  {
    SpotKeepsInv(c, e, s);
    ChangeStateKeepsInv(c, Spot(c, e, s), Chase, now, s.rolls);
  }

  lemma UpdateChaseKeepsInv(c: Config, e: EnemyData, s: Sensors, now: real)
    requires Inv(c, e) && e.currentState == Chase && FairRolls(s.rolls, |c.combos|, e.currentComboType)
    ensures Inv(c, UpdateChase(c, e, s, now))
  {
    ChangeStateKeepsInv(c, e, Return, now, s.rolls);
    ChangeStateKeepsInv(c, e, Attack, now, s.rolls);
  }

  lemma UpdateAttackKeepsInv(c: Config, e: EnemyData, s: Sensors, now: real)
    requires Inv(c, e) && e.currentState == Attack
    ensures Inv(c, UpdateAttack(c, e, s, now))
  {
    ChangeStateKeepsInv(c, e, Return, now, s.rolls);
    ChangeStateKeepsInv(c, e, Chase, now, s.rolls);
    if !e.isAttacking && e.currentComboCount < |c.combos[e.currentComboType].attackTimings| {
      TriggerAttackKeepsInv(c, e, now);
    }
    var cleared := e.(isAttacking := false, currentComboCount := 0,
                      triggers := ClearAllAnimationTriggers(e.triggers));
    ChangeStateKeepsInv(c, cleared, Chase, now, s.rolls);
  }

  lemma UpdateReturnKeepsInv(c: Config, e: EnemyData, s: Sensors, now: real)
    requires Inv(c, e) && e.currentState == Return
    ensures Inv(c, UpdateReturn(c, e, s, now))
  {
    ChangeStateKeepsInv(c, e, Patrol, now, s.rolls);
    var home := if Arrived(e, s) && s.reoriented then ChangeState(c, e, Patrol, now, s.rolls) else e;
    SpotKeepsInv(c, home, s);
    ChangeStateKeepsInv(c, Spot(c, home, s), Chase, now, s.rolls);
  }

  /** Every frame keeps the invariant. */
  lemma UpdateStateKeepsInv(c: Config, e: EnemyData, s: Sensors, now: real)
    requires Inv(c, e) && FairRolls(s.rolls, |c.combos|, e.currentComboType)
    ensures Inv(c, UpdateState(c, e, s, now))
  {
    match e.currentState
    case Idle => UpdateIdleKeepsInv(c, e, s, now);
    case Patrol => UpdatePatrolKeepsInv(c, e, s, now);
    case Chase => UpdateChaseKeepsInv(c, e, s, now);
    case Attack => UpdateAttackKeepsInv(c, e, s, now);
    case Return => UpdateReturnKeepsInv(c, e, s, now);
  }

  /** The animation-end callback keeps the invariant. */
  lemma OnAttackEndKeepsInv(c: Config, e: EnemyData)
    requires Inv(c, e)
    ensures Inv(c, OnAttackEnd(c, e))
  {
    var ended := e.(isAttacking := false, triggers := ClearAllAnimationTriggers(e.triggers));
    ChangeStateKeepsInv(c, ended.(currentComboCount := 0), Chase, 0.0, []);
  }

  // ---------------------------------------------------------------------------
  // Start-up and state switching

  /** Start from a spawned controller: unless the serialized state already is
      Patrol, it exits that state, enters Patrol at patrol speed and heads for
      the first waypoint; if it is Patrol, nothing happens (no destination). */
  lemma StartEntersPatrol(c: Config, state: EnemyState, previous: EnemyState, agent: NavAgent)
    requires ConfigOk(c)
    ensures var r := ChangeState(c, Spawned(state, previous, agent), Patrol, 0.0, []);
      && r.currentState == Patrol
      && Inv(c, r)
      && (state == Patrol ==> r == Spawned(state, previous, agent))
      && (state != Patrol ==>
            && r.previousState == state
            && r.agent.destination == c.waypoints[0]
            && r.agent.speed == c.settings.patrolSpeed && !r.agent.isStopped
            && r.hooks == [Exit(state), Enter(Patrol)])
  {
    ChangeStateKeepsInv(c, Spawned(state, previous, agent), Patrol, 0.0, []);
  }

  /** Once started, the range lookup always finds the selected combo: the
      fallback to attackRange is never taken. */
  lemma RangeNeverFallsBack(c: Config, e: EnemyData)
    requires Wf(c, e)
    ensures CurrentComboRange(c, e) == c.combos[e.currentComboType].comboRange
    ensures c.combos == DefaultCombos() ==> CurrentComboRange(c, e) in {1.2, 1.8, 2.0, 1.5}
  {
  }

  /** ChangeState to the current state runs no hook and changes nothing;
      to another state it runs the old state's exit hook, then the new
      state's enter hook, and records the old state as the previous one. */
  lemma ChangeStateHooks(c: Config, e: EnemyData, newState: EnemyState, now: real, rolls: seq<int>)
    requires CanChange(c, e, newState, rolls)
    ensures var r := ChangeState(c, e, newState, now, rolls);
      if e.currentState == newState then r == e
      else
        && r.currentState == newState
        && r.previousState == e.currentState
        && r.hooks == e.hooks + [Exit(e.currentState), Enter(newState)]
  {
  }

  /** Entering Attack from any other state stops the agent, draws a combo
      other than the previous one, and fires that combo's first attack: one
      attack in flight, counted once, stamped now, with the first trigger set. */
  lemma EnterAttackFiresFirstHit(c: Config, e: EnemyData, now: real, rolls: seq<int>)
    requires Wf(c, e) && e.currentState != Attack
    requires FairRolls(rolls, |c.combos|, e.currentComboType)
    ensures var r := ChangeState(c, e, Attack, now, rolls);
      && r.currentState == Attack && r.previousState == e.currentState
      && r.agent.isStopped
      && r.isAttacking && r.currentComboCount == 1 && r.lastAttackTime == now
      && 0 <= r.currentComboType < |c.combos|
      && r.currentComboType != e.currentComboType
      && r.currentComboType == FirstAcceptable(rolls, |c.combos|, e.currentComboType)
      && r.triggers == ClearAllAnimationTriggers(e.triggers) + {c.combos[r.currentComboType].animationTriggers[0]}
  {
    var r := ChangeState(c, e, Attack, now, rolls);
    assert WellFormedCombo(c.combos[r.currentComboType]);
  }

  // ---------------------------------------------------------------------------
  // The attack session

  /** TriggerAttack while an attack is in flight changes nothing. Otherwise it
      puts one in flight, stamps the time, counts it, and touches the triggers
      only when the combo has a trigger for the attack's index. */
  lemma TriggerAttackGuard(c: Config, e: EnemyData, now: real)
    requires Wf(c, e)
    ensures var r := TriggerAttack(c, e, now);
      var names := c.combos[e.currentComboType].animationTriggers;
      && (e.isAttacking ==> r == e)
      && (!e.isAttacking ==>
            && r == e.(isAttacking := true, lastAttackTime := now,
                       currentComboCount := e.currentComboCount + 1, triggers := r.triggers)
            && (e.currentComboCount < |names| ==>
                  r.triggers == ClearAllAnimationTriggers(e.triggers) + {names[e.currentComboCount]})
            && (e.currentComboCount >= |names| ==> r.triggers == e.triggers))
  {
  }

  /** With the built-in table only the first attack of a combo sets an
      animation trigger: every later one leaves the triggers as they are. */
  lemma OnlyFirstHitAnimates(c: Config, e: EnemyData, now: real)
    requires Wf(c, e) && c.combos == DefaultCombos()
    requires e.currentComboCount >= 1
    ensures TriggerAttack(c, e, now).triggers == e.triggers
  {
    DefaultTableShape();
  }

  /** The damage a landing hit deals: the combo's entry for the attack that
      fired last, else the default damage. A hit lands only with a target,
      facing it (dot above 0.5) and within 1.2 times the combo range. */
  lemma HitDamageRule(c: Config, e: EnemyData, facingDot: real, distance: real)
    requires Wf(c, e)
    ensures var d := HitDamage(c, e, facingDot, distance);
      var damages := c.combos[e.currentComboType].attackDamages;
      && (d.Some? <==> e.currentTarget.Some? && facingDot > 0.5
                       && distance <= c.combos[e.currentComboType].comboRange * 1.2)
      && (d.Some? && 1 <= e.currentComboCount <= |damages| ==> d.value == damages[e.currentComboCount - 1])
      && (d.Some? && !(1 <= e.currentComboCount <= |damages|) ==> d.value == c.settings.attackDamage)
  {
  }

  /** While an attack is in flight the fallback damage is never used when every
      timed attack of the combo has a damage entry (as in the built-in table). */
  lemma InFlightHitUsesTable(c: Config, e: EnemyData, facingDot: real, distance: real)
    requires Inv(c, e) && e.isAttacking
    requires |c.combos[e.currentComboType].attackDamages| >= |c.combos[e.currentComboType].attackTimings|
    requires HitDamage(c, e, facingDot, distance).Some?
    ensures HitDamage(c, e, facingDot, distance).value
            == c.combos[e.currentComboType].attackDamages[e.currentComboCount - 1]
  {
  }

  /** OnAttackEnd always ends the attack in flight. After the combo's last
      timed attack it resets the counter and switches to Chase; before that it
      leaves the counter and the state alone. It never looks at the state. */
  lemma OnAttackEndRule(c: Config, e: EnemyData)
    requires Wf(c, e)
    ensures var r := OnAttackEnd(c, e);
      var n := |c.combos[e.currentComboType].attackTimings|;
      && !r.isAttacking
      && (e.currentComboCount >= n ==> r.currentComboCount == 0 && r.currentState == Chase)
      && (e.currentComboCount < n ==> r.currentComboCount == e.currentComboCount && r.currentState == e.currentState)
      && r.currentWaypointIndex == e.currentWaypointIndex
  {
  }

  /** A stale end-of-attack event that arrives in any other state after a
      completed combo still forces Chase, with or without a player in sight. */
  lemma StaleAttackEndForcesChase(c: Config, e: EnemyData)
    requires Wf(c, e) && e.currentState != Chase && e.currentState != Attack
    requires e.currentComboCount >= |c.combos[e.currentComboType].attackTimings|
    ensures OnAttackEnd(c, e).currentState == Chase
    ensures OnAttackEnd(c, e).previousState == e.currentState
  {
  }

  // ---------------------------------------------------------------------------
  // Detection

  /** CanSeePlayer fails without a player, beyond the detection radius, or
      outside half the detection angle, and succeeds otherwise; only success
      records a target, and that target is the player. */
  lemma DetectionRule(c: Config, e: EnemyData, s: Sensors)
    ensures c.player.None? ==> !Sees(c, s)
    ensures s.distanceToPlayer > c.settings.detectionRadius ==> !Sees(c, s)
    ensures s.angleToPlayer > c.settings.detectionAngle / 2.0 ==> !Sees(c, s)
    ensures (c.player.Some? && s.distanceToPlayer <= c.settings.detectionRadius
             && s.angleToPlayer <= c.settings.detectionAngle / 2.0) ==> Sees(c, s)
    ensures Spot(c, e, s) == if Sees(c, s) then e.(currentTarget := c.player) else e
  {
  }

  // ---------------------------------------------------------------------------
  // Per-state rules

  /** Idle lasts one frame: Chase if the player is seen, Patrol otherwise. */
  lemma IdleRule(c: Config, e: EnemyData, s: Sensors, now: real)
    requires Wf(c, e) && e.currentState == Idle
    ensures var r := UpdateIdle(c, e, s, now);
      && (Sees(c, s) ==> r.currentState == Chase && r.currentTarget == c.player)
      && (!Sees(c, s) ==> r.currentState == Patrol && r.currentTarget == e.currentTarget)
  {
  }

  /** When Patrol's dwell has run out this frame: the wait started earlier and
      the wait time has passed since, or the agent has just arrived and the
      wait time is not positive (a wait starting now is then already over). */
  predicate DwellOver(c: Config, e: EnemyData, s: Sensors, now: real) {
    if e.isWaitingAtWaypoint then now >= e.waypointReachedTime + c.settings.waypointWaitTime
    else Arrived(e, s) && c.settings.waypointWaitTime <= 0.0
  }

  /** Patrol without the player in sight: the agent stays in Patrol; the wait
      starts when it stops within stopping distance with no path pending; the
      waypoint index moves, to the next one modulo the count and only then,
      when the wait has lasted waypointWaitTime; the agent is then sent there. */
  lemma PatrolRule(c: Config, e: EnemyData, s: Sensors, now: real)
    requires Wf(c, e) && e.currentState == Patrol && !Sees(c, s)
    ensures var r := UpdatePatrol(c, e, s, now);
      var next := NextWaypointIndex(e.currentWaypointIndex, |c.waypoints|);
      && r.currentState == Patrol
      && 0 <= r.currentWaypointIndex < |c.waypoints|
      && (DwellOver(c, e, s, now) ==>
            && r.currentWaypointIndex == next
            && r.agent.destination == c.waypoints[next]
            && !r.isWaitingAtWaypoint)
      && (!DwellOver(c, e, s, now) ==>
            && r.currentWaypointIndex == e.currentWaypointIndex
            && r.agent == e.agent
            && r.isWaitingAtWaypoint == (e.isWaitingAtWaypoint || Arrived(e, s))
            && r.waypointReachedTime == if e.isWaitingAtWaypoint then e.waypointReachedTime
                                        else if Arrived(e, s) then now else e.waypointReachedTime)
  {
  }

  /** Patrol with the player in sight switches to Chase and targets the player. */
  lemma PatrolSpotsPlayer(c: Config, e: EnemyData, s: Sensors, now: real)
    requires Wf(c, e) && e.currentState == Patrol && Sees(c, s)
    ensures var r := UpdatePatrol(c, e, s, now);
      && r.currentState == Chase && r.previousState == Patrol
      && r.currentTarget == c.player
      && r.currentWaypointIndex == e.currentWaypointIndex
  {
  }

  /** Chase: without a target it returns; within the combo's range it attacks
      (firing the first attack at once); beyond the maximum chase distance it
      returns; otherwise it stays and heads for the target's position. */
  lemma ChaseRule(c: Config, e: EnemyData, s: Sensors, now: real)
    requires Wf(c, e) && e.currentState == Chase
    requires FairRolls(s.rolls, |c.combos|, e.currentComboType)
    ensures var r := UpdateChase(c, e, s, now);
      var range := c.combos[e.currentComboType].comboRange;
      && (e.currentTarget.None? ==> r.currentState == Return)
      && (e.currentTarget.Some? && s.distanceToPlayer <= range ==>
            r.currentState == Attack && r.isAttacking && r.currentComboCount == 1)
      && (e.currentTarget.Some? && range < s.distanceToPlayer && s.distanceToPlayer > c.settings.maxChaseDistance ==>
            r.currentState == Return && r.agent.destination == c.startPosition)
      && (e.currentTarget.Some? && range < s.distanceToPlayer <= c.settings.maxChaseDistance ==>
            r == e.(agent := e.agent.(destination := s.playerPosition)))
  {
    if e.currentTarget.Some? && s.distanceToPlayer <= c.combos[e.currentComboType].comboRange {
      EnterAttackFiresFirstHit(c, e, now, s.rolls);
    }
  }

  /** Attack: without a target it returns; past 1.2 times the combo range it
      breaks off to Chase, ending the attack in flight and releasing the agent. */
  lemma AttackBreakOff(c: Config, e: EnemyData, s: Sensors, now: real)
    requires Wf(c, e) && e.currentState == Attack
    ensures var r := UpdateAttack(c, e, s, now);
      && (e.currentTarget.None? ==>
            && r.currentState == Return && !r.isAttacking
            && !r.agent.isStopped && r.agent.destination == c.startPosition)
      && (e.currentTarget.Some? && s.distanceToPlayer > c.combos[e.currentComboType].comboRange * 1.2 ==>
            r.currentState == Chase && !r.isAttacking && !r.agent.isStopped)
  {
  }

  /** Attack within range: the next attack fires once no attack is in flight
      and its delay has passed since the last one. */
  lemma AttackFiresNext(c: Config, e: EnemyData, s: Sensors, now: real)
    requires Wf(c, e) && e.currentState == Attack && e.currentTarget.Some?
    requires s.distanceToPlayer <= c.combos[e.currentComboType].comboRange * 1.2
    requires !e.isAttacking
    requires e.currentComboCount < |c.combos[e.currentComboType].attackTimings|
    requires now - e.lastAttackTime >= c.combos[e.currentComboType].attackTimings[e.currentComboCount]
    ensures var r := UpdateAttack(c, e, s, now);
      && r.currentState == Attack
      && r.isAttacking && r.lastAttackTime == now
      && r.currentComboCount == e.currentComboCount + 1
  {
  }

  /** The reset is the else-branch of "fire next": while the next attack is
      still due, the frame does nothing even after comboResetTime has passed. */
  lemma AttackWaitsForDelay(c: Config, e: EnemyData, s: Sensors, now: real)
    requires Wf(c, e) && e.currentState == Attack && e.currentTarget.Some?
    requires s.distanceToPlayer <= c.combos[e.currentComboType].comboRange * 1.2
    requires !e.isAttacking
    requires e.currentComboCount < |c.combos[e.currentComboType].attackTimings|
    requires now - e.lastAttackTime < c.combos[e.currentComboType].attackTimings[e.currentComboCount]
    ensures UpdateAttack(c, e, s, now) == e
  {
  }

  /** Otherwise (an attack in flight, or the combo used up) the session is
      reset and the enemy chases once comboResetTime has passed since the last
      attack or the combo is complete; until then nothing happens. */
  lemma AttackResets(c: Config, e: EnemyData, s: Sensors, now: real)
    requires Wf(c, e) && e.currentState == Attack && e.currentTarget.Some?
    requires s.distanceToPlayer <= c.combos[e.currentComboType].comboRange * 1.2
    requires e.isAttacking || e.currentComboCount >= |c.combos[e.currentComboType].attackTimings|
    ensures var r := UpdateAttack(c, e, s, now);
      var due := now >= e.lastAttackTime + c.settings.comboResetTime
                 || e.currentComboCount >= |c.combos[e.currentComboType].attackTimings|;
      && (due ==> r.currentState == Chase && r.currentComboCount == 0 && !r.isAttacking)
      && (!due ==> r == e)
  {
  }

  /** Return: both of its transitions are tested in the same frame, so an
      enemy that arrives home reoriented and sees the player goes to Patrol and
      from there on to Chase, running four hooks in one frame. */
  lemma ReturnHomeThenChase(c: Config, e: EnemyData, s: Sensors, now: real)
    requires Wf(c, e) && e.currentState == Return
    requires Arrived(e, s) && s.reoriented && Sees(c, s)
    ensures var r := UpdateReturn(c, e, s, now);
      && r.currentState == Chase && r.previousState == Patrol
      && r.hooks == e.hooks + [Exit(Return), Enter(Patrol), Exit(Patrol), Enter(Chase)]
      && r.currentTarget == c.player
  {
  }

  /** Return without the player in sight: Patrol once home and reoriented,
      otherwise it keeps returning. */
  lemma ReturnRule(c: Config, e: EnemyData, s: Sensors, now: real)
    requires Wf(c, e) && e.currentState == Return && !Sees(c, s)
    ensures var r := UpdateReturn(c, e, s, now);
      && (Arrived(e, s) && s.reoriented ==> r.currentState == Patrol && !r.isWaitingAtWaypoint)
      && (!(Arrived(e, s) && s.reoriented) ==> r == e)
  {
  }

  /** Return with the player in sight before it is home and reoriented: it
      breaks off the way home and chases. */
  lemma ReturnSpotsPlayer(c: Config, e: EnemyData, s: Sensors, now: real)
    requires Wf(c, e) && e.currentState == Return && Sees(c, s)
    requires !(Arrived(e, s) && s.reoriented)
    ensures var r := UpdateReturn(c, e, s, now);
      && r.currentState == Chase && r.previousState == Return
      && r.currentTarget == c.player
  {
  }

  /** No exit or enter hook touches the waypoint index: EnterPatrol only
      steers toward the current waypoint. */
  lemma ChangeStateKeepsWaypointIndex(c: Config, e: EnemyData, newState: EnemyState, now: real, rolls: seq<int>)
    requires CanChange(c, e, newState, rolls)
    ensures ChangeState(c, e, newState, now, rolls).currentWaypointIndex == e.currentWaypointIndex
    ensures newState == Patrol && e.currentState != Patrol ==>
      ChangeState(c, e, newState, now, rolls).agent.destination == c.waypoints[e.currentWaypointIndex]
  {
  }

  /** Only a Patrol frame moves the waypoint index, and only one step on. */
  lemma WaypointIndexMovesOnlyInPatrol(c: Config, e: EnemyData, s: Sensors, now: real)
    requires Wf(c, e) && FairRolls(s.rolls, |c.combos|, e.currentComboType)
    ensures var r := UpdateState(c, e, s, now);
      || r.currentWaypointIndex == e.currentWaypointIndex
      || (e.currentState == Patrol
          && r.currentWaypointIndex == NextWaypointIndex(e.currentWaypointIndex, |c.waypoints|))
  {
    var seen := Spot(c, e, s);
    match e.currentState
    case Idle =>
      ChangeStateKeepsWaypointIndex(c, seen, Chase, now, s.rolls);
      ChangeStateKeepsWaypointIndex(c, e, Patrol, now, s.rolls);
    case Patrol =>
      ChangeStateKeepsWaypointIndex(c, seen, Chase, now, s.rolls);
    case Chase =>
      ChangeStateKeepsWaypointIndex(c, e, Return, now, s.rolls);
      ChangeStateKeepsWaypointIndex(c, e, Attack, now, s.rolls);
    case Attack =>
      ChangeStateKeepsWaypointIndex(c, e, Return, now, s.rolls);
      ChangeStateKeepsWaypointIndex(c, e, Chase, now, s.rolls);
      ChangeStateKeepsWaypointIndex(c, e.(isAttacking := false, currentComboCount := 0,
                                          triggers := ClearAllAnimationTriggers(e.triggers)), Chase, now, s.rolls);
    case Return =>
      ChangeStateKeepsWaypointIndex(c, e, Patrol, now, s.rolls);
      var home := if Arrived(e, s) && s.reoriented then ChangeState(c, e, Patrol, now, s.rolls) else e;
      ChangeStateKeepsWaypointIndex(c, Spot(c, home, s), Chase, now, s.rolls);
  }

  // ---------------------------------------------------------------------------
  // The transition graph

  /** The edges a frame may take: staying, or one of the listed transitions. */
  predicate TableEdge(from: EnemyState, to: EnemyState) {
    || from == to
    || (from == Idle && (to == Chase || to == Patrol))
    || (from == Patrol && to == Chase)
    || (from == Chase && (to == Return || to == Attack))
    || (from == Attack && (to == Return || to == Chase))
    || (from == Return && (to == Chase || to == Patrol))
  }

  /** Every frame follows the transition table (Return's Patrol-then-Chase
      frame counts as Return to Chase). */
  lemma UpdateFollowsTable(c: Config, e: EnemyData, s: Sensors, now: real)
    requires Wf(c, e) && FairRolls(s.rolls, |c.combos|, e.currentComboType)
    ensures TableEdge(e.currentState, UpdateState(c, e, s, now).currentState)
  {
    match e.currentState
    case Idle => IdleRule(c, e, s, now);
    case Patrol =>
      if !Sees(c, s) { PatrolRule(c, e, s, now); }
    case Chase => ChaseRule(c, e, s, now);
    case Attack =>
      if e.currentTarget.Some? && s.distanceToPlayer <= c.combos[e.currentComboType].comboRange * 1.2 {
        var n := |c.combos[e.currentComboType].attackTimings|;
        if !e.isAttacking && e.currentComboCount < n {
          if now - e.lastAttackTime >= c.combos[e.currentComboType].attackTimings[e.currentComboCount] {
            AttackFiresNext(c, e, s, now);
          }
        } else {
          AttackResets(c, e, s, now);
        }
      }
    case Return =>
      if !Sees(c, s) { ReturnRule(c, e, s, now); }
  }

  // ---------------------------------------------------------------------------
  // Waypoint cycling

  /** The waypoint index after k advances from index i of n. */
  function AdvanceTimes(i: int, n: int, k: nat): (r: int)
    requires 0 <= i < n
    ensures 0 <= r < n
    decreases k
  {
    if k == 0 then i else AdvanceTimes(NextWaypointIndex(i, n), n, k - 1)
  }

  /** Short of the last waypoint, k advances move the index k places on. */
  lemma {:induction false} AdvanceInRange(i: int, n: int, k: nat)
    requires 0 <= i && i + k < n
    ensures AdvanceTimes(i, n, k) == i + k
    decreases k
  {
    if k > 0 {
      AdvanceInRange(i + 1, n, k - 1);
    }
  }

  /** Advancing a + b times is advancing a times, then b times. */
  lemma {:induction false} AdvanceCompose(i: int, n: int, a: nat, b: nat)
    requires 0 <= i < n
    ensures AdvanceTimes(i, n, a + b) == AdvanceTimes(AdvanceTimes(i, n, a), n, b)
    decreases a
  {
    if a > 0 {
      AdvanceCompose(NextWaypointIndex(i, n), n, a - 1, b);
    }
  }

  /** From index i, n - i advances wrap round to the first waypoint. */
  lemma AdvanceWraps(i: int, n: int)
    requires 0 <= i < n
    ensures AdvanceTimes(i, n, n - i) == 0
  {
    AdvanceCompose(i, n, n - 1 - i, 1);
    AdvanceInRange(i, n, n - 1 - i);
  }

  /** Some number of advances, fewer than n, takes index i to index j. */
  ghost predicate Reaches(i: int, n: int, j: int)
    requires 0 <= i < n
  {
    exists k :: 0 <= k < n && AdvanceTimes(i, n, k) == j
  }

  /** Patrol visits every waypoint in turn and is back at its start after n
      advances. */
  lemma WaypointCycle(i: int, n: int)
    requires 0 <= i < n
    ensures AdvanceTimes(i, n, n) == i
    ensures forall j :: 0 <= j < n ==> Reaches(i, n, j)
  {
    AdvanceCompose(i, n, n - i, i);
    AdvanceWraps(i, n);
    AdvanceInRange(0, n, i);
    forall j | 0 <= j < n
      ensures Reaches(i, n, j)
    {
      if j >= i {
        AdvanceInRange(i, n, j - i);
        assert AdvanceTimes(i, n, j - i) == j;
      } else {
        AdvanceCompose(i, n, n - i, j);
        AdvanceInRange(0, n, j);
        assert AdvanceTimes(i, n, n - i + j) == j;
      }
    }
  }
}

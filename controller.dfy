/** The enemy AI controller as a class whose fields are updated in place
    (EnemyController.cs). Every state-changing method is proved to change the
    fields exactly as its counterpart in module Machine says (CanSeePlayer as
    Spot and Sees, OnAttackHit as HitDamage followed by Health.AfterHit on the
    target's component); GetCurrentComboRange is a function and changes
    nothing. `Data()` is the record of all mutable fields and `Valid()` the
    invariant that every public entry point keeps. */
module Controller {
  import opened Basics
  import opened Combat
  import opened Machine
  import MachineProps
  import Health

  class EnemyController {
    const cfg: Config

    var currentState: EnemyState
    var previousState: EnemyState
    var currentTarget: Option<ObjectId>
    var agent: NavAgent
    var triggers: set<string>
    var currentWaypointIndex: int
    var waypointReachedTime: real
    var isWaitingAtWaypoint: bool
    var currentComboCount: nat
    var lastAttackTime: real
    var isAttacking: bool
    var currentComboType: int
    /** The enter and exit hooks run so far, in order. */
    ghost var hooks: seq<Hook>

    ghost function Data(): EnemyData
      reads this
    {
      EnemyData(currentState, previousState, currentTarget, agent, triggers,
                currentWaypointIndex, waypointReachedTime, isWaitingAtWaypoint,
                currentComboCount, lastAttackTime, isAttacking, currentComboType, hooks)
    }

    ghost predicate Valid()
      reads this
    {
      Inv(cfg, Data())
    }

    /** Awake and Start: record the spawn point, fall back to two waypoints when
        none are configured, fill in the combo table, and change to Patrol
        (which does nothing if the serialized state already is Patrol). */
    constructor (settings: Settings := DefaultSettings(), player: Option<ObjectId>, position: Vec3, forward: Vec3,
                 configuredWaypoints: seq<Vec3>, configuredCombos: seq<Option<ComboData>>,
                 agent: NavAgent, serializedState: EnemyState, serializedPrevious: EnemyState)
      ensures cfg == Config(settings, player, position,
                            StartWaypoints(configuredWaypoints, position, forward),
                            InitializeCombos(configuredCombos))
      ensures Data() == Machine.ChangeState(cfg, Spawned(serializedState, serializedPrevious, agent), Patrol, 0.0, [])
      ensures Valid()
    {
      cfg := Config(settings, player, position,
                    StartWaypoints(configuredWaypoints, position, forward),
                    InitializeCombos(configuredCombos));
      currentState, previousState := serializedState, serializedPrevious;
      currentTarget := None;
      this.agent := agent;
      triggers := {};
      currentWaypointIndex, waypointReachedTime, isWaitingAtWaypoint := 0, 0.0, false;
      currentComboCount, lastAttackTime, isAttacking, currentComboType := 0, 0.0, false, 0;
      hooks := [];
      new;
      MachineProps.ChangeStateKeepsInv(cfg, Data(), Patrol, 0.0, []);
      ChangeState(Patrol, 0.0, []);
    }

    // -------------------------------------------------------------------------
    // State switching

    method ChangeState(newState: EnemyState, now: real, rolls: seq<int>)
      requires CanChange(cfg, Data(), newState, rolls)
      modifies this
      ensures Data() == Machine.ChangeState(cfg, old(Data()), newState, now, rolls)
    {
      if currentState == newState {
        return;
      }

      hooks := hooks + [Exit(currentState)];
      match currentState {
        case Attack => ExitAttackState();
        case _ =>  // the other exit hooks do nothing
      }

      previousState := currentState;
      currentState := newState;

      hooks := hooks + [Enter(newState)];
      match newState {
        case Idle => EnterIdleState();
        case Patrol => EnterPatrolState();
        case Chase => EnterChaseState();
        case Attack => EnterAttackState(now, rolls);
        case Return => EnterReturnState();
      }
    }

    /** UpdateState: one frame of the current state. */
    method UpdateState(now: real, s: Sensors)
      requires Wf(cfg, Data()) && FairRolls(s.rolls, |cfg.combos|, currentComboType)
      modifies this
      ensures Data() == Machine.UpdateState(cfg, old(Data()), s, now)
    {
      match currentState {
        case Idle => UpdateIdleState(now, s);
        case Patrol => UpdatePatrolState(now, s);
        case Chase => UpdateChaseState(now, s);
        case Attack => UpdateAttackState(now, s);
        case Return => UpdateReturnState(now, s);
      }
    }

    /** One frame, from the outside: the invariant is kept. */
    method Update(now: real, s: Sensors)
      requires Valid() && FairRolls(s.rolls, |cfg.combos|, currentComboType)
      modifies this
      ensures Valid()
      ensures Data() == Machine.UpdateState(cfg, old(Data()), s, now)
    {
      MachineProps.UpdateStateKeepsInv(cfg, Data(), s, now);
      UpdateState(now, s);
    }

    // -------------------------------------------------------------------------
    // Idle

    method EnterIdleState()
      modifies this
      ensures Data() == EnterIdle(old(Data()))
    {
      agent := agent.(isStopped := true);
    }

    method UpdateIdleState(now: real, s: Sensors)
      requires Wf(cfg, Data())
      modifies this
      ensures Data() == UpdateIdle(cfg, old(Data()), s, now)
    {
      var seen := CanSeePlayer(s);
      if seen {
        ChangeState(Chase, now, s.rolls);
        return;
      }
      ChangeState(Patrol, now, s.rolls);
    }

    // -------------------------------------------------------------------------
    // Patrol

    method EnterPatrolState()
      requires Wf(cfg, Data())
      modifies this
      ensures Data() == EnterPatrol(cfg, old(Data()))
    {
      agent := agent.(speed := cfg.settings.patrolSpeed, acceleration := PatrolAcceleration,
                      stoppingDistance := PatrolStoppingDistance, isStopped := false);
      isWaitingAtWaypoint := false;
      MoveToCurrentWaypoint();
    }

    method UpdatePatrolState(now: real, s: Sensors)
      requires Wf(cfg, Data())
      modifies this
      ensures Data() == UpdatePatrol(cfg, old(Data()), s, now)
    {
      var seen := CanSeePlayer(s);
      if seen {
        ChangeState(Chase, now, s.rolls);
        return;
      }

      if !isWaitingAtWaypoint && s.remainingDistance <= agent.stoppingDistance {
        if !s.pathPending {
          isWaitingAtWaypoint := true;
          waypointReachedTime := now;
        }
      }

      if isWaitingAtWaypoint && now >= waypointReachedTime + cfg.settings.waypointWaitTime {
        isWaitingAtWaypoint := false;
        MoveToNextWaypoint();
      }
    }

    method MoveToCurrentWaypoint()
      requires Wf(cfg, Data())
      modifies this
      ensures Data() == Machine.MoveToCurrentWaypoint(cfg, old(Data()))
    {
      if |cfg.waypoints| == 0 {
        return;
      }
      agent := agent.(destination := cfg.waypoints[currentWaypointIndex]);
    }

    method MoveToNextWaypoint()
      requires Wf(cfg, Data())
      modifies this
      ensures Data() == Machine.MoveToNextWaypoint(cfg, old(Data()))
    {
      if |cfg.waypoints| == 0 {
        return;
      }
      currentWaypointIndex := (currentWaypointIndex + 1) % |cfg.waypoints|;
      agent := agent.(destination := cfg.waypoints[currentWaypointIndex]);
    }

    // -------------------------------------------------------------------------
    // Chase

    method EnterChaseState()
      modifies this
      ensures Data() == EnterChase(cfg, old(Data()))
    {
      agent := agent.(speed := cfg.settings.chaseSpeed, acceleration := cfg.settings.chaseAcceleration,
                      stoppingDistance := cfg.settings.chaseStoppingDistance, isStopped := false);
    }

    method UpdateChaseState(now: real, s: Sensors)
      requires Wf(cfg, Data()) && FairRolls(s.rolls, |cfg.combos|, currentComboType)
      modifies this
      ensures Data() == UpdateChase(cfg, old(Data()), s, now)
    {
      if currentTarget.None? {
        ChangeState(Return, now, s.rolls);
        return;
      }

      var distanceToTarget := s.distanceToPlayer;
      if distanceToTarget <= GetCurrentComboRange() {
        ChangeState(Attack, now, s.rolls);
        return;
      }

      if distanceToTarget > cfg.settings.maxChaseDistance {
        ChangeState(Return, now, s.rolls);
        return;
      }

      agent := agent.(destination := s.playerPosition);
    }

    // -------------------------------------------------------------------------
    // Attack

    method EnterAttackState(now: real, rolls: seq<int>)
      requires Wf(cfg, Data()) && FairRolls(rolls, |cfg.combos|, currentComboType)
      modifies this
      ensures Data() == EnterAttack(cfg, old(Data()), now, rolls)
    {
      agent := agent.(isStopped := true);
      isAttacking := false;
      currentComboCount := 0;
      lastAttackTime := now;
      ClearAllAnimationTriggers();
      SelectComboType(rolls);
      TriggerAttack(now);
    }

    method UpdateAttackState(now: real, s: Sensors)
      requires Wf(cfg, Data())
      modifies this
      ensures Data() == UpdateAttack(cfg, old(Data()), s, now)
    {
      if currentTarget.None? {
        ChangeState(Return, now, s.rolls);
        return;
      }

      // Turning toward the target is the engine's business.
      var distanceToTarget := s.distanceToPlayer;
      if distanceToTarget > GetCurrentComboRange() * BreakOffFactor {
        ChangeState(Chase, now, s.rolls);
        return;
      }

      var currentCombo := cfg.combos[currentComboType];
      if !isAttacking && currentComboCount < |currentCombo.attackTimings| {
        var timeSinceLastAttack := now - lastAttackTime;
        var requiredDelay := currentCombo.attackTimings[currentComboCount];
        if timeSinceLastAttack >= requiredDelay {
          TriggerAttack(now);
        }
      } else if now >= lastAttackTime + cfg.settings.comboResetTime
                || currentComboCount >= |currentCombo.attackTimings| {
        isAttacking := false;
        currentComboCount := 0;
        ClearAllAnimationTriggers();
        ChangeState(Chase, now, s.rolls);
      }
    }

    /** SelectComboType: draw until the draw differs from the previous combo
        (or there is only one combo). */
    method SelectComboType(rolls: seq<int>)
      requires Wf(cfg, Data()) && FairRolls(rolls, |cfg.combos|, currentComboType)
      modifies this
      ensures Data() == Machine.SelectComboType(cfg, old(Data()), rolls)
    {
      var n := |cfg.combos|;
      ghost var w :| 0 <= w < |rolls| && Acceptable(rolls[w], n, currentComboType);
      var k := 0;
      var newComboType := rolls[k];
      while newComboType == currentComboType && n > 1
        invariant 0 <= k <= w && newComboType == rolls[k]
        invariant forall j :: 0 <= j < k ==> !Acceptable(rolls[j], n, currentComboType)
        decreases w - k
      {
        k := k + 1;
        newComboType := rolls[k];
      }
      MachineProps.FirstAcceptableIsFirst(rolls, n, currentComboType, k);
      currentComboType := newComboType;
    }

    method TriggerAttack(now: real)
      requires Wf(cfg, Data())
      modifies this
      ensures Data() == Machine.TriggerAttack(cfg, old(Data()), now)
    {
      if isAttacking {
        return;  // an attack is already in flight
      }

      isAttacking := true;
      lastAttackTime := now;

      var currentCombo := cfg.combos[currentComboType];
      if currentComboCount < |currentCombo.animationTriggers| {
        var triggerName := currentCombo.animationTriggers[currentComboCount];
        ClearAllAnimationTriggers();
        triggers := triggers + {triggerName};
      }

      currentComboCount := currentComboCount + 1;
    }

    /** GetCurrentComboRange: the selected combo's range (see Machine.CurrentComboRange). */
    function GetCurrentComboRange(): (r: real)
      reads this
      ensures 0 <= currentComboType < |cfg.combos| ==> r == cfg.combos[currentComboType].comboRange
      ensures !(0 <= currentComboType < |cfg.combos|) ==> r == cfg.settings.attackRange
    {
      ComboRange(cfg.combos, currentComboType, cfg.settings.attackRange)
    }

    /** OnAttackHit (an animation event): deliver this hit's damage to the
        target's damageable component, when there is one and the hit lands. */
    method OnAttackHit(facingDot: real, distance: real, health: Health.Damageable?)
      requires Wf(cfg, Data())
      modifies health
      ensures health != null && HitDamage(cfg, Data(), facingDot, distance).Some? ==>
        health.Vital() == Health.AfterHit(old(health.Vital()), HitDamage(cfg, Data(), facingDot, distance).value)
      ensures health != null && HitDamage(cfg, Data(), facingDot, distance).None? ==> unchanged(health)
    {
      if currentTarget.Some? {
        if facingDot > MinFacingDot && distance <= GetCurrentComboRange() * BreakOffFactor {
          var damage := AttackDamage(cfg.combos[currentComboType], currentComboCount, cfg.settings.attackDamage);
          if health != null {
            health.TakeDamage(damage);
          }
        }
      }
    }

    /** OnAttackEnd (an animation event), from the outside: the invariant is kept. */
    method OnAttackEnd()
      requires Valid()
      modifies this
      ensures Valid()
      ensures Data() == Machine.OnAttackEnd(cfg, old(Data()))
    {
      MachineProps.OnAttackEndKeepsInv(cfg, Data());
      isAttacking := false;
      var currentCombo := cfg.combos[currentComboType];
      ClearAllAnimationTriggers();
      if currentComboCount >= |currentCombo.attackTimings| {
        currentComboCount := 0;
        ChangeState(Chase, 0.0, []);
      }
    }

    method ClearAllAnimationTriggers()
      modifies this
      ensures Data() == old(Data()).(triggers := Machine.ClearAllAnimationTriggers(old(triggers)))
    {
      triggers := triggers - AllTriggerNames;
    }

    method ExitAttackState()
      modifies this
      ensures Data() == ExitAttack(old(Data()))
    {
      isAttacking := false;
      agent := agent.(isStopped := false);
      ClearAllAnimationTriggers();
    }

    // -------------------------------------------------------------------------
    // Return

    method EnterReturnState()
      modifies this
      ensures Data() == EnterReturn(cfg, old(Data()))
    {
      agent := agent.(speed := cfg.settings.patrolSpeed, acceleration := PatrolAcceleration,
                      stoppingDistance := PatrolStoppingDistance, isStopped := false,
                      destination := cfg.startPosition);
    }

    /** The turn toward the spawn rotation is the engine's; `s.reoriented`
        reports whether it has come within one degree. */
    method UpdateReturnState(now: real, s: Sensors)
      requires Wf(cfg, Data())
      modifies this
      ensures Data() == UpdateReturn(cfg, old(Data()), s, now)
    {
      if s.remainingDistance <= agent.stoppingDistance && !s.pathPending {
        if s.reoriented {
          ChangeState(Patrol, now, s.rolls);
        }
      }

      var seen := CanSeePlayer(s);
      if seen {
        ChangeState(Chase, now, s.rolls);
      }
    }

    // -------------------------------------------------------------------------
    // Detection

    /** CanSeePlayer: radius and cone test; on success the player becomes the target. */
    method CanSeePlayer(s: Sensors) returns (seen: bool)
      modifies this
      ensures seen == Sees(cfg, s)
      ensures Data() == Spot(cfg, old(Data()), s)
    {
      if cfg.player.None? {
        return false;
      }
      if s.distanceToPlayer > cfg.settings.detectionRadius {
        return false;
      }
      if s.angleToPlayer > cfg.settings.detectionAngle * 0.5 {
        return false;
      }
      currentTarget := cfg.player;
      return true;
    }
  }
}

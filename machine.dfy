/** The enemy controller's state machine as functions on a record of its
    fields (EnemyController.cs). Each function is one method of the controller:
    the class in module Controller is proved to change its fields exactly as
    these functions say, and module MachineProps proves what they guarantee.

    Engine services are replaced by values: `now` is Time.time, the navigation
    agent is the record NavAgent plus the measured inputs in Sensors, animator
    triggers are a set of names, and Random.Range is a stream of draws. */
module Machine {
  import opened Basics
  import opened Combat

  datatype EnemyState = Idle | Patrol | Chase | Attack | Return

  /** An entry of the hook log: which exit or enter hook ran. */
  datatype Hook = Exit(left: EnemyState) | Enter(entered: EnemyState)

  /** A game object, by identity. */
  type ObjectId = nat

  /** The serialized tuning fields that the controller reads. */
  datatype Settings = Settings(
    detectionRadius: real,
    detectionAngle: real,
    maxChaseDistance: real,
    waypointWaitTime: real,
    patrolSpeed: real,
    chaseSpeed: real,
    chaseAcceleration: real,
    chaseStoppingDistance: real,
    attackRange: real,
    comboResetTime: real,
    attackDamage: real)

  /** The field initialisers of the controller. */
  function DefaultSettings(): Settings {
    Settings(15.0, 110.0, 20.0, 180.0, 2.0, 4.5, 8.0, 1.5, 1.5, 2.0, 10.0)
  }

  /** Agent settings used by both Patrol and Return. */
  const PatrolAcceleration: real := 4.0
  const PatrolStoppingDistance: real := 0.1
  /** Attack keeps going (and a hit lands) up to this multiple of the combo range. */
  const BreakOffFactor: real := 1.2
  /** A hit lands only if dot(forward, direction to target) exceeds this. */
  const MinFacingDot: real := 0.5
  /** Distance of the second fallback waypoint ahead of the spawn point. */
  const FallbackWaypointDistance: real := 5.0

  /** Every trigger name the controller resets when it clears triggers. */
  const AllTriggerNames: set<string> := {
    "QuickJab1", "QuickJab2", "QuickJab3",
    "HeavyStrike1", "HeavyStrike2", "HeavyStrike3",
    "SpinAttack1", "SpinAttack2", "SpinAttack3", "SpinAttack4",
    "UppercutSetup", "UppercutHit", "UppercutFinish"}

  /** What is fixed once the controller has started: tuning, the player
      reference, the spawn point, the waypoints and the combo table. */
  datatype Config = Config(
    settings: Settings,
    player: Option<ObjectId>,
    startPosition: Vec3,
    waypoints: seq<Vec3>,
    combos: seq<ComboData>)

  /** The NavMeshAgent settings the controller writes. */
  datatype NavAgent = NavAgent(
    speed: real,
    acceleration: real,
    stoppingDistance: real,
    isStopped: bool,
    destination: Vec3)

  /** The controller's mutable fields; `hooks` logs the hooks run so far. */
  datatype EnemyData = EnemyData(
    currentState: EnemyState,
    previousState: EnemyState,
    currentTarget: Option<ObjectId>,
    agent: NavAgent,
    triggers: set<string>,
    currentWaypointIndex: int,
    waypointReachedTime: real,
    isWaitingAtWaypoint: bool,
    currentComboCount: nat,
    lastAttackTime: real,
    isAttacking: bool,
    currentComboType: int,
    hooks: seq<Hook>)

  /** What the engine reports during one frame. `distanceToPlayer` is also the
      distance to the current target, which is only ever the player;
      `reoriented` says the turn toward the spawn rotation made this frame
      left less than one degree. `rolls` are the successive Random.Range draws. */
  datatype Sensors = Sensors(
    playerPosition: Vec3,
    distanceToPlayer: real,
    angleToPlayer: real,
    remainingDistance: real,
    pathPending: bool,
    reoriented: bool,
    rolls: seq<int>)

  // ---------------------------------------------------------------------------
  // Well-formedness

  /** What Start establishes about the fixed data. */
  predicate ConfigOk(c: Config) {
    && |c.waypoints| >= 1
    && |c.combos| == 4
    && (forall i :: 0 <= i < |c.combos| ==> WellFormedCombo(c.combos[i]))
  }

  /** The indices the controller dereferences are in range. */
  predicate Wf(c: Config, e: EnemyData) {
    && ConfigOk(c)
    && 0 <= e.currentWaypointIndex < |c.waypoints|
    && 0 <= e.currentComboType < |c.combos|
  }

  /** The controller's invariant: besides Wf, the combo counter never passes
      the length of the selected combo, an attack in flight has been counted,
      and the only target ever recorded is the player. */
  predicate Inv(c: Config, e: EnemyData) {
    && Wf(c, e)
    && e.currentComboCount <= |c.combos[e.currentComboType].attackTimings|
    && (e.isAttacking ==> e.currentComboCount >= 1)
    && (e.currentTarget.Some? ==> e.currentTarget == c.player)
  }

  // ---------------------------------------------------------------------------
  // Start-up

  /** The fields as the controller is spawned, before Start runs: the
      serialized states, no target, nothing waited on or attacked yet. */
  function Spawned(state: EnemyState, previous: EnemyState, agent: NavAgent): EnemyData {
    EnemyData(state, previous, None, agent, {}, 0, 0.0, false, 0, 0.0, false, 0, [])
  }

  /** Start's waypoint fallback: no configured waypoint gives two, the spawn
      point and a point five units ahead of it. */
  function StartWaypoints(configured: seq<Vec3>, startPosition: Vec3, forward: Vec3): (r: seq<Vec3>)
    ensures |r| >= 1
    ensures configured != [] ==> r == configured
    ensures configured == [] ==>
      |r| == 2 && r[0] == startPosition && r[1] == Add(startPosition, Scale(forward, FallbackWaypointDistance))
  {
    if configured == [] then [startPosition, Add(startPosition, Scale(forward, FallbackWaypointDistance))]
    else configured
  }

  // ---------------------------------------------------------------------------
  // Random combo selection

  /** One Random.Range draw ends the selection loop when it differs from the
      previous combo, or when there is at most one combo. */
  predicate Acceptable(roll: int, n: int, previous: int) {
    roll != previous || n <= 1
  }

  /** The draws are what Random.Range(0, n) can return, and one of them ends
      the loop (the loop itself could otherwise retry for ever). */
  predicate FairRolls(rolls: seq<int>, n: int, previous: int) {
    && (forall k :: 0 <= k < |rolls| ==> 0 <= rolls[k] < n)
    && (exists k :: 0 <= k < |rolls| && Acceptable(rolls[k], n, previous))
  }

  /** The combo the selection loop settles on: the first acceptable draw. */
  function FirstAcceptable(rolls: seq<int>, n: int, previous: int): (r: int)
    requires FairRolls(rolls, n, previous)
    ensures 0 <= r < n
    ensures n > 1 ==> r != previous
    ensures r in rolls
    decreases |rolls|
  {
    if Acceptable(rolls[0], n, previous) then rolls[0]
    else
      var k :| 0 <= k < |rolls| && Acceptable(rolls[k], n, previous);
      assert rolls[1..][k - 1] == rolls[k];
      FirstAcceptable(rolls[1..], n, previous)
  }

  // ---------------------------------------------------------------------------
  // Helpers shared by several states

  function ClearAllAnimationTriggers(t: set<string>): set<string> {
    t - AllTriggerNames
  }

  /** CanSeePlayer's test: a player is assigned, within the detection radius,
      and within half the detection angle of the forward direction. */
  predicate Sees(c: Config, s: Sensors) {
    && c.player.Some?
    && s.distanceToPlayer <= c.settings.detectionRadius
    && s.angleToPlayer <= c.settings.detectionAngle * 0.5
  }

  /** CanSeePlayer's side effect: on success the player becomes the target. */
  function Spot(c: Config, e: EnemyData, s: Sensors): EnemyData {
    if Sees(c, s) then e.(currentTarget := c.player) else e
  }

  function CurrentComboRange(c: Config, e: EnemyData): real {
    ComboRange(c.combos, e.currentComboType, c.settings.attackRange)
  }

  function CurrentAttackDamage(c: Config, e: EnemyData): real
    requires Wf(c, e)
  {
    AttackDamage(c.combos[e.currentComboType], e.currentComboCount, c.settings.attackDamage)
  }

  function MoveToCurrentWaypoint(c: Config, e: EnemyData): EnemyData
    requires Wf(c, e)
  {
    if |c.waypoints| == 0 then e
    else e.(agent := e.agent.(destination := c.waypoints[e.currentWaypointIndex]))
  }

  /** The waypoint after index i of n, wrapping to the first. */
  function NextWaypointIndex(i: int, n: int): (r: int)
    requires 0 <= i < n
    ensures 0 <= r < n
    ensures r == i + 1 || (i == n - 1 && r == 0)
  {
    (i + 1) % n
  }

  function MoveToNextWaypoint(c: Config, e: EnemyData): EnemyData
    requires Wf(c, e)
  {
    if |c.waypoints| == 0 then e
    else
      var i := NextWaypointIndex(e.currentWaypointIndex, |c.waypoints|);
      e.(currentWaypointIndex := i, agent := e.agent.(destination := c.waypoints[i]))
  }

  // ---------------------------------------------------------------------------
  // The attack session

  /** TriggerAttack: refused while an attack is in flight; otherwise marks one
      in flight, stamps the time, fires the trigger for the current index if
      the combo has one, and advances the counter. */
  function TriggerAttack(c: Config, e: EnemyData, now: real): EnemyData
    requires Wf(c, e)
  {
    if e.isAttacking then e
    else
      var combo := c.combos[e.currentComboType];
      var t := if e.currentComboCount < |combo.animationTriggers|
               then ClearAllAnimationTriggers(e.triggers) + {combo.animationTriggers[e.currentComboCount]}
               else e.triggers;
      e.(isAttacking := true, lastAttackTime := now, triggers := t,
         currentComboCount := e.currentComboCount + 1)
  }

  function SelectComboType(c: Config, e: EnemyData, rolls: seq<int>): EnemyData
    requires FairRolls(rolls, |c.combos|, e.currentComboType)
  {
    e.(currentComboType := FirstAcceptable(rolls, |c.combos|, e.currentComboType))
  }

  // ---------------------------------------------------------------------------
  // Enter and exit hooks

  function EnterIdle(e: EnemyData): EnemyData {
    e.(agent := e.agent.(isStopped := true))
  }

  function EnterPatrol(c: Config, e: EnemyData): EnemyData
    requires Wf(c, e)
  {
    MoveToCurrentWaypoint(c, e.(
      agent := e.agent.(speed := c.settings.patrolSpeed, acceleration := PatrolAcceleration,
                        stoppingDistance := PatrolStoppingDistance, isStopped := false),
      isWaitingAtWaypoint := false))
  }

  function EnterChase(c: Config, e: EnemyData): EnemyData {
    e.(agent := e.agent.(speed := c.settings.chaseSpeed, acceleration := c.settings.chaseAcceleration,
                         stoppingDistance := c.settings.chaseStoppingDistance, isStopped := false))
  }

  function EnterAttack(c: Config, e: EnemyData, now: real, rolls: seq<int>): EnemyData
    requires Wf(c, e) && FairRolls(rolls, |c.combos|, e.currentComboType)
  {
    var reset := e.(agent := e.agent.(isStopped := true), isAttacking := false,
                    currentComboCount := 0, lastAttackTime := now,
                    triggers := ClearAllAnimationTriggers(e.triggers));
    TriggerAttack(c, SelectComboType(c, reset, rolls), now)
  }

  function EnterReturn(c: Config, e: EnemyData): EnemyData {
    e.(agent := e.agent.(speed := c.settings.patrolSpeed, acceleration := PatrolAcceleration,
                         stoppingDistance := PatrolStoppingDistance, isStopped := false,
                         destination := c.startPosition))
  }

  function ExitAttack(e: EnemyData): EnemyData {
    e.(isAttacking := false, agent := e.agent.(isStopped := false),
       triggers := ClearAllAnimationTriggers(e.triggers))
  }

  /** The exit hook of the current state (only Attack's does anything). */
  function ExitState(e: EnemyData): EnemyData {
    var logged := e.(hooks := e.hooks + [Exit(e.currentState)]);
    if e.currentState == Attack then ExitAttack(logged) else logged
  }

  /** The enter hook of the (already recorded) current state. */
  function EnterState(c: Config, e: EnemyData, now: real, rolls: seq<int>): EnemyData
    requires Wf(c, e)
    requires e.currentState == Attack ==> FairRolls(rolls, |c.combos|, e.currentComboType)
  {
    var logged := e.(hooks := e.hooks + [Enter(e.currentState)]);
    match e.currentState
    case Idle => EnterIdle(logged)
    case Patrol => EnterPatrol(c, logged)
    case Chase => EnterChase(c, logged)
    case Attack => EnterAttack(c, logged, now, rolls)
    case Return => EnterReturn(c, logged)
  }

  /** The precondition of a state change: entering Attack draws a combo. */
  predicate CanChange(c: Config, e: EnemyData, newState: EnemyState, rolls: seq<int>) {
    Wf(c, e) && (newState == Attack && e.currentState != Attack ==> FairRolls(rolls, |c.combos|, e.currentComboType))
  }

  /** ChangeState: nothing when already there; otherwise exit hook, record the
      previous state, switch, enter hook. */
  function ChangeState(c: Config, e: EnemyData, newState: EnemyState, now: real, rolls: seq<int>): EnemyData
    requires CanChange(c, e, newState, rolls)
  {
    if e.currentState == newState then e
    else
      var exited := ExitState(e);
      EnterState(c, exited.(previousState := exited.currentState, currentState := newState), now, rolls)
  }

  // ---------------------------------------------------------------------------
  // Per-state updates

  function UpdateIdle(c: Config, e: EnemyData, s: Sensors, now: real): EnemyData
    requires Wf(c, e)
  {
    if Sees(c, s) then ChangeState(c, Spot(c, e, s), Chase, now, s.rolls)
    else ChangeState(c, e, Patrol, now, s.rolls)
  }

  /** Patrol's arrival test: close enough and no path still being computed. */
  predicate Arrived(e: EnemyData, s: Sensors) {
    s.remainingDistance <= e.agent.stoppingDistance && !s.pathPending
  }

  function UpdatePatrol(c: Config, e: EnemyData, s: Sensors, now: real): EnemyData
    requires Wf(c, e)
  {
    if Sees(c, s) then ChangeState(c, Spot(c, e, s), Chase, now, s.rolls)
    else
      var waiting := if !e.isWaitingAtWaypoint && Arrived(e, s)
                     then e.(isWaitingAtWaypoint := true, waypointReachedTime := now)
                     else e;
      if waiting.isWaitingAtWaypoint && now >= waiting.waypointReachedTime + c.settings.waypointWaitTime
      then MoveToNextWaypoint(c, waiting.(isWaitingAtWaypoint := false))
      else waiting
  }

  function UpdateChase(c: Config, e: EnemyData, s: Sensors, now: real): EnemyData
    requires Wf(c, e) && FairRolls(s.rolls, |c.combos|, e.currentComboType)
  {
    if e.currentTarget.None? then ChangeState(c, e, Return, now, s.rolls)
    else if s.distanceToPlayer <= CurrentComboRange(c, e) then ChangeState(c, e, Attack, now, s.rolls)
    else if s.distanceToPlayer > c.settings.maxChaseDistance then ChangeState(c, e, Return, now, s.rolls)
    else e.(agent := e.agent.(destination := s.playerPosition))
  }

  function UpdateAttack(c: Config, e: EnemyData, s: Sensors, now: real): EnemyData
    requires Wf(c, e)
  {
    if e.currentTarget.None? then ChangeState(c, e, Return, now, s.rolls)
    else if s.distanceToPlayer > CurrentComboRange(c, e) * BreakOffFactor then ChangeState(c, e, Chase, now, s.rolls)
    else
      var combo := c.combos[e.currentComboType];
      if !e.isAttacking && e.currentComboCount < |combo.attackTimings| then
        if now - e.lastAttackTime >= combo.attackTimings[e.currentComboCount] then TriggerAttack(c, e, now)
        else e
      else if now >= e.lastAttackTime + c.settings.comboResetTime || e.currentComboCount >= |combo.attackTimings| then
        ChangeState(c, e.(isAttacking := false, currentComboCount := 0,
                          triggers := ClearAllAnimationTriggers(e.triggers)), Chase, now, s.rolls)
      else e
  }

  function UpdateReturn(c: Config, e: EnemyData, s: Sensors, now: real): EnemyData
    requires Wf(c, e)
  {
    var home := if Arrived(e, s) && s.reoriented then ChangeState(c, e, Patrol, now, s.rolls) else e;
    if Sees(c, s) then ChangeState(c, Spot(c, home, s), Chase, now, s.rolls) else home
  }

  /** One frame (UpdateState): the current state's update rule. */
  function UpdateState(c: Config, e: EnemyData, s: Sensors, now: real): EnemyData
    requires Wf(c, e) && FairRolls(s.rolls, |c.combos|, e.currentComboType)
  {
    match e.currentState
    case Idle => UpdateIdle(c, e, s, now)
    case Patrol => UpdatePatrol(c, e, s, now)
    case Chase => UpdateChase(c, e, s, now)
    case Attack => UpdateAttack(c, e, s, now)
    case Return => UpdateReturn(c, e, s, now)
  }

  // ---------------------------------------------------------------------------
  // Animation-event callbacks (they do not look at the current state)

  /** OnAttackEnd: clears the in-flight flag and the triggers; a finished combo
      resets the counter and switches to Chase (entering Chase reads neither the
      clock nor the random draws). */
  function OnAttackEnd(c: Config, e: EnemyData): EnemyData
    requires Wf(c, e)
  {
    var ended := e.(isAttacking := false, triggers := ClearAllAnimationTriggers(e.triggers));
    if ended.currentComboCount >= |c.combos[e.currentComboType].attackTimings|
    then ChangeState(c, ended.(currentComboCount := 0), Chase, 0.0, [])
    else ended
  }

  /** OnAttackHit: the damage delivered to the target, if the target is set,
      faced (dot product above 0.5) and within 1.2 times the combo range. */
  function HitDamage(c: Config, e: EnemyData, facingDot: real, distance: real): Option<real>
    requires Wf(c, e)
  {
    if e.currentTarget.Some? && facingDot > MinFacingDot && distance <= CurrentComboRange(c, e) * BreakOffFactor
    then Some(CurrentAttackDamage(c, e))
    else None
  }
}

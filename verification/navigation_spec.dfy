/**
 * The navigation orchestrator as a sequential automaton.  A `Nav` value is a
 * snapshot of the orchestrator's fields; every entry point of the
 * orchestrator is a function from one snapshot (plus the outcomes of the
 * collaborators it calls) to the next.  The class Navigation.NavigationApplication
 * performs the same steps in place and is proved against these functions.
 */
module NavigationSpec {
  import opened Wrappers
  import opened Geometry

  /** The three states of the control automaton. */
  datatype ControlState = PLANNING | CONTROLLING | CLEARING

  /** A velocity command on the "TWIST" channel: linear x, linear y, angular z. */
  datatype Twist = Twist(linearX: real, linearY: real, angularZ: real)

  /** The canonical "stop" command. */
  const ZeroTwist := Twist(0.0, 0.0, 0.0)

  /** The planner implementations the orchestrator can instantiate. */
  datatype PlannerKind = GlobalPlanner | TrajectoryLocalPlanner | DwaLocalPlanner

  /**
   * The orchestrator's fields.  `latestPlan` is the planning loop's scratch
   * buffer, `activePlan` the plan the control loop executes, `published` every
   * velocity command sent so far, oldest first.
   */
  datatype Nav = Nav(
    state: ControlState,
    goal: Pose,
    newGoalTrigger: bool,
    latestPlan: seq<Pose>,
    activePlan: seq<Pose>,
    published: seq<Twist>,
    oscillationPose: Pose)

  /** Appends one command to the published stream. */
  function Publish(n: Nav, t: Twist): Nav {
    n.(published := n.published + [t])
  }

  /** Back to PLANNING, and stop the robot. */
  function ResetState(n: Nav): Nav {
    Publish(n.(state := PLANNING), ZeroTwist)
  }

  // ----- goal admission and frame transform -----

  /**
   * The goal re-expressed in the planning frame.  `odomTf` and `mapTf` are the
   * answers of the two transform services (None when a call fails); when
   * either fails the goal is used untransformed.
   */
  function GoalToGlobalFrame(goal: Pose, odomTf: Option<Transform>, mapTf: Option<Transform>): (r: Pose)
    ensures odomTf.None? || mapTf.None? ==> r == goal
    ensures odomTf.Some? && mapTf.Some? ==> r == Compose(odomTf.value, mapTf.value, goal)
  {
    if odomTf.None? then goal
    else if mapTf.None? then goal
    else Compose(odomTf.value, mapTf.value, goal)
  }

  /**
   * A goal message arrives.  `quaternionValid` is the verdict of the
   * orientation check; a rejected goal is dropped.
   */
  function GoalCallback(n: Nav, target: Pose, quaternionValid: bool,
                        odomTf: Option<Transform>, mapTf: Option<Transform>): Nav
  {
    if !quaternionValid then n
    else n.(goal := GoalToGlobalFrame(target, odomTf, mapTf), newGoalTrigger := true, state := PLANNING)
  }

  // ----- global planning -----

  /** What a path request reports and what it leaves in the plan buffer. */
  datatype PlanAttempt = PlanAttempt(ok: bool, plan: seq<Pose>)

  /**
   * A path request.  `poseAvailable`: the costmap knows the robot pose;
   * `plannerOk` and `plannerOutput`: what the global planner reports and what it
   * writes into the (cleared) plan buffer, whether or not it reports success.
   */
  function MakePlan(poseAvailable: bool, plannerOk: bool, plannerOutput: seq<Pose>): (r: PlanAttempt)
    ensures r.ok <==> poseAvailable && plannerOk && |plannerOutput| > 0
    ensures r.ok ==> |r.plan| > 0
    ensures !poseAvailable ==> !r.ok && r.plan == []
    ensures poseAvailable ==> r.plan == plannerOutput
  {
    if !poseAvailable then PlanAttempt(false, [])
    else PlanAttempt(plannerOk && |plannerOutput| > 0, plannerOutput)
  }

  /** True when the planning loop, having consumed a trigger, does not hand its plan over. */
  predicate SkipsHandOff(n: Nav, attempt: PlanAttempt) {
    !attempt.ok && n.state != PLANNING
  }

  /**
   * One pass of the planning loop.  While no goal trigger is pending the loop
   * keeps waiting and nothing changes; otherwise it consumes the trigger,
   * plans, and hands the plan over unless planning failed while a previous
   * plan is being executed.
   */
  function PlanLoopIteration(n: Nav, poseAvailable: bool, plannerOk: bool, plannerOutput: seq<Pose>): Nav {
    if !n.newGoalTrigger then n
    else
      var attempt := MakePlan(poseAvailable, plannerOk, plannerOutput);
      var m := n.(newGoalTrigger := false, latestPlan := attempt.plan);
      if SkipsHandOff(m, attempt) then m
      else m.(state := CONTROLLING, activePlan := m.latestPlan)
  }

  // ----- control loop -----

  /**
   * The collaborator outcomes one control tick sees: the robot pose and
   * whether it moved at least the oscillation distance since the tracked
   * pose, whether the local planner reports the goal reached, whether it
   * produced a velocity command (and which), and whether the controller's
   * patience has run out.
   */
  datatype TickInput = TickInput(
    robotPose: Pose,
    movedFarEnough: bool,
    goalReached: bool,
    velocityOk: bool,
    cmd: Twist,
    patienceExpired: bool)

  /** The wait condition of the control loop: there is a plan to execute. */
  predicate ControlReady(n: Nav) {
    n.state == CONTROLLING && |n.activePlan| > 0
  }

  /** One tick of the control loop's inner loop. */
  function ControlLoopTick(n: Nav, t: TickInput): Nav {
    var m := if t.movedFarEnough then n.(oscillationPose := t.robotPose) else n;
    match m.state
    case PLANNING => m
    case CONTROLLING =>
      if t.goalReached then ResetState(m)
      else if t.velocityOk then Publish(m, t.cmd)
      else if t.patienceExpired then ResetState(Publish(m, ZeroTwist).(state := CLEARING))
      else ResetState(Publish(m, ZeroTwist).(state := PLANNING))
    case CLEARING => m.(state := PLANNING)
  }

  /**
   * How a run of the inner control loop ended: the final snapshot, how many
   * ticks it consumed, and whether it left the loop (a tick that found the
   * state PLANNING) before the inputs ran out.
   */
  datatype Session = Session(nav: Nav, consumed: nat, finished: bool)

  function Shifted(s: Session, k: nat): Session {
    s.(consumed := s.consumed + k)
  }

  /** The inner control loop fed with the tick inputs `ticks`, one per tick. */
  function ControlLoopSession(n: Nav, ticks: seq<TickInput>): Session
    decreases |ticks|
  {
    if |ticks| == 0 then Session(n, 0, false)
    else
      var next := ControlLoopTick(n, ticks[0]);
      if n.state == PLANNING then Session(next, 1, true)
      else Shifted(ControlLoopSession(next, ticks[1..]), 1)
  }

  /**
   * One pass of the outer control loop: nothing happens until the control
   * automaton has a plan to execute; then the plan is handed to the local
   * planner (`setPlanOk`), and on acceptance the inner loop runs.
   */
  function ControlLoopRound(n: Nav, setPlanOk: bool, ticks: seq<TickInput>): Session {
    if !ControlReady(n) then Session(n, 0, false)
    else if !setPlanOk then Session(ResetState(n), 0, false)
    else ControlLoopSession(n, ticks)
  }

  // ----- start-up -----

  /** The global planner is a GlobalPlanner whatever the configured type. */
  function SelectGlobalPlanner(plannerType: string): (k: PlannerKind)
    ensures k == GlobalPlanner
  {
    if plannerType == "global_planner" then GlobalPlanner else GlobalPlanner
  }

  /** The local planner named by the configuration, trajectory by default. */
  function SelectLocalPlanner(plannerType: string): (k: PlannerKind)
    ensures k != GlobalPlanner
    ensures k == DwaLocalPlanner <==> plannerType == "dwa_local_planner"
  {
    if plannerType == "trajectory_local_planner" then TrajectoryLocalPlanner
    else if plannerType == "dwa_local_planner" then DwaLocalPlanner
    else TrajectoryLocalPlanner
  }

  /** The number of calls the start-up makes to the map service at most. */
  const MaxMapAttempts := 10

  /** One answer of the map service: did the call go through, and did it carry a map. */
  datatype MapResponse = MapResponse(callOk: bool, result: bool)

  predicate MapAcquired(r: MapResponse) {
    r.callOk && r.result
  }
}

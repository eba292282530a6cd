/**
 * The orchestrator object.  Its fields are updated in place by the goal
 * callback, the planning loop and the control loop; each entry point is one
 * method, with the outcomes of the collaborators it calls (transform and map
 * services, costmap, global and local planner) passed in as parameters.
 * ResetState, GoalCallback, PlanLoopIteration, ControlLoopTick and
 * ControlLoopRound are proved to move the object's snapshot along the
 * NavigationSpec function of the same name; MakePlan is proved to return the
 * flag and fill the scratch plan as NavigationSpec.MakePlan does; Run,
 * AcquireMap, the constructor and the publishers state their effect directly.
 */
module Navigation {
  import opened Wrappers
  import opened Geometry
  import opened NavigationSpec

  class NavigationApplication {
    var state: ControlState
    var goal: Pose
    var newGoalTrigger: bool
    /** The planning loop's scratch plan. */
    var latestPlan: seq<Pose>
    /** The plan the control loop executes. */
    var globalPlannerPlan: seq<Pose>
    /** Every velocity command published on the "TWIST" channel, oldest first. */
    var published: seq<Twist>
    var oscillationPose: Pose
    var globalPlanner: PlannerKind
    var localPlanner: PlannerKind

    /** The object's fields as a value. */
    function Snapshot(): Nav
      reads this
    {
      Nav(state, goal, newGoalTrigger, latestPlan, globalPlannerPlan, published, oscillationPose)
    }

    /** Only the goal trigger is initialised on construction; the rest is set up by Run. */
    constructor ()
      ensures !newGoalTrigger && published == []
    {
      newGoalTrigger := false;
      published := [];
    }

    method PublishVelocity(linearX: real, linearY: real, angularZ: real)
      modifies this`published
      ensures published == old(published) + [Twist(linearX, linearY, angularZ)]
    {
      published := published + [Twist(linearX, linearY, angularZ)];
    }

    method PublishZeroVelocity()
      modifies this`published
      ensures published == old(published) + [ZeroTwist]
    {
      PublishVelocity(0.0, 0.0, 0.0);
    }

    /** Recovery behaviours are not implemented: running them does nothing. */
    method RunRecovery()
    {
    }

    method ResetState()
      modifies this`state, this`published
      ensures Snapshot() == NavigationSpec.ResetState(old(Snapshot()))
    {
      state := PLANNING;
      PublishZeroVelocity();
    }

    /**
     * A goal message.  `quaternionValid` is the verdict of the orientation
     * check, `odomTf` and `mapTf` the answers of the two transform services.
     */
    method GoalCallback(target: Pose, quaternionValid: bool, odomTf: Option<Transform>, mapTf: Option<Transform>)
      modifies this`goal, this`newGoalTrigger, this`state
      ensures Snapshot() == NavigationSpec.GoalCallback(old(Snapshot()), target, quaternionValid, odomTf, mapTf)
    {
      if !quaternionValid {
        return;
      }
      var newGoal := GoalToGlobalFrame(target, odomTf, mapTf);
      goal := newGoal;
      newGoalTrigger := true;
      state := PLANNING;
    }

    /**
     * A path request into the scratch plan.  The costmap's answer to the pose
     * query is `poseAvailable`; the global planner's verdict and what it
     * writes into the buffer are `plannerOk` and `plannerOutput`.
     */
    method MakePlan(poseAvailable: bool, plannerOk: bool, plannerOutput: seq<Pose>) returns (ok: bool)
      modifies this`latestPlan
      ensures PlanAttempt(ok, latestPlan) == NavigationSpec.MakePlan(poseAvailable, plannerOk, plannerOutput)
    {
      latestPlan := [];
      if !poseAvailable {
        return false;
      }
      latestPlan := plannerOutput;
      if !plannerOk || |latestPlan| == 0 {
        return false;
      }
      return true;
    }

    /**
     * One pass of the planning loop.  `woke` is false while no goal is pending
     * (the loop keeps waiting); `handedOff` says whether the scratch plan was
     * installed as the active plan.
     */
    method PlanLoopIteration(poseAvailable: bool, plannerOk: bool, plannerOutput: seq<Pose>)
      returns (woke: bool, handedOff: bool)
      modifies this`newGoalTrigger, this`latestPlan, this`state, this`globalPlannerPlan
      ensures woke == old(newGoalTrigger)
      ensures handedOff <==> woke && (NavigationSpec.MakePlan(poseAvailable, plannerOk, plannerOutput).ok || old(state) == PLANNING)
      ensures Snapshot() == NavigationSpec.PlanLoopIteration(old(Snapshot()), poseAvailable, plannerOk, plannerOutput)
    {
      woke, handedOff := newGoalTrigger, false;
      if !woke {
        return;
      }
      newGoalTrigger := false;
      var ok := MakePlan(poseAvailable, plannerOk, plannerOutput);
      if !ok && state != PLANNING {
        return;
      }
      state := CONTROLLING;
      globalPlannerPlan := [];
      globalPlannerPlan := latestPlan;
      handedOff := true;
    }

    /**
     * One tick of the control loop's inner loop; `planning` is true when the
     * tick found the automaton in PLANNING and the inner loop ends.
     */
    method ControlLoopTick(t: TickInput) returns (planning: bool)
      modifies this`state, this`published, this`oscillationPose
      ensures planning == (old(state) == PLANNING)
      ensures Snapshot() == NavigationSpec.ControlLoopTick(old(Snapshot()), t)
    {
      if t.movedFarEnough {
        oscillationPose := t.robotPose;
      }
      planning := false;
      match state {
        case PLANNING =>
          planning := true;
        case CONTROLLING =>
          if t.goalReached {
            ResetState();
          } else if t.velocityOk {
            PublishVelocity(t.cmd.linearX, t.cmd.linearY, t.cmd.angularZ);
          } else if t.patienceExpired {
            PublishZeroVelocity();
            state := CLEARING;
            ResetState();
          } else {
            PublishZeroVelocity();
            state := PLANNING;
            ResetState();
          }
        case CLEARING =>
          RunRecovery();
          state := PLANNING;
      }
    }

    /**
     * One pass of the outer control loop.  `entered` is false while the wait
     * condition (CONTROLLING with a non-empty plan) does not hold; then the
     * local planner accepts the plan or not (`setPlanOk`), and the inner loop
     * runs over `ticks`, one input per tick, until a tick finds the automaton
     * in PLANNING (`finished`) or the inputs run out.
     */
    method ControlLoopRound(setPlanOk: bool, ticks: seq<TickInput>)
      returns (entered: bool, consumed: nat, finished: bool)
      modifies this`state, this`published, this`oscillationPose
      ensures entered == ControlReady(old(Snapshot()))
      ensures Session(Snapshot(), consumed, finished) == NavigationSpec.ControlLoopRound(old(Snapshot()), setPlanOk, ticks)
    {
      entered, consumed, finished := false, 0, false;
      if state != CONTROLLING || |globalPlannerPlan| == 0 {
        return;
      }
      entered := true;
      if !setPlanOk {
        ResetState();
        return;
      }
      ghost var start := Snapshot();
      var i := 0;
      var planning := false;
      while !planning && i < |ticks|
        invariant 0 <= i <= |ticks|
        invariant planning ==> NavigationSpec.ControlLoopSession(start, ticks) == Session(Snapshot(), i, true)
        invariant !planning ==>
          NavigationSpec.ControlLoopSession(start, ticks) == Shifted(NavigationSpec.ControlLoopSession(Snapshot(), ticks[i..]), i)
        decreases |ticks| - i, !planning
      {
        assert ticks[i..][1..] == ticks[i + 1..];
        planning := ControlLoopTick(ticks[i]);
        i := i + 1;
      }
      consumed, finished := i, planning;
    }

    /**
     * Start-up: choose the planners from the configured type names, reset
     * the plan buffers, the automaton and the trigger, and try to obtain a
     * map; `mapService(i)` is the service's answer to the i-th call.
     */
    method Run(globalPlannerType: string, localPlannerType: string, mapService: nat -> MapResponse)
      returns (mapAttempts: nat, mapAcquired: bool)
      modifies this`latestPlan, this`globalPlannerPlan, this`globalPlanner, this`localPlanner,
               this`state, this`newGoalTrigger
      ensures globalPlannerPlan == [] && latestPlan == []
      ensures globalPlanner == SelectGlobalPlanner(globalPlannerType)
      ensures localPlanner == SelectLocalPlanner(localPlannerType)
      ensures state == PLANNING && !newGoalTrigger
      ensures 1 <= mapAttempts <= MaxMapAttempts
      ensures mapAcquired <==> exists j :: 0 <= j < MaxMapAttempts && MapAcquired(mapService(j))
    {
      globalPlannerPlan := [];
      latestPlan := [];
      globalPlanner := SelectGlobalPlanner(globalPlannerType);
      localPlanner := SelectLocalPlanner(localPlannerType);
      state := PLANNING;
      newGoalTrigger := false;
      mapAttempts, mapAcquired := AcquireMap(mapService);
    }

    /**
     * The bounded map request of start-up: call the map service until an
     * answer carries a map, at most MaxMapAttempts times.
     */
    method AcquireMap(mapService: nat -> MapResponse) returns (attempts: nat, acquired: bool)
      ensures 1 <= attempts <= MaxMapAttempts
      ensures forall j :: 0 <= j < attempts - 1 ==> !MapAcquired(mapService(j))
      ensures acquired <==> MapAcquired(mapService(attempts - 1))
      ensures !acquired ==> attempts == MaxMapAttempts
      ensures acquired <==> exists j :: 0 <= j < MaxMapAttempts && MapAcquired(mapService(j))
    {
      attempts, acquired := 0, false;
      while attempts < MaxMapAttempts && !acquired
        invariant 0 <= attempts <= MaxMapAttempts
        invariant !acquired ==> forall j :: 0 <= j < attempts ==> !MapAcquired(mapService(j))
        invariant acquired ==> 1 <= attempts && MapAcquired(mapService(attempts - 1)) &&
                               forall j :: 0 <= j < attempts - 1 ==> !MapAcquired(mapService(j))
        decreases MaxMapAttempts - attempts
      {
        var response := mapService(attempts);
        attempts := attempts + 1;
        if response.callOk {
          if response.result {
            acquired := true;
          }
        }
      }
    }
  }
}

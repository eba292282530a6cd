/**
 * What the orchestrator's transitions guarantee, stated over the snapshot
 * functions of NavigationSpec.
 */
module NavigationProperties {
  import opened Wrappers
  import opened Geometry
  import opened NavigationSpec

  // ----- resetState -----

  /** resetState always lands in PLANNING and publishes exactly one stop command. */
  lemma ResetStateEffect(n: Nav)
    ensures ResetState(n).state == PLANNING
    ensures ResetState(n).published == n.published + [ZeroTwist]
    ensures ResetState(n).(state := n.state, published := n.published) == n
  {
  }

  /** Resetting twice: the same state as resetting once, with two stop commands. */
  lemma ResetStateTwice(n: Nav)
    ensures ResetState(ResetState(n)) == ResetState(n).(published := n.published + [ZeroTwist, ZeroTwist])
  {
  }

  // ----- goal admission -----

  /** A goal whose orientation is rejected changes nothing at all. */
  lemma RejectedGoalChangesNothing(n: Nav, target: Pose, odomTf: Option<Transform>, mapTf: Option<Transform>)
    ensures GoalCallback(n, target, false, odomTf, mapTf) == n
  {
  }

  /** An accepted goal becomes the pending goal, raises the trigger and resets the automaton to PLANNING. */
  lemma AcceptedGoal(n: Nav, target: Pose, odomTf: Option<Transform>, mapTf: Option<Transform>)
    ensures var r := GoalCallback(n, target, true, odomTf, mapTf);
      r.goal == GoalToGlobalFrame(target, odomTf, mapTf) && r.newGoalTrigger && r.state == PLANNING &&
      r.latestPlan == n.latestPlan && r.activePlan == n.activePlan && r.published == n.published &&
      r.oscillationPose == n.oscillationPose
  {
  }

  /** Last writer wins: a second accepted goal erases every trace of the first. */
  lemma LastGoalWins(n: Nav, first: Pose, odom1: Option<Transform>, map1: Option<Transform>,
                     second: Pose, odom2: Option<Transform>, map2: Option<Transform>)
    ensures GoalCallback(GoalCallback(n, first, true, odom1, map1), second, true, odom2, map2)
         == GoalCallback(n, second, true, odom2, map2)
  {
  }

  /** A failed transform lookup degrades to the untransformed goal; otherwise the composed transform is applied. */
  lemma GoalToGlobalFrameFallback(goal: Pose, odomTf: Option<Transform>, mapTf: Option<Transform>)
    ensures odomTf.None? || mapTf.None? ==> GoalToGlobalFrame(goal, odomTf, mapTf) == goal
    ensures odomTf.Some? && mapTf.Some? ==>
      GoalToGlobalFrame(goal, odomTf, mapTf) == Compose(odomTf.value, mapTf.value, goal)
  {
  }

  /** When both frames coincide with the planning frame the goal passes through unchanged. */
  lemma GoalToGlobalFrameIdentity(goal: Pose)
    ensures GoalToGlobalFrame(goal, Some(IdentityTransform), Some(IdentityTransform)) == goal
  {
    ComposeIdentity(goal);
  }

  // ----- planning loop -----

  /** With no goal pending the planning loop keeps waiting. */
  lemma PlanLoopIterationWaits(n: Nav, poseAvailable: bool, plannerOk: bool, plannerOutput: seq<Pose>)
    requires !n.newGoalTrigger
    ensures PlanLoopIteration(n, poseAvailable, plannerOk, plannerOutput) == n
  {
  }

  /**
   * A woken planning loop always consumes the trigger, and skips the hand-off
   * exactly when planning failed and the automaton is not in PLANNING; after a
   * hand-off the active plan is the scratch plan, wholesale.
   */
  lemma PlanLoopIterationHandOff(n: Nav, poseAvailable: bool, plannerOk: bool, plannerOutput: seq<Pose>)
    requires n.newGoalTrigger
    ensures var attempt := MakePlan(poseAvailable, plannerOk, plannerOutput);
      var r := PlanLoopIteration(n, poseAvailable, plannerOk, plannerOutput);
      !r.newGoalTrigger && r.latestPlan == attempt.plan &&
      r.goal == n.goal && r.published == n.published && r.oscillationPose == n.oscillationPose &&
      (!attempt.ok && n.state != PLANNING ==> r.state == n.state && r.activePlan == n.activePlan) &&
      (attempt.ok || n.state == PLANNING ==> r.state == CONTROLLING && r.activePlan == r.latestPlan)
  {
  }

  /** A successful plan is handed over and leaves the control loop ready to run. */
  lemma SuccessfulPlanMakesControlReady(n: Nav, plannerOutput: seq<Pose>)
    requires n.newGoalTrigger && |plannerOutput| > 0
    ensures var r := PlanLoopIteration(n, true, true, plannerOutput);
      ControlReady(r) && r.activePlan == plannerOutput
  {
  }

  /**
   * A failed path request in PLANNING is still handed over: the automaton
   * moves to CONTROLLING with an empty plan, and only the control loop's wait
   * condition keeps the tick loop from running on it.
   */
  lemma FailedPlanInPlanningIsHandedOff(n: Nav, plannerOk: bool, plannerOutput: seq<Pose>,
                                        setPlanOk: bool, ticks: seq<TickInput>)
    requires n.newGoalTrigger && n.state == PLANNING
    ensures var r := PlanLoopIteration(n, false, plannerOk, plannerOutput);
      r.state == CONTROLLING && r.activePlan == [] && !ControlReady(r) &&
      ControlLoopRound(r, setPlanOk, ticks) == Session(r, 0, false)
  {
  }

  /**
   * When the global planner reports failure but leaves waypoints in the
   * buffer, a planning loop in PLANNING hands those waypoints to the control
   * loop, which is then ready to execute them.
   */
  lemma FailedPlannerOutputIsExecuted(n: Nav, plannerOutput: seq<Pose>)
    requires n.newGoalTrigger && n.state == PLANNING && |plannerOutput| > 0
    ensures var r := PlanLoopIteration(n, true, false, plannerOutput);
      !MakePlan(true, false, plannerOutput).ok && ControlReady(r) && r.activePlan == plannerOutput
  {
  }

  // ----- one control tick -----

  /** A tick in PLANNING ends the inner loop without changing the automaton or publishing. */
  lemma TickInPlanning(n: Nav, t: TickInput)
    requires n.state == PLANNING
    ensures ControlLoopTick(n, t).(oscillationPose := n.oscillationPose) == n
  {
  }

  /** A tick in CLEARING runs the (empty) recovery and returns to PLANNING without publishing. */
  lemma TickInClearing(n: Nav, t: TickInput)
    requires n.state == CLEARING
    ensures var r := ControlLoopTick(n, t);
      r.state == PLANNING && r.published == n.published && r.activePlan == n.activePlan
  {
  }

  /** Goal reached: back to PLANNING with one stop command and no velocity request. */
  lemma TickGoalReached(n: Nav, t: TickInput)
    requires n.state == CONTROLLING && t.goalReached
    ensures var r := ControlLoopTick(n, t);
      r.state == PLANNING && r.published == n.published + [ZeroTwist]
  {
  }

  /** A velocity command is published exactly as the local planner produced it. */
  lemma TickPublishesCommand(n: Nav, t: TickInput)
    requires n.state == CONTROLLING && !t.goalReached && t.velocityOk
    ensures var r := ControlLoopTick(n, t);
      r.state == CONTROLLING && r.published == n.published + [Twist(t.cmd.linearX, t.cmd.linearY, t.cmd.angularZ)]
  {
  }

  /**
   * No velocity command: two stop commands and PLANNING, whether or not the
   * patience ran out (CLEARING is entered and left within the tick).
   */
  lemma TickVelocityFailure(n: Nav, t: TickInput)
    requires n.state == CONTROLLING && !t.goalReached && !t.velocityOk
    ensures var r := ControlLoopTick(n, t);
      r.state == PLANNING && r.published == n.published + [ZeroTwist, ZeroTwist] &&
      r == ControlLoopTick(n, t.(patienceExpired := !t.patienceExpired))
  {
  }

  /** No tick ever ends in CLEARING. */
  lemma TickNeverEndsInClearing(n: Nav, t: TickInput)
    ensures ControlLoopTick(n, t).state != CLEARING
  {
  }

  // ----- the inner control loop -----

  /** A tick that ends the execution of the current plan. */
  predicate Stops(t: TickInput) {
    t.goalReached || !t.velocityOk
  }

  /** The commands of a run of ticks, in order. */
  function Commands(ticks: seq<TickInput>): seq<Twist> {
    if |ticks| == 0 then [] else [ticks[0].cmd] + Commands(ticks[1..])
  }

  /** The stop commands a stopping tick publishes. */
  function StopTwists(t: TickInput): seq<Twist> {
    if t.goalReached then [ZeroTwist] else [ZeroTwist, ZeroTwist]
  }

  /** A session never touches the goal, the trigger or the plan buffers, and only appends to the published stream. */
  lemma {:induction false} SessionFrame(n: Nav, ticks: seq<TickInput>)
    ensures var r := ControlLoopSession(n, ticks);
      r.nav.goal == n.goal && r.nav.newGoalTrigger == n.newGoalTrigger &&
      r.nav.latestPlan == n.latestPlan && r.nav.activePlan == n.activePlan &&
      r.consumed <= |ticks| && n.published <= r.nav.published
    decreases |ticks|
  {
    if |ticks| > 0 && n.state != PLANNING {
      SessionFrame(ControlLoopTick(n, ticks[0]), ticks[1..]);
    }
  }

  /** Leaving the inner loop always happens in PLANNING, and after any tick the state is never CLEARING. */
  lemma {:induction false} SessionEndsInPlanning(n: Nav, ticks: seq<TickInput>)
    ensures var r := ControlLoopSession(n, ticks);
      (r.finished ==> r.nav.state == PLANNING) &&
      (|ticks| > 0 ==> r.nav.state != CLEARING && r.consumed > 0)
    decreases |ticks|
  {
    if |ticks| > 0 && n.state != PLANNING {
      SessionEndsInPlanning(ControlLoopTick(n, ticks[0]), ticks[1..]);
    }
  }

  /** While every tick yields a velocity command the loop keeps CONTROLLING and publishes exactly those commands. */
  lemma {:induction false} SessionWithoutStop(n: Nav, ticks: seq<TickInput>)
    requires n.state == CONTROLLING
    requires forall j :: 0 <= j < |ticks| ==> !Stops(ticks[j])
    ensures var r := ControlLoopSession(n, ticks);
      r.nav.state == CONTROLLING && r.nav.published == n.published + Commands(ticks) &&
      r.consumed == |ticks| && !r.finished
    decreases |ticks|
  {
    if |ticks| > 0 {
      var next := ControlLoopTick(n, ticks[0]);
      assert !Stops(ticks[0]);
      SessionWithoutStop(next, ticks[1..]);
    }
  }

  /** A stopping tick publishes its stop commands and leaves the automaton in PLANNING. */
  lemma StoppingTick(n: Nav, t: TickInput)
    requires n.state == CONTROLLING && Stops(t)
    ensures var r := ControlLoopTick(n, t);
      r.state == PLANNING && r.published == n.published + StopTwists(t)
  {
    if !t.goalReached {
      TickVelocityFailure(n, t);
    }
  }

  /** The session that starts with a stopping tick: the loop leaves on the next tick, if there is one. */
  lemma SessionStopsAtFirstTick(n: Nav, ticks: seq<TickInput>)
    requires n.state == CONTROLLING
    requires |ticks| > 0 && Stops(ticks[0])
    ensures var r := ControlLoopSession(n, ticks);
      r.nav.state == PLANNING && r.nav.published == n.published + StopTwists(ticks[0]) &&
      r.finished == (1 < |ticks|) && r.consumed == (if 1 < |ticks| then 2 else 1)
  {
    var next := ControlLoopTick(n, ticks[0]);
    StoppingTick(n, ticks[0]);
    if |ticks| > 1 {
      var rest := ticks[1..];
      assert ControlLoopSession(next, rest) == Session(ControlLoopTick(next, rest[0]), 1, true);
    }
  }

  /**
   * Executing a plan: the commands of the ticks before the first stopping
   * tick are published in order, then the stop commands of that tick, and
   * the loop leaves on the tick after it (if there is one) in PLANNING.
   */
  lemma {:induction false} SessionUntilStop(n: Nav, ticks: seq<TickInput>, k: nat)
    requires n.state == CONTROLLING
    requires k < |ticks| && Stops(ticks[k])
    requires forall j :: 0 <= j < k ==> !Stops(ticks[j])
    ensures var r := ControlLoopSession(n, ticks);
      r.nav.state == PLANNING &&
      r.nav.published == n.published + Commands(ticks[..k]) + StopTwists(ticks[k]) &&
      r.finished == (k + 1 < |ticks|) &&
      r.consumed == (if k + 1 < |ticks| then k + 2 else k + 1)
    decreases k
  {
    if k == 0 {
      SessionStopsAtFirstTick(n, ticks);
      assert Commands(ticks[..0]) == [];
    } else {
      var next := ControlLoopTick(n, ticks[0]);
      assert !Stops(ticks[0]);
      assert next.state == CONTROLLING && next.published == n.published + [ticks[0].cmd];
      SessionUntilStop(next, ticks[1..], k - 1);
      assert ticks[..k][1..] == ticks[1..][..k - 1];
      assert Commands(ticks[..k]) == [ticks[0].cmd] + Commands(ticks[1..][..k - 1]);
    }
  }

  // ----- the outer control loop -----

  /** The tick loop only ever runs on a CONTROLLING automaton with a non-empty plan. */
  lemma ControlLoopRoundGuard(n: Nav, setPlanOk: bool, ticks: seq<TickInput>)
    ensures var r := ControlLoopRound(n, setPlanOk, ticks);
      (r.consumed > 0 ==> n.state == CONTROLLING && |n.activePlan| > 0 && setPlanOk) &&
      (!ControlReady(n) ==> r == Session(n, 0, false)) &&
      (ControlReady(n) && !setPlanOk ==> r == Session(ResetState(n), 0, false))
  {
  }

  // ----- the automaton as a whole -----

  /** Outside a tick, CLEARING is never observed: every transition preserves its absence. */
  lemma ClearingNeverObservable(n: Nav, target: Pose, quaternionValid: bool,
                                odomTf: Option<Transform>, mapTf: Option<Transform>,
                                poseAvailable: bool, plannerOk: bool, plannerOutput: seq<Pose>,
                                setPlanOk: bool, ticks: seq<TickInput>)
    requires n.state != CLEARING
    ensures ResetState(n).state != CLEARING
    ensures GoalCallback(n, target, quaternionValid, odomTf, mapTf).state != CLEARING
    ensures PlanLoopIteration(n, poseAvailable, plannerOk, plannerOutput).state != CLEARING
    ensures ControlLoopRound(n, setPlanOk, ticks).nav.state != CLEARING
  {
    SessionEndsInPlanning(n, ticks);
  }

  /**
   * Taken one whole pass at a time, a pending goal always comes with the state
   * PLANNING: every entry point preserves this, so a sequence of passes never
   * reaches the branch where a failed plan is not handed over.
   */
  lemma PendingGoalImpliesPlanning(n: Nav, target: Pose, quaternionValid: bool,
                                   odomTf: Option<Transform>, mapTf: Option<Transform>,
                                   poseAvailable: bool, plannerOk: bool, plannerOutput: seq<Pose>,
                                   setPlanOk: bool, ticks: seq<TickInput>)
    requires n.newGoalTrigger ==> n.state == PLANNING
    ensures var r := ResetState(n); r.newGoalTrigger ==> r.state == PLANNING
    ensures var r := GoalCallback(n, target, quaternionValid, odomTf, mapTf); r.newGoalTrigger ==> r.state == PLANNING
    ensures var r := PlanLoopIteration(n, poseAvailable, plannerOk, plannerOutput); r.newGoalTrigger ==> r.state == PLANNING
    ensures var r := ControlLoopRound(n, setPlanOk, ticks).nav; r.newGoalTrigger ==> r.state == PLANNING
    ensures n.newGoalTrigger ==> !SkipsHandOff(n, MakePlan(poseAvailable, plannerOk, plannerOutput))
  {
    SessionFrame(n, ticks);
  }

  /**
   * A goal at which the robot already stands: accepted, planned as a one-pose
   * path, reached on the first tick; the loop leaves on the next tick with
   * the automaton in PLANNING and a stop command as the last publication.
   */
  lemma GoalReachedOnFirstTick(n: Nav, target: Pose, odomTf: Option<Transform>, mapTf: Option<Transform>,
                               start: Pose, first: TickInput, second: TickInput)
    requires first.goalReached
    ensures var accepted := GoalCallback(n, target, true, odomTf, mapTf);
      var planned := PlanLoopIteration(accepted, true, true, [start]);
      var r := ControlLoopRound(planned, true, [first, second]);
      planned.state == CONTROLLING && planned.activePlan == [start] &&
      r.finished && r.consumed == 2 && r.nav.state == PLANNING &&
      r.nav.published == n.published + [ZeroTwist]
  {
    var accepted := GoalCallback(n, target, true, odomTf, mapTf);
    var planned := PlanLoopIteration(accepted, true, true, [start]);
    SessionUntilStop(planned, [first, second], 0);
  }
}

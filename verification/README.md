# Navigation orchestrator — a verified model

This project models the sequential core of `NavigationApplication`, the
orchestrator of a mobile-robot navigation stack. It turns goal poses into a
stream of velocity commands. A planning loop waits for a new goal, asks the
global planner for a path and hands it to a control loop. The control loop
drives the local planner tick by tick through the automaton
PLANNING → CONTROLLING → CLEARING.

Threads and locks are left out. Every entry point of the orchestrator becomes
one step on its fields. A step's collaborator outcomes are parameters: the
transform and map services, the costmap's robot pose, the global planner's
verdict and output, and the local planner's answers.

- `geometry.dfy` (module `Geometry`): poses, rigid transforms and the product
  `odom * map * goal` used to bring a goal into the planning frame.
- `navigation_spec.dfy` (module `NavigationSpec`): the orchestrator's fields as
  a value `Nav`, and one function per entry point (`ResetState`,
  `GoalCallback`, `GoalToGlobalFrame`, `MakePlan`, `PlanLoopIteration`,
  `ControlLoopTick`, `ControlLoopSession`, `ControlLoopRound`), plus planner
  selection.
- `navigation.dfy` (module `Navigation`): the class `NavigationApplication`.
  Its fields are `state`, `goal`, `newGoalTrigger`, `latestPlan`,
  `globalPlannerPlan`, `published` and `oscillationPose`. Each method updates
  them in place. `ResetState`, `GoalCallback`, `PlanLoopIteration`,
  `ControlLoopTick` and `ControlLoopRound` are proved to move `Snapshot()`
  exactly as the `NavigationSpec` function of the same name does. `MakePlan`
  is proved to return the flag and fill `latestPlan` as
  `NavigationSpec.MakePlan` does. `Run`, `AcquireMap`, the constructor and
  the publishers state their effect directly.
- `navigation_properties.dfy` (module `NavigationProperties`): what those
  transitions guarantee, as lemmas.
- `wrappers.dfy`: `Option`, used for a transform lookup that may fail.

## Behaviour of the code that the model keeps

- A failed path request in PLANNING is still handed over
  (`Source/NavigationApplication.cpp:231` skips the hand-off only when the
  state is not PLANNING). The automaton then becomes CONTROLLING with an empty
  plan, or with whatever a failing global planner left in the buffer. So the
  hand-off does NOT guarantee "never CONTROLLING with an empty plan". What
  does keep the tick loop off an empty plan is the control loop's wait
  condition (line 109). See `FailedPlanInPlanningIsHandedOff`,
  `FailedPlannerOutputIsExecuted` and `ControlLoopRoundGuard`.
- A path request that fails while PLANNING does not leave the state
  unchanged; it hands over and sets CONTROLLING. The state is left as it was
  only when the automaton was not in PLANNING.
- CLEARING is entered and left within the same tick. The expired-patience
  branch and the replan branch end in the same state with the same two stop
  commands (`TickVelocityFailure`). No transition ever leaves CLEARING behind
  (`ClearingNeverObservable`).

## Model

| member | source | states |
|---|---|---|
| Geometry.ComposeIdentity | Source/NavigationApplication.cpp:274-283 | when both transform lookups return the identity, the composed product gives back the goal pose unchanged |
| NavigationSpec.GoalToGlobalFrame | Source/NavigationApplication.cpp:249-284 | when either transform lookup fails the goal is returned untransformed; when both succeed the result is the product odom * map * goal |
| Navigation.NavigationApplication.RunRecovery | Source/NavigationApplication.cpp:92-95 | recovery behaviours are an empty stub: running them changes no field of the orchestrator |
| NavigationSpec.MakePlan | Source/NavigationApplication.cpp:53-90 | success holds exactly when the robot pose is available, the global planner succeeded and its plan is non-empty, so success implies a non-empty plan; with no robot pose the request fails and the buffer is left cleared; otherwise the buffer holds what the global planner wrote |
| NavigationSpec.SelectGlobalPlanner | Source/NavigationApplication.cpp:380-388 | the global planner is a GlobalPlanner whatever type string is configured |
| NavigationSpec.SelectLocalPlanner | Source/NavigationApplication.cpp:398-410 | the local planner is never the global one; it is the DWA planner exactly when the type is "dwa_local_planner", and the trajectory planner otherwise |
| Navigation.NavigationApplication.constructor | Source/NavigationApplication.cpp:21-28 | a new orchestrator has no pending goal and has published nothing |
| Navigation.NavigationApplication.PublishVelocity | Source/NavigationApplication.cpp:310-318 | appends exactly (linear x, linear y, angular z) to the published stream |
| Navigation.NavigationApplication.PublishZeroVelocity | Source/NavigationApplication.cpp:305-308 | appends one stop command |
| Navigation.NavigationApplication.ResetState | Source/NavigationApplication.cpp:97-101 | state becomes PLANNING and one stop command is appended; nothing else changes |
| Navigation.NavigationApplication.GoalCallback | Source/NavigationApplication.cpp:286-303 | a rejected goal changes nothing; an accepted one becomes the goal in the planning frame, sets the trigger and the state PLANNING |
| Navigation.NavigationApplication.MakePlan | Source/NavigationApplication.cpp:53-90 | clears the scratch plan, then fails without a robot pose, and succeeds only when the planner succeeds with a non-empty plan |
| Navigation.NavigationApplication.PlanLoopIteration | Source/NavigationApplication.cpp:211-242 | waits while no goal is pending; otherwise consumes the trigger, plans, and hands the plan over unless planning failed outside PLANNING |
| Navigation.NavigationApplication.ControlLoopTick | Source/NavigationApplication.cpp:132-200 | one tick: records the robot pose when it moved far enough; in CONTROLLING stops on goal reached, publishes a produced command, or stops twice and returns to PLANNING; CLEARING returns to PLANNING; the inner loop ends exactly when the state was PLANNING |
| Navigation.NavigationApplication.ControlLoopRound | Source/NavigationApplication.cpp:105-203 | enters only when CONTROLLING with a non-empty plan; a rejected plan resets; otherwise the tick loop runs until a tick finds PLANNING |
| Navigation.NavigationApplication.Run | Source/NavigationApplication.cpp:366-429 | start-up empties both plan buffers, picks the planners, sets PLANNING, clears the trigger and tries the map service |
| Navigation.NavigationApplication.AcquireMap | Source/NavigationApplication.cpp:418-429 | calls the map service between 1 and 10 times, stops at the first answer that carries a map, and reports whether any of the first 10 did |
| NavigationProperties.ResetStateEffect | Source/NavigationApplication.cpp:97-101 | resetState always lands in PLANNING, appends exactly one stop command and changes nothing else |
| NavigationProperties.ResetStateTwice | Source/NavigationApplication.cpp:97-101 | resetting twice gives the state of resetting once, with two stop commands appended |
| NavigationProperties.RejectedGoalChangesNothing | Source/NavigationApplication.cpp:289-293 | an invalid orientation leaves goal, trigger, state and everything else unchanged |
| NavigationProperties.AcceptedGoal | Source/NavigationApplication.cpp:295-302 | an accepted goal is the transformed goal, the trigger is set, the state is PLANNING, and the plans and the published stream are untouched |
| NavigationProperties.LastGoalWins | Source/NavigationApplication.cpp:297-302 | after two accepted goals the orchestrator is exactly as if only the second had arrived |
| NavigationProperties.GoalToGlobalFrameFallback | Source/NavigationApplication.cpp:262-283 | either lookup failing returns the goal untransformed; both succeeding returns the composed product |
| NavigationProperties.GoalToGlobalFrameIdentity | Source/NavigationApplication.cpp:249-284 | identity lookups return the goal unchanged |
| NavigationProperties.PlanLoopIterationWaits | Source/NavigationApplication.cpp:213-221 | with no goal pending the planning loop changes nothing |
| NavigationProperties.PlanLoopIterationHandOff | Source/NavigationApplication.cpp:229-242 | a woken planning loop clears the trigger, keeps state and active plan when planning failed outside PLANNING, and otherwise sets CONTROLLING with the active plan equal to the scratch plan |
| NavigationProperties.SuccessfulPlanMakesControlReady | Source/NavigationApplication.cpp:229-242 | a successful plan is installed and satisfies the control loop's wait condition |
| NavigationProperties.FailedPlanInPlanningIsHandedOff | Source/NavigationApplication.cpp:231-240 | without a robot pose in PLANNING the hand-off still sets CONTROLLING with an empty plan, and the control loop does not enter |
| NavigationProperties.FailedPlannerOutputIsExecuted | Source/NavigationApplication.cpp:75-79 | waypoints left by a planner that reported failure are handed over in PLANNING and the control loop is ready to execute them |
| NavigationProperties.TickInPlanning | Source/NavigationApplication.cpp:152-154 | a PLANNING tick changes nothing but the oscillation pose and publishes nothing |
| NavigationProperties.TickInClearing | Source/NavigationApplication.cpp:196-199 | a CLEARING tick sets PLANNING and publishes nothing |
| NavigationProperties.TickGoalReached | Source/NavigationApplication.cpp:156-161 | goal reached: PLANNING and exactly one stop command |
| NavigationProperties.TickPublishesCommand | Source/NavigationApplication.cpp:165-172 | a produced velocity command is published exactly, and the state stays CONTROLLING |
| NavigationProperties.TickVelocityFailure | Source/NavigationApplication.cpp:173-192 | no velocity command: PLANNING with two stop commands, the same whether or not patience expired |
| NavigationProperties.TickNeverEndsInClearing | Source/NavigationApplication.cpp:176-192 | CLEARING set on the expired branch is never visible after the tick |
| NavigationProperties.StoppingTick | Source/NavigationApplication.cpp:155-192 | a tick that reaches the goal or gets no command ends in PLANNING with its stop commands |
| NavigationProperties.SessionStopsAtFirstTick | Source/NavigationApplication.cpp:132-203 | after a stopping tick the inner loop ends on the next tick |
| NavigationProperties.SessionFrame | Source/NavigationApplication.cpp:132-203 | the tick loop never touches the goal, the trigger or either plan, consumes at most its inputs and only appends publications |
| NavigationProperties.SessionEndsInPlanning | Source/NavigationApplication.cpp:132-203 | the tick loop is left only in PLANNING, and after any tick the state is not CLEARING |
| NavigationProperties.SessionWithoutStop | Source/NavigationApplication.cpp:150-172 | while every tick yields a command the loop stays CONTROLLING and publishes exactly those commands in order |
| NavigationProperties.SessionUntilStop | Source/NavigationApplication.cpp:132-203 | executing a plan publishes the commands before the first stopping tick, then that tick's stop commands, and leaves on the following tick in PLANNING |
| NavigationProperties.ControlLoopRoundGuard | Source/NavigationApplication.cpp:109-129 | ticks run only from CONTROLLING with a non-empty plan the local planner accepted; a rejected plan resets the automaton |
| NavigationProperties.ClearingNeverObservable | Source/NavigationApplication.cpp:97-303 | from any state other than CLEARING, no entry point leaves the automaton in CLEARING |
| NavigationProperties.PendingGoalImpliesPlanning | Source/NavigationApplication.cpp:229-242 | taken one whole pass at a time, every entry point preserves "a pending goal implies PLANNING", so such a sequence never skips the hand-off at line 231 |
| NavigationProperties.GoalReachedOnFirstTick | Source/NavigationApplication.cpp:155-161 | a goal accepted, planned as one pose and reached on the first tick ends in PLANNING with a single stop command published |

## Left out

- Threads, `boost::mutex`, condition variables, timed waits, notifications, the `running` flag, `quit()` and the thread joins (lines 105-121, 207-227, 431-450). One loop pass is one method call. A wait whose condition does not hold is a pass that changes nothing. One consequence is that interleavings inside a pass are not modelled. In the program, the skip-hand-off branch of line 231 is reached in two ways. One is a goal arriving between lines 229 and 238 of the previous planning pass. The other is the control loop being between lines 182 and 183 when line 231 reads `state`. That window is the only one in which another thread can observe CLEARING. No sequence of whole model passes reaches it (`PendingGoalImpliesPlanning`). The lemmas about single passes quantify over every snapshot, so they still cover that branch.
- `Rate::sleep` pacing and the planner and controller frequencies. They only time the loops.
- `isQuaternionValid` (lines 320-357). It works on floating point (finiteness, norm, tilt of the up vector), so its verdict is the boolean `quaternionValid`.
- `distance`/`hypot` (lines 143, 359-364). Whether the robot moved at least the oscillation distance is the boolean `movedFarEnough`. The robot pose read at line 139 is `robotPose`.
- Wall-clock time in the patience check (lines 135, 176-179). It is the boolean `patienceExpired`. Both branches lead to the same observable state.
- Geometry.Compose: doubles are reals. Rotation uses `q v q*`, which equals the library's rotation for unit quaternions (the library normalises when it builds a rotation matrix). Timestamps are not modelled.
- Geometry.ComposeIdentity: the equality covers the position and the rotation, and holds as stated only for unit quaternions. A goal with a non-unit quaternion that passes the orientation check, such as (0,0,0,2), comes back from the program normalised, while the model returns it as given. The message header (frame id, stamp) is not modelled. The program replaces it on the transformed path (lines 252, 279-282) and keeps it on the fallback path (lines 265, 271).
- NavigationProperties.GoalToGlobalFrameIdentity: same limits as `Geometry.ComposeIdentity`. The goal comes back "unchanged" in position and rotation for unit quaternions only, and the message header is not modelled.
- `loadParameters` (lines 36-51) reads a configuration file. The planner type strings are parameters of `Run`.
- Costmap creation, initialisation and start, planner `initialize`, the costmap lock in `makePlan`, and the planners' algorithms are foreign calls. Their outcomes are parameters.
- Publisher and subscriber set-up, the destructor and all console logging are I/O.
- Navigation.NavigationApplication.constructor: says nothing about `state`, `goal` and `oscillationPose`. The source leaves them uninitialised until `run()` or the first goal.

# SimpleSoccer decision core in Dafny

This project models the decision and bookkeeping core of SimpleSoccer, a
two-team 2D soccer simulation written in C++. It covers the following parts.

- **Entity bookkeeping.** The entity-ID counter and the radius and scale
  setters of `BaseGameEntity`.
- **The soccer ball.** Kicks, the friction-gated update, the time-to-cover
  computation, trapping and placing.
- **Steering.** The behaviour bit flags with their no-op `XOn` setters, the
  force budget of `AccumulateForce`, and the ordered `SumForces`. Also
  `Calculate`, the neighbour tagging and separation, and the
  seek/arrive/pursuit/interpose forces.
- **The support-spot grid.** Its layout, and a rescoring that only ever
  reaches the first spot.
- **Players and teams.** The player's range predicates and per-tick
  integration step. The team's searches: closest player to the ball, best
  supporting attacker, first eligible pass receiver, best pass to a receiver,
  shot sampling, pass safety and the roster scans.
- **The two state machines.** The field-player and goalkeeper state
  machines: Enter, Execute, Exit and OnMessage of every state whose code
  exists, the global field-player state, and message dispatch between
  players.

Arithmetic is over `real`. Square roots, lengths, normalisation, rotation,
tangent points and the transformation to local space are fields of a
`Geometry` record. `Geometry.Sound()` pins down the properties the proofs
use: a length is non-negative and squares to the squared length, and
normalising divides by the length. Things decided outside the shown code
become parameters of the operation that consults them:

- the update regulators;
- the random draws;
- the wall-collision step;
- the goalkeeper helper queries whose bodies are not shown.

Objects whose fields the source updates in place are classes:

- `BaseGameEntity`, `SoccerBall`, `SteeringBehaviors`,
  `SupportSpotCalculator`, `PlayerBase`, `SoccerTeam` and `SoccerPitch`;
- the field player and the goalkeeper are both `PlayerBase` objects, told
  apart by their role;
- each player's three state-machine slots (current, previous, global) are
  fields of type `Option<State>`.

Each state is a constructor of the `State` datatype, and each state's
Enter, Execute, Exit and OnMessage is a method.

The modules follow the source files:

| file | module | source |
|---|---|---|
| geometry.dfy | Geometry | vector algebra used everywhere |
| params.dfy | Params | the parameter record |
| option.dfy | Optional | `Option` |
| base_game_entity.dfy | Entity | Game/BaseGameEntity.h |
| soccer_ball.dfy | Ball | SoccerBall.h, SoccerBall.cpp |
| steering_behaviors.dfy | Steering | SteeringBehaviors.h, SteeringBehaviors.cpp |
| support_spot_calculator.dfy | SupportSpots | SupportSpotCalculator.cpp |
| player_base.dfy | Player | PlayerBase.h, PlayerBase.cpp |
| soccer_team.dfy | Team | SoccerTeam.cpp and the pitch flags |
| player_states.dfy | States | FieldPlayerStates.cpp, GoalkeeperStates.cpp |
| state_execute.dfy | Execution | the Execute methods, FieldPlayer.cpp |

Several facts of the code as written shape the model.

- **`XOn` does nothing.** The `XOn` setters compare the flags instead of
  setting them (SteeringBehaviors.h:123-127). Flags start at zero and `XOff`
  only clears bits, so no behaviour is ever on. `SumForces` then adds
  nothing and `Calculate` returns the zero force. The model keeps this
  behaviour and proves it (`Steering.NothingOn`, `Steering.SumForcesAllOff`).
- **Only the first support spot is scored.** `DetermineBestSupportingPosition`
  returns from inside its loop, so only the first spot is ever scored, and it
  always becomes the best one.
- **`FindPass` keeps the first eligible receiver.** It never assigns its
  `Target`, so the first eligible teammate wins.
- **Dead code after early returns.** `ChaseBall::Execute` and
  `SupportAttacker::Execute` return early, and the code behind those returns
  never runs.
- **TendGoal cannot go from intercepting to returning home on one tick.** The
  too-far check cannot override the switch to `InterceptBall` on the same
  tick: the switch needs the team out of control and the check needs it in
  control (GoalkeeperStates.cpp:93-101). The model follows the code
  (`Execution.TendGoalWatch`).
- **The goalkeeper's global state does nothing.** Its Enter, Execute and Exit
  are empty (GoalkeeperStates.h:26-28). Only its OnMessage acts.
- **Header and source both define the state methods.** FieldPlayerStates.h
  gives every field-player state empty inline Enter, Execute and Exit
  bodies, and FieldPlayerStates.cpp defines most of them again. The model
  uses the .cpp definition where one exists and the empty header body
  otherwise.
- **Pursuit moves the steering target.** `SteeringBehaviors::Pursuit`
  also stores the ball's predicted position in the steering target
  (SteeringBehaviors.cpp:196). The model keeps this side effect
  (`Steering.SteeringBehaviors.Pursuit`).
- **The red support grid is shifted.** Both grid corners add half a slice
  (SupportSpotCalculator.cpp:27-28). The red grid is therefore the blue grid
  mirrored and then shifted one slice right, and its first column lies half a
  slice beyond the support region's right edge
  (`SupportSpots.GridMirrored`, `SupportSpots.RedFirstColumnOutside`).

## Model

| member | source | states |
|---|---|---|
| Entity.IdSource.NextValidID | Game/BaseGameEntity.h:36 | returns the counter's old value and advances it by one; the id is non-negative and was never issued before |
| Entity.BaseGameEntity.Default | Game/BaseGameEntity.h:46 | takes a fresh id from the counter; radius 0, position zero, scale (1,1), entity type -1, untagged |
| Entity.BaseGameEntity.OfType | Game/BaseGameEntity.h:48 | takes a fresh id from the counter; given entity type, other defaults as above |
| Entity.BaseGameEntity.Placed | Game/BaseGameEntity.h:50 | takes a fresh id from the counter; given type, position and radius, scale (1,1), untagged |
| Entity.BaseGameEntity.WithForcedId | Game/BaseGameEntity.h:53 | uses the given id and does not touch the counter |
| Entity.BaseGameEntity.HandleMessage | Game/BaseGameEntity.h:59 | the base entity handles no message |
| Entity.BaseGameEntity.SetPos | Game/BaseGameEntity.h:65-66 | `Pos()` then returns the position set |
| Entity.BaseGameEntity.SetBRadius | Game/BaseGameEntity.h:68-69 | `BRadius()` then returns the radius set |
| Entity.BaseGameEntity.Tag | Game/BaseGameEntity.h:73-74 | `IsTagged()` becomes true |
| Entity.BaseGameEntity.UnTag | Game/BaseGameEntity.h:75 | `IsTagged()` becomes false |
| Entity.BaseGameEntity.SetEntityType | Game/BaseGameEntity.h:81-82 | `EntityType()` then returns the type set |
| Entity.BaseGameEntity.SetScale | Game/BaseGameEntity.h:78 | scale replaced; radius multiplied by max(new)/max(old) when max(old) is non-zero, so the radius-to-larger-component ratio is kept; when max(old) is zero the radius is marked no longer finite |
| Entity.BaseGameEntity.SetUniformScale | Game/BaseGameEntity.h:79 | scale becomes (v,v); radius multiplied by v/max(old) when max(old) is non-zero, so the ratio is kept; when max(old) is zero the radius is marked no longer finite |
| Ball.SoccerBall.constructor | SoccerBall.h:37-38 | zero velocity, heading (0,1), max speed -1, the given position, size and mass |
| Ball.SoccerBall.HandleMessage | SoccerBall.h:49 | the ball handles no message |
| Ball.SoccerBall.Kick | SoccerBall.cpp:29-40 | velocity is replaced by normalize(direction)·force/mass; its speed is \|force/mass\| for a non-zero direction |
| Ball.SoccerBall.Update | SoccerBall.cpp:47-66 | the old position is recorded first; after the collision step, velocity, position and heading change only when \|v\|² > friction² |
| Ball.SoccerBall.TimeToCoverDistance | SoccerBall.cpp:74-100 | -1 when speed² + 2·distance·friction ≤ 0 |
| Ball.TimeNegativeIffUnreachable | SoccerBall.cpp:85-98 | the time is negative exactly when the ball cannot reach the point |
| Ball.TimeSolvesMotion | SoccerBall.cpp:90-98 | otherwise the returned time t solves u·t + ½·friction·t² = distance |
| Ball.KickedBallArrives | SoccerBall.cpp:107-124 | a ball kicked from A towards B is, by `FuturePosition`, exactly at B after `TimeToCoverDistance(A, B)` |
| Ball.FuturePositionNow | SoccerBall.cpp:107-124 | `FuturePosition(0)` is the current position |
| Ball.FrictionSlowsBall | SoccerBall.cpp:56-62 | a friction step above the gate shortens the velocity by exactly \|friction\| and keeps its direction |
| Ball.SoccerBall.Trap | SoccerBall.h:63 | velocity becomes zero and nothing else changes |
| Ball.SoccerBall.PlaceAtPosition | SoccerBall.cpp:209-214 | position and old position become the point, velocity zero; `OldPos()` returns the point |
| Steering.BehaviorBitsDistinct | SteeringBehaviors.h:50-59 | the five behaviour tags are distinct single bits: disjoint, non-zero, each `On` in itself only |
| Steering.OffClearsOnlyItsBit | SteeringBehaviors.h:130-134 | `XOff` clears its own bit, leaves every other behaviour's bit, is idempotent and changes nothing else |
| Steering.OffClears | SteeringBehaviors.h:130-134 | after `XOff` the behaviour is off, and a behaviour already off leaves the flags unchanged |
| Steering.SteeringBehaviors.constructor | SteeringBehaviors.cpp:13-14 | flags 0, untagged, separation coefficient and view distance from the parameters, interpose distance 0 |
| Steering.SteeringBehaviors.SetTarget | SteeringBehaviors.h:113-114 | `Target()` then returns the target set |
| Steering.SteeringBehaviors.SetInterposeDistance | SteeringBehaviors.h:116-117 | `InterposeDistance()` then returns the distance set |
| Steering.SteeringBehaviors.Tag | SteeringBehaviors.h:119-120 | `Tagged()` becomes true |
| Steering.SteeringBehaviors.UnTag | SteeringBehaviors.h:121 | `Tagged()` becomes false |
| Steering.SteeringBehaviors.SeekOn | SteeringBehaviors.h:123 | the flags are unchanged (a comparison, not an assignment) |
| Steering.SteeringBehaviors.ArriveOn | SteeringBehaviors.h:124 | the flags are unchanged |
| Steering.SteeringBehaviors.PursuitOn | SteeringBehaviors.h:125 | the flags are unchanged |
| Steering.SteeringBehaviors.SeparationOn | SteeringBehaviors.h:126 | the flags are unchanged |
| Steering.SteeringBehaviors.InterposeOn | SteeringBehaviors.h:127 | the flags are unchanged and the interpose distance is set |
| Steering.SteeringBehaviors.SeekOff | SteeringBehaviors.h:130 | the seek bit is cleared if set |
| Steering.SteeringBehaviors.ArriveOff | SteeringBehaviors.h:131 | the arrive bit is cleared if set |
| Steering.SteeringBehaviors.PursuitOff | SteeringBehaviors.h:132 | the pursuit bit is cleared if set |
| Steering.SteeringBehaviors.SeparationOff | SteeringBehaviors.h:133 | the separation bit is cleared if set |
| Steering.SteeringBehaviors.InterposeOff | SteeringBehaviors.h:134 | the interpose bit is cleared if set |
| Steering.NothingOn | SteeringBehaviors.cpp:14 | with the initial flags no behaviour is on |
| Steering.SwitchedOffStaysOff | SteeringBehaviors.h:123-134 | switching anything off from the initial flags leaves them at zero, so no behaviour can ever be on |
| Steering.AccumulateForce | SteeringBehaviors.cpp:21-43 | adds something iff the force so far is below the maximum; otherwise the force is unchanged |
| Steering.AccumulateForceAdds | SteeringBehaviors.cpp:33-41 | the added vector points along the force to add, with length min(\|force to add\|, remaining budget) |
| Steering.AccumulateForceWithinBudget | SteeringBehaviors.cpp:21-43 | a force within the budget stays within it |
| Steering.SeekDesiredVelocity | SteeringBehaviors.cpp:140-145 | the desired velocity has length max speed and points at the target |
| Steering.ArriveDesiredVelocity | SteeringBehaviors.cpp:152-179 | zero at the target; elsewhere the desired velocity points at the target with speed min(dist/(decel·0.3), max speed) |
| Steering.InterposePointOnLine | SteeringBehaviors.cpp:239-243 | the point interpose arrives at lies on the ray from the target towards the ball, at the interpose distance |
| Steering.RepulsionPointsAway | SteeringBehaviors.cpp:218-224 | each separation push points away from the neighbour with magnitude one over the distance |
| Steering.SeparationAlone | SteeringBehaviors.cpp:208-231 | with nobody tagged but the agent itself, separation is zero |
| Steering.SteeringBehaviors.Pursuit | SteeringBehaviors.cpp:186-201 | stores the ball's predicted position (look-ahead 0 for a resting ball) as the target and arrives there fast |
| Steering.PursuitOfRestingBall | SteeringBehaviors.cpp:191-196 | for a ball at rest the pursuit target is the ball's position |
| Steering.SteeringBehaviors.FindNeighbours | SteeringBehaviors.cpp:250-267 | exactly the players (the agent included) within squared view distance end tagged |
| Steering.SteeringBehaviors.Separation | SteeringBehaviors.cpp:208-231 | the force is the sum of the pushes from every tagged player other than the agent, in roster order |
| Steering.SteeringBehaviors.SumForces | SteeringBehaviors.cpp:71-115 | tags the neighbours, then runs separation, seek, arrive, pursuit and interpose in that order, each on the running sum of the earlier forces, stopping at the first refusal |
| Steering.SteeringBehaviors.SeparationTurn | SteeringBehaviors.cpp:78-83 | separation's turn of the sum |
| Steering.SteeringBehaviors.SeekTurn | SteeringBehaviors.cpp:85-90 | seek's turn of the sum |
| Steering.SteeringBehaviors.ArriveTurn | SteeringBehaviors.cpp:92-97 | arrive's turn of the sum |
| Steering.SteeringBehaviors.PursuitTurn | SteeringBehaviors.cpp:99-104 | pursuit's turn, which also moves the target |
| Steering.SteeringBehaviors.InterposeTurn | SteeringBehaviors.cpp:106-111 | interpose's turn of the sum |
| Steering.SteeringBehaviors.Calculate | SteeringBehaviors.cpp:50-63 | the result is the truncated sum, and its length is at most the maximum force |
| Steering.SumForcesWithinBudget | SteeringBehaviors.cpp:71-115 | a sum that starts within the budget ends within it |
| Steering.TurnsWithinBudget | SteeringBehaviors.cpp:78-111 | the behaviour turns keep the force within the budget |
| Steering.SumForcesSaturated | SteeringBehaviors.cpp:81-113 | a force already at the budget comes back unchanged |
| Steering.TurnsSaturated | SteeringBehaviors.cpp:78-111 | the turns leave a saturated force unchanged |
| Steering.SumForcesAllOff | SteeringBehaviors.cpp:71-115 | with no behaviour on, the sum is the starting force and `Calculate` yields zero |
| Steering.TurnsAllOff | SteeringBehaviors.cpp:78-111 | with no behaviour on, no turn changes anything |
| SupportSpots.SupportSpotCalculator.constructor | SupportSpotCalculator.cpp:17-45 | for any spot counts, the spots are exactly the grid layout (empty when a count is too small to give a column or a row), and there is no best spot yet |
| SupportSpots.GridSize | SupportSpotCalculator.cpp:31-40 | the grid has (numX/2 − 1)·numY spots for a positive numY, and none when numX < 4 or numY ≤ 0 |
| SupportSpots.ColumnsIndex | SupportSpotCalculator.cpp:31-40 | spot x·numY + y sits at column x, row y |
| SupportSpots.ColumnsUnscored | SupportSpotCalculator.cpp:35-36 | every spot starts with score 0 |
| SupportSpots.GridMirrored | SupportSpotCalculator.cpp:27-36 | a red spot is the blue spot reflected about the support region's centre line and shifted one slice right (left + right − x + SliceX), same y |
| SupportSpots.RedFirstColumnOutside | SupportSpotCalculator.cpp:24-28 | the blue grid's first column sits half a slice inside the region's left edge, the red grid's first column half a slice beyond its right edge |
| SupportSpots.SupportSpotCalculator.DetermineBestSupportingPosition | SupportSpotCalculator.cpp:50-96 | keeps the cached spot when the regulator is not ready; otherwise only spot 0 is rescored and becomes the best |
| SupportSpots.SupportSpotCalculator.GetBestSupportingSpot | SupportSpotCalculator.cpp:101-106 | a cached best spot is returned without consulting the regulator; otherwise it is determined |
| SupportSpots.ScoreAtLeastOne | SupportSpotCalculator.cpp:63-82 | a spot's score is at least 1, so it beats the initial best score 0 |
| SupportSpots.DistanceBonusRange | SupportSpotCalculator.cpp:73-82 | the distance bonus lies in [0, weight], is full at distance 200 and zero outside (0, 400) |
| SupportSpots.DistanceBonusSymmetric | SupportSpotCalculator.cpp:75-80 | the bonus is symmetric around the optimal distance 200 |
| Player.PlayerBase.constructor | PlayerBase.cpp:23-46 | takes a fresh id; starts at the home region's centre; home and default region equal; distance to ball MaxFloat; radius max(scale·10, 10); steering targets the home centre with no behaviour on; no state yet |
| Player.PlayerRadius | PlayerBase.cpp:27-38 | the player's four vertices raise a start radius r to max(r, 10) |
| Player.ExtentBounds | PlayerBase.cpp:30-38 | the bounding radius is at least the start value and at least every vertex's \|x\| and \|y\| |
| Player.ExtentAttained | PlayerBase.cpp:30-38 | the bounding radius is the start value or one vertex coordinate's magnitude |
| Player.PlayerBase.SetDistSqToBall | PlayerBase.h:110-111 | `DistSqToBall()` then returns the value set |
| Player.PlayerBase.SetDefaultHomeRegion | PlayerBase.h:117 | the home region becomes the default region, which is unchanged |
| Player.PlayerBase.SetHomeRegion | PlayerBase.h:123 | only the home-region index changes |
| Player.PlayerBase.IsThreatened | PlayerBase.cpp:68-96 | true iff some opponent is in front (positive dot product with the heading) and strictly within the comfort zone |
| Player.PlayerBase.TrackBall | PlayerBase.cpp:52-54 | the heading turns towards the ball by the turn-rate-limited rotation; the side vector follows |
| Player.PlayerBase.TrackTarget | PlayerBase.cpp:60-62 | the heading becomes the unit vector towards the steering target and the side is its perpendicular |
| Player.PlayerBase.Move | FieldPlayer.cpp:57-90 | brakes by 0.8 on a zero force, turns by the clamped side component, lays the velocity along the new heading, accelerates by the forward component over the mass, truncates to max speed, and moves by the velocity; \|velocity\| ≤ max speed |
| Player.SortOrdersStrictly | PlayerBase.cpp:194-200 | both sort predicates are strict orders (irreflexive, transitive), the reverse one is the forward one with its arguments swapped, and incomparability is transitive |
| Team.SoccerTeam.constructor | SoccerTeam.cpp:21-40 | no opponents linked and no controlling, supporting, receiving or closest player; closest distance 0; the team state machine starts with current and previous `Defending`; the support-spot grid is built for the team's colour with no best spot |
| Team.SoccerTeam.AddPlayer | SoccerTeam.cpp:434-459 | the roster grows by the new player at the end |
| Team.SoccerTeam.SetDefaultSteering | SoccerTeam.cpp:34-35 | switching separation on for every player leaves every player's flags as they were |
| Team.SoccerTeam.CalculateClosestPlayerToBall | SoccerTeam.cpp:76-98 | every player records its squared distance to the ball; the closest player is the first one strictly below everything before it (the old choice kept when nobody is below MaxFloat); the team's closest distance is that running minimum |
| Team.SoccerTeam.ClosestStep | SoccerTeam.cpp:83-92 | one player's step: record the distance, and take the player when strictly closer than the best so far |
| Team.PickIsFirstMinimum | SoccerTeam.cpp:78-96 | the search's pick is admitted, below the start value, no greater than any admitted entry and strictly below every earlier admitted one; no pick iff no admitted entry is below the start value |
| Team.PickAdmitted | SoccerTeam.cpp:114-126 | a pick is always an admitted entry |
| Team.NothingAdmitted | SoccerTeam.cpp:104-134 | with nothing admitted the search picks nothing and keeps its start value |
| Team.SoccerTeam.DetermineBestSupportingAttacker | SoccerTeam.cpp:104-134 | returns null or an attacker other than the controlling player that is closest to the best supporting spot, the first on ties; with no eligible attacker the spot calculator is not consulted |
| Team.SoccerTeam.SearchSupporter | SoccerTeam.cpp:110-130 | the loop: each eligible attacker queries the best spot (only the first query can rescore) and is measured against it |
| Team.SoccerTeam.GetSupportSpot | SoccerTeam.cpp:117 | the spot comes from the calculator, rescored with the team's pass-safety and shooting answers when it recomputes |
| Team.SoccerTeam.RequerySpot | SoccerTeam.cpp:117 | later queries within the same search return the spot the first one settled |
| Team.SoccerTeam.FindPass | SoccerTeam.cpp:141-176 | the receiver is the first player other than the passer beyond the minimum passing distance, with the pass target the default vector; the incoming receiver and target are kept when none is chosen; the result is `receiver != null` |
| Team.ConstantPickIsFirstAdmitted | SoccerTeam.cpp:145-167 | when every candidate has the same distance to the goal line, the first admitted one is picked |
| Team.SoccerTeam.GetBestPassToReceiver | SoccerTeam.cpp:187-232 | false when the ball cannot reach the receiver; otherwise the target is the candidate (tangent point, receiver, tangent point) inside the playing area and safe from all opponents that is strictly nearest the goal line, the first on ties; every chosen target is inside and safe |
| Team.PassCandidates | SoccerTeam.cpp:196-206 | three candidates, the middle one the receiver's position |
| Team.SlowerOpponentIsNoMoreDangerous | SoccerTeam.cpp:262-270 | a pass safe from an opponent is safe from one at the same place that is no faster and has a no larger reach |
| Team.BeyondTargetIsOffTarget | SoccerTeam.cpp:249-253 | an opponent farther from the passer than the target is, is not at the target |
| Team.ReceiverOnTargetIsNoReceiver | SoccerTeam.cpp:249-260 | a receiver standing on the target makes the pass exactly as safe as no receiver |
| Team.NoReceiverIsNoLessSafe | SoccerTeam.cpp:249-260 | a pass that is safe with a receiver is safe without one |
| Team.SoccerTeam.IsPassSafeFromAllOpponents | SoccerTeam.cpp:281-298 | true iff the pass is safe from every opponent |
| Params.StrikeAttemptsCounted | SoccerTeam.cpp:311-313 | a non-negative 32-bit attempt count is the number of attempts; a negative one wraps to 2^32 plus the count |
| Team.SoccerTeam.CanShoot | SoccerTeam.cpp:308-338 | true iff one of the first `StrikeAttempts()` draws (the attempt count taken round the 32-bit counter) on the goal line between the posts is reachable and safe; the shot target is the first such draw, otherwise the last one tried |
| Team.FirstShotIsFirst | SoccerTeam.cpp:313-334 | the shot found is the first scoring draw, and none is found iff no draw tried scores |
| Team.FirstShotStable | SoccerTeam.cpp:330 | once a scoring draw is found, more attempts do not change it |
| Team.SoccerTeam.GetPlayerFromID | SoccerTeam.cpp:470-477 | the first player with the id, or null iff no player has it |
| Team.SoccerTeam.SetPlayerHomeRegion | SoccerTeam.cpp:479-484 | the chosen player's home region changes and no other player's does |
| Team.SoccerTeam.UpdateTargetsOfWaitingPlayers | SoccerTeam.cpp:489-504 | exactly the field players in `Wait` or `ReturnToHomeRegion` aim at their home region's centre; all other targets are unchanged |
| Team.SoccerTeam.AllPlayersAtHome | SoccerTeam.cpp:510-521 | true iff every player is in its home region |
| Team.SoccerTeam.IsOpponentWithinRadius | SoccerTeam.cpp:546-559 | true iff some opponent's squared distance is below rad² |
| States.Arrived | FieldPlayerStates.cpp:182-302 | an Enter changes only the steering target and the interpose distance; the current, previous and home-region slots and the behaviour flags are untouched |
| States.ChaseBallExit | FieldPlayerStates.cpp:170-172 | the flags become the old flags with seek cleared |
| States.SupportAttackerExit | FieldPlayerStates.cpp:227-233 | the team has no supporting player afterwards and arrive is cleared |
| States.ReturnToHomeRegionExit | FieldPlayerStates.cpp:282-284 | arrive is cleared |
| States.TendGoalExit | GoalkeeperStates.cpp:105-107 | interpose is cleared |
| States.ReturnHomeExit | GoalkeeperStates.cpp:133-135 | arrive is cleared |
| States.InterceptBallExit | GoalkeeperStates.cpp:181-183 | pursuit is cleared |
| States.ChaseBallEnter | FieldPlayerStates.cpp:145-153 | the flags are unchanged, because `SeekOn` sets nothing |
| States.SupportAttackerEnter | FieldPlayerStates.cpp:182-191 | the calculator now holds a best spot (scoring the first spot when it held none), the target is that spot, and the flags are unchanged |
| States.ReturnToHomeRegionEnter | FieldPlayerStates.cpp:243-252 | the target is kept when it lies in the home region's central half, else it becomes the region's centre; the flags are unchanged |
| States.WaitEnter | FieldPlayerStates.cpp:294-304 | the target is unchanged while the game is on, else it becomes the home region's centre |
| States.TendGoalEnter | GoalkeeperStates.cpp:66-75 | the interpose distance is the tending distance, the target is the rear interpose target, and the flags are unchanged |
| States.ReturnHomeEnter | GoalkeeperStates.cpp:120-122 | the flags are unchanged |
| States.InterceptBallEnter | GoalkeeperStates.cpp:149-156 | the flags are unchanged |
| States.QueriedIsStep | SoccerTeam.cpp:117 | a support-spot query either leaves the calculator as it was or, when it held no best spot, rescores only spot 0 and picks it |
| States.SpotStepKeepsSpot | PlayerBase.cpp:107-113 | a query never moves the spot that the supporter search measures from, and two queries in a row are one query step |
| States.FieldOnMessage | FieldPlayerStates.cpp:32-87 | a message is handled iff it is known; the player's new view is the message's response (ReceiveBall aims at the pass target, GoHome restores the default home region, SupportAttacker is ignored when already supporting); the team loses its supporter exactly when the player leaves SupportAttacker |
| States.KeeperOnMessage | GoalkeeperStates.cpp:28-51 | never reports a message as handled; GoHome restores the default region and moves to ReturnHome, ReceiveBall moves to InterceptBall, and anything else changes nothing |
| States.SendHome | SoccerTeam.cpp:350 | a field player reacts to GoHome, the goalkeeper is untouched, and every other player is unchanged |
| States.ReturnAllFieldPlayersToHome | SoccerTeam.cpp:344-354 | every non-goalkeeper has the view of a GoHome reaction and the goalkeeper's view is unchanged |
| States.KickBallEnter | FieldPlayerStates.cpp:359-371 | the player becomes the controlling player; when the kick regulator is not ready, it changes state to ChaseBall |
| States.PutBallBackInPlayEnter | GoalkeeperStates.cpp:195-204 | the keeper becomes the controlling player and every field player of both teams has reacted to GoHome |
| States.FindSupport | PlayerBase.cpp:102-125 | the new supporting player is the best supporter when there is one, else the old supporter; a replaced supporter is sent home; the new supporter takes SupportAttacker; no other player changes |
| States.TellReceiver | FieldPlayerStates.cpp:118-119 | the requester reacts to ReceiveBall where it stands, every other player is unchanged, and the team loses its supporter exactly when the requester leaves SupportAttacker |
| States.ReceiveAndWait | FieldPlayerStates.cpp:118-122 | the requester reacts to ReceiveBall, then the passer enters Wait; the supporter is cleared by whichever reaction leaves SupportAttacker; nobody moves, so the best supporter is unchanged |
| States.MakePass | FieldPlayerStates.cpp:111-122 | the ball's velocity is the maximum passing force towards the requester over the mass, from the positions before the pass; every player has the view the two reactions give it, and the supporter is cleared by whichever of them leaves SupportAttacker |
| States.PassAndSeekSupport | FieldPlayerStates.cpp:111-124 | the pass's velocity and views, then FindSupport: the best supporter measured before the pass is enlisted, the supporter the pass left is sent home, every other player keeps the view the pass gave it, and the spot calculator takes at most one query step |
| States.OnPassToMe | FieldPlayerStates.cpp:89-127 | always handled; with a receiver already assigned or the ball out of kicking range nothing changes; otherwise the ball is kicked at the requester with the maximum passing force, the requester reacts to ReceiveBall, the passer enters Wait and FindSupport runs, with the views of `States.PassAndSeekSupport` |
| States.HandleMessage | FieldPlayer.cpp:101-103 | a message is handled iff the player has the field global state and the message is known; PassToMe changes nothing for a goalkeeper (whose handler ignores it), a set receiver or a ball out of kicking range, and otherwise makes the full pass of `States.OnPassToMe`; every other message gives the response's view |
| States.AskForPass | SoccerTeam.cpp:536 | the PassToMe dispatched to the controlling player: nothing changes unless it is a field player with no receiver set and the ball in kicking range, and then the full pass is made |
| States.RequestPass | SoccerTeam.cpp:528-540 | nothing changes with a draw above 0.1, an unsafe pass, a goalkeeper controlling the ball (GoalkeeperStates.cpp:28-51), a receiver already set or the ball out of kicking range; otherwise the ball is kicked at the requester, the requester receives, the passer waits and the support is reassigned as in `States.PassAndSeekSupport` |
| Execution.GlobalPlayerStateExecute | FieldPlayerStates.cpp:24-30 | the maximum speed is the with-ball speed iff the ball is within receiving range, else the without-ball speed |
| Execution.ChaseBallExecute | FieldPlayerStates.cpp:155-168 | with the ball in kicking range the player controls the ball and enters KickBall (or bounces back to ChaseBall with seek cleared); otherwise nothing changes, since the code after the first `return` never runs |
| Execution.SupportAttackerExecute | FieldPlayerStates.cpp:193-225 | when the team is not in control the player returns home and the team loses its supporter; otherwise nothing changes, since the code after the `return` never runs |
| Execution.ReturnToHomeRegionExecute | FieldPlayerStates.cpp:254-280 | chases the ball when the game is on, this player is the closest, there is no receiver and no keeper holds the ball; waits in the home region while the game is on, or at the target while it is off; otherwise stays |
| Execution.WaitExecute | FieldPlayerStates.cpp:306-346 | off target it only switches arrive on; on target it stops, faces the ball, and without a pass request it chases the ball when it is closest and otherwise keeps waiting |
| Execution.ChangeStateToPutBallBackInPlay | GoalkeeperStates.cpp:195-204 | the keeper controls the ball and is in PutBallBackInPlay, and every other player of its team has reacted to GoHome |
| Execution.TendGoalExecute | GoalkeeperStates.cpp:77-103 | the target becomes the rear interpose target; with the ball in range the keeper traps it and puts it back in play; otherwise it intercepts when its team is not in control and goes home when too far out while in control |
| Execution.TendGoalWatch | GoalkeeperStates.cpp:92-101 | the intercept and return-home tests exclude each other, so at most one state change happens |
| Execution.ReturnHomeExecute | GoalkeeperStates.cpp:124-131 | the target is the home centre; the keeper goes back to TendGoal iff it is in its home region or its team has lost control |
| Execution.InterceptBallExecute | GoalkeeperStates.cpp:158-179 | too far out and not the closest player, the keeper goes home; otherwise, with the ball in range, it traps the ball and puts it back in play; otherwise nothing changes |
| Execution.PutBallBackInPlayExecute | GoalkeeperStates.cpp:206-232 | the receiver is the first eligible pass receiver; with one, the ball is kicked to the pass target, the keeper lets go, the receiver reacts to ReceiveBall and the keeper tends goal; with none, the keeper stands still and nothing else changes |
| Execution.FieldPlayerExecute | FieldPlayer.cpp:52 | the global state sets the speed limit, and the next state is one the current state's Execute can reach |
| Execution.KeeperExecute | GoalkeeperStates.cpp:77-232 | the next state is one the goalkeeper's current state can reach |
| Execution.FieldPlayerStart | FieldPlayer.cpp:28-39 | a start state becomes the current and the previous state, the global state is GlobalPlayerState and the start Enter has run; `SeparationOn` leaves the flags unchanged |
| Execution.FieldPlayerUpdate | FieldPlayer.cpp:49-90 | after the state-machine step the steering force is within the force budget, the speed is within the limit the global state set, the position advances by the velocity, and the side is the heading's perpendicular |

## Left out

- Rendering, the debug console, `main.cpp` and the window loop: they are output only.
- `ParamLoader`: the parameters are one `Params` record that every operation takes as an argument. The file is not read.
- Square roots, normalisation, rotation, tangents and local-space transforms: they are the fields of the `Geometry` record, constrained only by `Geometry.Sound()`.
- The regulators (`Regulator::isReady`) and the random draws (`RandFloat`, `RandInRange`): they are the fields of `Tick`, or arguments.
- `AddNoiseToKick` and the ball's wall collision: both are left out. The collision step is a parameter of `Ball.SoccerBall.Update`.
- `Vector2D::Normalize`: the source skips normalising below an epsilon; `Geometry.Normalize` divides whenever the length is positive.
- Division by a zero mass, friction or distance: IEEE infinities are not modelled, so those operations require a non-zero divisor.
- Entity.BaseGameEntity.SetScale: when the old scale's larger component is zero, the source's radius becomes infinite or NaN; the model keeps the old radius and clears `radiusFinite` instead of modelling IEEE values.
- Entity.BaseGameEntity.SetUniformScale: the same zero old scale is handled the same way.
- SupportSpots.SupportSpotCalculator.constructor: a zero spot count gives the source an infinite slice width; no spot is built then, so the model uses a zero slice.
- SupportSpots.SupportSpotCalculator.DetermineBestSupportingPosition: requires a non-empty grid whose first spot scores above zero, because the source otherwise falls off the end of the function or dereferences a null best spot (SupportSpotCalculator.cpp:60-92); the controlling player's position is an argument, so a null controlling player (SupportSpotCalculator.cpp:66) is excluded.
- SupportSpots.SupportSpotCalculator.GetBestSupportingSpot: the same grid and score requirement when no best spot is cached.
- States.SupportAttackerEnter: requires `Team.SoccerTeam.SpotsComputable`, which excludes the same crash paths (an empty grid, or a null controlling player, when no best spot is cached); so do `States.FindSupport` and every state and message handler that reaches the support-spot calculator.
- Team.SoccerTeam.CanShoot: the attempt count is a 32-bit int counted down to zero; a negative count is modelled as wrapping round to 2^32 plus the count (`Params.StrikeAttemptsCounted`), where signed overflow is undefined in C++.
- `StateMachine`, whose source is not part of this model: `ChangeState` is modelled as previous := current, the old Exit, current := new, the new Enter. `Update` runs the global state's Execute and then the current state's.
- `MessageDispatcher`, whose source is not part of this model: each `SEND_MSG_IMMEDIATELY` dispatch is a direct call to the receiver's handler. Delayed messages are never sent by the core.
- The behaviour of `ReceiveBall`, `Dribble` and `KickBall` (apart from `KickBall::Enter`): FieldPlayerStates.cpp has no definition for them. The only bodies are the empty inline ones in FieldPlayerStates.h, so the model's Execute of those states changes nothing.
- `GoalKeeper` (Goalkeeper.cpp is not part of this model): its constructor, `Update`, `BallWithinRangeForIntercept`, `TooFarFromGoalMouth` and `GetRearInterposeTarget` are fields of `Tick`.
- `TeamStates` (Attacking, Defending, PrepareForKickOff): only their header is available.
- `SoccerTeam::CreatePlayers` and its fixed roster: players join through `Team.SoccerTeam.AddPlayer` and start through `Execution.FieldPlayerStart`.
- `SoccerPitch` apart from the flags the states read and set: its update loop, goal detection and region layout are left out. Regions are the `Field` record.
- `EnforceNonPenetrationConstraint`: it depends on every entity in the world and is left out of `Execution.FieldPlayerUpdate`.
- The `debug_on` rendering inside `IsPassSafeFromAllOpponents`: it is output only.
- States.FindSupport: the source dereferences a null supporting player when no supporter is found at PlayerBase.cpp:109. The model then keeps the old (null) supporter and sends no message.
- States.ReturnAllFieldPlayersToHome: the team's supporting player is only stated to be null or unchanged, rather than tied to which player left SupportAttacker.
- States.MakePass: the kick is applied after the two reactions rather than before them (FieldPlayerStates.cpp:112); neither reaction reads the ball's velocity or moves anyone, and the velocity is stated from the positions before the pass.
- Player.PlayerBase.TrackBall: `MovingEntity` is not part of this model; its `SetHeading` is taken to re-derive the side, and `RotateHeadingToFacePosition` rotating the velocity as well is not modelled.
- Player.PlayerBase.TrackTarget: the same `SetHeading` reading as `Player.PlayerBase.TrackBall`.
- Entity.IdSource.NextValidID: the counter is a static int (Game/BaseGameEntity.h:36); its wrap after 2^31 IDs is not modelled.
- Execution.WaitExecute: when the player asks for a pass, only the stop and the facing are stated. The message chain a pass request sets off is not restated.
- Execution.ChangeStateToPutBallBackInPlay: the opponents' players being sent home is proved by `States.PutBallBackInPlayEnter` but not restated here.
- Execution.TrapAndPutBack: the players of both teams being sent home is not restated.
- Execution.TendGoalExecute: the players of both teams being sent home is not restated.
- Execution.InterceptBallExecute: the players of both teams being sent home is not restated.
- Execution.FieldPlayerStart: a `KickBall` start state is excluded, because its Enter reaches the team's controlling-player slot.
- Execution.FieldPlayerUpdate: separation's neighbours must be separable (no player coincides with another) on every tick, not only when separation is on.
- Execution.FieldNext: after Wait, any non-global state is allowed, because the pass request can message the waiting player back.

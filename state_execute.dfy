// The Execute of every state, which the state machines run once a tick,
// the field player's start-up of its state machine, and its Update.  The
// goalkeeper's own tests that live outside this model (the intercept
// range, the distance from the goal mouth, the rear interpose target) are
// answers of the tick.
module Execution {
  import opened Optional
  import opened Geometry
  import opened Params
  import opened Ball
  import opened Steering
  import opened Player
  import opened Team
  import opened States

  // ---------------------------------------------------------------------
  // The field player's states

  /**
   * GlobalPlayerState::Execute: a player with the ball within receiving
   * range runs at its speed with the ball, any other at its speed without.
   */
  method GlobalPlayerStateExecute(p: PlayerBase, prm: Params)
    modifies p`maxSpeed
    ensures p.BallWithinReceivingRange(prm) ==> p.maxSpeed == prm.playerMaxSpeedWithBall
    ensures !p.BallWithinReceivingRange(prm) ==> p.maxSpeed == prm.playerMaxSpeedWithoutBall
  {
    if p.BallWithinReceivingRange(prm) {
      p.SetMaxSpeed(prm.playerMaxSpeedWithBall);
    } else {
      p.SetMaxSpeed(prm.playerMaxSpeedWithoutBall);
    }
  }

  /**
   * ChaseBall::Execute: with the ball within kicking range the player
   * changes to KickBall; either way the handler then returns, so the rest
   * of it (retargeting at the ball, going home) never runs.  A kick the
   * regulator refuses puts the player back in ChaseBall with seek switched
   * off, since the Enter of ChaseBall cannot switch it on again.
   */
  method ChaseBallExecute(t: SoccerTeam, p: PlayerBase, prm: Params, g: Geometry, tick: Tick)
    requires p.current == Some(ChaseBall)
    modifies t`controlling, p`current, p`previous, p.steering`flags, p.steering`target, p.steering`interposeDist, t`supporting
    ensures t.supporting == old(t.supporting)
    ensures old(p.BallWithinKickingRange(prm)) ==> t.controlling == p
    ensures old(p.BallWithinKickingRange(prm)) && tick.kickReady ==>
      ViewOf(p) == Entered(old(ViewOf(p)), KickBall, SceneOf(t, prm, tick))
    ensures old(p.BallWithinKickingRange(prm)) && !tick.kickReady ==>
      ViewOf(p) == old(ViewOf(p)).(current := Some(ChaseBall), previous := Some(KickBall), flags := Off(old(p.steering.flags), SeekBit))
    ensures !old(p.BallWithinKickingRange(prm)) ==> ViewOf(p) == old(ViewOf(p)) && t.controlling == old(t.controlling)
  {
    if p.BallWithinKickingRange(prm) {
      ChangeStateToKickBall(t, p, prm, g, tick);
    }
    return;
  }

  /**
   * SupportAttacker::Execute: when the team has lost control the player
   * goes home, and its Exit leaves the team without a supporting player;
   * the handler then returns, so the rest of it never runs.
   */
  method SupportAttackerExecute(t: SoccerTeam, p: PlayerBase, prm: Params, g: Geometry, tick: Tick)
    requires p.current == Some(SupportAttacker)
    modifies p`current, p`previous, p.steering`flags, p.steering`target, p.steering`interposeDist, t`supporting
    ensures !t.InControl() ==>
      ViewOf(p) == Entered(old(ViewOf(p)), ReturnToHomeRegion, SceneOf(t, prm, tick)) && t.supporting == null
    ensures t.InControl() ==> ViewOf(p) == old(ViewOf(p)) && t.supporting == old(t.supporting)
  {
    if !t.InControl() {
      ChangeState(t, p, ReturnToHomeRegion, prm, g, tick);
    }
    return;
  }

  /**
   * Whether a field player goes after the ball: the game is on, it is its
   * team's closest player to the ball, no teammate is waiting for a pass
   * and no goalkeeper holds the ball.
   */
  predicate Chases(t: SoccerTeam, p: PlayerBase)
    reads t, t.pitch
  {
    t.pitch.gameOn && t.IsClosestTeamMemberToBall(p) && t.receiving == null && !t.pitch.goalKeeperHasBall
  }

  /**
   * ReturnToHomeRegion::Execute: a player who should chase the ball does;
   * otherwise, while the game is on, one back in the central half of its
   * home region stops where it stands and waits; before kick-off one at
   * its target waits.
   */
  method ReturnToHomeRegionExecute(t: SoccerTeam, p: PlayerBase, prm: Params, g: Geometry, tick: Tick)
    requires p.current == Some(ReturnToHomeRegion)
    modifies p`current, p`previous, p.steering`flags, p.steering`target, p.steering`interposeDist, t`supporting
    ensures t.supporting == old(t.supporting)
    ensures Chases(t, p) ==> ViewOf(p) == Entered(old(ViewOf(p)), ChaseBall, SceneOf(t, prm, tick))
    ensures !Chases(t, p) && t.pitch.gameOn && t.pitch.field.insideRegion(p.homeRegion, p.pos, HalfSize) ==>
      ViewOf(p) == Entered(old(ViewOf(p)).(target := p.pos), Wait, SceneOf(t, prm, tick))
    ensures !t.pitch.gameOn && old(p.AtTarget(prm)) ==> ViewOf(p) == Entered(old(ViewOf(p)), Wait, SceneOf(t, prm, tick))
    ensures (!Chases(t, p) && !(t.pitch.gameOn && t.pitch.field.insideRegion(p.homeRegion, p.pos, HalfSize)) &&
             !(!t.pitch.gameOn && old(p.AtTarget(prm)))) ==>
      ViewOf(p) == old(ViewOf(p))
  {
    if t.pitch.gameOn {
      if t.IsClosestTeamMemberToBall(p) && t.receiving == null && !t.pitch.goalKeeperHasBall {
        ChangeState(t, p, ChaseBall, prm, g, tick);
        return;
      }
    }
    if t.pitch.gameOn && t.pitch.field.insideRegion(p.homeRegion, p.pos, HalfSize) {
      p.steering.SetTarget(p.pos);
      ChangeState(t, p, Wait, prm, g, tick);
    } else if !t.pitch.gameOn && p.AtTarget(prm) {
      ChangeState(t, p, Wait, prm, g, tick);
    }
  }

  /**
   * Whether a waiting player at its target asks for a pass: its team
   * controls the ball, it is not the controlling player, and it is nearer
   * the opponents' goal line than the controlling player.
   */
  predicate AsksForPass(t: SoccerTeam, p: PlayerBase)
    reads t, p, t.controlling
  {
    t.controlling != null && t.controlling != p && t.IsAheadOfAttacker(p)
  }

  /**
   * What a pass request needs of the team: opponents to test the pass
   * against, a ball with mass on a pitch with friction, and a spot
   * calculator to find support with.
   */
  ghost predicate CanRequest(t: SoccerTeam, p: PlayerBase, prm: Params, g: Geometry, tick: Tick)
    reads t, t.ball, t.spotCalc
  {
    t.opponents != null && t.ball.mass != 0.0 && prm.friction != 0.0 && g.Sound() &&
    t.SpotsComputable(prm) && Drawn(prm, tick)
  }

  /**
   * Wait::Execute: a player jostled off its target asks for arrive (which
   * the steering ignores) and returns.  At its target it switches arrive
   * off, stops and turns to face the ball; then it asks for a pass when it
   * is ahead of the controlling player, or else chases the ball when it
   * should.
   */
  method WaitExecute(t: SoccerTeam, p: PlayerBase, prm: Params, g: Geometry, tick: Tick)
    requires Staffed(t) && p in t.players && p.current == Some(Wait)
    requires p.AtTarget(prm) && AsksForPass(t, p) ==> CanRequest(t, p, prm, g, tick)
    modifies p`velocity, p`heading, p`side, t.ball`velocity
    modifies Players(t)`current, Players(t)`previous, Players(t)`homeRegion
    modifies Rigs(t)`flags, Rigs(t)`target, Rigs(t)`interposeDist, t`supporting, t.spotCalc
    ensures Staffed(t)
    ensures !old(p.AtTarget(prm)) ==>
      p.velocity == old(p.velocity) && p.heading == old(p.heading) && t.ball.velocity == old(t.ball.velocity) &&
      t.supporting == old(t.supporting) && forall r :: r in t.players ==> ViewOf(r) == old(ViewOf(r))
    ensures old(p.AtTarget(prm)) ==>
      p.velocity == Zero && p.heading == g.faceTowards(old(p.heading), p.pos, p.ball.pos, p.maxTurnRate)
    ensures old(p.AtTarget(prm)) && !old(AsksForPass(t, p)) && old(Chases(t, p)) ==>
      ViewOf(p) == Entered(old(ViewOf(p)).(flags := Off(old(p.steering.flags), ArriveBit)), ChaseBall, SceneOf(t, prm, tick))
    ensures old(p.AtTarget(prm)) && !old(AsksForPass(t, p)) && !old(Chases(t, p)) ==>
      ViewOf(p) == old(ViewOf(p)).(flags := Off(old(p.steering.flags), ArriveBit))
    ensures old(p.AtTarget(prm)) && !old(AsksForPass(t, p)) ==>
      t.ball.velocity == old(t.ball.velocity) && t.supporting == old(t.supporting) &&
      forall r :: r in t.players && r != p ==> ViewOf(r) == old(ViewOf(r))
  {
    if !p.AtTarget(prm) {
      p.steering.ArriveOn();
      return;
    }
    WaitAtTarget(t, p, prm, g, tick);
  }

  /** The part of Wait::Execute that runs once the player is at its target. */
  method WaitAtTarget(t: SoccerTeam, p: PlayerBase, prm: Params, g: Geometry, tick: Tick)
    requires Staffed(t) && p in t.players && p.current == Some(Wait)
    requires AsksForPass(t, p) ==> CanRequest(t, p, prm, g, tick)
    modifies p`velocity, p`heading, p`side, t.ball`velocity
    modifies Players(t)`current, Players(t)`previous, Players(t)`homeRegion
    modifies Rigs(t)`flags, Rigs(t)`target, Rigs(t)`interposeDist, t`supporting, t.spotCalc
    ensures Staffed(t)
    ensures p.velocity == Zero && p.heading == g.faceTowards(old(p.heading), p.pos, p.ball.pos, p.maxTurnRate)
    ensures !old(AsksForPass(t, p)) && old(Chases(t, p)) ==>
      ViewOf(p) == Entered(old(ViewOf(p)).(flags := Off(old(p.steering.flags), ArriveBit)), ChaseBall, SceneOf(t, prm, tick))
    ensures !old(AsksForPass(t, p)) && !old(Chases(t, p)) ==>
      ViewOf(p) == old(ViewOf(p)).(flags := Off(old(p.steering.flags), ArriveBit))
    ensures !old(AsksForPass(t, p)) ==>
      t.ball.velocity == old(t.ball.velocity) && t.supporting == old(t.supporting) &&
      forall r :: r in t.players && r != p ==> ViewOf(r) == old(ViewOf(r))
  {
    Halt(t, p, g);
    WaitDecide(t, p, prm, g, tick);
  }

  /** A waiting player at its target stops arriving, stands still and faces the ball; no other player changes. */
  method Halt(t: SoccerTeam, p: PlayerBase, g: Geometry)
    requires Staffed(t) && p in t.players
    modifies p`velocity, p`heading, p`side, p.steering`flags
    ensures Staffed(t)
    ensures p.velocity == Zero && p.heading == g.faceTowards(old(p.heading), p.pos, p.ball.pos, p.maxTurnRate)
    ensures ViewOf(p) == old(ViewOf(p)).(flags := Off(old(p.steering.flags), ArriveBit))
    ensures forall r :: r in t.players && r != p ==> ViewOf(r) == old(ViewOf(r))
  {
    p.steering.ArriveOff();
    p.SetVelocity(Zero);
    p.TrackBall(g);
    forall r | r in t.players && r != p
      ensures ViewOf(r) == old(ViewOf(r))
    {
      Unshared(t.players, p, r);
    }
  }

  /** The decisions of a waiting player at its target: ask for a pass, or else chase the ball. */
  method WaitDecide(t: SoccerTeam, p: PlayerBase, prm: Params, g: Geometry, tick: Tick)
    requires Staffed(t) && p in t.players && p.current == Some(Wait)
    requires AsksForPass(t, p) ==> CanRequest(t, p, prm, g, tick)
    modifies t.ball`velocity
    modifies Players(t)`current, Players(t)`previous, Players(t)`homeRegion
    modifies Rigs(t)`flags, Rigs(t)`target, Rigs(t)`interposeDist, t`supporting, t.spotCalc
    ensures Staffed(t)
    ensures !old(AsksForPass(t, p)) && old(Chases(t, p)) ==> ViewOf(p) == Entered(old(ViewOf(p)), ChaseBall, SceneOf(t, prm, tick))
    ensures !old(AsksForPass(t, p)) && !old(Chases(t, p)) ==> ViewOf(p) == old(ViewOf(p))
    ensures !old(AsksForPass(t, p)) ==>
      t.ball.velocity == old(t.ball.velocity) && t.supporting == old(t.supporting) &&
      forall r :: r in t.players && r != p ==> ViewOf(r) == old(ViewOf(r))
  {
    if t.InControl() && !t.IsControllingPlayer(p) && t.IsAheadOfAttacker(p) {
      RequestPass(t, p, prm, g, tick);
      return;
    }
    if t.pitch.gameOn {
      if t.IsClosestTeamMemberToBall(p) && t.receiving == null && !t.pitch.goalKeeperHasBall {
        Settle(t, p, ChaseBall, prm, g, tick);
        return;
      }
    }
  }

  // ---------------------------------------------------------------------
  // The goalkeeper's states

  /**
   * A goalkeeper of a staffed team facing a staffed rival team, the team's
   * opponents.
   */
  ghost predicate Keeping(t: SoccerTeam, o: SoccerTeam, keeper: PlayerBase)
    reads t, o, Players(t), Players(o)
  {
    t.opponents == o && Staffed(t) && Staffed(o) && Rivals(t, o) && keeper in t.players && keeper.role == GoalKeeper
  }

  /**
   * ChangeState to PutBallBackInPlay: the current state's Exit runs, then
   * the Enter of PutBallBackInPlay makes the keeper the controlling player
   * and sends both teams' field players home.
   */
  method ChangeStateToPutBallBackInPlay(t: SoccerTeam, o: SoccerTeam, keeper: PlayerBase, prm: Params, g: Geometry, tick: Tick)
    requires Keeping(t, o, keeper) && keeper.current.Some?
    modifies t`controlling
    modifies Players(t)`current, Players(t)`previous, Players(t)`homeRegion
    modifies Rigs(t)`flags, Rigs(t)`target, Rigs(t)`interposeDist, t`supporting
    modifies Players(o)`current, Players(o)`previous, Players(o)`homeRegion
    modifies Rigs(o)`flags, Rigs(o)`target, Rigs(o)`interposeDist, o`supporting
    ensures Staffed(t) && Staffed(o) && t.controlling == keeper
    ensures ViewOf(keeper) == Entered(old(ViewOf(keeper)), PutBallBackInPlay, SceneOf(t, prm, tick))
    ensures forall i :: 0 <= i < |t.players| && t.players[i].role != GoalKeeper ==>
      ViewOf(t.players[i]) ==
        Reacted(old(ViewOf(t.players[i])), t.players[i].global, MsgGoHome, t.players[i].defaultRegion, SceneOf(t, prm, tick))
  {
    ghost var k :| 0 <= k < |t.players| && t.players[k] == keeper;
    LeaveForPutBack(t, o, keeper, prm, g, tick);
    EnterPutBack(t, o, keeper, prm, g, tick);
    assert ViewOf(t.players[k]) == ViewOf(keeper);
  }

  /** The Enter of PutBallBackInPlay, seen from the keeper's team. */
  method EnterPutBack(t: SoccerTeam, o: SoccerTeam, keeper: PlayerBase, prm: Params, g: Geometry, tick: Tick)
    requires t.opponents == o && Staffed(t) && Staffed(o) && Rivals(t, o) && keeper in t.players
    modifies t`controlling
    modifies Players(t)`current, Players(t)`previous, Players(t)`homeRegion
    modifies Rigs(t)`flags, Rigs(t)`target, Rigs(t)`interposeDist, t`supporting
    modifies Players(o)`current, Players(o)`previous, Players(o)`homeRegion
    modifies Rigs(o)`flags, Rigs(o)`target, Rigs(o)`interposeDist, o`supporting
    ensures Staffed(t) && Staffed(o) && t.controlling == keeper
    ensures forall i :: 0 <= i < |t.players| ==>
      ViewOf(t.players[i]) ==
        if t.players[i].role != GoalKeeper
        then Reacted(old(ViewOf(t.players[i])), t.players[i].global, MsgGoHome, t.players[i].defaultRegion, SceneOf(t, prm, tick))
        else old(ViewOf(t.players[i]))
  {
    PutBallBackInPlayEnter(t, o, keeper, prm, g, tick);
  }

  /** No player of the rival team is the keeper or shares its steering. */
  lemma Outsiders(t: SoccerTeam, o: SoccerTeam, keeper: PlayerBase)
    requires Rivals(t, o) && keeper in t.players
    ensures forall r :: r in o.players ==> r != keeper && r.steering != keeper.steering
  {
  }

  /**
   * The first half of ChangeState to PutBallBackInPlay, seen from both
   * teams: only the keeper changes.
   */
  method LeaveForPutBack(t: SoccerTeam, o: SoccerTeam, keeper: PlayerBase, prm: Params, g: Geometry, tick: Tick)
    requires Staffed(t) && Staffed(o) && Rivals(t, o) && keeper in t.players && keeper.current.Some?
    modifies keeper`current, keeper`previous, keeper.steering`flags, t`supporting
    ensures Staffed(t) && Staffed(o)
    ensures ViewOf(keeper) == Entered(old(ViewOf(keeper)), PutBallBackInPlay, SceneOf(t, prm, tick))
    ensures forall i :: 0 <= i < |t.players| && t.players[i] != keeper ==> ViewOf(t.players[i]) == old(ViewOf(t.players[i]))
    ensures forall i :: 0 <= i < |o.players| ==> ViewOf(o.players[i]) == old(ViewOf(o.players[i]))
  {
    Outsiders(t, o, keeper);
    LeaveState(t, keeper, prm, g, tick);
  }

  /**
   * The current state becomes the previous one, its Exit runs, and
   * PutBallBackInPlay becomes the current state; no other player of the
   * team changes.
   */
  method LeaveState(t: SoccerTeam, keeper: PlayerBase, prm: Params, g: Geometry, tick: Tick)
    requires Staffed(t) && keeper in t.players && keeper.current.Some?
    modifies keeper`current, keeper`previous, keeper.steering`flags, t`supporting
    ensures Staffed(t) && keeper.global == old(keeper.global)
    ensures ViewOf(keeper) == Entered(old(ViewOf(keeper)), PutBallBackInPlay, SceneOf(t, prm, tick))
    ensures forall r :: r in t.players && r != keeper ==> ViewOf(r) == old(ViewOf(r))
  {
    var from := keeper.current.value;
    keeper.previous := keeper.current;
    Exit(t, keeper, from);
    keeper.current := Some(PutBallBackInPlay);
    forall r | r in t.players && r != keeper
      ensures ViewOf(r) == old(ViewOf(r))
    {
      Unshared(t.players, keeper, r);
    }
  }

  /** The keeper traps the ball, takes it, and changes to PutBallBackInPlay. */
  method TrapAndPutBack(t: SoccerTeam, o: SoccerTeam, keeper: PlayerBase, prm: Params, g: Geometry, tick: Tick)
    requires Keeping(t, o, keeper) && keeper.current.Some?
    modifies t.ball`velocity, t.pitch`goalKeeperHasBall, t`controlling
    modifies Players(t)`current, Players(t)`previous, Players(t)`homeRegion
    modifies Rigs(t)`flags, Rigs(t)`target, Rigs(t)`interposeDist, t`supporting
    modifies Players(o)`current, Players(o)`previous, Players(o)`homeRegion
    modifies Rigs(o)`flags, Rigs(o)`target, Rigs(o)`interposeDist, o`supporting
    ensures Staffed(t) && Staffed(o)
    ensures t.ball.velocity == Zero && t.pitch.goalKeeperHasBall && t.controlling == keeper
    ensures ViewOf(keeper) == Entered(old(ViewOf(keeper)), PutBallBackInPlay, SceneOf(t, prm, tick))
  {
    t.ball.Trap();
    t.pitch.SetGoalKeeperHasBall(true);
    ChangeStateToPutBallBackInPlay(t, o, keeper, prm, g, tick);
  }

  /**
   * TendGoal::Execute: the keeper retargets at the rear interpose target.
   * With the ball within its range it traps the ball and puts it back in
   * play.  Otherwise it intercepts a ball within intercept range while its
   * team is not in control, and returns home when it is too far from the
   * goal mouth while its team is in control.  The intercept does not
   * return, but the two tests ask opposite things of the same team, so at
   * most one of them changes the state.
   */
  method TendGoalExecute(t: SoccerTeam, o: SoccerTeam, keeper: PlayerBase, prm: Params, g: Geometry, tick: Tick)
    requires Keeping(t, o, keeper) && keeper.current == Some(TendGoal)
    modifies t.ball`velocity, t.pitch`goalKeeperHasBall, t`controlling
    modifies Players(t)`current, Players(t)`previous, Players(t)`homeRegion
    modifies Rigs(t)`flags, Rigs(t)`target, Rigs(t)`interposeDist, t`supporting
    modifies Players(o)`current, Players(o)`previous, Players(o)`homeRegion
    modifies Rigs(o)`flags, Rigs(o)`target, Rigs(o)`interposeDist, o`supporting
    ensures Staffed(t) && Staffed(o)
    ensures old(keeper.BallWithinKeeperRange(prm)) ==>
      t.ball.velocity == Zero && t.pitch.goalKeeperHasBall && t.controlling == keeper &&
      ViewOf(keeper) == Entered(old(ViewOf(keeper)).(target := tick.rearTarget), PutBallBackInPlay, SceneOf(t, prm, tick))
    ensures !old(keeper.BallWithinKeeperRange(prm)) ==>
      t.ball.velocity == old(t.ball.velocity) && t.controlling == old(t.controlling) &&
      t.pitch.goalKeeperHasBall == old(t.pitch.goalKeeperHasBall)
    ensures !old(keeper.BallWithinKeeperRange(prm)) && tick.ballInInterceptRange && !old(t.InControl()) ==>
      ViewOf(keeper) == Entered(old(ViewOf(keeper)).(target := tick.rearTarget), InterceptBall, SceneOf(t, prm, tick))
    ensures !old(keeper.BallWithinKeeperRange(prm)) && tick.tooFarFromGoalMouth && old(t.InControl()) ==>
      ViewOf(keeper) == Entered(old(ViewOf(keeper)).(target := tick.rearTarget), ReturnHome, SceneOf(t, prm, tick))
    ensures (!old(keeper.BallWithinKeeperRange(prm)) && !(tick.ballInInterceptRange && !old(t.InControl())) &&
             !(tick.tooFarFromGoalMouth && old(t.InControl()))) ==>
      ViewOf(keeper) == old(ViewOf(keeper)).(target := tick.rearTarget)
  {
    keeper.steering.SetTarget(tick.rearTarget);
    if keeper.BallWithinKeeperRange(prm) {
      TrapAndPutBack(t, o, keeper, prm, g, tick);
      return;
    }
    TendGoalWatch(t, keeper, prm, g, tick);
  }

  /**
   * The rest of TendGoal::Execute once the ball is out of the keeper's
   * range: the intercept test, then the test for straying too far.
   */
  method TendGoalWatch(t: SoccerTeam, keeper: PlayerBase, prm: Params, g: Geometry, tick: Tick)
    requires Staffed(t) && keeper in t.players && keeper.current == Some(TendGoal)
    modifies keeper`current, keeper`previous, keeper.steering`flags, keeper.steering`target, keeper.steering`interposeDist, t`supporting
    ensures Staffed(t) && t.supporting == old(t.supporting)
    ensures tick.ballInInterceptRange && !t.InControl() ==>
      ViewOf(keeper) == Entered(old(ViewOf(keeper)), InterceptBall, SceneOf(t, prm, tick))
    ensures tick.tooFarFromGoalMouth && t.InControl() ==>
      ViewOf(keeper) == Entered(old(ViewOf(keeper)), ReturnHome, SceneOf(t, prm, tick))
    ensures !(tick.ballInInterceptRange && !t.InControl()) && !(tick.tooFarFromGoalMouth && t.InControl()) ==>
      ViewOf(keeper) == old(ViewOf(keeper))
  {
    if tick.ballInInterceptRange && !t.InControl() {
      ChangeState(t, keeper, InterceptBall, prm, g, tick);
    }
    if tick.tooFarFromGoalMouth && t.InControl() {
      ChangeState(t, keeper, ReturnHome, prm, g, tick);
      return;
    }
  }

  /**
   * ReturnHome::Execute: the keeper retargets at its home region's centre,
   * and goes back to tending the goal once inside its home region or when
   * its team has lost control.
   */
  method ReturnHomeExecute(t: SoccerTeam, keeper: PlayerBase, prm: Params, g: Geometry, tick: Tick)
    requires keeper.current == Some(ReturnHome)
    modifies keeper`current, keeper`previous, keeper.steering`flags, keeper.steering`target, keeper.steering`interposeDist, t`supporting
    ensures t.supporting == old(t.supporting)
    ensures keeper.InHomeRegion(t.pitch.field) || !t.InControl() ==>
      ViewOf(keeper) ==
        Entered(old(ViewOf(keeper)).(target := t.pitch.field.regionCenter(keeper.homeRegion)), TendGoal, SceneOf(t, prm, tick))
    ensures !keeper.InHomeRegion(t.pitch.field) && t.InControl() ==>
      ViewOf(keeper) == old(ViewOf(keeper)).(target := t.pitch.field.regionCenter(keeper.homeRegion))
  {
    keeper.steering.SetTarget(t.pitch.field.regionCenter(keeper.homeRegion));
    if keeper.InHomeRegion(t.pitch.field) || !t.InControl() {
      ChangeState(t, keeper, TendGoal, prm, g, tick);
    }
  }

  /**
   * InterceptBall::Execute: a keeper too far from the goal mouth goes home
   * unless it is the closest player on the pitch to the ball; otherwise,
   * with the ball within its range, it traps the ball and puts it back in
   * play.
   */
  method InterceptBallExecute(t: SoccerTeam, o: SoccerTeam, keeper: PlayerBase, prm: Params, g: Geometry, tick: Tick)
    requires Keeping(t, o, keeper) && keeper.current == Some(InterceptBall)
    modifies t.ball`velocity, t.pitch`goalKeeperHasBall, t`controlling
    modifies Players(t)`current, Players(t)`previous, Players(t)`homeRegion
    modifies Rigs(t)`flags, Rigs(t)`target, Rigs(t)`interposeDist, t`supporting
    modifies Players(o)`current, Players(o)`previous, Players(o)`homeRegion
    modifies Rigs(o)`flags, Rigs(o)`target, Rigs(o)`interposeDist, o`supporting
    ensures Staffed(t) && Staffed(o)
    ensures old(tick.tooFarFromGoalMouth && !t.IsClosestPlayerOnPitchToBall(keeper)) ==>
      ViewOf(keeper) == Entered(old(ViewOf(keeper)), ReturnHome, SceneOf(t, prm, tick)) &&
      t.ball.velocity == old(t.ball.velocity) && t.controlling == old(t.controlling)
    ensures old(!(tick.tooFarFromGoalMouth && !t.IsClosestPlayerOnPitchToBall(keeper)) && keeper.BallWithinKeeperRange(prm)) ==>
      t.ball.velocity == Zero && t.pitch.goalKeeperHasBall && t.controlling == keeper &&
      ViewOf(keeper) == Entered(old(ViewOf(keeper)), PutBallBackInPlay, SceneOf(t, prm, tick))
    ensures old(!(tick.tooFarFromGoalMouth && !t.IsClosestPlayerOnPitchToBall(keeper)) && !keeper.BallWithinKeeperRange(prm)) ==>
      ViewOf(keeper) == old(ViewOf(keeper)) && t.ball.velocity == old(t.ball.velocity) && t.controlling == old(t.controlling)
  {
    if tick.tooFarFromGoalMouth && !t.IsClosestPlayerOnPitchToBall(keeper) {
      Settle(t, keeper, ReturnHome, prm, g, tick);
      return;
    }
    if keeper.BallWithinKeeperRange(prm) {
      TrapAndPutBack(t, o, keeper, prm, g, tick);
      return;
    }
  }

  /**
   * PutBallBackInPlay::Execute: when the team finds a pass, the keeper
   * kicks the ball towards the pass target, lets go of the ball, tells the
   * receiver to expect it there and goes back to tending the goal.  The
   * search never moves the pass target off the origin.  With no pass found
   * the keeper stands still.
   */
  method PutBallBackInPlayExecute(t: SoccerTeam, keeper: PlayerBase, prm: Params, g: Geometry, tick: Tick)
    returns (receiver: PlayerBase?)
    requires Staffed(t) && keeper in t.players && keeper.current == Some(PutBallBackInPlay)
    requires g.Sound() && t.ball.mass != 0.0
    modifies keeper`velocity, t.ball`velocity, t.pitch`goalKeeperHasBall
    modifies Players(t)`current, Players(t)`previous, Players(t)`homeRegion
    modifies Rigs(t)`flags, Rigs(t)`target, Rigs(t)`interposeDist, t`supporting
    ensures Staffed(t)
    ensures var pick := Pick(OriginDistances(|t.players|, t.opponentsGoal),
                             old(PassEligible(t.players, keeper, prm.goalKeeperMinPassDist)), MaxFloat, |t.players|);
      receiver == (if pick.Some? then t.players[pick.value] else null)
    ensures receiver != null ==>
      receiver != keeper &&
      t.ball.velocity == g.Normalize(g.Normalize(Zero.Minus(t.ball.pos))).Scale(prm.maxPassingForce).Div(t.ball.mass) &&
      !t.pitch.goalKeeperHasBall &&
      ViewOf(receiver) == Reacted(old(ViewOf(receiver)), receiver.global, MsgReceiveBall(Zero), receiver.defaultRegion, SceneOf(t, prm, tick)) &&
      ViewOf(keeper) == Entered(old(ViewOf(keeper)), TendGoal, SceneOf(t, prm, tick)) &&
      forall r :: r in t.players && r != keeper && r != receiver ==> ViewOf(r) == old(ViewOf(r))
    ensures receiver == null ==>
      keeper.velocity == Zero && t.ball.velocity == old(t.ball.velocity) &&
      t.pitch.goalKeeperHasBall == old(t.pitch.goalKeeperHasBall) && t.supporting == old(t.supporting) &&
      forall r :: r in t.players ==> ViewOf(r) == old(ViewOf(r))
  {
    var found, target;
    found, receiver, target := t.FindPass(keeper, null, Zero, prm.maxPassingForce, prm.goalKeeperMinPassDist);
    PassOrHold(t, keeper, found, receiver, target, prm, g, tick);
  }

  /** The rest of PutBallBackInPlay::Execute once the search is over: pass when a receiver was found, else stand still. */
  method PassOrHold(t: SoccerTeam, keeper: PlayerBase, found: bool, receiver: PlayerBase?, target: Vector2D,
                    prm: Params, g: Geometry, tick: Tick)
    requires Staffed(t) && keeper in t.players && keeper.current == Some(PutBallBackInPlay)
    requires g.Sound() && t.ball.mass != 0.0
    requires found ==> receiver != null && receiver in t.players && receiver != keeper
    modifies keeper`velocity, t.ball`velocity, t.pitch`goalKeeperHasBall
    modifies Players(t)`current, Players(t)`previous, Players(t)`homeRegion
    modifies Rigs(t)`flags, Rigs(t)`target, Rigs(t)`interposeDist, t`supporting
    ensures Staffed(t)
    ensures found ==>
      t.ball.velocity == g.Normalize(g.Normalize(target.Minus(t.ball.pos))).Scale(prm.maxPassingForce).Div(t.ball.mass) &&
      !t.pitch.goalKeeperHasBall &&
      ViewOf(receiver) == Reacted(old(ViewOf(receiver)), receiver.global, MsgReceiveBall(target), receiver.defaultRegion, SceneOf(t, prm, tick)) &&
      ViewOf(keeper) == Entered(old(ViewOf(keeper)), TendGoal, SceneOf(t, prm, tick)) &&
      forall r :: r in t.players && r != keeper && r != receiver ==> ViewOf(r) == old(ViewOf(r))
    ensures !found ==>
      keeper.velocity == Zero && t.ball.velocity == old(t.ball.velocity) &&
      t.pitch.goalKeeperHasBall == old(t.pitch.goalKeeperHasBall) && t.supporting == old(t.supporting) &&
      forall r :: r in t.players ==> ViewOf(r) == old(ViewOf(r))
  {
    if found {
      PassOut(t, keeper, receiver, target, prm, g, tick);
      return;
    }
    keeper.SetVelocity(Zero);
  }

  /**
   * The keeper's pass: the ball is kicked towards the target, the keeper
   * lets go of it, the receiver is told to expect it at the target, and
   * the keeper goes back to tending the goal.
   */
  method PassOut(t: SoccerTeam, keeper: PlayerBase, receiver: PlayerBase, target: Vector2D, prm: Params, g: Geometry, tick: Tick)
    requires Staffed(t) && keeper in t.players && receiver in t.players && receiver != keeper
    requires keeper.current == Some(PutBallBackInPlay) && g.Sound() && t.ball.mass != 0.0
    modifies t.ball`velocity, t.pitch`goalKeeperHasBall
    modifies Players(t)`current, Players(t)`previous, Players(t)`homeRegion
    modifies Rigs(t)`flags, Rigs(t)`target, Rigs(t)`interposeDist, t`supporting
    ensures Staffed(t)
    ensures t.ball.velocity == g.Normalize(g.Normalize(target.Minus(t.ball.pos))).Scale(prm.maxPassingForce).Div(t.ball.mass)
    ensures !t.pitch.goalKeeperHasBall
    ensures ViewOf(receiver) == Reacted(old(ViewOf(receiver)), receiver.global, MsgReceiveBall(target), receiver.defaultRegion, SceneOf(t, prm, tick))
    ensures ViewOf(keeper) == Entered(old(ViewOf(keeper)), TendGoal, SceneOf(t, prm, tick))
    ensures forall r :: r in t.players && r != keeper && r != receiver ==> ViewOf(r) == old(ViewOf(r))
  {
    Release(t, target, prm, g);
    Handover(t, keeper, receiver, target, prm, g, tick);
  }

  /** The keeper kicks the ball towards the target and lets go of it. */
  method Release(t: SoccerTeam, target: Vector2D, prm: Params, g: Geometry)
    requires Staffed(t) && g.Sound() && t.ball.mass != 0.0
    modifies t.ball`velocity, t.pitch`goalKeeperHasBall
    ensures Staffed(t) && forall r :: r in t.players ==> ViewOf(r) == old(ViewOf(r))
    ensures t.ball.velocity == g.Normalize(g.Normalize(target.Minus(t.ball.pos))).Scale(prm.maxPassingForce).Div(t.ball.mass)
    ensures !t.pitch.goalKeeperHasBall
  {
    t.ball.Kick(g.Normalize(target.Minus(t.ball.pos)), prm.maxPassingForce, g);
    t.pitch.SetGoalKeeperHasBall(false);
  }

  /** The receiver is told to expect the ball at the target, and the keeper goes back to tending the goal. */
  method Handover(t: SoccerTeam, keeper: PlayerBase, receiver: PlayerBase, target: Vector2D, prm: Params, g: Geometry, tick: Tick)
    requires Staffed(t) && keeper in t.players && receiver in t.players && receiver != keeper
    requires keeper.current == Some(PutBallBackInPlay)
    modifies Players(t)`current, Players(t)`previous, Players(t)`homeRegion
    modifies Rigs(t)`flags, Rigs(t)`target, Rigs(t)`interposeDist, t`supporting
    ensures Staffed(t)
    ensures ViewOf(receiver) == Reacted(old(ViewOf(receiver)), receiver.global, MsgReceiveBall(target), receiver.defaultRegion, SceneOf(t, prm, tick))
    ensures ViewOf(keeper) == Entered(old(ViewOf(keeper)), TendGoal, SceneOf(t, prm, tick))
    ensures forall r :: r in t.players && r != keeper && r != receiver ==> ViewOf(r) == old(ViewOf(r))
  {
    var _ := Tell(t, receiver, MsgReceiveBall(target), prm, g, tick);
    Settle(t, keeper, TendGoal, prm, g, tick);
  }

  // ---------------------------------------------------------------------
  // The state machines

  /**
   * The states a field player's machine can be in after one tick, given
   * the state it started in.  A waiting player's request for a pass sets
   * off messages that can reach the player itself, so after Wait any state
   * but a global one is possible (or none, for a machine without a global
   * state).  The Execute of KickBall, ReceiveBall
   * and Dribble is not part of this model and changes nothing.
   */
  predicate FieldNext(s: State, n: Option<State>)
  {
    match s
    case ChaseBall => n == Some(ChaseBall) || n == Some(KickBall)
    case SupportAttacker => n == Some(SupportAttacker) || n == Some(ReturnToHomeRegion)
    case ReturnToHomeRegion => n == Some(ReturnToHomeRegion) || n == Some(ChaseBall) || n == Some(Wait)
    case Wait => !(n.Some? && n.value.IsGlobal())
    case _ => n == Some(s)
  }

  /**
   * The states a goalkeeper's machine can be in after one tick, given the
   * state it started in.
   */
  predicate KeeperNext(s: State, n: Option<State>)
  {
    match s
    case TendGoal => n == Some(TendGoal) || n == Some(PutBallBackInPlay) || n == Some(InterceptBall) || n == Some(ReturnHome)
    case ReturnHome => n == Some(ReturnHome) || n == Some(TendGoal)
    case InterceptBall => n == Some(InterceptBall) || n == Some(ReturnHome) || n == Some(PutBallBackInPlay)
    case PutBallBackInPlay => n == Some(PutBallBackInPlay) || n == Some(TendGoal)
    case _ => n == Some(s)
  }

  /**
   * One tick of a field player's state machine: the global state's Execute,
   * then the current state's.
   */
  method FieldPlayerExecute(t: SoccerTeam, p: PlayerBase, prm: Params, g: Geometry, tick: Tick)
    requires Staffed(t) && p in t.players
    requires p.global.Some? ==> p.global == Some(GlobalPlayerState)
    requires p.current.Some? ==> !p.current.value.OfKeeper()
    requires p.current == Some(Wait) && p.AtTarget(prm) && AsksForPass(t, p) ==> CanRequest(t, p, prm, g, tick)
    modifies p`maxSpeed, p`velocity, p`heading, p`side, t.ball`velocity, t`controlling
    modifies Players(t)`current, Players(t)`previous, Players(t)`homeRegion
    modifies Rigs(t)`flags, Rigs(t)`target, Rigs(t)`interposeDist, t`supporting, t.spotCalc
    ensures old(p.global).Some? && old(p.BallWithinReceivingRange(prm)) ==> p.maxSpeed == prm.playerMaxSpeedWithBall
    ensures old(p.global).Some? && !old(p.BallWithinReceivingRange(prm)) ==> p.maxSpeed == prm.playerMaxSpeedWithoutBall
    ensures old(p.global).None? ==> p.maxSpeed == old(p.maxSpeed)
    ensures old(p.current).Some? ==> FieldNext(old(p.current.value), p.current)
    ensures old(p.current).None? ==> p.current == None
  {
    if p.global.Some? {
      GlobalPlayerStateExecute(p, prm);
    }
    if p.current.None? {
      return;
    }
    match p.current.value
    case ChaseBall => ChaseBallExecute(t, p, prm, g, tick);
    case SupportAttacker => SupportAttackerExecute(t, p, prm, g, tick);
    case ReturnToHomeRegion => ReturnToHomeRegionExecute(t, p, prm, g, tick);
    case Wait => WaitExecute(t, p, prm, g, tick);
    case _ =>
  }

  /**
   * One tick of a goalkeeper's state machine.  The global state's Execute
   * does nothing, so only the current state's Execute runs.
   */
  method KeeperExecute(t: SoccerTeam, o: SoccerTeam, keeper: PlayerBase, prm: Params, g: Geometry, tick: Tick)
    requires Keeping(t, o, keeper)
    requires keeper.current.Some? ==> keeper.current.value.OfKeeper()
    requires keeper.current == Some(PutBallBackInPlay) ==> g.Sound() && t.ball.mass != 0.0
    modifies keeper`velocity, t.ball`velocity, t.pitch`goalKeeperHasBall, t`controlling
    modifies Players(t)`current, Players(t)`previous, Players(t)`homeRegion
    modifies Rigs(t)`flags, Rigs(t)`target, Rigs(t)`interposeDist, t`supporting
    modifies Players(o)`current, Players(o)`previous, Players(o)`homeRegion
    modifies Rigs(o)`flags, Rigs(o)`target, Rigs(o)`interposeDist, o`supporting
    ensures old(keeper.current).Some? ==> KeeperNext(old(keeper.current.value), keeper.current)
    ensures old(keeper.current).None? ==> keeper.current == None
  {
    if keeper.current.None? {
      return;
    }
    match keeper.current.value
    case TendGoal => TendGoalExecute(t, o, keeper, prm, g, tick);
    case ReturnHome => ReturnHomeExecute(t, keeper, prm, g, tick);
    case InterceptBall => InterceptBallExecute(t, o, keeper, prm, g, tick);
    case PutBallBackInPlay => var _ := PutBallBackInPlayExecute(t, keeper, prm, g, tick);
    case _ =>
  }

  // ---------------------------------------------------------------------
  // The field player

  /**
   * The set-up of a field player's state machine in the FieldPlayer
   * constructor: a start state becomes both the current and the previous
   * state, GlobalPlayerState the global one, and the start state's Enter
   * runs; without a start state the machine stays as it was.  Switching
   * separation on afterwards switches nothing on.
   */
  method FieldPlayerStart(t: SoccerTeam, p: PlayerBase, start: Option<State>, prm: Params, g: Geometry, tick: Tick)
    requires start.Some? ==> Plain(start.value) && !start.value.OfKeeper()
    requires start == Some(SupportAttacker) ==> t.SpotsComputable(prm) && Drawn(prm, tick)
    modifies p`current, p`previous, p`global, p.steering`target, p.steering`interposeDist
    modifies if start == Some(SupportAttacker) then {t.spotCalc} else {}
    ensures p.steering.flags == old(p.steering.flags)
    ensures start.None? ==> ViewOf(p) == old(ViewOf(p)) && p.global == old(p.global)
    ensures start.Some? ==> p.global == Some(GlobalPlayerState) && Coherent(p)
    ensures start.Some? ==>
      ViewOf(p) == Arrived(old(ViewOf(p)).(current := start, previous := start), start.value, SceneOf(t, prm, tick))
  {
    if start.Some? {
      p.current := start;
      p.previous := start;
      p.global := Some(GlobalPlayerState);
      Enter(t, p, start.value, prm, g, tick);
    }
    p.steering.SeparationOn();
  }

  /**
   * FieldPlayer::Update: the state machine runs first, then the steering
   * force is calculated, then the player moves.  The speed limit the move
   * keeps to is the one the global state has just set.
   */
  method FieldPlayerUpdate(t: SoccerTeam, p: PlayerBase, all: seq<SteeringBehaviors>, positions: seq<Vector2D>,
                           prm: Params, g: Geometry, tick: Tick)
    requires Staffed(t) && p in t.players
    requires p.global.Some? ==> p.global == Some(GlobalPlayerState)
    requires p.current.Some? ==> !p.current.value.OfKeeper()
    requires p.current == Some(Wait) && p.AtTarget(prm) && AsksForPass(t, p) ==> CanRequest(t, p, prm, g, tick)
    requires |all| == |positions| && Distinct(all) && p.mass != 0.0
    requires Separable(p.pos, p.steering.Sighted(p.pos, all, positions), g)
    modifies p`maxSpeed, p`velocity, p`heading, p`side, p`pos, t.ball`velocity, t`controlling
    modifies Players(t)`current, Players(t)`previous, Players(t)`homeRegion
    modifies Rigs(t)`flags, Rigs(t)`target, Rigs(t)`interposeDist, t`supporting, t.spotCalc
    modifies p.steering`steeringForce, (set s | s in all)`tagged
    ensures old(p.global).Some? && old(p.BallWithinReceivingRange(prm)) ==> p.maxSpeed == prm.playerMaxSpeedWithBall
    ensures old(p.global).Some? && !old(p.BallWithinReceivingRange(prm)) ==> p.maxSpeed == prm.playerMaxSpeedWithoutBall
    ensures old(p.current).Some? ==> FieldNext(old(p.current.value), p.current)
    ensures g.Sound() && 0.0 <= p.maxForce ==> g.Length(p.steering.Force()) <= p.maxForce
    ensures g.Sound() && 0.0 <= p.maxSpeed ==> g.Length(p.velocity) <= p.maxSpeed
    ensures p.pos == old(p.pos).Plus(p.velocity) && p.side == p.heading.Perp()
  {
    FieldPlayerExecute(t, p, prm, g, tick);
    var _ := p.steering.Calculate(p.AsAgent(), all, positions, prm, g);
    p.Move(prm, g);
  }
}

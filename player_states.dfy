// The state machines of the field players and the goalkeeper: the Enter,
// Execute, Exit and OnMessage of every state, the state machine's
// ChangeState and HandleMessage, and the team and player routines the
// states call back into (FindSupport, ReturnAllFieldPlayersToHome,
// RequestPass).  Messages are delivered at once, so sending one is a call
// of the receiver's HandleMessage.
module States {
  import opened Optional
  import opened Geometry
  import opened Params
  import opened Ball
  import opened Steering
  import opened SupportSpots
  import opened Player
  import opened Team

  /** The messages the players send each other, with their extra information. */
  datatype Telegram =
    | MsgReceiveBall(target: Vector2D)
    | MsgPassToMe(requester: PlayerBase)
    | MsgSupportAttacker
    | MsgWait
    | MsgGoHome
    | MsgOther

  /**
   * What the helpers outside this model answer during one tick: the support
   * spot and kick regulators, the random draws of the shot test and of the
   * pass request, the goalkeeper's rear interpose target, and its two range
   * tests.
   */
  datatype Tick = Tick(
    spotReady: bool,
    kickReady: bool,
    draws: seq<int>,
    chance: real,
    rearTarget: Vector2D,
    ballInInterceptRange: bool,
    tooFarFromGoalMouth: bool)

  /** The tick has a draw for every attempt at a shot the spot scoring may make. */
  predicate Drawn(prm: Params, tick: Tick)
  {
    prm.StrikeAttempts() <= |tick.draws|
  }

  // ---------------------------------------------------------------------
  // Rosters and what the states change of a player

  ghost function Players(t: SoccerTeam): set<PlayerBase>
    reads t`players
  {
    set q | q in t.players
  }

  ghost function Rigs(t: SoccerTeam): set<SteeringBehaviors>
    reads t`players
  {
    set q | q in t.players :: q.steering
  }

  /** What the state machines change of a player: its states, home region and steering settings. */
  datatype View = View(
    current: Option<State>,
    previous: Option<State>,
    homeRegion: int,
    flags: bv32,
    target: Vector2D,
    interposeDist: real)

  ghost function ViewOf(q: PlayerBase): View
    reads q`current, q`previous, q`homeRegion, q.steering`flags, q.steering`target, q.steering`interposeDist
  {
    View(q.current, q.previous, q.homeRegion, q.steering.flags, q.steering.target, q.steering.interposeDist)
  }

  /**
   * A player's machine is sound: the current state is never a global one,
   * and a player with a global state has a current state, the global state
   * of its kind.
   */
  predicate Coherent(q: PlayerBase)
    reads q`current, q`global
  {
    (q.current.Some? ==> !q.current.value.IsGlobal()) &&
    (q.global.Some? ==> q.current.Some? && q.global.value.IsGlobal())
  }

  /**
   * The team's roster: every player has its own steering and plays with
   * the team's ball; the controlling and supporting players, when there
   * are any, are on the roster; and every machine is coherent.
   */
  ghost predicate Staffed(t: SoccerTeam)
    reads t`players, t`controlling, t`supporting, Players(t)`current, Players(t)`global
  {
    Distinct(Steerings(t.players)) &&
    (forall q :: q in t.players ==> q.ball == t.ball && Coherent(q)) &&
    (t.controlling == null || t.controlling in t.players) &&
    (t.supporting == null || t.supporting in t.players)
  }

  /** Two different teams with no steering object, and so no player, in common. */
  ghost predicate Rivals(t: SoccerTeam, o: SoccerTeam)
    reads t`players, o`players
  {
    t != o && forall q, r :: q in t.players && r in o.players ==> q.steering != r.steering
  }

  /** No player, and no steering object, of one rival team belongs to the other. */
  lemma Separate(t: SoccerTeam, o: SoccerTeam)
    requires Rivals(t, o) || Rivals(o, t)
    ensures forall r :: r in o.players ==> r !in Players(t) && r.steering !in Rigs(t)
    ensures forall q :: q in t.players ==> q !in Players(o) && q.steering !in Rigs(o)
  {
    forall r | r in o.players
      ensures r !in Players(t) && r.steering !in Rigs(t)
    {
      assert forall q :: q in t.players ==> q.steering != r.steering;
    }
    forall q | q in t.players
      ensures q !in Players(o) && q.steering !in Rigs(o)
    {
      assert forall r :: r in o.players ==> q.steering != r.steering;
    }
  }

  // ---------------------------------------------------------------------
  // What Enter and Exit do, as functions of the view

  /** The steering flags after the Exit of `s`: each Exit switches off what its Enter switches on. */
  function ExitFlags(s: State, flags: bv32): bv32
  {
    match s
    case ChaseBall => Off(flags, SeekBit)
    case SupportAttacker => Off(flags, ArriveBit)
    case ReturnToHomeRegion => Off(flags, ArriveBit)
    case TendGoal => Off(flags, InterposeBit)
    case ReturnHome => Off(flags, ArriveBit)
    case InterceptBall => Off(flags, PursuitBit)
    case _ => flags
  }

  /** The behaviour the Enter of `s` asks for, if any. */
  function EnterBehavior(s: State): Option<bv32>
  {
    match s
    case ChaseBall => Some(SeekBit)
    case SupportAttacker => Some(ArriveBit)
    case ReturnToHomeRegion => Some(ArriveBit)
    case TendGoal => Some(InterposeBit)
    case ReturnHome => Some(ArriveBit)
    case InterceptBall => Some(PursuitBit)
    case _ => None
  }

  /** What the Enters read besides the player: the pitch, the best supporting spot and the keeper's settings. */
  datatype Scene = Scene(field: Field, gameOn: bool, spot: Vector2D, rear: Vector2D, tending: real)

  /** The best supporting spot the team's calculator holds (the origin while it holds none). */
  ghost function BestSpot(t: SoccerTeam): Vector2D
    reads t.spotCalc
  {
    var c := t.spotCalc;
    if c.best.Some? && c.best.value < |c.spots| then c.spots[c.best.value].pos else Zero
  }

  ghost function SceneOf(t: SoccerTeam, prm: Params, tick: Tick): Scene
    reads t.pitch`gameOn, t.spotCalc
  {
    Scene(t.pitch.field, t.pitch.gameOn, BestSpot(t), tick.rearTarget, prm.goalKeeperTendingDistance)
  }

  /** The target on entering ReturnToHomeRegion: kept when it is inside the home region's central half, else the region's centre. */
  function HomeTarget(field: Field, region: int, target: Vector2D): Vector2D
  {
    if field.insideRegion(region, target, HalfSize) then target else field.regionCenter(region)
  }

  /** The view after the Enter of `s`: only the steering target and the interpose distance can change. */
  function Arrived(v: View, s: State, sc: Scene): (r: View)
    ensures r.current == v.current && r.previous == v.previous && r.homeRegion == v.homeRegion && r.flags == v.flags
  {
    match s
    case SupportAttacker => v.(target := sc.spot)
    case ReturnToHomeRegion => v.(target := HomeTarget(sc.field, v.homeRegion, v.target))
    case Wait => if sc.gameOn then v else v.(target := sc.field.regionCenter(v.homeRegion))
    case TendGoal => v.(target := sc.rear, interposeDist := sc.tending)
    case _ => v
  }

  /** The view after ChangeState to `s`: the old state becomes the previous one, its Exit runs, then the Enter of `s`. */
  function Entered(v: View, s: State, sc: Scene): (r: View)
    ensures r.current == Some(s) && r.previous == v.current && r.homeRegion == v.homeRegion
  {
    var flags := if v.current.Some? then ExitFlags(v.current.value, v.flags) else v.flags;
    Arrived(v.(current := Some(s), previous := v.current, flags := flags), s, sc)
  }

  /** The states whose Enter changes nothing but the player's steering (and the spot calculator). */
  predicate Plain(s: State)
  {
    !s.IsGlobal() && s != KickBall && s != PutBallBackInPlay
  }

  // ---------------------------------------------------------------------
  // Exit

  /** ChaseBall::Exit switches seek off. */
  method ChaseBallExit(p: PlayerBase)
    modifies p.steering`flags
    ensures p.steering.flags == Off(old(p.steering.flags), SeekBit)
  {
    p.steering.SeekOff();
  }

  /** SupportAttacker::Exit lets the team know it has no supporting player, then switches arrive off. */
  method SupportAttackerExit(t: SoccerTeam, p: PlayerBase)
    modifies t`supporting, p.steering`flags
    ensures t.supporting == null
    ensures p.steering.flags == Off(old(p.steering.flags), ArriveBit)
  {
    t.SetSupportingPlayer(null);
    p.steering.ArriveOff();
  }

  /** ReturnToHomeRegion::Exit switches arrive off. */
  method ReturnToHomeRegionExit(p: PlayerBase)
    modifies p.steering`flags
    ensures p.steering.flags == Off(old(p.steering.flags), ArriveBit)
  {
    p.steering.ArriveOff();
  }

  /** TendGoal::Exit switches interpose off. */
  method TendGoalExit(p: PlayerBase)
    modifies p.steering`flags
    ensures p.steering.flags == Off(old(p.steering.flags), InterposeBit)
  {
    p.steering.InterposeOff();
  }

  /** ReturnHome::Exit switches arrive off. */
  method ReturnHomeExit(p: PlayerBase)
    modifies p.steering`flags
    ensures p.steering.flags == Off(old(p.steering.flags), ArriveBit)
  {
    p.steering.ArriveOff();
  }

  /** InterceptBall::Exit switches pursuit off. */
  method InterceptBallExit(p: PlayerBase)
    modifies p.steering`flags
    ensures p.steering.flags == Off(old(p.steering.flags), PursuitBit)
  {
    p.steering.PursuitOff();
  }

  /**
   * The Exit of the state `s`, by state.  Wait, PutBallBackInPlay and the
   * global states have empty Exits; KickBall, ReceiveBall and Dribble are
   * not part of this model and do nothing here.
   */
  method Exit(t: SoccerTeam, p: PlayerBase, s: State)
    modifies t`supporting, p.steering`flags
    ensures p.steering.flags == ExitFlags(s, old(p.steering.flags))
    ensures t.supporting == if s == SupportAttacker then null else old(t.supporting)
  {
    match s
    case ChaseBall => ChaseBallExit(p);
    case SupportAttacker => SupportAttackerExit(t, p);
    case ReturnToHomeRegion => ReturnToHomeRegionExit(p);
    case TendGoal => TendGoalExit(p);
    case ReturnHome => ReturnHomeExit(p);
    case InterceptBall => InterceptBallExit(p);
    case _ =>
  }

  // ---------------------------------------------------------------------
  // Enter

  /** ChaseBall::Enter asks for seek, which the steering ignores. */
  method ChaseBallEnter(p: PlayerBase)
    ensures p.steering.flags == old(p.steering.flags)
  {
    p.steering.SeekOn();
  }

  /** SupportAttacker::Enter asks for arrive and heads for the team's best supporting spot. */
  method SupportAttackerEnter(t: SoccerTeam, p: PlayerBase, prm: Params, g: Geometry, tick: Tick)
    requires t.SpotsComputable(prm) && Drawn(prm, tick)
    modifies t.spotCalc, p.steering`target
    ensures t.SpotsComputable(prm) && t.spotCalc.best.Some?
    ensures SpotQueried(old(t.spotCalc.spots), old(t.spotCalc.best), t.spotCalc.spots, t.spotCalc.best,
                        old(t.FirstSpotScore(t.spotCalc.spots, tick.draws, prm, g)))
    ensures p.steering.target == BestSpot(t)
    ensures p.steering.flags == old(p.steering.flags)
  {
    p.steering.ArriveOn();
    var spot := t.GetSupportSpot(tick.spotReady, tick.draws, prm, g);
    p.steering.SetTarget(spot);
  }

  /** ReturnToHomeRegion::Enter asks for arrive and retargets to the home region's centre unless the target is in its central half. */
  method ReturnToHomeRegionEnter(p: PlayerBase, field: Field)
    modifies p.steering`target
    ensures p.steering.target == HomeTarget(field, p.homeRegion, old(p.steering.target))
    ensures p.steering.flags == old(p.steering.flags)
  {
    p.steering.ArriveOn();
    if !field.insideRegion(p.homeRegion, p.steering.Target(), HalfSize) {
      p.steering.SetTarget(field.regionCenter(p.homeRegion));
    }
  }

  /** Wait::Enter: before kick-off the player heads for its home region's centre. */
  method WaitEnter(p: PlayerBase, pitch: SoccerPitch)
    modifies p.steering`target
    ensures p.steering.target == if pitch.gameOn then old(p.steering.target) else pitch.field.regionCenter(p.homeRegion)
  {
    if !pitch.gameOn {
      p.steering.SetTarget(pitch.field.regionCenter(p.homeRegion));
    }
  }

  /** TendGoal::Enter: interpose at the tending distance, between the ball and the rear interpose target. */
  method TendGoalEnter(p: PlayerBase, prm: Params, tick: Tick)
    modifies p.steering`interposeDist, p.steering`target
    ensures p.steering.interposeDist == prm.goalKeeperTendingDistance
    ensures p.steering.target == tick.rearTarget
    ensures p.steering.flags == old(p.steering.flags)
  {
    p.steering.InterposeOn(prm.goalKeeperTendingDistance);
    p.steering.SetTarget(tick.rearTarget);
  }

  /** ReturnHome::Enter asks for arrive, which the steering ignores. */
  method ReturnHomeEnter(p: PlayerBase)
    ensures p.steering.flags == old(p.steering.flags)
  {
    p.steering.ArriveOn();
  }

  /** InterceptBall::Enter asks for pursuit, which the steering ignores. */
  method InterceptBallEnter(p: PlayerBase)
    ensures p.steering.flags == old(p.steering.flags)
  {
    p.steering.PursuitOn();
  }

  /**
   * The Enter of a plain state, by state.  Wait asks for nothing; ReceiveBall
   * and Dribble are not part of this model and do nothing here.
   */
  method Enter(t: SoccerTeam, p: PlayerBase, s: State, prm: Params, g: Geometry, tick: Tick)
    requires Plain(s)
    requires s == SupportAttacker ==> t.SpotsComputable(prm) && Drawn(prm, tick)
    modifies p.steering`target, p.steering`interposeDist
    modifies if s == SupportAttacker then {t.spotCalc} else {}
    ensures ViewOf(p) == Arrived(old(ViewOf(p)), s, SceneOf(t, prm, tick))
    ensures s == SupportAttacker ==>
      t.SpotsComputable(prm) && t.spotCalc.best.Some? &&
      SpotQueried(old(t.spotCalc.spots), old(t.spotCalc.best), t.spotCalc.spots, t.spotCalc.best,
                  old(t.FirstSpotScore(t.spotCalc.spots, tick.draws, prm, g)))
  {
    match s
    case ChaseBall => ChaseBallEnter(p);
    case SupportAttacker => SupportAttackerEnter(t, p, prm, g, tick);
    case ReturnToHomeRegion => ReturnToHomeRegionEnter(p, t.pitch.field);
    case Wait => WaitEnter(p, t.pitch);
    case TendGoal => TendGoalEnter(p, prm, tick);
    case ReturnHome => ReturnHomeEnter(p);
    case InterceptBall => InterceptBallEnter(p);
    case _ =>
  }

  // ---------------------------------------------------------------------
  // ChangeState

  /**
   * The state machine's ChangeState to a plain state: the current state
   * (there must be one) becomes the previous state, its Exit runs, and the
   * new state's Enter runs.
   */
  method ChangeState(t: SoccerTeam, p: PlayerBase, s: State, prm: Params, g: Geometry, tick: Tick)
    requires p.current.Some? && Plain(s)
    requires s == SupportAttacker ==> t.SpotsComputable(prm) && Drawn(prm, tick)
    modifies p`current, p`previous, p.steering`flags, p.steering`target, p.steering`interposeDist, t`supporting
    modifies if s == SupportAttacker then {t.spotCalc} else {}
    ensures p.current == Some(s)
    ensures ViewOf(p) == Entered(old(ViewOf(p)), s, SceneOf(t, prm, tick))
    ensures t.supporting == if old(p.current) == Some(SupportAttacker) then null else old(t.supporting)
    ensures s == SupportAttacker ==>
      t.SpotsComputable(prm) && t.spotCalc.best.Some? &&
      SpotStep(old(t.spotCalc.spots), old(t.spotCalc.best), t.spotCalc.spots, t.spotCalc.best)
  {
    var from := p.current.value;
    p.previous := p.current;
    Exit(t, p, from);
    p.current := Some(s);
    label Entering:
    Enter(t, p, s, prm, g, tick);
    if s == SupportAttacker {
      QueriedIsStep(old(t.spotCalc.spots), old(t.spotCalc.best), t.spotCalc.spots, t.spotCalc.best,
                    old@Entering(t.FirstSpotScore(t.spotCalc.spots, tick.draws, prm, g)));
    }
  }

  /**
   * How a query can leave the spot calculator: as it was, or, when it held
   * no best spot, with the first spot rescored and chosen.
   */
  predicate SpotStep(spots0: seq<SupportSpot>, best0: Option<nat>, spots: seq<SupportSpot>, best: Option<nat>)
  {
    (spots == spots0 && best == best0) ||
    (best0.None? && best == Some(0) && |spots| == |spots0| > 0 &&
     spots[0].pos == spots0[0].pos && spots[1..] == spots0[1..])
  }

  lemma QueriedIsStep(spots0: seq<SupportSpot>, best0: Option<nat>, spots: seq<SupportSpot>, best: Option<nat>, score0: real)
    requires SpotQueried(spots0, best0, spots, best, score0)
    ensures SpotStep(spots0, best0, spots, best)
  {
    if best0.None? {
      assert spots[1..] == spots0[1..];
    }
  }

  /**
   * The spot the search for a supporting attacker measures from: the best
   * spot once there is one, else the first spot, whose query would make it
   * the best.
   */
  function SpotFor(spots: seq<SupportSpot>, best: Option<nat>): Vector2D
  {
    if best.Some? && best.value < |spots| then spots[best.value].pos
    else if |spots| > 0 then spots[0].pos
    else Zero
  }

  /** A query never moves the spot the search measures from, and two queries in a row are one step. */
  lemma SpotStepKeepsSpot(spots0: seq<SupportSpot>, best0: Option<nat>, spots1: seq<SupportSpot>, best1: Option<nat>,
                          spots2: seq<SupportSpot>, best2: Option<nat>)
    requires best0.Some? ==> best0.value < |spots0|
    requires SpotStep(spots0, best0, spots1, best1) && SpotStep(spots1, best1, spots2, best2)
    ensures SpotFor(spots1, best1) == SpotFor(spots0, best0)
    ensures SpotStep(spots0, best0, spots2, best2)
  {
  }

  // ---------------------------------------------------------------------
  // Messages

  /**
   * The state a message moves a player to, given its current and global
   * states, or None when the message changes no state.  A field player
   * (global state GlobalPlayerState) already supporting ignores
   * SupportAttacker; the goalkeeper (global state GoalKeeperState) acts on
   * GoHome and ReceiveBall only; a player with no global state ignores
   * everything.
   */
  function Response(current: Option<State>, global: Option<State>, msg: Telegram): Option<State>
  {
    if global == Some(GlobalPlayerState) then
      match msg
      case MsgReceiveBall(_) => Some(ReceiveBall)
      case MsgSupportAttacker => if current == Some(SupportAttacker) then None else Some(SupportAttacker)
      case MsgWait => Some(Wait)
      case MsgGoHome => Some(ReturnToHomeRegion)
      case _ => None
    else if global == Some(GoalKeeperState) then
      match msg
      case MsgGoHome => Some(ReturnHome)
      case MsgReceiveBall(_) => Some(InterceptBall)
      case _ => None
    else None
  }

  /** What a handler does before it changes state: a field player targets a pass's destination; GoHome restores the default home region. */
  function Prepared(v: View, global: Option<State>, msg: Telegram, home: int): View
  {
    match msg
    case MsgReceiveBall(x) => if global == Some(GlobalPlayerState) then v.(target := x) else v
    case MsgGoHome => v.(homeRegion := home)
    case _ => v
  }

  /** The view of a player after it handled `msg`. */
  function Reacted(v: View, global: Option<State>, msg: Telegram, home: int, sc: Scene): View
  {
    var r := Response(v.current, global, msg);
    if r.Some? then Entered(Prepared(v, global, msg, home), r.value, sc) else v
  }

  /** Handling the message takes the player out of SupportAttacker, so its team loses its supporting player. */
  predicate Leaves(current: Option<State>, global: Option<State>, msg: Telegram)
  {
    Response(current, global, msg).Some? && current == Some(SupportAttacker)
  }

  /** Handling the message asks the team for its best supporting spot. */
  predicate Queries(current: Option<State>, global: Option<State>, msg: Telegram)
  {
    Response(current, global, msg) == Some(SupportAttacker)
  }

  /**
   * GlobalPlayerState::OnMessage for every message but PassToMe: each
   * message it knows is handled, any other is not.
   */
  method FieldOnMessage(t: SoccerTeam, p: PlayerBase, msg: Telegram, prm: Params, g: Geometry, tick: Tick)
    returns (handled: bool)
    requires p.current.Some? && !msg.MsgPassToMe?
    requires Queries(p.current, Some(GlobalPlayerState), msg) ==> t.SpotsComputable(prm) && Drawn(prm, tick)
    modifies p`current, p`previous, p`homeRegion, p.steering`flags, p.steering`target, p.steering`interposeDist, t`supporting
    modifies if Queries(p.current, Some(GlobalPlayerState), msg) then {t.spotCalc} else {}
    ensures handled <==> !msg.MsgOther?
    ensures p.current == old(p.current) || (p.current.Some? && Plain(p.current.value))
    ensures ViewOf(p) == Reacted(old(ViewOf(p)), Some(GlobalPlayerState), msg, p.defaultRegion, SceneOf(t, prm, tick))
    ensures Leaves(old(p.current), Some(GlobalPlayerState), msg) ==> t.supporting == null
    ensures !Leaves(old(p.current), Some(GlobalPlayerState), msg) ==> t.supporting == old(t.supporting)
    ensures Queries(old(p.current), Some(GlobalPlayerState), msg) ==>
      t.SpotsComputable(prm) && t.spotCalc.best.Some? &&
      SpotStep(old(t.spotCalc.spots), old(t.spotCalc.best), t.spotCalc.spots, t.spotCalc.best)
  {
    match msg
    case MsgReceiveBall(x) =>
      p.steering.SetTarget(x);
      ChangeState(t, p, ReceiveBall, prm, g, tick);
      return true;
    case MsgSupportAttacker =>
      if p.current == Some(SupportAttacker) {
        return true;
      }
      var spot := t.GetSupportSpot(tick.spotReady, tick.draws, prm, g);
      p.steering.SetTarget(spot);
      ChangeState(t, p, SupportAttacker, prm, g, tick);
      return true;
    case MsgWait =>
      ChangeState(t, p, Wait, prm, g, tick);
      return true;
    case MsgGoHome =>
      p.SetDefaultHomeRegion();
      ChangeState(t, p, ReturnToHomeRegion, prm, g, tick);
      return true;
    case MsgOther =>
      return false;
  }

  /**
   * GoalKeeperState::OnMessage: GoHome sends the keeper back to its
   * default region in ReturnHome, ReceiveBall sends it to InterceptBall,
   * and the answer is "not handled" whatever the message.
   */
  method KeeperOnMessage(t: SoccerTeam, p: PlayerBase, msg: Telegram, prm: Params, g: Geometry, tick: Tick)
    returns (handled: bool)
    requires p.current.Some?
    modifies p`current, p`previous, p`homeRegion, p.steering`flags, p.steering`target, p.steering`interposeDist, t`supporting
    ensures !handled
    ensures p.current == old(p.current) || (p.current.Some? && Plain(p.current.value))
    ensures ViewOf(p) == Reacted(old(ViewOf(p)), Some(GoalKeeperState), msg, p.defaultRegion, SceneOf(t, prm, tick))
    ensures t.supporting == if Leaves(old(p.current), Some(GoalKeeperState), msg) then null else old(t.supporting)
  {
    handled := false;
    match msg
    case MsgGoHome =>
      p.SetDefaultHomeRegion();
      ChangeState(t, p, ReturnHome, prm, g, tick);
    case MsgReceiveBall(_) =>
      ChangeState(t, p, InterceptBall, prm, g, tick);
    case _ =>
  }

  /**
   * The state machine's HandleMessage for every message a field player
   * does not pass on to its PassToMe handler: no current state handles a
   * message, so the global state's handler decides.
   */
  method Dispatch(t: SoccerTeam, q: PlayerBase, msg: Telegram, prm: Params, g: Geometry, tick: Tick)
    returns (handled: bool)
    requires Coherent(q) && !(msg.MsgPassToMe? && q.global == Some(GlobalPlayerState))
    requires Queries(q.current, q.global, msg) ==> t.SpotsComputable(prm) && Drawn(prm, tick)
    modifies q`current, q`previous, q`homeRegion, q.steering`flags, q.steering`target, q.steering`interposeDist, t`supporting
    modifies if Queries(q.current, q.global, msg) then {t.spotCalc} else {}
    ensures handled <==> q.global == Some(GlobalPlayerState) && !msg.MsgOther?
    ensures ViewOf(q) == Reacted(old(ViewOf(q)), q.global, msg, q.defaultRegion, SceneOf(t, prm, tick))
    ensures Coherent(q) && (q.current == old(q.current) || (q.current.Some? && Plain(q.current.value)))
    ensures t.supporting == if Leaves(old(q.current), q.global, msg) then null else old(t.supporting)
    ensures Queries(old(q.current), q.global, msg) ==>
      t.SpotsComputable(prm) && t.spotCalc.best.Some? &&
      SpotStep(old(t.spotCalc.spots), old(t.spotCalc.best), t.spotCalc.spots, t.spotCalc.best)
  {
    if q.global == Some(GlobalPlayerState) {
      handled := FieldOnMessage(t, q, msg, prm, g, tick);
    } else if q.global == Some(GoalKeeperState) {
      handled := KeeperOnMessage(t, q, msg, prm, g, tick);
    } else {
      handled := false;
    }
  }

  /**
   * Delivers a message to one player of a staffed team: the player reacts
   * as its global state's handler says, and no other player changes.
   */
  method Tell(t: SoccerTeam, q: PlayerBase, msg: Telegram, prm: Params, g: Geometry, tick: Tick)
    returns (handled: bool)
    requires Staffed(t) && q in t.players && !(msg.MsgPassToMe? && q.global == Some(GlobalPlayerState))
    requires Queries(q.current, q.global, msg) ==> t.SpotsComputable(prm) && Drawn(prm, tick)
    modifies q`current, q`previous, q`homeRegion, q.steering`flags, q.steering`target, q.steering`interposeDist, t`supporting
    modifies if Queries(q.current, q.global, msg) then {t.spotCalc} else {}
    ensures Staffed(t) && (q.current == old(q.current) || (q.current.Some? && Plain(q.current.value)))
    ensures ViewOf(q) == Reacted(old(ViewOf(q)), q.global, msg, q.defaultRegion, SceneOf(t, prm, tick))
    ensures forall r :: r in t.players && r != q ==> ViewOf(r) == old(ViewOf(r))
    ensures t.supporting == if Leaves(old(q.current), q.global, msg) then null else old(t.supporting)
    ensures Queries(old(q.current), q.global, msg) ==>
      t.SpotsComputable(prm) && t.spotCalc.best.Some? &&
      SpotStep(old(t.spotCalc.spots), old(t.spotCalc.best), t.spotCalc.spots, t.spotCalc.best)
    ensures handled <==> q.global == Some(GlobalPlayerState) && !msg.MsgOther?
  {
    handled := Dispatch(t, q, msg, prm, g, tick);
    forall r | r in t.players && r != q
      ensures ViewOf(r) == old(ViewOf(r))
    {
      Unshared(t.players, q, r);
    }
  }

  /** ChangeState on one player of a staffed team: no other player changes. */
  method Settle(t: SoccerTeam, p: PlayerBase, s: State, prm: Params, g: Geometry, tick: Tick)
    requires Staffed(t) && p in t.players && p.current.Some? && Plain(s) && s != SupportAttacker
    modifies p`current, p`previous, p.steering`flags, p.steering`target, p.steering`interposeDist, t`supporting
    ensures Staffed(t)
    ensures ViewOf(p) == Entered(old(ViewOf(p)), s, SceneOf(t, prm, tick))
    ensures forall r :: r in t.players && r != p ==> ViewOf(r) == old(ViewOf(r))
    ensures t.supporting == if old(p.current) == Some(SupportAttacker) then null else old(t.supporting)
  {
    ChangeState(t, p, s, prm, g, tick);
    forall r | r in t.players && r != p
      ensures ViewOf(r) == old(ViewOf(r))
    {
      Unshared(t.players, p, r);
    }
  }

  /** Sends GoHome to one player of the team; no other player changes. */
  method GoHome(t: SoccerTeam, q: PlayerBase, prm: Params, g: Geometry, tick: Tick)
    requires Staffed(t) && q in t.players
    modifies q`current, q`previous, q`homeRegion, q.steering`flags, q.steering`target, q.steering`interposeDist, t`supporting
    ensures Staffed(t)
    ensures ViewOf(q) == Reacted(old(ViewOf(q)), q.global, MsgGoHome, q.defaultRegion, SceneOf(t, prm, tick))
    ensures forall r :: r in t.players && r != q ==> ViewOf(r) == old(ViewOf(r))
    ensures t.supporting == if Leaves(old(q.current), q.global, MsgGoHome) then null else old(t.supporting)
  {
    var _ := Tell(t, q, MsgGoHome, prm, g, tick);
  }

  /**
   * One step of ReturnAllFieldPlayersToHome: the player at place `i` of the
   * roster is sent home unless it is the goalkeeper; no other player
   * changes.
   */
  method SendHome(t: SoccerTeam, i: int, q: PlayerBase, prm: Params, g: Geometry, tick: Tick)
    requires Staffed(t) && 0 <= i < |t.players| && q == t.players[i]
    modifies q`current, q`previous, q`homeRegion, q.steering`flags, q.steering`target, q.steering`interposeDist, t`supporting
    ensures Staffed(t)
    ensures ViewOf(q) ==
        if q.role != GoalKeeper
        then Reacted(old(ViewOf(q)), q.global, MsgGoHome, q.defaultRegion, SceneOf(t, prm, tick))
        else old(ViewOf(q))
    ensures forall j :: 0 <= j < |t.players| && j != i ==> ViewOf(t.players[j]) == old(ViewOf(t.players[j]))
    ensures t.supporting == null || t.supporting == old(t.supporting)
  {
    if q.role != GoalKeeper {
      GoHome(t, q, prm, g, tick);
      forall j | 0 <= j < |t.players| && j != i
        ensures ViewOf(t.players[j]) == old(ViewOf(t.players[j]))
      {
        Apart(t.players, i, j);
      }
    }
  }

  /**
   * Sends SupportAttacker to the team's supporting player; it stays the
   * supporting player, and no other player changes.
   */
  method Enlist(t: SoccerTeam, b: PlayerBase, prm: Params, g: Geometry, tick: Tick)
    requires Staffed(t) && b in t.players && t.supporting == b && t.SpotsComputable(prm) && Drawn(prm, tick)
    modifies b`current, b`previous, b`homeRegion, b.steering`flags, b.steering`target, b.steering`interposeDist, t`supporting, t.spotCalc
    ensures Staffed(t) && t.SpotsComputable(prm) && t.supporting == b
    ensures SpotStep(old(t.spotCalc.spots), old(t.spotCalc.best), t.spotCalc.spots, t.spotCalc.best)
    ensures ViewOf(b) == Reacted(old(ViewOf(b)), b.global, MsgSupportAttacker, b.defaultRegion, SceneOf(t, prm, tick))
    ensures forall r :: r in t.players && r != b ==> ViewOf(r) == old(ViewOf(r))
  {
    var _ := Tell(t, b, MsgSupportAttacker, prm, g, tick);
  }

  /** Two places of a roster with distinct steering objects hold different players with different steering objects. */
  lemma Apart(ps: seq<PlayerBase>, i: int, j: int)
    requires Distinct(Steerings(ps)) && 0 <= i < |ps| && 0 <= j < |ps| && i != j
    ensures ps[i] != ps[j] && ps[i].steering != ps[j].steering
  {
    if i < j {
      assert Steerings(ps)[i] != Steerings(ps)[j];
    } else {
      assert Steerings(ps)[j] != Steerings(ps)[i];
    }
  }

  /**
   * SoccerTeam::ReturnAllFieldPlayersToHome: every player but the
   * goalkeeper is told to go home, in roster order; the goalkeeper is left
   * alone.
   */
  method ReturnAllFieldPlayersToHome(t: SoccerTeam, prm: Params, g: Geometry, tick: Tick)
    requires Staffed(t)
    modifies Players(t)`current, Players(t)`previous, Players(t)`homeRegion
    modifies Rigs(t)`flags, Rigs(t)`target, Rigs(t)`interposeDist, t`supporting
    ensures Staffed(t)
    ensures forall i :: 0 <= i < |t.players| ==>
      ViewOf(t.players[i]) ==
        if t.players[i].role != GoalKeeper
        then Reacted(old(ViewOf(t.players[i])), t.players[i].global, MsgGoHome, t.players[i].defaultRegion, SceneOf(t, prm, tick))
        else old(ViewOf(t.players[i]))
    ensures t.supporting == null || t.supporting == old(t.supporting)
  {
    var ps := t.players;
    ghost var sc := SceneOf(t, prm, tick);
    var i := 0;
    while i < |ps|
      invariant 0 <= i <= |ps|
      invariant Staffed(t) && SceneOf(t, prm, tick) == sc
      invariant forall j :: 0 <= j < i ==>
        ViewOf(ps[j]) ==
          if ps[j].role != GoalKeeper
          then Reacted(old(ViewOf(ps[j])), ps[j].global, MsgGoHome, ps[j].defaultRegion, sc)
          else old(ViewOf(ps[j]))
      invariant forall j :: i <= j < |ps| ==> ViewOf(ps[j]) == old(ViewOf(ps[j]))
      invariant t.supporting == null || t.supporting == old(t.supporting)
    {
      SendHome(t, i, ps[i], prm, g, tick);
      i := i + 1;
    }
  }

  /**
   * KickBall::Enter: the player becomes the team's controlling player, and
   * goes back to chasing the ball when its kick regulator is not ready.
   */
  method KickBallEnter(t: SoccerTeam, p: PlayerBase, prm: Params, g: Geometry, tick: Tick)
    requires p.current.Some?
    modifies t`controlling, p`current, p`previous, p.steering`flags, p.steering`target, p.steering`interposeDist, t`supporting
    ensures t.controlling == p
    ensures ViewOf(p) == if tick.kickReady then old(ViewOf(p)) else Entered(old(ViewOf(p)), ChaseBall, SceneOf(t, prm, tick))
    ensures t.supporting == if !tick.kickReady && old(p.current) == Some(SupportAttacker) then null else old(t.supporting)
  {
    t.SetControllingPlayer(p);
    if !tick.kickReady {
      ChangeState(t, p, ChaseBall, prm, g, tick);
    }
  }

  /** ChangeState to KickBall, whose Enter may change state again. */
  method ChangeStateToKickBall(t: SoccerTeam, p: PlayerBase, prm: Params, g: Geometry, tick: Tick)
    requires p.current.Some?
    modifies t`controlling, p`current, p`previous, p.steering`flags, p.steering`target, p.steering`interposeDist, t`supporting
    ensures t.controlling == p
    ensures var kicking := Entered(old(ViewOf(p)), KickBall, SceneOf(t, prm, tick));
      ViewOf(p) == if tick.kickReady then kicking else Entered(kicking, ChaseBall, SceneOf(t, prm, tick))
    ensures t.supporting == if old(p.current) == Some(SupportAttacker) then null else old(t.supporting)
  {
    var from := p.current.value;
    p.previous := p.current;
    Exit(t, p, from);
    p.current := Some(KickBall);
    KickBallEnter(t, p, prm, g, tick);
  }

  /** ReturnAllFieldPlayersToHome on `t`, which leaves its rival `o` as it was. */
  method ReturnAllBeside(t: SoccerTeam, o: SoccerTeam, prm: Params, g: Geometry, tick: Tick)
    requires Staffed(t) && Staffed(o) && (Rivals(t, o) || Rivals(o, t))
    modifies Players(t)`current, Players(t)`previous, Players(t)`homeRegion
    modifies Rigs(t)`flags, Rigs(t)`target, Rigs(t)`interposeDist, t`supporting
    ensures Staffed(t) && Staffed(o)
    ensures forall i :: 0 <= i < |t.players| ==>
      ViewOf(t.players[i]) ==
        if t.players[i].role != GoalKeeper
        then Reacted(old(ViewOf(t.players[i])), t.players[i].global, MsgGoHome, t.players[i].defaultRegion, SceneOf(t, prm, tick))
        else old(ViewOf(t.players[i]))
    ensures forall i :: 0 <= i < |o.players| ==> ViewOf(o.players[i]) == old(ViewOf(o.players[i]))
  {
    Separate(t, o);
    ReturnAllFieldPlayersToHome(t, prm, g, tick);
  }

  /** The opponents' field players are sent home, then the team's own. */
  method ReturnBoth(t: SoccerTeam, o: SoccerTeam, prm: Params, g: Geometry, tick: Tick)
    requires Staffed(t) && Staffed(o) && Rivals(t, o)
    modifies Players(t)`current, Players(t)`previous, Players(t)`homeRegion
    modifies Rigs(t)`flags, Rigs(t)`target, Rigs(t)`interposeDist, t`supporting
    modifies Players(o)`current, Players(o)`previous, Players(o)`homeRegion
    modifies Rigs(o)`flags, Rigs(o)`target, Rigs(o)`interposeDist, o`supporting
    ensures Staffed(t) && Staffed(o)
    ensures forall i :: 0 <= i < |t.players| ==>
      ViewOf(t.players[i]) ==
        if t.players[i].role != GoalKeeper
        then Reacted(old(ViewOf(t.players[i])), t.players[i].global, MsgGoHome, t.players[i].defaultRegion, SceneOf(t, prm, tick))
        else old(ViewOf(t.players[i]))
    ensures forall i :: 0 <= i < |o.players| ==>
      ViewOf(o.players[i]) ==
        if o.players[i].role != GoalKeeper
        then Reacted(old(ViewOf(o.players[i])), o.players[i].global, MsgGoHome, o.players[i].defaultRegion, SceneOf(o, prm, tick))
        else old(ViewOf(o.players[i]))
  {
    ReturnAllBeside(o, t, prm, g, tick);
    ReturnAllBeside(t, o, prm, g, tick);
  }

  /**
   * PutBallBackInPlay::Enter: the keeper becomes its team's controlling
   * player, then the opponents' field players and its own are sent home.
   */
  method PutBallBackInPlayEnter(t: SoccerTeam, o: SoccerTeam, keeper: PlayerBase, prm: Params, g: Geometry, tick: Tick)
    requires t.opponents == o && Staffed(t) && Staffed(o) && Rivals(t, o) && keeper in t.players
    modifies t`controlling
    modifies Players(t)`current, Players(t)`previous, Players(t)`homeRegion
    modifies Rigs(t)`flags, Rigs(t)`target, Rigs(t)`interposeDist, t`supporting
    modifies Players(o)`current, Players(o)`previous, Players(o)`homeRegion
    modifies Rigs(o)`flags, Rigs(o)`target, Rigs(o)`interposeDist, o`supporting
    ensures Staffed(t) && Staffed(o) && t.controlling == keeper
    ensures forall i :: 0 <= i < |t.players| ==>
      ViewOf(t.players[i]) ==
        if t.players[i].role != GoalKeeper
        then Reacted(old(ViewOf(t.players[i])), t.players[i].global, MsgGoHome, t.players[i].defaultRegion, SceneOf(t, prm, tick))
        else old(ViewOf(t.players[i]))
    ensures forall i :: 0 <= i < |o.players| ==>
      ViewOf(o.players[i]) ==
        if o.players[i].role != GoalKeeper
        then Reacted(old(ViewOf(o.players[i])), o.players[i].global, MsgGoHome, o.players[i].defaultRegion, SceneOf(o, prm, tick))
        else old(ViewOf(o.players[i]))
  {
    t.SetControllingPlayer(keeper);
    ReturnBoth(t, o, prm, g, tick);
  }

  /** The spot the team's search for a supporting attacker measures from. */
  ghost function SupportSpotFor(t: SoccerTeam): Vector2D
    reads t.spotCalc
  {
    SpotFor(t.spotCalc.spots, t.spotCalc.best)
  }

  /**
   * The attacker, other than the controlling player, nearest the spot the
   * search measures from; the first of equally near ones; none when no
   * attacker is eligible.
   */
  ghost function BestSupporter(t: SoccerTeam): PlayerBase?
    reads t`players, t`controlling, t.spotCalc, Players(t)`pos
  {
    Supporter(t.players, Distances(t.players, SupportSpotFor(t)), t.controlling)
  }

  /** The eligible attacker of `ps` with the least distance in `ds`, the first of equals; none when no attacker is eligible. */
  function Supporter(ps: seq<PlayerBase>, ds: seq<real>, controlling: PlayerBase?): PlayerBase?
    requires |ds| == |ps|
  {
    var pick := Pick(ds, SupportEligible(ps, controlling), MaxFloat, |ps|);
    if pick.Some? then ps[pick.value] else null
  }

  /** Two players of a roster with distinct steering objects have different steering objects. */
  lemma Unshared(ps: seq<PlayerBase>, a: PlayerBase, b: PlayerBase)
    requires Distinct(Steerings(ps)) && a in ps && b in ps && a != b
    ensures a.steering != b.steering
  {
    var i :| 0 <= i < |ps| && ps[i] == a;
    var j :| 0 <= j < |ps| && ps[j] == b;
    Apart(ps, i, j);
  }

  /**
   * DetermineBestSupportingAttacker, asked while only queries have touched
   * the spot calculator since `spots0`/`best0` and no player has moved,
   * names the best supporter measured from the spot of that earlier state.
   */
  method AskBestSupporter(t: SoccerTeam, prm: Params, g: Geometry, tick: Tick,
                          ghost spots0: seq<SupportSpot>, ghost best0: Option<nat>, ghost at: Vector2D, ghost ds: seq<real>)
    returns (b: PlayerBase?)
    requires t.SpotsComputable(prm) && Drawn(prm, tick)
    requires best0.Some? ==> best0.value < |spots0|
    requires SpotStep(spots0, best0, t.spotCalc.spots, t.spotCalc.best)
    requires at == SpotFor(spots0, best0) && |ds| == |t.players| && (forall i :: 0 <= i < |t.players| ==> ds[i] == DistanceSq(t.players[i].pos, at))
    modifies t.spotCalc
    ensures t.SpotsComputable(prm) && SpotStep(spots0, best0, t.spotCalc.spots, t.spotCalc.best)
    ensures b == Supporter(t.players, ds, t.controlling)
    ensures b != null ==> t.spotCalc.best.Some?
  {
    ghost var spots1, best1 := t.spotCalc.spots, t.spotCalc.best;
    SpotStepKeepsSpot(spots0, best0, spots1, best1, spots1, best1);
    assert Distances(t.players, at) == ds;
    b := t.DetermineBestSupportingAttacker(tick.spotReady, tick.draws, prm, g);
    var ok := SupportEligible(t.players, t.controlling);
    if exists i :: 0 <= i < |t.players| && ok[i] {
      QueriedIsStep(spots1, best1, t.spotCalc.spots, t.spotCalc.best, old(t.FirstSpotScore(t.spotCalc.spots, tick.draws, prm, g)));
      SpotStepKeepsSpot(spots0, best0, spots1, best1, t.spotCalc.spots, t.spotCalc.best);
      SpotStepKeepsSpot(spots1, best1, t.spotCalc.spots, t.spotCalc.best, t.spotCalc.spots, t.spotCalc.best);
    } else {
      NothingAdmitted(ds, ok, MaxFloat, |ds|);
    }
  }

  /**
   * The first half of FindSupport, for a team without a supporting player:
   * the best supporter, measured from `at`, becomes the supporting player
   * and, if there is one, is sent SupportAttacker.  No player moves and the
   * spot the search measures from stays put.
   */
  method EnlistFirst(t: SoccerTeam, prm: Params, g: Geometry, tick: Tick, ghost at: Vector2D, ghost ds: seq<real>)
    requires Staffed(t) && t.SpotsComputable(prm) && Drawn(prm, tick) && t.supporting == null
    requires at == SupportSpotFor(t) && |ds| == |t.players| && (forall i :: 0 <= i < |t.players| ==> ds[i] == DistanceSq(t.players[i].pos, at))
    modifies Players(t)`current, Players(t)`previous, Players(t)`homeRegion
    modifies Rigs(t)`flags, Rigs(t)`target, Rigs(t)`interposeDist, t`supporting, t.spotCalc
    ensures Staffed(t) && t.SpotsComputable(prm)
    ensures SpotStep(old(t.spotCalc.spots), old(t.spotCalc.best), t.spotCalc.spots, t.spotCalc.best)
    ensures at == SupportSpotFor(t)
    ensures t.supporting == Supporter(t.players, ds, t.controlling)
    ensures var b := t.supporting;
      b != null ==>
        (t.spotCalc.best.Some? &&
         ViewOf(b) == Reacted(old(ViewOf(b)), b.global, MsgSupportAttacker, b.defaultRegion, SceneOf(t, prm, tick)))
    ensures forall r :: r in t.players && r != t.supporting ==> ViewOf(r) == old(ViewOf(r))
  {
    ghost var spots0, best0 := t.spotCalc.spots, t.spotCalc.best;
    var first := AskBestSupporter(t, prm, g, tick, spots0, best0, at, ds);
    t.SetSupportingPlayer(first);
    ghost var spots1, best1 := t.spotCalc.spots, t.spotCalc.best;
    if first != null {
      Enlist(t, first, prm, g, tick);
    }
    SpotStepKeepsSpot(spots0, best0, spots1, best1, t.spotCalc.spots, t.spotCalc.best);
  }

  /**
   * The second half of FindSupport, once a better supporter `b` than the
   * supporting player is known: the supporting player, if any, is sent
   * home, and `b` becomes the supporting player and is sent
   * SupportAttacker.  The spot is settled by then, so it stays as it is.
   */
  method Replace(t: SoccerTeam, b: PlayerBase, prm: Params, g: Geometry, tick: Tick)
    requires Staffed(t) && t.SpotsComputable(prm) && Drawn(prm, tick)
    requires b in t.players && b != t.supporting && t.spotCalc.best.Some?
    modifies Players(t)`current, Players(t)`previous, Players(t)`homeRegion
    modifies Rigs(t)`flags, Rigs(t)`target, Rigs(t)`interposeDist, t`supporting, t.spotCalc
    ensures Staffed(t) && t.SpotsComputable(prm) && t.supporting == b
    ensures t.spotCalc.spots == old(t.spotCalc.spots) && t.spotCalc.best == old(t.spotCalc.best)
    ensures ViewOf(b) == Reacted(old(ViewOf(b)), b.global, MsgSupportAttacker, b.defaultRegion, SceneOf(t, prm, tick))
    ensures var s := old(t.supporting);
      s != null ==> ViewOf(s) == Reacted(old(ViewOf(s)), s.global, MsgGoHome, s.defaultRegion, SceneOf(t, prm, tick))
    ensures forall r :: r in t.players && r != b && r != old(t.supporting) ==> ViewOf(r) == old(ViewOf(r))
  {
    var s := t.supporting;
    if s != null {
      GoHome(t, s, prm, g, tick);
    }
    t.SetSupportingPlayer(b);
    Enlist(t, b, prm, g, tick);
  }

  /**
   * The second half of FindSupport: the best supporter, measured from `at`,
   * is asked for again and, when there is one and it is not the supporting
   * player, replaces the supporting player.
   */
  method Reconsider(t: SoccerTeam, prm: Params, g: Geometry, tick: Tick, ghost at: Vector2D, ghost ds: seq<real>)
    returns (best: PlayerBase?)
    requires Staffed(t) && t.SpotsComputable(prm) && Drawn(prm, tick)
    requires at == SupportSpotFor(t) && |ds| == |t.players| && (forall i :: 0 <= i < |t.players| ==> ds[i] == DistanceSq(t.players[i].pos, at))
    modifies Players(t)`current, Players(t)`previous, Players(t)`homeRegion
    modifies Rigs(t)`flags, Rigs(t)`target, Rigs(t)`interposeDist, t`supporting, t.spotCalc
    ensures best == Supporter(t.players, ds, t.controlling)
    ensures Staffed(t) && t.SpotsComputable(prm)
    ensures SpotStep(old(t.spotCalc.spots), old(t.spotCalc.best), t.spotCalc.spots, t.spotCalc.best)
    ensures best == null ==> t.supporting == old(t.supporting)
    ensures best != null ==> t.supporting == best
    ensures best != null && best != old(t.supporting) ==>
      ViewOf(best) == Reacted(old(ViewOf(best)), best.global, MsgSupportAttacker, best.defaultRegion, SceneOf(t, prm, tick))
    ensures best != null && best != old(t.supporting) && old(t.supporting) != null ==>
      ViewOf(old(t.supporting)) ==
      Reacted(old(ViewOf(t.supporting)), old(t.supporting).global, MsgGoHome, old(t.supporting).defaultRegion, SceneOf(t, prm, tick))
    ensures best == null || best == old(t.supporting) ==> forall r :: r in t.players ==> ViewOf(r) == old(ViewOf(r))
    ensures forall r :: r in t.players && r != best && r != old(t.supporting) ==> ViewOf(r) == old(ViewOf(r))
  {
    best := AskBestSupporter(t, prm, g, tick, t.spotCalc.spots, t.spotCalc.best, at, ds);
    if best != null && best != t.supporting {
      Replace(t, best, prm, g, tick);
    }
  }

  /**
   * PlayerBase::FindSupport: a team without a supporting player enlists
   * the best supporter; then, when the best supporter is not the supporting
   * player, the supporting player is sent home and the best supporter
   * enlisted in its place.  Both searches measure from the same spot, so
   * they name the same player, and the one player enlisted is the best
   * supporter at the time of the call.
   */
  method FindSupport(t: SoccerTeam, prm: Params, g: Geometry, tick: Tick)
    requires Staffed(t) && t.SpotsComputable(prm) && Drawn(prm, tick)
    modifies Players(t)`current, Players(t)`previous, Players(t)`homeRegion
    modifies Rigs(t)`flags, Rigs(t)`target, Rigs(t)`interposeDist, t`supporting, t.spotCalc
    ensures Staffed(t) && t.SpotsComputable(prm)
    ensures SpotStep(old(t.spotCalc.spots), old(t.spotCalc.best), t.spotCalc.spots, t.spotCalc.best)
    ensures old(BestSupporter(t)) == null ==> t.supporting == old(t.supporting)
    ensures old(BestSupporter(t)) != null ==> t.supporting == old(BestSupporter(t))
    ensures var b := old(BestSupporter(t));
      b != null && b != old(t.supporting) ==>
        ViewOf(b) == Reacted(old(ViewOf(b)), b.global, MsgSupportAttacker, b.defaultRegion, SceneOf(t, prm, tick))
    ensures var b := old(BestSupporter(t));
      b != null && b != old(t.supporting) && old(t.supporting) != null ==>
        ViewOf(old(t.supporting)) ==
        Reacted(old(ViewOf(t.supporting)), old(t.supporting).global, MsgGoHome, old(t.supporting).defaultRegion, SceneOf(t, prm, tick))
    ensures old(BestSupporter(t)) == null || old(BestSupporter(t)) == old(t.supporting) ==>
      forall r :: r in t.players ==> ViewOf(r) == old(ViewOf(r))
    ensures forall r :: r in t.players && r != old(BestSupporter(t)) && r != old(t.supporting) ==> ViewOf(r) == old(ViewOf(r))
  {
    ghost var at := SupportSpotFor(t);
    ghost var ds := Distances(t.players, at);
    if t.supporting == null {
      EnlistFirst(t, prm, g, tick, at, ds);
    }
    var _ := Reconsider(t, prm, g, tick, at, ds);
  }

  /** The best supporter stays the same while nobody moves and the spot calculator is untouched. */
  twostate lemma SupporterKept(t: SoccerTeam)
    requires t.players == old(t.players) && t.controlling == old(t.controlling) && unchanged(t.spotCalc)
    requires forall q :: q in t.players ==> q.pos == old(q.pos)
    ensures BestSupporter(t) == old(BestSupporter(t))
  {
  }

  /** A player's view once `req` has been told to receive the ball where it stands. */
  ghost function Received(r: PlayerBase, req: PlayerBase, sc: Scene): View
    reads r`current, r`previous, r`homeRegion, r`global, r.steering`flags, r.steering`target, r.steering`interposeDist, req`pos
  {
    if r == req then Reacted(ViewOf(r), r.global, MsgReceiveBall(req.pos), r.defaultRegion, sc) else ViewOf(r)
  }

  /** A player's view after `p` passes to `req`: the requester reacts to ReceiveBall, then the passer waits. */
  ghost function Passed(r: PlayerBase, p: PlayerBase, req: PlayerBase, sc: Scene): View
    reads r`current, r`previous, r`homeRegion, r`global, r.steering`flags, r.steering`target, r.steering`interposeDist, req`pos
  {
    var v := Received(r, req, sc);
    if r == p then Entered(v, Wait, sc) else v
  }

  /** The supporting player after that pass: none once the requester or the passer has left SupportAttacker. */
  ghost function SupportingAfterPass(t: SoccerTeam, p: PlayerBase, req: PlayerBase, sc: Scene): PlayerBase?
    reads t`supporting, req`current, req`global, req`pos
    reads p`current, p`previous, p`homeRegion, p`global, p.steering`flags, p.steering`target, p.steering`interposeDist
  {
    if Leaves(req.current, req.global, MsgReceiveBall(req.pos)) || Received(p, req, sc).current == Some(SupportAttacker) then null
    else t.supporting
  }

  /**
   * What a pass from `p` to `req` followed by FindSupport leaves behind,
   * against the state before the pass: every player has the view the pass
   * gives it, except that the best supporter (the pass moves nobody, so it
   * is the one measured before the pass) is enlisted when it is not already
   * supporting, and the supporting player the pass left, when there is one,
   * is sent home.
   */
  twostate predicate PassMade(t: SoccerTeam, p: PlayerBase, req: PlayerBase, prm: Params, tick: Tick)
    reads t`players, t`supporting, t.spotCalc, t.pitch`gameOn, Players(t)`current, Players(t)`previous, Players(t)`homeRegion
    reads Players(t)`global, Rigs(t)`flags, Rigs(t)`target, Rigs(t)`interposeDist
  {
    var b, m := old(BestSupporter(t)), old(SupportingAfterPass(t, p, req, SceneOf(t, prm, tick)));
    t.players == old(t.players) &&
    SpotStep(old(t.spotCalc.spots), old(t.spotCalc.best), t.spotCalc.spots, t.spotCalc.best) &&
    t.supporting == (if b == null then m else b) &&
    (forall r :: r in t.players && r != b && r != m ==> ViewOf(r) == old(Passed(r, p, req, SceneOf(t, prm, tick)))) &&
    (b != null && b != m ==>
      b in t.players && ViewOf(b) == Reacted(old(Passed(b, p, req, SceneOf(t, prm, tick))), b.global, MsgSupportAttacker, b.defaultRegion, SceneOf(t, prm, tick))) &&
    (b != null && b != m && m != null ==>
      m in t.players && ViewOf(m) == Reacted(old(Passed(m, p, req, SceneOf(t, prm, tick))), m.global, MsgGoHome, m.defaultRegion, SceneOf(t, prm, tick)))
  }

  /** The requester is told to receive the ball where it stands; no other player changes. */
  method TellReceiver(t: SoccerTeam, req: PlayerBase, prm: Params, g: Geometry, tick: Tick)
    requires Staffed(t) && req in t.players
    modifies req`current, req`previous, req`homeRegion, req.steering`flags, req.steering`target, req.steering`interposeDist, t`supporting
    ensures Staffed(t)
    ensures forall r :: r in t.players ==> ViewOf(r) == old(Received(r, req, SceneOf(t, prm, tick)))
    ensures t.supporting == if old(Leaves(req.current, req.global, MsgReceiveBall(req.pos))) then null else old(t.supporting)
  {
    var _ := Tell(t, req, MsgReceiveBall(req.pos), prm, g, tick);
  }

  /**
   * The pass a player makes when asked for one: the ball is kicked at the
   * requester with the maximum passing force, the requester is told to
   * receive it where it stands, and the passer waits.  The kick is applied
   * last here, where GlobalPlayerState kicks first: neither reaction reads
   * the ball's velocity or moves anyone, so the outcome is the same, and the
   * velocity is stated from the positions before the pass.
   */
  method MakePass(t: SoccerTeam, p: PlayerBase, req: PlayerBase, prm: Params, g: Geometry, tick: Tick)
    requires Staffed(t) && p in t.players && req in t.players && p.current.Some?
    requires g.Sound() && p.ball.mass != 0.0
    modifies p.ball`velocity, t`supporting
    modifies p`current, p`previous, p`homeRegion, p.steering`flags, p.steering`target, p.steering`interposeDist
    modifies req`current, req`previous, req`homeRegion, req.steering`flags, req.steering`target, req.steering`interposeDist
    ensures Staffed(t)
    ensures p.ball.velocity == old(g.Normalize(req.pos.Minus(p.ball.pos)).Scale(prm.maxPassingForce).Div(p.ball.mass))
    ensures forall r :: r in t.players ==> ViewOf(r) == old(Passed(r, p, req, SceneOf(t, prm, tick)))
    ensures t.supporting == old(SupportingAfterPass(t, p, req, SceneOf(t, prm, tick)))
    ensures BestSupporter(t) == old(BestSupporter(t))
  {
    ReceiveAndWait(t, p, req, prm, g, tick);
    p.ball.Kick(req.pos.Minus(p.ball.pos), prm.maxPassingForce, g);
  }

  /** The reactions to a pass: the requester is told to receive the ball, then the passer waits; nobody moves. */
  method ReceiveAndWait(t: SoccerTeam, p: PlayerBase, req: PlayerBase, prm: Params, g: Geometry, tick: Tick)
    requires Staffed(t) && p in t.players && req in t.players && p.current.Some?
    modifies t`supporting
    modifies p`current, p`previous, p`homeRegion, p.steering`flags, p.steering`target, p.steering`interposeDist
    modifies req`current, req`previous, req`homeRegion, req.steering`flags, req.steering`target, req.steering`interposeDist
    ensures Staffed(t)
    ensures forall r :: r in t.players ==> ViewOf(r) == old(Passed(r, p, req, SceneOf(t, prm, tick)))
    ensures t.supporting == old(SupportingAfterPass(t, p, req, SceneOf(t, prm, tick)))
    ensures BestSupporter(t) == old(BestSupporter(t))
  {
    TellReceiver(t, req, prm, g, tick);
    Settle(t, p, Wait, prm, g, tick);
    SupporterKept(t);
  }

  /** The pass itself, followed by FindSupport: the ball leaves towards the requester. */
  method PassAndSeekSupport(t: SoccerTeam, p: PlayerBase, req: PlayerBase, prm: Params, g: Geometry, tick: Tick)
    requires Staffed(t) && p in t.players && req in t.players && p.current.Some?
    requires g.Sound() && p.ball.mass != 0.0 && t.SpotsComputable(prm) && Drawn(prm, tick)
    modifies p.ball`velocity
    modifies Players(t)`current, Players(t)`previous, Players(t)`homeRegion
    modifies Rigs(t)`flags, Rigs(t)`target, Rigs(t)`interposeDist, t`supporting, t.spotCalc
    ensures Staffed(t) && t.SpotsComputable(prm)
    ensures p.ball.velocity == old(g.Normalize(req.pos.Minus(p.ball.pos)).Scale(prm.maxPassingForce).Div(p.ball.mass))
    ensures PassMade(t, p, req, prm, tick)
  {
    MakePass(t, p, req, prm, g, tick);
    FindSupport(t, prm, g, tick);
  }

  /**
   * GlobalPlayerState::OnMessage for PassToMe: a player who cannot kick the
   * ball, or whose team already has a receiver, ignores the request;
   * otherwise it makes the pass and then looks for support.  The message
   * counts as handled either way.
   */
  method OnPassToMe(t: SoccerTeam, p: PlayerBase, req: PlayerBase, prm: Params, g: Geometry, tick: Tick)
    returns (handled: bool)
    requires Staffed(t) && p in t.players && req in t.players && p.current.Some?
    requires g.Sound() && p.ball.mass != 0.0 && t.SpotsComputable(prm) && Drawn(prm, tick)
    modifies p.ball`velocity
    modifies Players(t)`current, Players(t)`previous, Players(t)`homeRegion
    modifies Rigs(t)`flags, Rigs(t)`target, Rigs(t)`interposeDist, t`supporting, t.spotCalc
    ensures handled && Staffed(t) && t.SpotsComputable(prm)
    ensures old(t.receiving != null || !p.BallWithinKickingRange(prm)) ==>
      p.ball.velocity == old(p.ball.velocity) && t.supporting == old(t.supporting) &&
      t.spotCalc.spots == old(t.spotCalc.spots) && t.spotCalc.best == old(t.spotCalc.best) &&
      forall r :: r in t.players ==> ViewOf(r) == old(ViewOf(r))
    ensures old(t.receiving == null && p.BallWithinKickingRange(prm)) ==>
      p.ball.velocity == old(g.Normalize(req.pos.Minus(p.ball.pos)).Scale(prm.maxPassingForce).Div(p.ball.mass)) &&
      PassMade(t, p, req, prm, tick)
  {
    handled := true;
    if t.receiving != null || !p.BallWithinKickingRange(prm) {
      return;
    }
    PassAndSeekSupport(t, p, req, prm, g, tick);
  }

  /**
   * FieldPlayer::HandleMessage, through the state machine: the current
   * state handles nothing, so the global state's handler decides; a
   * PassToMe to a field player goes to its pass handler.
   */
  method HandleMessage(t: SoccerTeam, q: PlayerBase, msg: Telegram, prm: Params, g: Geometry, tick: Tick)
    returns (handled: bool)
    requires Staffed(t) && q in t.players
    requires msg.MsgPassToMe? && q.global == Some(GlobalPlayerState) ==>
      msg.requester in t.players && g.Sound() && q.ball.mass != 0.0 && t.SpotsComputable(prm) && Drawn(prm, tick)
    requires Queries(q.current, q.global, msg) ==> t.SpotsComputable(prm) && Drawn(prm, tick)
    modifies q.ball`velocity
    modifies Players(t)`current, Players(t)`previous, Players(t)`homeRegion
    modifies Rigs(t)`flags, Rigs(t)`target, Rigs(t)`interposeDist, t`supporting, t.spotCalc
    ensures handled <==> q.global == Some(GlobalPlayerState) && !msg.MsgOther?
    ensures Staffed(t)
    ensures !(msg.MsgPassToMe? && q.global == Some(GlobalPlayerState)) ==>
      ViewOf(q) == Reacted(old(ViewOf(q)), q.global, msg, q.defaultRegion, SceneOf(t, prm, tick)) &&
      q.ball.velocity == old(q.ball.velocity) &&
      t.supporting == (if Leaves(old(q.current), q.global, msg) then null else old(t.supporting)) &&
      forall r :: r in t.players && r != q ==> ViewOf(r) == old(ViewOf(r))
    ensures !(msg.MsgPassToMe? && q.global == Some(GlobalPlayerState)) && !old(Queries(q.current, q.global, msg)) ==>
      t.spotCalc.spots == old(t.spotCalc.spots) && t.spotCalc.best == old(t.spotCalc.best)
    ensures msg.MsgPassToMe? && q.global == Some(GlobalPlayerState) && old(t.receiving == null && q.BallWithinKickingRange(prm)) ==>
      q.ball.velocity == old(g.Normalize(msg.requester.pos.Minus(q.ball.pos)).Scale(prm.maxPassingForce).Div(q.ball.mass)) &&
      PassMade(t, q, msg.requester, prm, tick)
    ensures msg.MsgPassToMe? && (q.global != Some(GlobalPlayerState) || old(t.receiving != null || !q.BallWithinKickingRange(prm))) ==>
      q.ball.velocity == old(q.ball.velocity) && t.supporting == old(t.supporting) &&
      t.spotCalc.spots == old(t.spotCalc.spots) && t.spotCalc.best == old(t.spotCalc.best) &&
      forall r :: r in t.players ==> ViewOf(r) == old(ViewOf(r))
  {
    if msg.MsgPassToMe? && q.global == Some(GlobalPlayerState) {
      handled := OnPassToMe(t, q, msg.requester, prm, g, tick);
    } else {
      handled := Tell(t, q, msg, prm, g, tick);
      assert msg.MsgPassToMe? ==> Response(old(q.current), q.global, msg) == None;
    }
  }

  /** A PassToMe from `req` dispatched to `c`: HandleMessage's outcome for that message alone. */
  method AskForPass(t: SoccerTeam, c: PlayerBase, req: PlayerBase, prm: Params, g: Geometry, tick: Tick)
    requires Staffed(t) && c in t.players && req in t.players
    requires g.Sound() && c.ball.mass != 0.0 && t.SpotsComputable(prm) && Drawn(prm, tick)
    modifies c.ball`velocity
    modifies Players(t)`current, Players(t)`previous, Players(t)`homeRegion
    modifies Rigs(t)`flags, Rigs(t)`target, Rigs(t)`interposeDist, t`supporting, t.spotCalc
    ensures Staffed(t)
    ensures !(c.global == Some(GlobalPlayerState) && old(t.receiving == null && c.BallWithinKickingRange(prm))) ==>
      c.ball.velocity == old(c.ball.velocity) && t.supporting == old(t.supporting) &&
      t.spotCalc.spots == old(t.spotCalc.spots) && t.spotCalc.best == old(t.spotCalc.best) &&
      forall r :: r in t.players ==> ViewOf(r) == old(ViewOf(r))
    ensures c.global == Some(GlobalPlayerState) && old(t.receiving == null && c.BallWithinKickingRange(prm)) ==>
      c.ball.velocity == old(g.Normalize(req.pos.Minus(c.ball.pos)).Scale(prm.maxPassingForce).Div(c.ball.mass)) &&
      PassMade(t, c, req, prm, tick)
  {
    var _ := HandleMessage(t, c, MsgPassToMe(req), prm, g, tick);
  }

  /**
   * SoccerTeam::RequestPass: nine times in ten (a draw above 0.1) nothing
   * happens; otherwise, when a pass from the controlling player to the
   * requester is safe from every opponent, the controlling player is asked
   * for the pass.  Only a field player that can kick the ball while its
   * team has no receiver makes it; a goalkeeper ignores the request.
   */
  method RequestPass(t: SoccerTeam, req: PlayerBase, prm: Params, g: Geometry, tick: Tick)
    requires Staffed(t) && req in t.players && t.controlling != null
    requires t.opponents != null && t.ball.mass != 0.0 && prm.friction != 0.0
    requires g.Sound() && t.SpotsComputable(prm) && Drawn(prm, tick)
    modifies t.ball`velocity
    modifies Players(t)`current, Players(t)`previous, Players(t)`homeRegion
    modifies Rigs(t)`flags, Rigs(t)`target, Rigs(t)`interposeDist, t`supporting, t.spotCalc
    ensures Staffed(t)
    ensures var c := old(t.controlling);
      var safe := old(AllSafe(c.pos, req.pos, PosOf(req), Snapshot(t.opponents.players), prm.maxPassingForce, t.ball, prm, g));
      !(tick.chance <= 0.1 && safe && c.global == Some(GlobalPlayerState) && old(t.receiving == null && c.BallWithinKickingRange(prm))) ==>
        t.ball.velocity == old(t.ball.velocity) && t.supporting == old(t.supporting) &&
        t.spotCalc.spots == old(t.spotCalc.spots) && t.spotCalc.best == old(t.spotCalc.best) &&
        forall r :: r in t.players ==> ViewOf(r) == old(ViewOf(r))
    ensures var c := old(t.controlling);
      var safe := old(AllSafe(c.pos, req.pos, PosOf(req), Snapshot(t.opponents.players), prm.maxPassingForce, t.ball, prm, g));
      tick.chance <= 0.1 && safe && c.global == Some(GlobalPlayerState) && old(t.receiving == null && c.BallWithinKickingRange(prm)) ==>
        t.ball.velocity == old(g.Normalize(req.pos.Minus(t.ball.pos)).Scale(prm.maxPassingForce).Div(t.ball.mass)) &&
        PassMade(t, c, req, prm, tick)
  {
    if tick.chance > 0.1 {
      return;
    }
    var c := t.controlling;
    var safe := t.IsPassSafeFromAllOpponents(c.pos, req.pos, req, prm.maxPassingForce, prm, g);
    if !safe {
      return;
    }
    assert BestSupporter(t) == old(BestSupporter(t)) && SceneOf(t, prm, tick) == old(SceneOf(t, prm, tick));
    assert SupportingAfterPass(t, c, req, SceneOf(t, prm, tick)) == old(SupportingAfterPass(t, c, req, SceneOf(t, prm, tick)));
    assert forall r :: r in t.players ==> Passed(r, c, req, SceneOf(t, prm, tick)) == old(Passed(r, c, req, SceneOf(t, prm, tick)));
    AskForPass(t, c, req, prm, g, tick);
  }
}

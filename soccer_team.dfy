// A team: its players, the pointers to the players with special duties
// (controlling, supporting, receiving, closest to the ball), the support
// spot calculator, and the team-level queries the players' states ask:
// who is closest to the ball, who should support the attacker, whether a
// pass or a shot is safe from the opponents.
module Team {
  import opened Optional
  import opened Geometry
  import opened Params
  import opened Ball
  import opened Steering
  import opened SupportSpots
  import opened Player

  /** A goal: its two posts and the centre of its mouth. */
  datatype Goal = Goal(leftPost: Vector2D, rightPost: Vector2D, center: Vector2D)

  /** The states of the team's own state machine. */
  datatype TeamState = Attacking | Defending | PrepareForKickOff

  /** The pitch: the ball, the layout, and two flags the players consult. */
  class SoccerPitch {
    const ball: SoccerBall
    const field: Field
    var gameOn: bool
    var goalKeeperHasBall: bool

    constructor (ball: SoccerBall, field: Field, gameOn: bool)
      ensures this.ball == ball && this.field == field && this.gameOn == gameOn && !goalKeeperHasBall
    {
      this.ball := ball;
      this.field := field;
      this.gameOn := gameOn;
      goalKeeperHasBall := false;
    }

    method SetGoalKeeperHasBall(b: bool)
      modifies this`goalKeeperHasBall
      ensures goalKeeperHasBall == b
    {
      goalKeeperHasBall := b;
    }
  }

  /** What a pass-safety test needs to know of an opponent. */
  datatype Mover = Mover(pos: Vector2D, maxSpeed: real, bRadius: real)

  /** The players as movers, read from the heap once. */
  function Snapshot(ps: seq<PlayerBase>): (ms: seq<Mover>)
    reads set p | p in ps
    ensures |ms| == |ps|
    ensures forall i :: 0 <= i < |ps| ==> ms[i] == Mover(ps[i].pos, ps[i].maxSpeed, ps[i].bRadius)
  {
    seq(|ps|, i requires 0 <= i < |ps| reads ps => Mover(ps[i].pos, ps[i].maxSpeed, ps[i].bRadius))
  }

  /**
   * Whether a pass kicked from `from` towards `target` with `force` is safe
   * from the opponent `opp`.  Seen from `from` along the pass, an opponent
   * behind the kicker cannot intercept.  An opponent farther from the
   * kicker than the target is harmless unless there is a receiver and the
   * opponent is at least as close to the target as the receiver.
   * Otherwise the opponent intercepts when its sideways distance from the
   * line of the pass is below how far it runs while the ball travels level
   * with it, plus the two radii.
   */
  predicate PassSafeFromOpponent(from: Vector2D, target: Vector2D, receiver: Option<Vector2D>, opp: Mover,
                                 force: real, ball: SoccerBall, prm: Params, g: Geometry)
    requires ball.mass != 0.0 && prm.friction != 0.0
  {
    var along := g.Normalize(target.Minus(from));
    var local := g.toLocal(opp.pos, along, along.Perp(), from);
    if local.x < 0.0 then true
    else if DistanceSq(from, target) < DistanceSq(opp.pos, from) then
      match receiver
      case Some(r) => DistanceSq(target, opp.pos) > DistanceSq(target, r)
      case None => true
    else
      Abs(local.y) >= Reach(local.x, opp, force, ball, prm, g)
  }

  /** How far sideways `opp` can get, ball and body radii included, while the ball travels `ahead` along the pass. */
  function Reach(ahead: real, opp: Mover, force: real, ball: SoccerBall, prm: Params, g: Geometry): real
    requires ball.mass != 0.0 && prm.friction != 0.0
  {
    var timeForBall := ball.TimeToCoverDistance(Zero, Vector2D(ahead, 0.0), force, prm, g);
    opp.maxSpeed * timeForBall + ball.bRadius + opp.bRadius
  }

  /** Whether the pass is safe from every opponent. */
  predicate AllSafe(from: Vector2D, target: Vector2D, receiver: Option<Vector2D>, opps: seq<Mover>,
                    force: real, ball: SoccerBall, prm: Params, g: Geometry)
    requires ball.mass != 0.0 && prm.friction != 0.0
  {
    forall i :: 0 <= i < |opps| ==> PassSafeFromOpponent(from, target, receiver, opps[i], force, ball, prm, g)
  }

  /** The position of a player who may be absent. */
  function PosOf(p: PlayerBase?): Option<Vector2D>
    reads p
  {
    if p == null then None else Some(p.pos)
  }

  /**
   * The spot calculator after the best spot was asked for, starting from
   * `spots0` and `best0`: a spot already chosen stays; otherwise the first
   * spot, scored `score0`, is chosen.
   */
  predicate SpotQueried(spots0: seq<SupportSpot>, best0: Option<nat>, spots: seq<SupportSpot>, best: Option<nat>,
                        score0: real)
  {
    best.Some? &&
    (best0.Some? ==> spots == spots0 && best == best0) &&
    (best0.None? ==>
      |spots0| > 0 && best == Some(0) && spots == spots0[0 := SupportSpot(spots0[0].pos, score0)])
  }

  /**
   * The minimum search every team loop performs: starting from `start`,
   * the entry admitted by `ok` that is strictly below the minimum so far
   * replaces it.
   */
  function RunningMin(ds: seq<real>, ok: seq<bool>, start: real, n: nat): real
    requires |ok| == |ds| && n <= |ds|
  {
    if n == 0 then start
    else
      var m := RunningMin(ds, ok, start, n - 1);
      if ok[n - 1] && ds[n - 1] < m then ds[n - 1] else m
  }

  /**
   * The index the minimum search over the first `n` entries keeps last, if
   * any entry ever improved the minimum.
   */
  function Pick(ds: seq<real>, ok: seq<bool>, start: real, n: nat): (pick: Option<nat>)
    requires |ok| == |ds| && n <= |ds|
    ensures pick.Some? ==> pick.value < n
  {
    if n == 0 then None
    else if ok[n - 1] && ds[n - 1] < RunningMin(ds, ok, start, n - 1) then Some(n - 1)
    else Pick(ds, ok, start, n - 1)
  }

  function AllAdmitted(n: nat): (ok: seq<bool>)
    ensures |ok| == n && forall i :: 0 <= i < n ==> ok[i]
  {
    seq(n, _ => true)
  }

  /** Squared distances of the players from `to`. */
  function Distances(ps: seq<PlayerBase>, to: Vector2D): (ds: seq<real>)
    reads (set p | p in ps)`pos
    ensures |ds| == |ps| && forall i :: 0 <= i < |ps| ==> ds[i] == DistanceSq(ps[i].pos, to)
  {
    if ps == [] then [] else Distances(ps[..|ps| - 1], to) + [DistanceSq(ps[|ps| - 1].pos, to)]
  }

  /** The distance of every pass candidate from the goal line: the candidate target never moves off the origin. */
  function OriginDistances(n: nat, goal: Goal): (ds: seq<real>)
    ensures |ds| == n && forall i :: 0 <= i < n ==> ds[i] == Abs(Zero.x - goal.center.x)
  {
    seq(n, _ => Abs(Zero.x - goal.center.x))
  }

  /** Which players may receive a pass from `passer`: anyone else farther away than the minimum passing distance. */
  function PassEligible(ps: seq<PlayerBase>, passer: PlayerBase, minDist: real): (ok: seq<bool>)
    reads set p | p in ps
    reads passer
    ensures |ok| == |ps|
    ensures forall i :: 0 <= i < |ps| ==>
      (ok[i] <==> ps[i] != passer && DistanceSq(passer.pos, ps[i].pos) > minDist * minDist)
  {
    seq(|ps|, i requires 0 <= i < |ps| reads ps, passer =>
      ps[i] != passer && DistanceSq(passer.pos, ps[i].pos) > minDist * minDist)
  }

  /** Which players may support the attacker: attackers other than the controlling player. */
  function SupportEligible(ps: seq<PlayerBase>, controlling: PlayerBase?): (ok: seq<bool>)
    ensures |ok| == |ps|
    ensures forall i :: 0 <= i < |ps| ==> (ok[i] <==> ps[i].role == Attacker && ps[i] != controlling)
  {
    seq(|ps|, i requires 0 <= i < |ps| => ps[i].role == Attacker && ps[i] != controlling)
  }

  /** The shot target of the `k`-th draw: on the goal line, at the drawn height. */
  function ShotAt(goal: Goal, draws: seq<int>, k: nat): Vector2D
    requires k < |draws|
  {
    Vector2D(goal.center.x, draws[k] as real)
  }

  /** Whether a shot from `from` at `target` with `force` reaches the target and is safe from every opponent. */
  predicate ShotScores(from: Vector2D, target: Vector2D, force: real, opps: seq<Mover>,
                       ball: SoccerBall, prm: Params, g: Geometry)
    requires ball.mass != 0.0 && prm.friction != 0.0
  {
    ball.TimeToCoverDistance(from, target, force, prm, g) >= 0.0 &&
    AllSafe(from, target, None, opps, force, ball, prm, g)
  }

  /** The first of the first `n` draws whose shot would score. */
  function FirstShot(from: Vector2D, force: real, goal: Goal, draws: seq<int>, n: nat, opps: seq<Mover>,
                     ball: SoccerBall, prm: Params, g: Geometry): (k: Option<nat>)
    requires ball.mass != 0.0 && prm.friction != 0.0 && n <= |draws|
    ensures k.Some? ==> k.value < n
    decreases n
  {
    if n == 0 then None
    else
      var k := FirstShot(from, force, goal, draws, n - 1, opps, ball, prm, g);
      if k.Some? then k
      else if ShotScores(from, ShotAt(goal, draws, n - 1), force, opps, ball, prm, g) then Some(n - 1)
      else None
  }

  /**
   * The minimum search finds the first admitted entry that lies below the
   * start value and is no greater than any other admitted entry, and finds
   * nothing exactly when no admitted entry lies below the start value; the
   * running minimum is the entry found, or the start value.
   */
  lemma {:induction false} PickIsFirstMinimum(ds: seq<real>, ok: seq<bool>, start: real, n: nat)
    requires |ok| == |ds| && n <= |ds|
    ensures var pick := Pick(ds, ok, start, n);
      (pick.None? <==> forall j :: 0 <= j < n && ok[j] ==> ds[j] >= start) &&
      (pick.None? ==> RunningMin(ds, ok, start, n) == start) &&
      (pick.Some? ==>
        var i := pick.value;
        ok[i] && ds[i] < start && RunningMin(ds, ok, start, n) == ds[i] &&
        (forall j :: 0 <= j < n && ok[j] ==> ds[i] <= ds[j]) &&
        (forall j :: 0 <= j < i && ok[j] ==> ds[i] < ds[j]))
  {
    if n > 0 {
      PickIsFirstMinimum(ds, ok, start, n - 1);
    }
  }

  /** The search only ever picks an admitted entry. */
  lemma {:induction false} PickAdmitted(ds: seq<real>, ok: seq<bool>, start: real, n: nat)
    requires |ok| == |ds| && n <= |ds|
    ensures var pick := Pick(ds, ok, start, n); pick.Some? ==> ok[pick.value]
  {
    if n > 0 {
      PickAdmitted(ds, ok, start, n - 1);
    }
  }

  /** With nothing admitted the search keeps its start value and picks nothing. */
  lemma {:induction false} NothingAdmitted(ds: seq<real>, ok: seq<bool>, start: real, n: nat)
    requires |ok| == |ds| && n <= |ds|
    requires forall j :: 0 <= j < n ==> !ok[j]
    ensures Pick(ds, ok, start, n) == None && RunningMin(ds, ok, start, n) == start
  {
    if n > 0 {
      NothingAdmitted(ds, ok, start, n - 1);
    }
  }

  /**
   * When every entry is the same value `c`, as in the pass search whose
   * candidate target never moves, the search picks the first admitted
   * entry, and picks nothing when `c` is not below the start value or
   * nothing is admitted.
   */
  lemma {:induction false} ConstantPickIsFirstAdmitted(ds: seq<real>, ok: seq<bool>, start: real, n: nat, c: real)
    requires |ok| == |ds| && n <= |ds|
    requires forall j :: 0 <= j < |ds| ==> ds[j] == c
    ensures var pick := Pick(ds, ok, start, n);
      (pick.None? <==> c >= start || forall j :: 0 <= j < n ==> !ok[j]) &&
      (pick.Some? ==> ok[pick.value] && forall j :: 0 <= j < pick.value ==> !ok[j])
    ensures RunningMin(ds, ok, start, n) == if exists j :: 0 <= j < n && ok[j] then Min(c, start) else start
  {
    if n > 0 {
      ConstantPickIsFirstAdmitted(ds, ok, start, n - 1, c);
      if !ok[n - 1] {
        assert (exists j :: 0 <= j < n && ok[j]) <==> exists j :: 0 <= j < n - 1 && ok[j];
      }
    }
  }

  /**
   * The shot search takes the first draw that would score, and finds
   * nothing exactly when none of the draws tried would.
   */
  lemma {:induction false} FirstShotIsFirst(from: Vector2D, force: real, goal: Goal, draws: seq<int>, n: nat,
                                            opps: seq<Mover>, ball: SoccerBall, prm: Params, g: Geometry)
    requires ball.mass != 0.0 && prm.friction != 0.0 && n <= |draws|
    ensures var k := FirstShot(from, force, goal, draws, n, opps, ball, prm, g);
      (k.None? <==> forall j :: 0 <= j < n ==> !ShotScores(from, ShotAt(goal, draws, j), force, opps, ball, prm, g)) &&
      (k.Some? ==>
        ShotScores(from, ShotAt(goal, draws, k.value), force, opps, ball, prm, g) &&
        forall j :: 0 <= j < k.value ==> !ShotScores(from, ShotAt(goal, draws, j), force, opps, ball, prm, g))
  {
    if n > 0 {
      FirstShotIsFirst(from, force, goal, draws, n - 1, opps, ball, prm, g);
    }
  }

  /**
   * An opponent that runs no faster and is no wider than another at the
   * same place is no more dangerous to a pass, as long as the ball can
   * reach the point level with it (when it cannot, the time is -1 and the
   * reach shrinks with speed instead).
   */
  lemma SlowerOpponentIsNoMoreDangerous(from: Vector2D, target: Vector2D, receiver: Option<Vector2D>, pos: Vector2D,
                                        slow: real, fast: real, small: real, wide: real,
                                        force: real, ball: SoccerBall, prm: Params, g: Geometry)
    requires ball.mass != 0.0 && prm.friction != 0.0
    requires slow <= fast && small <= wide
    ensures var along := g.Normalize(target.Minus(from));
      var local := g.toLocal(pos, along, along.Perp(), from);
      0.0 <= ball.TimeToCoverDistance(Zero, Vector2D(local.x, 0.0), force, prm, g) &&
      PassSafeFromOpponent(from, target, receiver, Mover(pos, fast, wide), force, ball, prm, g) ==>
      PassSafeFromOpponent(from, target, receiver, Mover(pos, slow, small), force, ball, prm, g)
  {
    var along := g.Normalize(target.Minus(from));
    var local := g.toLocal(pos, along, along.Perp(), from);
    var t := ball.TimeToCoverDistance(Zero, Vector2D(local.x, 0.0), force, prm, g);
    if 0.0 <= t {
      NonNegativeProduct(fast - slow, t);
      assert Reach(local.x, Mover(pos, slow, small), force, ball, prm, g) <= Reach(local.x, Mover(pos, fast, wide), force, ball, prm, g);
    }
  }

  /** The squared distance does not depend on the order of the points. */
  lemma DistanceSqSymmetric(a: Vector2D, b: Vector2D)
    ensures DistanceSq(a, b) == DistanceSq(b, a)
  {
    var d := b.Minus(a);
    assert a.Minus(b) == Vector2D(-d.x, -d.y);
    assert (-d.x) * (-d.x) == d.x * d.x && (-d.y) * (-d.y) == d.y * d.y;
  }

  /** An opponent farther from the passer than the target is not on the target. */
  lemma BeyondTargetIsOffTarget(from: Vector2D, target: Vector2D, o: Vector2D)
    requires DistanceSq(from, target) < DistanceSq(o, from)
    ensures DistanceSq(target, o) > DistanceSq(target, target)
  {
    DistanceSqSymmetric(from, target);
    assert o != target;
    assert o.Minus(target) != Zero;
    LengthSqPositive(o.Minus(target));
    LengthSqZero(target.Minus(target));
  }

  /**
   * A receiver standing on the target protects a pass exactly as much as
   * no receiver: an opponent farther from the passer than the target is
   * not on the target, so it is always farther from the target than that
   * receiver.
   */
  lemma ReceiverOnTargetIsNoReceiver(from: Vector2D, target: Vector2D, opps: seq<Mover>,
                                     force: real, ball: SoccerBall, prm: Params, g: Geometry)
    requires ball.mass != 0.0 && prm.friction != 0.0
    ensures AllSafe(from, target, Some(target), opps, force, ball, prm, g) <==> AllSafe(from, target, None, opps, force, ball, prm, g)
  {
    forall i | 0 <= i < |opps| && DistanceSq(from, target) < DistanceSq(opps[i].pos, from) {
      BeyondTargetIsOffTarget(from, target, opps[i].pos);
    }
  }

  /** A pass with no receiver is at least as safe as the same pass with one. */
  lemma NoReceiverIsNoLessSafe(from: Vector2D, target: Vector2D, r: Vector2D, opps: seq<Mover>,
                               force: real, ball: SoccerBall, prm: Params, g: Geometry)
    requires ball.mass != 0.0 && prm.friction != 0.0
    ensures AllSafe(from, target, Some(r), opps, force, ball, prm, g) ==> AllSafe(from, target, None, opps, force, ball, prm, g)
  {
  }

  /** Once a scoring draw is found, trying more draws does not change which one is first. */
  lemma {:induction false} FirstShotStable(from: Vector2D, force: real, goal: Goal, draws: seq<int>, m: nat, n: nat,
                                           opps: seq<Mover>, ball: SoccerBall, prm: Params, g: Geometry)
    requires ball.mass != 0.0 && prm.friction != 0.0 && m <= n <= |draws|
    requires FirstShot(from, force, goal, draws, m, opps, ball, prm, g).Some?
    ensures FirstShot(from, force, goal, draws, n, opps, ball, prm, g) == FirstShot(from, force, goal, draws, m, opps, ball, prm, g)
    decreases n
  {
    if n > m {
      FirstShotStable(from, force, goal, draws, m, n - 1, opps, ball, prm, g);
    }
  }

  class SoccerTeam {
    const color: TeamColor
    const homeGoal: Goal
    const opponentsGoal: Goal
    const pitch: SoccerPitch
    const ball: SoccerBall
    const spotCalc: SupportSpotCalculator
    var players: seq<PlayerBase>
    var opponents: SoccerTeam?
    var controlling: PlayerBase?
    var supporting: PlayerBase?
    var receiving: PlayerBase?
    var closestToBall: PlayerBase?
    var distSqToBallOfClosestPlayer: real
    // the team's state machine: the current and previous states, and no
    // global state
    var current: TeamState
    var previous: TeamState

    /**
     * A team defending, with no opponents linked yet, no player in any
     * special duty, and a fresh support spot grid.
     */
    constructor (homeGoal: Goal, opponentsGoal: Goal, pitch: SoccerPitch, color: TeamColor, prm: Params)
      ensures this.homeGoal == homeGoal && this.opponentsGoal == opponentsGoal
      ensures this.pitch == pitch && ball == pitch.ball && this.color == color
      ensures players == [] && opponents == null
      ensures controlling == null && supporting == null && receiving == null && closestToBall == null
      ensures distSqToBallOfClosestPlayer == 0.0
      ensures current == Defending && previous == Defending
      ensures fresh(spotCalc) && spotCalc.Valid() && spotCalc.best == None
      ensures spotCalc.spots == Grid(prm.numSupportSpotsX, prm.numSupportSpotsY, pitch.field.area, color)
    {
      this.homeGoal := homeGoal;
      this.opponentsGoal := opponentsGoal;
      opponents := null;
      this.pitch := pitch;
      ball := pitch.ball;
      this.color := color;
      distSqToBallOfClosestPlayer := 0.0;
      supporting := null;
      receiving := null;
      controlling := null;
      closestToBall := null;
      current := Defending;
      previous := Defending;
      players := [];
      spotCalc := new SupportSpotCalculator(prm.numSupportSpotsX, prm.numSupportSpotsY, pitch.field.area, color);
    }

    /** Adds a freshly created player at the end of the roster. */
    method AddPlayer(p: PlayerBase)
      modifies this`players
      ensures players == old(players) + [p]
    {
      players := players + [p];
    }

    method SetOpponents(opps: SoccerTeam)
      modifies this`opponents
      ensures opponents == opps
    {
      opponents := opps;
    }

    /**
     * Asks every player's steering to switch separation on, which switches
     * nothing on: the behaviour flags of every player stay as they were.
     */
    method SetDefaultSteering()
      ensures forall i :: 0 <= i < |players| ==> players[i].steering.flags == old(players[i].steering.flags)
    {
      for i := 0 to |players|
      {
        players[i].steering.SeparationOn();
      }
    }

    /**
     * Every draw lies between the heights it is drawn from: the posts'
     * heights moved in by the ball radius, each truncated to a whole number.
     */
    predicate DrawsBetweenPosts(draws: seq<int>, n: int)
      requires 0 <= n <= |draws|
    {
      forall k :: 0 <= k < n ==>
        Trunc(opponentsGoal.leftPost.y + ball.bRadius) <= draws[k] <= Trunc(opponentsGoal.rightPost.y - ball.bRadius)
    }

    function Members(): seq<PlayerBase> reads this { players }

    predicate InControl() reads this { controlling != null }

    method SetControllingPlayer(p: PlayerBase?)
      modifies this`controlling
      ensures controlling == p
    {
      controlling := p;
    }

    method SetSupportingPlayer(p: PlayerBase?)
      modifies this`supporting
      ensures supporting == p
    {
      supporting := p;
    }

    predicate IsControllingPlayer(p: PlayerBase) reads this { controlling == p }

    predicate IsClosestTeamMemberToBall(p: PlayerBase) reads this { closestToBall == p }

    /** The player is its team's closest to the ball and strictly closer than the opponents' closest. */
    predicate IsClosestPlayerOnPitchToBall(p: PlayerBase)
      requires opponents != null
      reads this, p, opponents
    {
      IsClosestTeamMemberToBall(p) && p.distSqToBall < opponents.distSqToBallOfClosestPlayer
    }

    function DistToOppGoal(p: PlayerBase): real reads p { p.DistToGoal(opponentsGoal.center) }

    function DistToHomeGoal(p: PlayerBase): real reads p { p.DistToGoal(homeGoal.center) }

    /** The player is strictly nearer the opponents' goal line than the controlling player. */
    predicate IsAheadOfAttacker(p: PlayerBase)
      requires controlling != null
      reads this, p, controlling
    {
      Abs(p.pos.x - opponentsGoal.center.x) < Abs(controlling.pos.x - opponentsGoal.center.x)
    }

    /**
     * The player is within a third of the playing area's length of the
     * opponents' goal centre, measured across the pitch.
     */
    predicate InHotRegion(p: PlayerBase)
      reads p
    {
      Abs(p.pos.y - opponentsGoal.center.y) < AreaLength(pitch.field.area) / 3.0
    }

    /**
     * Records every player's squared distance to the ball and elects the
     * closest: the first player strictly closer than everyone before it.
     * With no player closer than the largest double the previous choice is
     * kept.  The team's closest distance is the minimum found.
     */
    method CalculateClosestPlayerToBall()
      modifies (set p | p in players)`distSqToBall
      modifies this`closestToBall, this`distSqToBallOfClosestPlayer
      ensures forall i :: 0 <= i < |players| ==> players[i].distSqToBall == DistanceSq(players[i].pos, ball.pos)
      ensures var ds := old(Distances(players, ball.pos));
        var pick := Pick(ds, AllAdmitted(|ds|), MaxFloat, |ds|);
        distSqToBallOfClosestPlayer == RunningMin(ds, AllAdmitted(|ds|), MaxFloat, |ds|) &&
        closestToBall == (if pick.Some? then players[pick.value] else old(closestToBall))
    {
      ghost var ds := Distances(players, ball.pos);
      ghost var ok := AllAdmitted(|ds|);
      var ps, at := players, ball.pos;
      var closestSoFar := MaxFloat;
      var i := 0;
      while i < |ps|
        invariant 0 <= i <= |ps|
        invariant forall j :: 0 <= j < i ==> ps[j].distSqToBall == ds[j]
        invariant closestSoFar == RunningMin(ds, ok, MaxFloat, i)
        invariant var pick := Pick(ds, ok, MaxFloat, i);
          closestToBall == (if pick.Some? then ps[pick.value] else old(closestToBall))
      {
        closestSoFar := ClosestStep(ps[i], at, closestSoFar);
        i := i + 1;
      }
      distSqToBallOfClosestPlayer := closestSoFar;
    }

    /**
     * One turn of CalculateClosestPlayerToBall: `p`'s squared distance to
     * the ball is recorded, and `p` becomes the closest player when it is
     * strictly closer than the closest so far.
     */
    method ClosestStep(p: PlayerBase, at: Vector2D, closestSoFar: real) returns (closest: real)
      modifies p`distSqToBall, this`closestToBall
      ensures p.distSqToBall == DistanceSq(p.pos, at)
      ensures DistanceSq(p.pos, at) < closestSoFar ==> closest == DistanceSq(p.pos, at) && closestToBall == p
      ensures !(DistanceSq(p.pos, at) < closestSoFar) ==> closest == closestSoFar && closestToBall == old(closestToBall)
    {
      var dist := DistanceSq(p.pos, at);
      p.SetDistSqToBall(dist);
      closest := closestSoFar;
      if dist < closestSoFar {
        closest := dist;
        closestToBall := p;
      }
    }

    /** The position of the controlling player, or the origin when there is none. */
    function ControllerPos(): Vector2D
      reads this, controlling
    {
      if controlling != null then controlling.pos else Zero
    }

    /**
     * Whether the inputs of the support spot calculator are in place: a
     * best spot is remembered, or else there are spots and a controlling
     * player to score them from.
     */
    ghost predicate SpotsComputable(prm: Params)
      reads this`opponents, this`controlling, spotCalc
    {
      spotCalc.Valid() && ball.mass != 0.0 && prm.friction != 0.0 &&
      opponents != null && SpotWeightsNonNegative(prm) &&
      (spotCalc.best.None? ==> |spotCalc.spots| > 0 && controlling != null)
    }

    /** The spot calculator's pass test: a pass from the controlling player to the spot, with no receiver. */
    function PassTest(prm: Params, g: Geometry): Vector2D -> bool
      requires opponents != null && ball.mass != 0.0 && prm.friction != 0.0
      reads this, controlling, opponents, set p | p in opponents.players
    {
      PassSafety(ControllerPos(), Snapshot(opponents.players), prm.maxPassingForce, ball, prm, g)
    }

    /** The spot calculator's shooting test, with the shooting force and the given draws. */
    function ShootTest(draws: seq<int>, prm: Params, g: Geometry): Vector2D -> bool
      requires opponents != null && ball.mass != 0.0 && prm.friction != 0.0
      requires prm.StrikeAttempts() <= |draws|
      reads this, opponents, set p | p in opponents.players
    {
      ShotSafety(prm.maxShootingForce, opponentsGoal, draws, prm.StrikeAttempts(), Snapshot(opponents.players), ball, prm, g)
    }

    /** The score the spot calculator gives a spot now. */
    function SpotScoreNow(pos: Vector2D, draws: seq<int>, prm: Params, g: Geometry): real
      requires opponents != null && ball.mass != 0.0 && prm.friction != 0.0
      requires prm.StrikeAttempts() <= |draws|
      reads this, controlling, opponents, set p | p in opponents.players
    {
      SpotScore(pos, PassTest(prm, g), ShootTest(draws, prm, g), supporting != null, ControllerPos(), prm, g)
    }

    /** The score the spot calculator gives the first of `spots0` now (nothing when there is none). */
    function FirstSpotScore(spots0: seq<SupportSpot>, draws: seq<int>, prm: Params, g: Geometry): real
      requires opponents != null && ball.mass != 0.0 && prm.friction != 0.0
      requires prm.StrikeAttempts() <= |draws|
      reads this, controlling, opponents, set p | p in opponents.players
    {
      if |spots0| > 0 then SpotScoreNow(spots0[0].pos, draws, prm, g) else 0.0
    }

    /**
     * The best supporting spot, scored when there is none yet: a spot
     * scores for a safe pass from the controlling player, for a shot from
     * it (tried with the given draws), and for its distance from the
     * controlling player when the team has a supporting player.
     */
    method GetSupportSpot(ready: bool, draws: seq<int>, prm: Params, g: Geometry) returns (spot: Vector2D)
      requires SpotsComputable(prm) && prm.StrikeAttempts() <= |draws|
      modifies spotCalc
      ensures SpotsComputable(prm) && spotCalc.best.Some? && spot == spotCalc.spots[spotCalc.best.value].pos
      ensures SpotQueried(old(spotCalc.spots), old(spotCalc.best), spotCalc.spots, spotCalc.best,
                    FirstSpotScore(old(spotCalc.spots), draws, prm, g))
    {
      var passSafe := PassTest(prm, g);
      var canShoot := ShootTest(draws, prm, g);
      if spotCalc.best.None? {
        ScoreAtLeastOne(spotCalc.spots[0].pos, passSafe, canShoot, supporting != null, ControllerPos(), prm, g);
      }
      spot := spotCalc.GetBestSupportingSpot(ready, passSafe, canShoot, supporting != null, ControllerPos(), prm, g);
    }

    /**
     * Where the spot calculator stands while the supporting attacker is
     * sought: untouched from `spots0` and `best0` until the first query,
     * and after it holding the queried spot, which is `spot`.
     */
    predicate QueryState(called: bool, spots0: seq<SupportSpot>, best0: Option<nat>, score0: real, spot: Vector2D)
      reads spotCalc
    {
      (!called ==> spotCalc.spots == spots0 && spotCalc.best == best0) &&
      (called ==>
        SpotQueried(spots0, best0, spotCalc.spots, spotCalc.best, score0) &&
        spotCalc.best.value < |spotCalc.spots| && spot == spotCalc.spots[spotCalc.best.value].pos)
    }

    /**
     * Asks for the best supporting spot again: the first query settles the
     * spot, later ones return it and leave the calculator as it was.
     */
    method RequerySpot(ready: bool, draws: seq<int>, prm: Params, g: Geometry, ghost spots0: seq<SupportSpot>,
                       ghost best0: Option<nat>, ghost score0: real, ghost called: bool, spot: Vector2D)
      returns (s: Vector2D)
      requires SpotsComputable(prm) && prm.StrikeAttempts() <= |draws|
      requires score0 == FirstSpotScore(spots0, draws, prm, g)
      requires QueryState(called, spots0, best0, score0, spot)
      modifies spotCalc
      ensures SpotsComputable(prm) && QueryState(true, spots0, best0, score0, s)
      ensures called ==> s == spot
    {
      s := GetSupportSpot(ready, draws, prm, g);
    }

    /**
     * The attacker, other than the controlling player, nearest the best
     * supporting spot: the first one strictly nearer than everyone before
     * it, or none when no attacker is eligible.  The spot is asked for
     * only once an eligible attacker turns up, so with none the spot
     * calculator is left alone.
     */
    method DetermineBestSupportingAttacker(ready: bool, draws: seq<int>, prm: Params, g: Geometry)
      returns (best: PlayerBase?)
      requires SpotsComputable(prm) && prm.StrikeAttempts() <= |draws|
      modifies spotCalc
      ensures SpotsComputable(prm)
      ensures var ok := SupportEligible(players, controlling);
        (forall i :: 0 <= i < |players| ==> !ok[i]) ==>
          best == null && spotCalc.spots == old(spotCalc.spots) && spotCalc.best == old(spotCalc.best)
      ensures var ok := SupportEligible(players, controlling);
        (exists i :: 0 <= i < |players| && ok[i]) ==>
          SpotQueried(old(spotCalc.spots), old(spotCalc.best), spotCalc.spots, spotCalc.best,
                    FirstSpotScore(old(spotCalc.spots), draws, prm, g)) &&
          var pick := Pick(Distances(players, spotCalc.spots[spotCalc.best.value].pos), ok, MaxFloat, |players|);
          best == (if pick.Some? then players[pick.value] else null)
      ensures best != null ==> best in players && best.role == Attacker && best != controlling
    {
      ghost var spots0, best0 := spotCalc.spots, spotCalc.best;
      ghost var score0 := FirstSpotScore(spots0, draws, prm, g);
      ghost var chosen := if best0.Some? then spots0[best0.value].pos else spots0[0].pos;
      ghost var ds, ok := Distances(players, chosen), SupportEligible(players, controlling);
      ghost var called;
      best, called := SearchSupporter(ready, draws, prm, g, spots0, best0, score0, chosen, ds, ok);
      if !called {
        NothingAdmitted(ds, ok, MaxFloat, |ds|);
      }
      PickAdmitted(ds, ok, MaxFloat, |ds|);
    }

    /**
     * The loop of the search for the supporting attacker: every eligible
     * attacker asks for the supporting spot (the first query settles it as
     * `chosen`) and is measured against it.
     */
    method SearchSupporter(ready: bool, draws: seq<int>, prm: Params, g: Geometry, ghost spots0: seq<SupportSpot>,
                           ghost best0: Option<nat>, ghost score0: real, ghost chosen: Vector2D,
                           ghost ds: seq<real>, ghost ok: seq<bool>)
      returns (best: PlayerBase?, ghost called: bool)
      requires SpotsComputable(prm) && prm.StrikeAttempts() <= |draws|
      requires score0 == FirstSpotScore(spots0, draws, prm, g) && QueryState(false, spots0, best0, score0, Zero)
      requires chosen == if best0.Some? then spots0[best0.value].pos else spots0[0].pos
      requires |ds| == |ok| == |players|
      requires forall j :: 0 <= j < |players| ==> ds[j] == DistanceSq(players[j].pos, chosen)
      requires forall j :: 0 <= j < |players| ==> (ok[j] <==> players[j].role == Attacker && players[j] != controlling)
      modifies spotCalc
      ensures SpotsComputable(prm) && QueryState(called, spots0, best0, score0, chosen)
      ensures !called ==> forall j :: 0 <= j < |ok| ==> !ok[j]
      ensures called ==> exists j :: 0 <= j < |ok| && ok[j]
      ensures var pick := Pick(ds, ok, MaxFloat, |ds|); best == (if pick.Some? then players[pick.value] else null)
    {
      var ps, controller := players, controlling;
      called := false;
      ghost var first := 0;
      var spot := Zero;
      var closestSoFar := MaxFloat;
      best := null;
      var i := 0;
      while i < |ps|
        invariant 0 <= i <= |ps|
        invariant SpotsComputable(prm)
        invariant !called ==> forall j :: 0 <= j < i ==> !ok[j]
        invariant called ==> first < i && ok[first]
        invariant QueryState(called, spots0, best0, score0, spot)
        invariant called ==> spot == chosen
        invariant closestSoFar == RunningMin(ds, ok, MaxFloat, i)
        invariant var pick := Pick(ds, ok, MaxFloat, i);
          best == (if pick.Some? then ps[pick.value] else null)
      {
        var p := ps[i];
        if p.role == Attacker && p != controller {
          spot := RequerySpot(ready, draws, prm, g, spots0, best0, score0, called, spot);
          called, first := true, i;
          var dist := DistanceSq(p.pos, spot);
          assert ok[i] && dist == ds[i];
          if dist < closestSoFar {
            closestSoFar := dist;
            best := p;
          }
        } else {
          assert !ok[i];
        }
        i := i + 1;
      }
    }

    /**
     * Scans the opponents for one that could intercept the pass; the pass
     * is safe when none can.
     */
    method IsPassSafeFromAllOpponents(from: Vector2D, target: Vector2D, receiver: PlayerBase?, force: real,
                                      prm: Params, g: Geometry) returns (safe: bool)
      requires opponents != null && ball.mass != 0.0 && prm.friction != 0.0
      ensures safe == AllSafe(from, target, PosOf(receiver), Snapshot(opponents.players), force, ball, prm, g)
    {
      var opps := opponents.players;
      var i := 0;
      while i < |opps|
        invariant 0 <= i <= |opps|
        invariant forall j :: 0 <= j < i ==>
          PassSafeFromOpponent(from, target, PosOf(receiver), Snapshot(opps)[j], force, ball, prm, g)
      {
        if !PassSafeFromOpponent(from, target, PosOf(receiver), Mover(opps[i].pos, opps[i].maxSpeed, opps[i].bRadius), force, ball, prm, g) {
          return false;
        }
        i := i + 1;
      }
      return true;
    }

    /**
     * Tries up to the configured number of random shots at the opponents'
     * goal, each aimed at the goal centre's x and at a drawn whole height
     * between the posts (the posts' heights moved in by the ball radius
     * and truncated); reports the first shot that reaches the goal line and
     * is safe from every opponent.  The shot target holds the last target
     * tried, or its old value when there were no attempts.
     */
    method CanShoot(from: Vector2D, force: real, shotTarget0: Vector2D, draws: seq<int>, prm: Params, g: Geometry)
      returns (can: bool, shotTarget: Vector2D)
      requires opponents != null && ball.mass != 0.0 && prm.friction != 0.0
      // one draw for every attempt; a negative count wraps round the 32-bit counter
      requires prm.StrikeAttempts() <= |draws|
      // every draw lies between the heights it is drawn from
      requires DrawsBetweenPosts(draws, prm.StrikeAttempts())
      ensures var first := FirstShot(from, force, opponentsGoal, draws, prm.StrikeAttempts(), Snapshot(opponents.players), ball, prm, g);
        can == first.Some? &&
        (can ==> shotTarget == ShotAt(opponentsGoal, draws, first.value))
      ensures !can && prm.StrikeAttempts() == 0 ==> shotTarget == shotTarget0
      ensures !can && prm.StrikeAttempts() > 0 ==>
        shotTarget == ShotAt(opponentsGoal, draws, prm.StrikeAttempts() - 1)
    {
      ghost var opps := Snapshot(opponents.players);
      var n := prm.StrikeAttempts();
      shotTarget := shotTarget0;
      var k := 0;
      while k < n
        invariant 0 <= k <= n
        invariant FirstShot(from, force, opponentsGoal, draws, k, opps, ball, prm, g).None?
        invariant k == 0 ==> shotTarget == shotTarget0
        invariant k > 0 ==> shotTarget == ShotAt(opponentsGoal, draws, k - 1)
      {
        shotTarget := opponentsGoal.center;
        shotTarget := shotTarget.(y := draws[k] as real);
        assert shotTarget == ShotAt(opponentsGoal, draws, k);
        var time := ball.TimeToCoverDistance(from, shotTarget, force, prm, g);
        if time >= 0.0 {
          var safe := IsPassSafeFromAllOpponents(from, shotTarget, null, force, prm, g);
          if safe {
            assert ShotScores(from, shotTarget, force, opps, ball, prm, g);
            FirstShotStable(from, force, opponentsGoal, draws, k + 1, n, opps, ball, prm, g);
            return true, shotTarget;
          }
        }
        k := k + 1;
      }
      return false, shotTarget;
    }

    /**
     * Looks for a teammate to pass to: anyone but the passer who is farther
     * away than the minimum passing distance.  The candidate target is
     * never moved off the origin, so every candidate is as far from the
     * goal line as every other, and the first eligible teammate is chosen
     * (unless that distance is not below the largest double).  With no
     * choice made the receiver and target passed in are kept.
     */
    method FindPass(passer: PlayerBase, receiver0: PlayerBase?, passTarget0: Vector2D, power: real, minPassingDistance: real)
      returns (found: bool, receiver: PlayerBase?, passTarget: Vector2D)
      ensures var pick := Pick(OriginDistances(|players|, opponentsGoal), PassEligible(players, passer, minPassingDistance), MaxFloat, |players|);
        receiver == (if pick.Some? then players[pick.value] else receiver0) &&
        passTarget == (if pick.Some? then Zero else passTarget0)
      ensures found <==> receiver != null
      ensures receiver != receiver0 ==>
        receiver != null && receiver in players && receiver != passer &&
        DistanceSq(passer.pos, receiver.pos) > minPassingDistance * minPassingDistance
    {
      ghost var ds := OriginDistances(|players|, opponentsGoal);
      ghost var ok := PassEligible(players, passer, minPassingDistance);
      receiver, passTarget := receiver0, passTarget0;
      var closestToGoalSoFar := MaxFloat;
      var target := Zero;
      var i := 0;
      while i < |players|
        invariant 0 <= i <= |players|
        invariant closestToGoalSoFar == RunningMin(ds, ok, MaxFloat, i)
        invariant var pick := Pick(ds, ok, MaxFloat, i);
          receiver == (if pick.Some? then players[pick.value] else receiver0) &&
          passTarget == (if pick.Some? then Zero else passTarget0)
      {
        if players[i] != passer && DistanceSq(passer.pos, players[i].pos) > minPassingDistance * minPassingDistance {
          var dist2Goal := Abs(target.x - opponentsGoal.center.x);
          if dist2Goal < closestToGoalSoFar {
            closestToGoalSoFar := dist2Goal;
            receiver := players[i];
            passTarget := target;
          }
        }
        i := i + 1;
      }
      PickAdmitted(ds, ok, MaxFloat, |ds|);
      found := receiver != null;
    }

    /**
     * The best of three passes to `receiver`: straight at it and at the two
     * points where the tangents from the ball touch the circle the receiver
     * can cover meanwhile (three tenths of what it runs in the time the ball
     * needs).  A pass qualifies when it ends inside the playing area and is
     * safe from every opponent; of those, the one nearest the opponents'
     * goal line wins, the first on ties.  Nothing qualifies when the ball
     * cannot reach the receiver.
     */
    method GetBestPassToReceiver(receiver: PlayerBase, passTarget0: Vector2D, power: real, prm: Params, g: Geometry)
      returns (ok: bool, passTarget: Vector2D)
      requires opponents != null && ball.mass != 0.0 && prm.friction != 0.0
      ensures var time := ball.TimeToCoverDistance(ball.pos, receiver.pos, power, prm, g);
        var passes := PassCandidates(receiver.pos, receiver.maxSpeed, time, ball.pos, g);
        var pick := Pick(GoalLineDistances(passes, opponentsGoal),
                         PassValid(passes, ball.pos, receiver.pos, Snapshot(opponents.players), power, ball, pitch.field, prm, g), MaxFloat, 3);
        if time < 0.0 then !ok && passTarget == passTarget0
        else ok == pick.Some? && passTarget == (if pick.Some? then passes[pick.value] else passTarget0)
      ensures ok ==>
        pitch.field.insidePlayingArea(passTarget) &&
        AllSafe(ball.pos, passTarget, Some(receiver.pos), Snapshot(opponents.players), power, ball, prm, g)
    {
      var time := ball.TimeToCoverDistance(ball.pos, receiver.pos, power, prm, g);
      if time < 0.0 {
        return false, passTarget0;
      }
      var passes := PassCandidates(receiver.pos, receiver.maxSpeed, time, ball.pos, g);
      ghost var ds := GoalLineDistances(passes, opponentsGoal);
      ghost var valid := PassValid(passes, ball.pos, receiver.pos, Snapshot(opponents.players), power, ball, pitch.field, prm, g);
      var closestSoFar := MaxFloat;
      ok, passTarget := false, passTarget0;
      var pass := 0;
      while pass < 3
        invariant 0 <= pass <= 3
        invariant closestSoFar == RunningMin(ds, valid, MaxFloat, pass)
        invariant var pick := Pick(ds, valid, MaxFloat, pass);
          ok == pick.Some? && passTarget == (if pick.Some? then passes[pick.value] else passTarget0)
      {
        var dist := Abs(passes[pass].x - opponentsGoal.center.x);
        if dist < closestSoFar && pitch.field.insidePlayingArea(passes[pass]) {
          var safe := IsPassSafeFromAllOpponents(ball.pos, passes[pass], receiver, power, prm, g);
          if safe {
            closestSoFar := dist;
            passTarget := passes[pass];
            ok := true;
          }
        }
        pass := pass + 1;
      }
      PickAdmitted(ds, valid, MaxFloat, 3);
    }

    /** The first player with the given ID, or none. */
    method GetPlayerFromID(id: int) returns (p: PlayerBase?)
      ensures p == null <==> forall i :: 0 <= i < |players| ==> players[i].id != id
      ensures p != null ==> exists i :: 0 <= i < |players| && players[i] == p && p.id == id &&
                                         (forall j :: 0 <= j < i ==> players[j].id != id)
    {
      var i := 0;
      while i < |players|
        invariant 0 <= i <= |players|
        invariant forall j :: 0 <= j < i ==> players[j].id != id
      {
        if players[i].id == id {
          return players[i];
        }
        i := i + 1;
      }
      return null;
    }

    /** Moves the `plyr`-th player's home region. */
    method SetPlayerHomeRegion(plyr: int, region: int)
      requires 0 <= plyr < |players|
      modifies (set p | p in players)`homeRegion
      ensures players[plyr].homeRegion == region
      ensures forall p :: p in players && p != players[plyr] ==> p.homeRegion == old(p.homeRegion)
    {
      players[plyr].SetHomeRegion(region);
    }

    /**
     * Aims every field player that is waiting or returning home at the
     * centre of its home region; everybody else keeps its target.
     */
    method UpdateTargetsOfWaitingPlayers()
      requires Distinct(Steerings(players))
      modifies (set p | p in players :: p.steering)`target
      ensures forall i :: 0 <= i < |players| ==>
        players[i].steering.target ==
          if players[i].role != GoalKeeper && players[i].current in {Some(Wait), Some(ReturnToHomeRegion)}
          then pitch.field.regionCenter(players[i].homeRegion)
          else old(players[i].steering.target)
    {
      var i := 0;
      while i < |players|
        invariant 0 <= i <= |players|
        invariant forall j :: 0 <= j < |players| ==>
          players[j].steering.target ==
            if j < i && players[j].role != GoalKeeper && players[j].current in {Some(Wait), Some(ReturnToHomeRegion)}
            then pitch.field.regionCenter(players[j].homeRegion)
            else old(players[j].steering.target)
      {
        var p := players[i];
        if p.role != GoalKeeper {
          if p.current == Some(Wait) || p.current == Some(ReturnToHomeRegion) {
            p.steering.SetTarget(pitch.field.regionCenter(p.homeRegion));
            assert Steerings(players)[i] == p.steering;
          }
        }
        i := i + 1;
      }
    }

    /** Whether every player is inside its home region. */
    method AllPlayersAtHome() returns (atHome: bool)
      ensures atHome <==> forall i :: 0 <= i < |players| ==> players[i].InHomeRegion(pitch.field)
    {
      var i := 0;
      while i < |players|
        invariant 0 <= i <= |players|
        invariant forall j :: 0 <= j < i ==> players[j].InHomeRegion(pitch.field)
      {
        if !players[i].InHomeRegion(pitch.field) {
          return false;
        }
        i := i + 1;
      }
      return true;
    }

    /** Whether some opponent stands strictly within `rad` of `pos`. */
    method IsOpponentWithinRadius(pos: Vector2D, rad: real) returns (within: bool)
      requires opponents != null
      ensures within <==> exists i :: 0 <= i < |opponents.players| && DistanceSq(pos, opponents.players[i].pos) < rad * rad
    {
      var opps := opponents.players;
      var i := 0;
      while i < |opps|
        invariant 0 <= i <= |opps|
        invariant forall j :: 0 <= j < i ==> !(DistanceSq(pos, opps[j].pos) < rad * rad)
      {
        if DistanceSq(pos, opps[i].pos) < rad * rad {
          return true;
        }
        i := i + 1;
      }
      return false;
    }
  }

  /** The longer side of an area. */
  function AreaLength(r: Rect): real { Max(r.width, r.height) }

  /** The steering objects of the players, in roster order. */
  function Steerings(ps: seq<PlayerBase>): (ss: seq<SteeringBehaviors>)
    ensures |ss| == |ps| && forall i :: 0 <= i < |ps| ==> ss[i] == ps[i].steering
  {
    seq(|ps|, i requires 0 <= i < |ps| => ps[i].steering)
  }

  /** The spot weights are all non-negative, so every spot scores at least one. */
  predicate SpotWeightsNonNegative(prm: Params)
  {
    0.0 <= prm.spotPassSafeScore && 0.0 <= prm.spotCanScoreFromPositionScore &&
    0.0 <= prm.spotDistFromControllingPlayerScore
  }

  /** The pass-safety test the spot calculator applies: a pass from `from` to the spot, with no receiver. */
  function PassSafety(from: Vector2D, opps: seq<Mover>, force: real, ball: SoccerBall, prm: Params, g: Geometry): Vector2D -> bool
    requires ball.mass != 0.0 && prm.friction != 0.0
  {
    p => AllSafe(from, p, None, opps, force, ball, prm, g)
  }

  /** The shooting test the spot calculator applies: some of the first `n` draws gives a scoring shot from the spot. */
  function ShotSafety(force: real, goal: Goal, draws: seq<int>, n: nat, opps: seq<Mover>,
                      ball: SoccerBall, prm: Params, g: Geometry): Vector2D -> bool
    requires ball.mass != 0.0 && prm.friction != 0.0 && n <= |draws|
  {
    p => FirstShot(p, force, goal, draws, n, opps, ball, prm, g).Some?
  }

  /** The three candidate passes to a receiver: the two tangent points around it and the receiver itself. */
  function PassCandidates(receiverPos: Vector2D, receiverMaxSpeed: real, time: real, ballPos: Vector2D, g: Geometry): (passes: seq<Vector2D>)
    ensures |passes| == 3 && passes[1] == receiverPos
  {
    var interceptRange := time * receiverMaxSpeed * 0.3;
    var ips := g.tangentPoints(receiverPos, interceptRange, ballPos);
    [ips.0, receiverPos, ips.1]
  }

  function GoalLineDistances(passes: seq<Vector2D>, goal: Goal): (ds: seq<real>)
    ensures |ds| == |passes| && forall i :: 0 <= i < |passes| ==> ds[i] == Abs(passes[i].x - goal.center.x)
  {
    seq(|passes|, i requires 0 <= i < |passes| => Abs(passes[i].x - goal.center.x))
  }

  /** Which passes end inside the playing area and are safe from every opponent. */
  function PassValid(passes: seq<Vector2D>, from: Vector2D, receiverPos: Vector2D, opps: seq<Mover>, force: real,
                     ball: SoccerBall, field: Field, prm: Params, g: Geometry): (ok: seq<bool>)
    requires ball.mass != 0.0 && prm.friction != 0.0
    ensures |ok| == |passes|
    ensures forall i :: 0 <= i < |passes| ==>
      (ok[i] <==> field.insidePlayingArea(passes[i]) && AllSafe(from, passes[i], Some(receiverPos), opps, force, ball, prm, g))
  {
    seq(|passes|, i requires 0 <= i < |passes| =>
      field.insidePlayingArea(passes[i]) && AllSafe(from, passes[i], Some(receiverPos), opps, force, ball, prm, g))
  }
}

// The simulation's process-wide tuning parameters.  They are read once at
// start-up and never change, so the model treats them as one immutable
// record handed to whatever needs it.
module Params {

  datatype Params = Params(
    ballSize: real,
    friction: real,
    keeperInBallRange: real,
    keeperInBallRangeSq: real,
    playerInTargetRange: real,
    playerInTargetRangeSq: real,
    playerMaxSpeedWithBall: real,
    playerMaxSpeedWithoutBall: real,
    playerMaxTurnRate: real,
    playerComfortZone: real,
    playerComfortZoneSq: real,
    // the kicking distance itself is never read from the parameter file, so
    // its square is taken as given
    playerKickingDistanceSq: real,
    maxShootingForce: real,
    maxPassingForce: real,
    numAttemptsToFindValidStrike: int,
    minPassDist: real,
    goalKeeperMinPassDist: real,
    goalKeeperTendingDistance: real,
    goalKeeperInterceptRange: real,
    goalKeeperInterceptRangeSq: real,
    ballWithinReceivingRange: real,
    ballWithinReceivingRangeSq: real,
    spotPassSafeScore: real,
    spotCanScoreFromPositionScore: real,
    spotDistFromControllingPlayerScore: real,
    numSupportSpotsX: int,
    numSupportSpotsY: int,
    separationCoefficient: real,
    viewDistance: real,
    nonPenetrationConstraint: bool)
  {
    /**
     * The number of shots the shot search tries.  It counts down a 32-bit
     * int until it reaches zero, so a negative count wraps round and the
     * search tries 2^32 plus that count.
     */
    function StrikeAttempts(): nat
    {
      numAttemptsToFindValidStrike % 0x1_0000_0000
    }

    /** The squared parameters are the squares of the ones they derive from. */
    predicate Valid()
    {
      keeperInBallRangeSq == keeperInBallRange * keeperInBallRange &&
      playerInTargetRangeSq == playerInTargetRange * playerInTargetRange &&
      playerComfortZoneSq == playerComfortZone * playerComfortZone &&
      goalKeeperInterceptRangeSq == goalKeeperInterceptRange * goalKeeperInterceptRange &&
      ballWithinReceivingRangeSq == ballWithinReceivingRange * ballWithinReceivingRange
    }
  }

  /**
   * A count within the range of a 32-bit int gives as many attempts as it
   * says when it is not negative, and 2^32 plus it when it is.
   */
  lemma StrikeAttemptsCounted(prm: Params)
    requires -0x8000_0000 <= prm.numAttemptsToFindValidStrike < 0x8000_0000
    ensures prm.numAttemptsToFindValidStrike >= 0 ==> prm.StrikeAttempts() == prm.numAttemptsToFindValidStrike
    ensures prm.numAttemptsToFindValidStrike < 0 ==> prm.StrikeAttempts() == prm.numAttemptsToFindValidStrike + 0x1_0000_0000
  {
  }
}

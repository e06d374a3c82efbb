/**
 * The decision arithmetic of the position monitor (Monitor/options.py):
 * the adaptive stop-loss factor, the nearing-strike test, the ratcheting
 * profit lock with its hit counter, and the 55% premium-ratio rule that
 * chooses which short leg to roll. Everything here is pure; the class in
 * module Monitor applies it to an account's state.
 */
module Risk {

  /** `base_factor`: the further away the expiry, the wider the stop. */
  function BaseFactor(dte: int): (f: real)
    ensures dte > 20 ==> f == 1.5
    ensures 15 < dte <= 20 ==> f == 1.4
    ensures 10 < dte <= 15 ==> f == 1.3
    ensures 5 < dte <= 10 ==> f == 1.2
    ensures dte <= 5 ==> f == 1.0
  {
    if dte > 20 then 1.5
    else if 15 < dte <= 20 then 1.4
    else if 10 < dte <= 15 then 1.3
    else if 5 < dte <= 10 then 1.2
    else 1.0
  }

  /** `vix_factor`: the higher the volatility index, the wider the stop. */
  function VixFactor(vix: real): (f: real)
    ensures vix < 10.0 ==> f == 0.8
    ensures 10.0 <= vix < 12.0 ==> f == 0.9
    ensures 12.0 <= vix < 15.0 ==> f == 1.0
    ensures 15.0 <= vix < 18.0 ==> f == 1.2
    ensures 18.0 <= vix < 22.0 ==> f == 1.5
    ensures vix >= 22.0 ==> f == 2.0
  {
    if vix < 10.0 then 0.8
    else if 10.0 <= vix < 12.0 then 0.9
    else if 12.0 <= vix < 15.0 then 1.0
    else if 15.0 <= vix < 18.0 then 1.2
    else if 18.0 <= vix < 22.0 then 1.5
    else 2.0
  }

  /** The DTE ladder lies between 1.0 and 1.5 and never falls as the expiry moves away. */
  lemma BaseFactorLadder(d1: int, d2: int)
    requires d1 <= d2
    ensures 1.0 <= BaseFactor(d1) <= BaseFactor(d2) <= 1.5
  {
  }

  /** The VIX ladder lies between 0.8 and 2.0 and never falls as the VIX rises. */
  lemma VixFactorLadder(v1: real, v2: real)
    requires v1 <= v2
    ensures 0.8 <= VixFactor(v1) <= VixFactor(v2) <= 2.0
  {
  }

  /** The VIX used when the quote fails. */
  const DefaultVix: real := 12.0

  /** `sl_factor = 1 + (base_factor - 1) * vix_factor`. */
  function SlFactor(dte: int, vix: real): (f: real)
    ensures f >= 1.0
  {
    1.0 + (BaseFactor(dte) - 1.0) * VixFactor(vix)
  }

  /** A later expiry never narrows the stop. */
  lemma SlFactorMonotoneInDte(d1: int, d2: int, vix: real)
    requires d1 <= d2
    ensures SlFactor(d1, vix) <= SlFactor(d2, vix)
  {
    assert BaseFactor(d1) <= BaseFactor(d2);
  }

  /** A higher VIX never narrows the stop. */
  lemma SlFactorMonotoneInVix(dte: int, v1: real, v2: real)
    requires v1 <= v2
    ensures SlFactor(dte, v1) <= SlFactor(dte, v2)
  {
    assert VixFactor(v1) <= VixFactor(v2);
    assert BaseFactor(dte) - 1.0 >= 0.0;
  }

  /** Within five days of expiry the stop sits at the collected premium itself. */
  lemma SlFactorNearExpiry(dte: int, vix: real)
    requires dte <= 5
    ensures SlFactor(dte, vix) == 1.0
  {
  }

  /** More than twenty days out with a calm market: 1 + 0.5 * 0.8. */
  lemma SlFactorFarCalm(dte: int, vix: real)
    requires dte > 20 && vix < 10.0
    ensures SlFactor(dte, vix) == 1.4
  {
  }

  /** `stop_loss_hit`: the premium now marked has reached the scaled premium collected. */
  predicate StopLossHit(collected: real, earned: real, slFactor: real) {
    earned >= collected * slFactor
  }

  lemma StopLossExample()
    ensures StopLossHit(200.0, 290.0, SlFactor(25, 9.0))
    ensures !StopLossHit(200.0, 270.0, SlFactor(25, 9.0))
  {
    SlFactorFarCalm(25, 9.0);
  }

  /** `nearing_strike`: the index is within 200 points of a short strike, or past it. */
  predicate NearingStrike(spot: real, shortPutStrike: int, shortCallStrike: int) {
    spot <= (shortPutStrike + 200) as real || spot >= (shortCallStrike - 200) as real
  }

  /** The index level assumed when the quote fails: midway between the short strikes. */
  function DefaultSpot(shortPutStrike: int, shortCallStrike: int): (spot: real)
    ensures shortPutStrike <= shortCallStrike ==> shortPutStrike as real <= spot <= shortCallStrike as real
    ensures spot - shortPutStrike as real == shortCallStrike as real - spot
  {
    (shortPutStrike + shortCallStrike) as real / 2.0
  }

  /** With the fallback spot, the test fires exactly when the short strikes are at most 400 points apart. */
  lemma DefaultSpotNearing(shortPutStrike: int, shortCallStrike: int)
    ensures NearingStrike(DefaultSpot(shortPutStrike, shortCallStrike), shortPutStrike, shortCallStrike)
        <==> shortCallStrike - shortPutStrike <= 400
  {
  }

  // ---------------------------------------------------------------------
  // Trailing profit
  // ---------------------------------------------------------------------

  /** The state `trail_profit` changes, and whether it stopped with an exception. */
  datatype TrailState = TrailState(lockProfit: real, hitCount: int, raised: bool)

  /**
   * One `trail_profit` step. The hit counter goes up when the profit has fallen
   * back to a positive lock; past the threshold the four legs are decoded for a
   * close whose orders are commented out in the source, and a leg that cannot
   * be decoded raises before the lock is looked at. Otherwise the lock ratchets
   * up to `pnl - trail` once the profit clears it by `trail + 500`.
   */
  function Trail(lock: real, count: int, pnl: real, trail: real, threshold: int, legsDecode: bool): (r: TrailState)
    ensures r.hitCount == (if pnl <= lock && lock > 0.0 then count + 1 else count)
    ensures r.raised <==> pnl <= lock && lock > 0.0 && count + 1 > threshold && !legsDecode
    ensures !r.raised && pnl >= lock + trail + 500.0 ==> r.lockProfit == pnl - trail
    ensures r.raised || pnl < lock + trail + 500.0 ==> r.lockProfit == lock
  {
    var hit := pnl <= lock && lock > 0.0;
    var count' := if hit then count + 1 else count;
    if hit && count' > threshold && !legsDecode then TrailState(lock, count', true)
    else if pnl >= lock + trail + 500.0 then TrailState(pnl - trail, count', false)
    else TrailState(lock, count', false)
  }

  /** The lock only ratchets up, by at least 500 each time it moves; the counter never goes down. */
  lemma TrailMonotone(lock: real, count: int, pnl: real, trail: real, threshold: int, legsDecode: bool)
    ensures var r := Trail(lock, count, pnl, trail, threshold, legsDecode);
      && r.lockProfit >= lock
      && (r.lockProfit != lock ==> r.lockProfit >= lock + 500.0)
      && count <= r.hitCount <= count + 1
  {
  }

  /** A profit that clears the lock never counts as a hit, and a hit never moves the lock. */
  lemma TrailHitOrLock(lock: real, count: int, pnl: real, trail: real, threshold: int, legsDecode: bool)
    requires trail >= 0.0
    ensures var r := Trail(lock, count, pnl, trail, threshold, legsDecode);
      r.hitCount == count + 1 ==> r.lockProfit == lock
  {
  }

  /** Lot quantity 1000 with multiplier 0.1: profits 100, 400, 1200 lock 0, 0, 1100. */
  lemma TrailScenario()
    ensures var s1 := Trail(0.0, 0, 100.0, 100.0, 3, true);
      var s2 := Trail(s1.lockProfit, s1.hitCount, 400.0, 100.0, 3, true);
      var s3 := Trail(s2.lockProfit, s2.hitCount, 1200.0, 100.0, 3, true);
      s1.lockProfit == 0.0 && s2.lockProfit == 0.0 && s3.lockProfit == 1100.0 && s3.hitCount == 0
  {
  }

  /** After the lock is set, each fall back to it counts once; the fourth fall passes threshold 3. */
  lemma TrailFallbackScenario()
    ensures var s1 := Trail(1100.0, 0, 1000.0, 100.0, 3, true);
      var s2 := Trail(s1.lockProfit, s1.hitCount, 900.0, 100.0, 3, true);
      var s3 := Trail(s2.lockProfit, s2.hitCount, 1050.0, 100.0, 3, true);
      var s4 := Trail(s3.lockProfit, s3.hitCount, 1100.0, 100.0, 3, false);
      s3.hitCount == 3 && !s3.raised && s4.hitCount == 4 && s4.raised && s4.lockProfit == 1100.0
  {
  }

  // ---------------------------------------------------------------------
  // Adjustments
  // ---------------------------------------------------------------------

  /** Which short leg the 55% rule rolls. */
  datatype Roll = NoRoll | RollCall | RollPut

  /**
   * With both short premiums positive: roll the call side when the call has
   * decayed to 55% of the put or less, else the put side when the put has
   * decayed to 55% of the call or less.
   */
  function AdjustmentRule(shortCallPrice: real, shortPutPrice: real): (r: Roll)
    ensures r == RollCall <==> shortCallPrice > 0.0 && shortPutPrice > 0.0
                               && shortCallPrice <= shortPutPrice * 55.0 / 100.0
    ensures r == RollPut <==> shortCallPrice > 0.0 && shortPutPrice > 0.0
                              && shortCallPrice > shortPutPrice * 55.0 / 100.0
                              && shortPutPrice <= shortCallPrice * 55.0 / 100.0
  {
    if shortCallPrice > 0.0 && shortPutPrice > 0.0 then
      if shortCallPrice <= shortPutPrice * 55.0 / 100.0 then RollCall
      else if shortPutPrice <= shortCallPrice * 55.0 / 100.0 then RollPut
      else NoRoll
    else NoRoll
  }

  /** The two 55% conditions cannot both hold, so the order of the tests never hides a put roll. */
  lemma AdjustmentRuleExclusive(shortCallPrice: real, shortPutPrice: real)
    requires shortCallPrice > 0.0 && shortPutPrice > 0.0
    ensures !(shortCallPrice <= shortPutPrice * 55.0 / 100.0 && shortPutPrice <= shortCallPrice * 55.0 / 100.0)
  {
  }

  /** Premiums within a 55% band of each other leave both legs alone. */
  lemma AdjustmentRuleBalanced(shortCallPrice: real, shortPutPrice: real)
    requires shortCallPrice > shortPutPrice * 55.0 / 100.0 && shortPutPrice > shortCallPrice * 55.0 / 100.0
    ensures AdjustmentRule(shortCallPrice, shortPutPrice) == NoRoll
  {
  }
}

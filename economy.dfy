/**
 * The constants of the shell economy and the arithmetic of a job's settlement:
 * the 5% platform fee that goes to the Tide Pool, the provider's payout, and the
 * activity-mining bonus paid on the first completed jobs of the platform.
 */
module Economy {

  /** Shells granted to every newly registered agent. */
  const STARTER_SHELLS: int := 10

  /** Percentage of a job's amount kept as the Tide Pool fee. */
  const FEE_PERCENT: int := 5

  /** Shells paid to each party of a job completed while mining is active. */
  const ACTIVITY_MINING_BONUS: int := 5

  /** Mining is active while fewer than this many jobs have been completed. */
  const ACTIVITY_MINING_THRESHOLD: int := 10

  /** Shells paid to both the referred agent and the referrer. */
  const REFERRAL_BONUS: int := 10

  /** The platform fee of a job: `Math.floor(amount * 0.05)`, the largest whole number of shells not above 5%. */
  function TidePoolFee(amount: int): (fee: int)
    ensures 20 * fee <= amount < 20 * fee + 20
  {
    amount * FEE_PERCENT / 100
  }

  /** What the provider receives: the amount less the fee. */
  function Payout(amount: int): (payout: int)
    ensures payout + TidePoolFee(amount) == amount
  {
    amount - TidePoolFee(amount)
  }

  /** For any non-negative amount, the fee and the payout split it into two non-negative parts, the fee the smaller. */
  lemma FeeSplit(amount: int)
    requires amount >= 0
    ensures 0 <= TidePoolFee(amount) <= Payout(amount) <= amount
    ensures Payout(amount) + TidePoolFee(amount) == amount
  {
  }

  /** The examples the platform documents: 100 shells give 95 and 5, 10 shells give 10 and 0. */
  lemma FeeExamples()
    ensures Payout(100) == 95 && TidePoolFee(100) == 5
    ensures Payout(10) == 10 && TidePoolFee(10) == 0
  {
  }

  /** The fee never decreases as the amount grows. */
  lemma FeeMonotone(a: int, b: int)
    requires a <= b
    ensures TidePoolFee(a) <= TidePoolFee(b)
  {
  }

  /** The bonus each party receives when `completedBefore` jobs had been completed before this one. */
  function MiningBonus(completedBefore: int): (bonus: int)
    ensures bonus == 0 || bonus == ACTIVITY_MINING_BONUS
    ensures bonus > 0 <==> completedBefore < ACTIVITY_MINING_THRESHOLD
  {
    if completedBefore < ACTIVITY_MINING_THRESHOLD then ACTIVITY_MINING_BONUS else 0
  }

  /** How many more completions will still earn the bonus after this one. */
  function MiningRemaining(completedBefore: int): (remaining: int)
    ensures remaining >= 0
    ensures remaining == 0 <==> completedBefore + 1 >= ACTIVITY_MINING_THRESHOLD
    ensures remaining > 0 ==> completedBefore + 1 + remaining == ACTIVITY_MINING_THRESHOLD
  {
    if ACTIVITY_MINING_THRESHOLD - completedBefore - 1 > 0 then ACTIVITY_MINING_THRESHOLD - completedBefore - 1 else 0
  }

  /** The 10th completed job still earns the bonus; the 11th does not. */
  lemma MiningBoundary()
    ensures MiningBonus(9) == ACTIVITY_MINING_BONUS && MiningRemaining(9) == 0
    ensures MiningBonus(10) == 0 && MiningRemaining(10) == 0
  {
  }

  function Min(a: int, b: int): int {
    if a <= b then a else b
  }
}

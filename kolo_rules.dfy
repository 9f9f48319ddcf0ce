/**
 * The arithmetic rules of a kolo (a rotating-savings circle): the emergency
 * slash, the reputation penalty and the round deadline.
 */
module KoloRules {

  const SLASH_PERCENT: nat := 20
  const MIN_SLASH_AMOUNT: nat := 1000
  const INITIAL_REPUTATION: nat := 100
  const REPUTATION_PENALTY: nat := 50
  const MIN_MEMBERS: nat := 2
  const MAX_MEMBERS: nat := 50

  // ---------------------------------------------------------------------------
  // Emergency slash

  /** The penalty withheld on emergency exit: 20 % of the contribution, floor-divided, but never under 1000. */
  function SlashAmount(amount: nat): (slash: nat)
    ensures slash >= MIN_SLASH_AMOUNT && slash >= amount * SLASH_PERCENT / 100
    ensures slash == MIN_SLASH_AMOUNT || slash == amount * SLASH_PERCENT / 100
  {
    var percent := amount * SLASH_PERCENT / 100;
    if percent > MIN_SLASH_AMOUNT then percent else MIN_SLASH_AMOUNT
  }

  /** Below 5000 the floor governs; from 5000 on the percentage does, and the slash never exceeds the contribution. */
  lemma SlashRegimes(amount: nat)
    ensures amount < 5000 ==> SlashAmount(amount) == MIN_SLASH_AMOUNT
    ensures amount >= 5000 ==> SlashAmount(amount) == amount / 5
    ensures amount >= MIN_SLASH_AMOUNT ==> SlashAmount(amount) <= amount
  {
  }

  /** What an emergency exit returns: the contribution less the slash. */
  function NetWithdrawal(amount: nat): (net: nat)
    requires amount >= MIN_SLASH_AMOUNT
    ensures net + SlashAmount(amount) == amount
    ensures net < amount
  {
    amount - SlashAmount(amount)
  }

  /** The two worked values: 1,000,000 returns 800,000 and 5,000 returns 4,000. */
  lemma NetWithdrawalExamples()
    ensures NetWithdrawal(1_000_000) == 800_000 && SlashAmount(1_000_000) == 200_000
    ensures NetWithdrawal(5_000) == 4_000 && SlashAmount(5_000) == 1_000
  {
  }

  // ---------------------------------------------------------------------------
  // Reputation

  /** One default event: 50 points off, saturating at zero. */
  function Penalize(reputation: nat): (r: nat)
    ensures r <= reputation
    ensures reputation > 0 ==> r < reputation
    ensures reputation >= REPUTATION_PENALTY ==> reputation - r == REPUTATION_PENALTY
    ensures reputation < REPUTATION_PENALTY ==> r == 0
  {
    if reputation >= REPUTATION_PENALTY then reputation - REPUTATION_PENALTY else 0
  }

  /**
   * Reputation after `n` default events starting from `reputation`: 50 points
   * off per event while enough is left, and zero once it runs out.
   */
  function PenalizeTimes(reputation: nat, n: nat): (r: nat)
    ensures r == if n * REPUTATION_PENALTY <= reputation then reputation - n * REPUTATION_PENALTY else 0
  {
    if n == 0 then reputation else Penalize(PenalizeTimes(reputation, n - 1))
  }

  /** A fresh member loses 50 per default: 50 after one, 0 from the second on. */
  lemma ReputationAfterDefaults(n: nat)
    ensures PenalizeTimes(INITIAL_REPUTATION, n) == if n == 0 then 100 else if n == 1 then 50 else 0
  {
  }

  // ---------------------------------------------------------------------------
  // Rounds

  /**
   * The height after which the obligation of `round` is overdue: the end of
   * that round's period counted from the start block.
   */
  function RoundDeadline(startBlock: nat, frequency: nat, round: nat): (deadline: nat)
    ensures deadline >= startBlock
    ensures frequency > 0 ==> deadline > startBlock + round * frequency
  {
    startBlock + (round + 1) * frequency
  }

  /** Later rounds never have earlier deadlines, and each adds exactly one period. */
  lemma DeadlineAdvances(startBlock: nat, frequency: nat, round: nat)
    ensures RoundDeadline(startBlock, frequency, round + 1) == RoundDeadline(startBlock, frequency, round) + frequency
  {
  }
}

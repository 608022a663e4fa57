/**
 * The two decision rules the dashboard applies to the model's predicted
 * churn probability: the three-way risk tier and the business-impact
 * estimate (expected revenue loss and the part a retention campaign saves).
 * The probability is an input here; the classifier that produces it is not
 * part of this model.
 */
module BusinessImpact {

  /** The message the dashboard shows for a predicted probability. */
  datatype RiskTier = HighRisk | ModerateRisk | LowRisk

  /**
   * Above 0.6 the customer is at high risk, above 0.3 up to 0.6 at moderate
   * risk, and at 0.3 or below at low risk. Every probability gets exactly
   * one tier.
   */
  function Tier(prob: real): (t: RiskTier)
    ensures t == HighRisk <==> prob > 0.6
    ensures t == ModerateRisk <==> 0.3 < prob <= 0.6
    ensures t == LowRisk <==> prob <= 0.3
  {
    if prob > 0.6 then HighRisk
    else if prob > 0.3 then ModerateRisk
    else LowRisk
  }

  /** Rank of a tier, from low to high risk. */
  function Severity(t: RiskTier): nat
  {
    match t
    case LowRisk => 0
    case ModerateRisk => 1
    case HighRisk => 2
  }

  /** A higher probability never yields a lower tier. */
  lemma TierMonotone(p: real, q: real)
    requires p <= q
    ensures Severity(Tier(p)) <= Severity(Tier(q))
  {
  }

  /**
   * Expected revenue loss: the churn probability times the cost of losing
   * the customer. For a probability and a non-negative cost it lies between
   * 0 and the cost.
   */
  function ExpectedLoss(prob: real, churnCost: int): (loss: real)
    ensures 0.0 <= prob <= 1.0 && 0 <= churnCost ==> 0.0 <= loss <= churnCost as real
    ensures prob == 0.0 || churnCost == 0 ==> loss == 0.0
  {
    prob * churnCost as real
  }

  /**
   * Projected savings: the retention success rate, a percentage, of the
   * expected loss. For a rate from 0 to 100 and a non-negative loss it lies
   * between 0 and the loss.
   */
  function ExpectedSaved(expectedLoss: real, retentionRate: int): (saved: real)
    ensures saved * 100.0 == expectedLoss * retentionRate as real
    ensures 0.0 <= expectedLoss && 0 <= retentionRate <= 100 ==> 0.0 <= saved <= expectedLoss
  {
    expectedLoss * (retentionRate as real / 100.0)
  }

  /**
   * Within the form's bounds (probability in [0, 1], cost at least 0, rate
   * from 0 to 100) the savings never exceed the expected loss, which never
   * exceeds the cost of a churned customer.
   */
  lemma ImpactBounds(prob: real, churnCost: int, retentionRate: int)
    requires 0.0 <= prob <= 1.0 && 0 <= churnCost && 0 <= retentionRate <= 100
    ensures 0.0 <= ExpectedSaved(ExpectedLoss(prob, churnCost), retentionRate)
    ensures ExpectedSaved(ExpectedLoss(prob, churnCost), retentionRate) <= ExpectedLoss(prob, churnCost)
    ensures ExpectedLoss(prob, churnCost) <= churnCost as real
  {
  }
}

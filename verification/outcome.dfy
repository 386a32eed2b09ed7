/**
 * The per-row rules of the training and evaluation scripts' result tables:
 * the award-band verdicts `결과1`/`결과2`, the two "A값" flag rules and the
 * amounts derived from the predicted rates. Cells are pandas floats, so a
 * missing value (NaN) takes part in every comparison as pandas does.
 */
module Outcome {

  import opened Floats

  /** The three verdicts of `calculate_result1`/`calculate_result2`. */
  datatype Verdict = BelowFloor | Awarded | NotAwarded

  function Label(v: Verdict): string
  {
    match v
    case BelowFloor => "낙찰하한선미달"
    case Awarded => "낙찰"
    case NotAwarded => "-"
  }

  /** Below the floor, in the half-open band `[minBid, actual)`, or neither. */
  function Classify(predicted: Float, minBid: Float, actual: Float): Verdict
  {
    if Lt(predicted, minBid) then BelowFloor
    else if Ge(predicted, minBid) && Lt(predicted, actual) then Awarded
    else NotAwarded
  }

  /** On finite amounts the three verdicts are exactly the three bands. */
  lemma ClassifyBands(predicted: real, minBid: real, actual: real)
    ensures Classify(Fin(predicted), Fin(minBid), Fin(actual)) == BelowFloor <==> predicted < minBid
    ensures Classify(Fin(predicted), Fin(minBid), Fin(actual)) == Awarded <==> minBid <= predicted < actual
    ensures Classify(Fin(predicted), Fin(minBid), Fin(actual)) == NotAwarded <==> minBid <= predicted && actual <= predicted
  {
  }

  /** A prediction on the floor wins when the floor is below the award; one equal to the award does not. */
  lemma ClassifyBoundaries(minBid: real, actual: real)
    ensures minBid < actual ==> Classify(Fin(minBid), Fin(minBid), Fin(actual)) == Awarded
    ensures Classify(Fin(actual), Fin(minBid), Fin(actual)) != Awarded
  {
  }

  /** When the award is not above the floor, no prediction is ever `낙찰`. */
  lemma NoBandWhenAwardAtFloor(predicted: Float, minBid: Float, actual: Float)
    requires !minBid.NaN? && !actual.NaN? && !Below(minBid, actual)
    ensures Classify(predicted, minBid, actual) != Awarded
  {
    if Ge(predicted, minBid) && Lt(predicted, actual) {
      assert !predicted.NaN?;
      BelowTransitive(minBid, predicted, actual);
    }
  }

  lemma BelowTransitive(x: Float, y: Float, z: Float)
    requires !x.NaN? && !y.NaN? && !z.NaN?
    requires (Below(x, y) || x == y) && Below(y, z)
    ensures Below(x, z)
  {
  }

  /** A missing amount on any side is never `낙찰`; a missing prediction is `-`. */
  lemma MissingIsNotAwarded(predicted: Float, minBid: Float, actual: Float)
    requires predicted.NaN? || minBid.NaN? || actual.NaN?
    ensures Classify(predicted, minBid, actual) != Awarded
    ensures predicted.NaN? ==> Classify(predicted, minBid, actual) == NotAwarded
  {
  }

  /** `A값여부` of the training scripts: `O` when the bidder-rate prediction is at least 0.8. */
  function RateFlag(x: Float): (s: string)
    ensures s == "O" || s == ""
    ensures x.Fin? ==> (s == "O" <==> x.v >= 0.8)
    ensures x.Inf? ==> (s == "O" <==> !x.neg)
    ensures x.NaN? ==> s == ""
  {
    if Ge(x, Fin(0.8)) then "O" else ""
  }

  /** `A값여부` of the sample predictor: `O` when the indirect cost is not 0 (NaN included), else `X`. */
  function IndirectCostFlag(x: Float): (s: string)
    ensures s == "X" <==> x == Fin(0.0)
    ensures s == "O" <==> x != Fin(0.0)
  {
    if Ne(x, Fin(0.0)) then "O" else "X"
  }

  /** The two flag rules disagree: a prediction of 0.9 with no indirect cost is `O` by one and `X` by the other. */
  lemma FlagRulesDiffer()
    ensures RateFlag(Fin(0.9)) == "O" && IndirectCostFlag(Fin(0.0)) == "X"
    ensures RateFlag(Fin(0.5)) == "" && IndirectCostFlag(Fin(1.0)) == "O"
  {
  }

  /** `예정금액예측`: `(plan * base) / lower`. */
  function PlannedPrice(plan: Float, base: Float, lower: Float): Float
  {
    Div(Mul(plan, base), lower)
  }

  /** `낙찰금액(업체투찰률) 예측`: `com * base`. */
  function BidderAmount(com: Float, base: Float): Float
  {
    Mul(com, base)
  }

  /** `예정금액(예가투찰률) 예측`: `(plan / lower) * base`. */
  function PlannedByRate(plan: Float, lower: Float, base: Float): Float
  {
    Mul(Div(plan, lower), base)
  }

  /** `예정금액*낙찰하한율`: `예정금액(예가투찰률) 예측 * lower`. */
  function PlannedAtFloor(plan: Float, lower: Float, base: Float): Float
  {
    Mul(PlannedByRate(plan, lower, base), lower)
  }

  /** On finite values with a non-zero rate the two planned prices agree and the floor amount is `plan * base`. */
  lemma DerivedAmounts(plan: real, base: real, lower: real)
    requires lower != 0.0
    ensures PlannedPrice(Fin(plan), Fin(base), Fin(lower)) == Fin(plan * base / lower)
    ensures PlannedByRate(Fin(plan), Fin(lower), Fin(base)) == Fin(plan * base / lower)
    ensures PlannedAtFloor(Fin(plan), Fin(lower), Fin(base)) == Fin(plan * base)
  {
    assert plan / lower * base == plan * base / lower;
    assert plan * base / lower * lower == plan * base;
  }

  /** A zero rate makes the floor amount NaN, so `결과2` is `-` for that row. */
  lemma ZeroRateIsNotAwarded(plan: Float, base: Float, minBid: Float, actual: Float)
    ensures PlannedAtFloor(plan, Fin(0.0), base).NaN?
    ensures Classify(PlannedAtFloor(plan, Fin(0.0), base), minBid, actual) == NotAwarded
  {
  }
}

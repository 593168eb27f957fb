/**
 * `calculatePrice`, the quick material price calculator: a price per kilogram
 * for each material, scaled by the quantity and by a condition grade.
 */
module MaterialPrice {
  import opened Wrappers

  /** Base prices per kilogram, in rupees. */
  const BasePrices: map<string, int> := map[
    "batteries" := 110, "circuit" := 140, "metal" := 95, "plastic" := 45, "led" := 105, "cables" := 75,
    "gold" := 3500]

  /** The condition grades of the calculator (capitalised, unlike the estimator's keys). */
  const GradeMultipliers: map<string, real> := map[
    "Excellent" := 1.0, "Good" := 0.9, "Fair" := 0.75, "Poor" := 0.5]

  /** Why the calculator refused the form. */
  datatype PriceError = IncompleteForm | UnknownMaterial

  /** The calculator's answer: the inputs it used and the total. */
  datatype Quote = Quote(unitPrice: int, quantity: real, multiplier: real, total: real)

  /** `conditionMultiplier[condition] || 1.0`: an unknown grade counts as Excellent. */
  function GradeMultiplier(condition: string): (m: real)
    ensures 0.5 <= m <= 1.0
    ensures condition !in GradeMultipliers ==> m == 1.0
  {
    if condition in GradeMultipliers then GradeMultipliers[condition] else 1.0
  }

  /**
   * `calculatePrice`. The quantity is `None` when the field does not parse
   * as a number. A missing material or a quantity that is not positive is
   * refused first; then a material without a base price; otherwise the total
   * is unit price x quantity x grade multiplier.
   */
  function CalculatePrice(material: string, quantity: Option<real>, condition: string): (r: Result<Quote, PriceError>)
    ensures material == "" || quantity.None? || quantity.value <= 0.0 <==> r == Failure(IncompleteForm)
    ensures r == Failure(UnknownMaterial)
      <==> material != "" && quantity.Some? && quantity.value > 0.0 && material !in BasePrices
    ensures r.Success? ==>
      && material in BasePrices && quantity.Some?
      && r.value.unitPrice == BasePrices[material]
      && r.value.quantity == quantity.value
      && r.value.multiplier == GradeMultiplier(condition)
      && r.value.total == r.value.unitPrice as real * r.value.quantity * r.value.multiplier
  {
    if material == "" || quantity.None? || quantity.value <= 0.0 then Failure(IncompleteForm)
    else if material !in BasePrices then Failure(UnknownMaterial)
    else
      var unitPrice := BasePrices[material];
      var multiplier := GradeMultiplier(condition);
      Success(Quote(unitPrice, quantity.value, multiplier, unitPrice as real * quantity.value * multiplier))
  }

  /** Every base price is positive. */
  lemma BasePricesPositive(material: string)
    requires material in BasePrices
    ensures BasePrices[material] > 0
  {
  }

  /** A quote is positive and lies between half the undiscounted price and the undiscounted price. */
  lemma QuoteBounds(material: string, quantity: real, condition: string)
    requires material in BasePrices && quantity > 0.0
    ensures CalculatePrice(material, Some(quantity), condition).Success?
    ensures var q := CalculatePrice(material, Some(quantity), condition).value;
      && 0.0 < 0.5 * BasePrices[material] as real * quantity <= q.total
      && q.total <= BasePrices[material] as real * quantity
  {
    BasePricesPositive(material);
    var unit := BasePrices[material] as real * quantity;
    var m := GradeMultiplier(condition);
    assert unit > 0.0;
    assert unit * m - 0.5 * unit == unit * (m - 0.5);
    assert unit * (m - 0.5) >= 0.0;
    assert unit - unit * m == unit * (1.0 - m);
    assert unit * (1.0 - m) >= 0.0;
  }

  /** Pricing two lots of the same material and grade separately gives the price of the combined lot. */
  lemma QuoteAdditive(material: string, q1: real, q2: real, condition: string)
    requires material in BasePrices && q1 > 0.0 && q2 > 0.0
    ensures CalculatePrice(material, Some(q1 + q2), condition).value.total
      == CalculatePrice(material, Some(q1), condition).value.total
       + CalculatePrice(material, Some(q2), condition).value.total
  {
    var u := BasePrices[material] as real;
    var m := GradeMultiplier(condition);
    assert u * (q1 + q2) * m == u * q1 * m + u * q2 * m;
  }

  /** A better grade never lowers the quote: Excellent, Good, Fair, Poor in that order. */
  lemma GradesOrdered(material: string, quantity: real)
    requires material in BasePrices && quantity > 0.0
    ensures CalculatePrice(material, Some(quantity), "Poor").Success?
    ensures CalculatePrice(material, Some(quantity), "Poor").value.total
         <= CalculatePrice(material, Some(quantity), "Fair").value.total
         <= CalculatePrice(material, Some(quantity), "Good").value.total
         <= CalculatePrice(material, Some(quantity), "Excellent").value.total
  {
    BasePricesPositive(material);
    var unit := BasePrices[material] as real * quantity;
    assert unit > 0.0;
    GradeValues();
    assert unit * 0.5 <= unit * 0.75 <= unit * 0.9 <= unit * 1.0;
  }

  /** The multipliers of the four grades. */
  lemma GradeValues()
    ensures GradeMultiplier("Poor") == 0.5 && GradeMultiplier("Fair") == 0.75
    ensures GradeMultiplier("Good") == 0.9 && GradeMultiplier("Excellent") == 1.0
  {
  }
}

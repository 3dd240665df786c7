/** The line-total formula of the invoice routes (`total_price` in
    app/invoice/routes.py). Money and rates are exact reals: the float and
    Decimal rounding of the source is not modelled. */
module Pricing {
  import opened Http

  /** Python's `x or 0.0` on an optional float: a missing value counts as 0. */
  function OrZero(x: Option<real>): real
  {
    match x
    case None => 0.0
    case Some(v) => v
  }

  /** The line total: quantity times unit price, plus tax and minus discount
      (both rates applied to that product), plus the flat additional charges. */
  function LineTotal(quantity: int, unitPrice: real, tax: Option<real>, discount: Option<real>, charges: Option<real>): real
  {
    var totalBeforeTax := quantity as real * unitPrice;
    var taxAmount := totalBeforeTax * OrZero(tax);
    var discountAmount := totalBeforeTax * OrZero(discount);
    totalBeforeTax + taxAmount - discountAmount + OrZero(charges)
  }

  /** The formula in closed form: q*p scaled by (1 + tax - discount), plus charges. */
  lemma LineTotalFactored(quantity: int, unitPrice: real, tax: Option<real>, discount: Option<real>, charges: Option<real>)
    ensures LineTotal(quantity, unitPrice, tax, discount, charges)
         == quantity as real * unitPrice * (1.0 + OrZero(tax) - OrZero(discount)) + OrZero(charges)
  {
    var b := quantity as real * unitPrice;
    assert b * (1.0 + OrZero(tax) - OrZero(discount)) == b + b * OrZero(tax) - b * OrZero(discount);
  }

  /** A missing rate or charge and an explicit 0.0 give the same line total,
      and with neither rates nor charges the total is quantity times price. */
  lemma MissingMeansZero(quantity: int, unitPrice: real)
    ensures LineTotal(quantity, unitPrice, None, None, None)
         == LineTotal(quantity, unitPrice, Some(0.0), Some(0.0), Some(0.0))
         == quantity as real * unitPrice
  {
  }

  /** With equal tax and discount rates the two cancel, whatever the rate. */
  lemma EqualRatesCancel(quantity: int, unitPrice: real, rate: Option<real>, charges: Option<real>)
    ensures LineTotal(quantity, unitPrice, rate, rate, charges) == quantity as real * unitPrice + OrZero(charges)
  {
  }

  /** The line total moves by exactly the change in the additional charges. */
  lemma ChargesAddFlat(quantity: int, unitPrice: real, tax: Option<real>, discount: Option<real>, c1: real, c2: real)
    ensures LineTotal(quantity, unitPrice, tax, discount, Some(c2)) - LineTotal(quantity, unitPrice, tax, discount, Some(c1)) == c2 - c1
  {
  }

  /** 3 x 10.00 with 10% tax, 5% discount and 2.00 charges is 33.50;
      the same line with quantity 1 is 12.50. */
  lemma WorkedLineTotals()
    ensures LineTotal(3, 10.0, Some(0.10), Some(0.05), Some(2.0)) == 33.5
    ensures LineTotal(1, 10.0, Some(0.10), Some(0.05), Some(2.0)) == 12.5
  {
  }
}

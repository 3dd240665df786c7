/** The request schemas of the invoice package (app/invoice/schemas.py) and the
    invoice status enumeration they use. */
module InvoiceSchemas {
  import opened Http
  import Pricing

  /** Naive datetimes, as a count of microseconds. */
  type Time = int

  /** timedelta(days=7) in microseconds. */
  const Week: int := 7 * 24 * 60 * 60 * 1000000

  datatype Status = Draft | Pending | Paid | Overdue
  {
    /** The enum's string value, as the listing filters compare it. */
    function Name(): string
    {
      match this
      case Draft => "draft"
      case Pending => "pending"
      case Paid => "paid"
      case Overdue => "overdue"
    }
  }

  /** Distinct statuses have distinct names, so a filter string selects at most one status. */
  lemma NameInjective(a: Status, b: Status)
    ensures a.Name() == b.Name() <==> a == b
  {
    if a != b {
      assert a.Name()[0] != b.Name()[0] || a.Name()[1] != b.Name()[1];
    }
  }

  /** InvoiceItemBase: the body of an add-item request. The rates are
      fractions (0.075 is 7.5%); None stands for a JSON null. */
  datatype InvoiceItemBase = InvoiceItemBase(
    description: string,
    quantity: int := 1,
    unitPrice: real,
    tax: Option<real> := Some(0.0),
    discount: Option<real> := Some(0.0),
    additionalCharges: Option<real> := Some(0.0))
  {
    function TotalPriceBeforeTax(): real
    {
      quantity as real * unitPrice
    }

    function TotalPrice(): real
    {
      var totalBeforeTax := TotalPriceBeforeTax();
      var taxAmount := totalBeforeTax * Pricing.OrZero(tax);
      var discountAmount := totalBeforeTax * Pricing.OrZero(discount);
      totalBeforeTax + taxAmount - discountAmount + Pricing.OrZero(additionalCharges)
    }
  }

  /** A request that gives only the required fields gets quantity 1 and
      zero tax, discount and additional charges. */
  lemma ItemDefaults(description: string, unitPrice: real)
    ensures var s := InvoiceItemBase(description, unitPrice := unitPrice);
      && s.quantity == 1
      && s.tax == Some(0.0) && s.discount == Some(0.0) && s.additionalCharges == Some(0.0)
      && s.TotalPrice() == unitPrice
  {
  }

  /** The schema's own total agrees with the route helper's line total on the
      same fields, a missing rate or charge counting as 0 in both. */
  lemma TotalPriceIsLineTotal(s: InvoiceItemBase)
    ensures s.TotalPrice() == Pricing.LineTotal(s.quantity, s.unitPrice, s.tax, s.discount, s.additionalCharges)
  {
  }

  /** Equal tax and discount cancel: the total is the pre-tax total plus charges. */
  lemma EqualRatesCancel(s: InvoiceItemBase)
    requires s.tax == s.discount
    ensures s.TotalPrice() == s.quantity as real * s.unitPrice + Pricing.OrZero(s.additionalCharges)
  {
  }

  /** IssueInvoice: the body of an issue request. */
  datatype IssueInvoice = IssueInvoice(dueDate: Time, status: Status := Pending)

  /** The intended default body of an issue request received at `requestTime`:
      due a week later, status pending. */
  function IssueInvoiceDefault(requestTime: Time): (s: IssueInvoice)
    ensures s.status == Pending
    ensures s.dueDate == requestTime + Week
    ensures s.dueDate > requestTime
  {
    IssueInvoice(requestTime + Week)
  }

  /** UpdateInvoiceStatus: the body of a status update; the status defaults to pending. */
  datatype UpdateInvoiceStatus = UpdateInvoiceStatus(status: Status := Pending)

  /** Both status-carrying request bodies default to pending. */
  lemma StatusDefaults(due: Time)
    ensures IssueInvoice(due).status == Pending
    ensures UpdateInvoiceStatus().status == Pending
  {
  }

  /** UpdateInvoiceItem: the body of an update-item request, the fields an
      item update replaces. */
  datatype UpdateInvoiceItem = UpdateInvoiceItem(
    description: string,
    quantity: int,
    tax: Option<real>,
    discount: Option<real>,
    additionalCharges: Option<real>)
}

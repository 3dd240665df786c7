/** The rows the ledger keeps (invoices, invoice items, products, payments),
    the per-invoice sum of item totals, and the invariants the item routes
    keep over them. */
module Models {
  import opened Http
  import opened InvoiceSchemas
  import Pricing

  type InvoiceId = nat
  type ItemId = nat
  type ProductId = nat
  type VendorId = nat
  type CustomerId = nat

  datatype Invoice = Invoice(
    number: int,
    customerId: CustomerId,
    vendorId: VendorId,
    invoiceDate: Time,
    dueDate: Time,
    status: Status,
    total: real)

  /** An invoice item row: the unit price is the one copied from the product
      when the item was added; totalPrice is stored, not recomputed on read. */
  datatype Item = Item(
    invoiceId: InvoiceId,
    productId: ProductId,
    description: string,
    quantity: int,
    unitPrice: real,
    tax: Option<real>,
    discount: Option<real>,
    additionalCharges: Option<real>,
    totalPrice: real)

  /** The product fields the ledger reads: its owner and its live price. */
  datatype Product = Product(vendorId: VendorId, unitPrice: real)

  datatype Payment = Payment(amountPaid: real, invoiceId: InvoiceId)

  /** An item whose stored total is the line total of its own stored fields. */
  predicate Consistent(it: Item)
  {
    it.totalPrice == Pricing.LineTotal(it.quantity, it.unitPrice, it.tax, it.discount, it.additionalCharges)
  }

  /** What item `it` contributes to the sum of invoice `inv`. */
  function Share(it: Item, inv: InvoiceId): real
  {
    if it.invoiceId == inv then it.totalPrice else 0.0
  }

  /** The sum of the stored totals of the items of invoice `inv`. */
  ghost function InvoiceSum(items: map<ItemId, Item>, inv: InvoiceId): real
    decreases |items|
  {
    if items == map[] then 0.0
    else
      var k :| k in items;
      assert |items - {k}| == |items| - 1 by { assert (items - {k}).Keys == items.Keys - {k}; }
      Share(items[k], inv) + InvoiceSum(items - {k}, inv)
  }

  /** Any item may be taken out of the sum first. */
  lemma {:induction false} InvoiceSumRemove(items: map<ItemId, Item>, k: ItemId, inv: InvoiceId)
    requires k in items
    ensures InvoiceSum(items, inv) == Share(items[k], inv) + InvoiceSum(items - {k}, inv)
    decreases |items|
  {
    var j :| j in items && InvoiceSum(items, inv) == Share(items[j], inv) + InvoiceSum(items - {j}, inv);
    if j != k {
      assert (items - {j}).Keys == items.Keys - {j};
      assert (items - {k}).Keys == items.Keys - {k};
      InvoiceSumRemove(items - {j}, k, inv);
      InvoiceSumRemove(items - {k}, j, inv);
      assert items - {j} - {k} == items - {k} - {j};
    }
  }

  /** Adding an item under a fresh id raises the sum of its own invoice by its
      stored total and leaves the sum of every other invoice as it was. */
  lemma InvoiceSumAdd(items: map<ItemId, Item>, k: ItemId, it: Item, inv: InvoiceId)
    requires k !in items
    ensures InvoiceSum(items[k := it], inv) == InvoiceSum(items, inv) + Share(it, inv)
  {
    InvoiceSumRemove(items[k := it], k, inv);
    assert items[k := it] - {k} == items;
  }

  /** Replacing an item moves each invoice's sum by the change in that item's share. */
  lemma InvoiceSumReplace(items: map<ItemId, Item>, k: ItemId, it: Item, inv: InvoiceId)
    requires k in items
    ensures InvoiceSum(items[k := it], inv) == InvoiceSum(items, inv) - Share(items[k], inv) + Share(it, inv)
  {
    InvoiceSumRemove(items, k, inv);
    InvoiceSumRemove(items[k := it], k, inv);
    assert items[k := it] - {k} == items - {k};
  }

  /** An invoice none of whose items is left sums to 0. */
  lemma {:induction false} InvoiceSumNoItems(items: map<ItemId, Item>, inv: InvoiceId)
    requires forall k :: k in items ==> items[k].invoiceId != inv
    ensures InvoiceSum(items, inv) == 0.0
    decreases |items|
  {
    if items != map[] {
      var k :| k in items;
      InvoiceSumRemove(items, k, inv);
      assert |items - {k}| < |items| by { assert (items - {k}).Keys == items.Keys - {k}; }
      InvoiceSumNoItems(items - {k}, inv);
    }
  }

  /** The ledger invariant: every invoice's total is the sum of its items' stored totals. */
  ghost predicate TotalsMatch(invoices: map<InvoiceId, Invoice>, items: map<ItemId, Item>)
  {
    forall id :: id in invoices ==> invoices[id].total == InvoiceSum(items, id)
  }

  predicate AllConsistent(items: map<ItemId, Item>)
  {
    forall k :: k in items ==> Consistent(items[k])
  }

  /** A product appears at most once per invoice. */
  predicate UniquePairs(items: map<ItemId, Item>)
  {
    forall j, k :: j in items && k in items && j != k ==>
      items[j].invoiceId != items[k].invoiceId || items[j].productId != items[k].productId
  }

  /** The three invariants the item routes keep. */
  ghost predicate LedgerInvariant(invoices: map<InvoiceId, Invoice>, items: map<ItemId, Item>)
  {
    TotalsMatch(invoices, items) && AllConsistent(items) && UniquePairs(items)
  }

  /** Adding a consistent item for a product not yet on its invoice, and
      raising that invoice's total by the item's total, keeps the invariants. */
  lemma AddKeepsInvariant(invoices: map<InvoiceId, Invoice>, items: map<ItemId, Item>, k: ItemId, it: Item)
    requires LedgerInvariant(invoices, items)
    requires k !in items && it.invoiceId in invoices && Consistent(it)
    requires !OnInvoice(items, it.invoiceId, it.productId)
    ensures var inv := invoices[it.invoiceId];
      LedgerInvariant(invoices[it.invoiceId := inv.(total := inv.total + it.totalPrice)], items[k := it])
  {
    forall id | id in invoices
      ensures InvoiceSum(items[k := it], id) == InvoiceSum(items, id) + Share(it, id)
    {
      InvoiceSumAdd(items, k, it, id);
    }
    var items' := items[k := it];
    forall j, l | j in items' && l in items' && j != l
      ensures items'[j].invoiceId != items'[l].invoiceId || items'[j].productId != items'[l].productId
    {
      if j != k && l != k {
        assert items'[j] == items[j] && items'[l] == items[l];
      }
    }
  }

  /** Deleting an item of an existing invoice, and lowering that invoice's
      total by the item's stored total, keeps the invariants. */
  lemma RemoveKeepsInvariant(invoices: map<InvoiceId, Invoice>, items: map<ItemId, Item>, k: ItemId)
    requires LedgerInvariant(invoices, items)
    requires k in items && items[k].invoiceId in invoices
    ensures var inv := invoices[items[k].invoiceId];
      LedgerInvariant(invoices[items[k].invoiceId := inv.(total := inv.total - items[k].totalPrice)], items - {k})
  {
    forall id | id in invoices
      ensures InvoiceSum(items - {k}, id) == InvoiceSum(items, id) - Share(items[k], id)
    {
      InvoiceSumRemove(items, k, id);
    }
  }

  /** Replacing an item by a consistent one for the same invoice and product,
      and moving the invoice total by the change in its stored total, keeps the invariants. */
  lemma ReplaceKeepsInvariant(invoices: map<InvoiceId, Invoice>, items: map<ItemId, Item>, k: ItemId, it: Item)
    requires LedgerInvariant(invoices, items)
    requires k in items && items[k].invoiceId in invoices && Consistent(it)
    requires it.invoiceId == items[k].invoiceId && it.productId == items[k].productId
    ensures var inv := invoices[it.invoiceId];
      LedgerInvariant(invoices[it.invoiceId := inv.(total := inv.total - items[k].totalPrice + it.totalPrice)], items[k := it])
  {
    forall id | id in invoices
      ensures InvoiceSum(items[k := it], id) == InvoiceSum(items, id) - Share(items[k], id) + Share(it, id)
    {
      InvoiceSumReplace(items, k, it, id);
    }
    var items' := items[k := it];
    forall j, l | j in items' && l in items' && j != l
      ensures items'[j].invoiceId != items'[l].invoiceId || items'[j].productId != items'[l].productId
    {
      if j != k && l != k {
        assert items'[j] == items[j] && items'[l] == items[l];
      }
    }
  }

  /** Changing an invoice's fields other than its total keeps the invariants. */
  lemma SameTotalKeepsInvariant(invoices: map<InvoiceId, Invoice>, items: map<ItemId, Item>, id: InvoiceId, inv: Invoice)
    requires LedgerInvariant(invoices, items)
    requires id in invoices && inv.total == invoices[id].total
    ensures LedgerInvariant(invoices[id := inv], items)
  {
  }

  /** Some item of invoice `inv` is for product `prod`. */
  predicate OnInvoice(items: map<ItemId, Item>, inv: InvoiceId, prod: ProductId)
  {
    exists k :: k in items && items[k].invoiceId == inv && items[k].productId == prod
  }
}

/** The invoice ledger: the request handlers of app/invoice/routes.py and
    app/payment/routes.py over the rows they read and write. A Ledger object
    stands for the database as the handlers see it; each method gives the
    committed state at the end of one request. */
module Ledger {
  import opened Http
  import S = InvoiceSchemas
  import opened Models
  import Pricing

  /** The due-date test of the issue route: a due date not strictly after the
      request time is in the past. */
  predicate DueDateInPast(now: S.Time, due: S.Time)
  {
    now >= due
  }

  /** An invoice of `vendor` exists under `id`. */
  predicate OwnedInvoice(invoices: map<InvoiceId, Invoice>, id: InvoiceId, vendor: VendorId)
  {
    id in invoices && invoices[id].vendorId == vendor
  }

  /** A product of `vendor` exists under `id`. */
  predicate OwnedProduct(products: map<ProductId, Product>, id: ProductId, vendor: VendorId)
  {
    id in products && products[id].vendorId == vendor
  }

  /** The row the add-item route stores. Its unit price is the product's, not
      the one in the request body (the source passes `unit_price` twice here;
      the explicit product price is the evident intent). */
  function NewItem(invoiceId: InvoiceId, productId: ProductId, schema: S.InvoiceItemBase, productPrice: real): (it: Item)
    ensures Consistent(it)
    ensures it.invoiceId == invoiceId && it.productId == productId
    ensures it.unitPrice == productPrice
    ensures it.description == schema.description && it.quantity == schema.quantity
    ensures it.tax == schema.tax && it.discount == schema.discount && it.additionalCharges == schema.additionalCharges
  {
    var total := Pricing.LineTotal(schema.quantity, productPrice, schema.tax, schema.discount, schema.additionalCharges);
    Item(invoiceId, productId, schema.description, schema.quantity, productPrice,
         schema.tax, schema.discount, schema.additionalCharges, total)
  }

  /** The row after an update-item request: the request's fields replace the
      item's, and the total is recomputed from the item's stored unit price
      (the source reads the live product price; the stored price is the
      evident intent, since the unit price is fixed when the item is added). */
  function UpdatedItem(it: Item, schema: S.UpdateInvoiceItem): (it': Item)
    ensures Consistent(it')
    ensures it'.invoiceId == it.invoiceId && it'.productId == it.productId && it'.unitPrice == it.unitPrice
    ensures it'.description == schema.description && it'.quantity == schema.quantity
    ensures it'.tax == schema.tax && it'.discount == schema.discount && it'.additionalCharges == schema.additionalCharges
  {
    var total := Pricing.LineTotal(schema.quantity, it.unitPrice, schema.tax, schema.discount, schema.additionalCharges);
    it.(description := schema.description, quantity := schema.quantity, tax := schema.tax,
        discount := schema.discount, additionalCharges := schema.additionalCharges, totalPrice := total)
  }

  /** The vendor listing: all of the vendor's invoices, or those whose status
      is named by a non-empty filter. */
  function VendorInvoices(invoices: map<InvoiceId, Invoice>, caller: Caller, filter: string): (r: Result<set<InvoiceId>>)
    ensures r.Err? <==> !caller.VendorUser?
    ensures r.Err? ==> r.error == Forbidden(RoleDenied)
    ensures r.Ok? ==> forall id :: id in r.value ==> OwnedInvoice(invoices, id, caller.vendorId)
  {
    if !caller.VendorUser? then Err(Forbidden(RoleDenied))
    else if filter == "" then
      Ok(set id | id in invoices && invoices[id].vendorId == caller.vendorId)
    else
      Ok(set id | id in invoices && invoices[id].vendorId == caller.vendorId && invoices[id].status.Name() == filter)
  }

  /** The statuses a customer may see. */
  predicate CustomerVisible(s: S.Status)
  {
    s.Name() in ["pending", "paid", "overdue"]
  }

  /** The visible statuses are exactly the non-draft ones. */
  lemma CustomerVisibleIsNonDraft(s: S.Status)
    ensures CustomerVisible(s) <==> s != S.Draft
  {
    var draft: S.Status := S.Draft;
    assert draft.Name()[0] == 'd';
  }

  /** The customer listing: the customer's invoices whose status is pending,
      paid or overdue, narrowed by a non-empty filter. */
  function CustomerInvoices(invoices: map<InvoiceId, Invoice>, caller: Caller, filter: string): (r: Result<set<InvoiceId>>)
    ensures r.Err? <==> !caller.CustomerUser?
    ensures r.Err? ==> r.error == Forbidden(RoleDenied)
    ensures r.Ok? ==> forall id :: id in r.value ==> id in invoices && invoices[id].customerId == caller.customerId
  {
    if !caller.CustomerUser? then Err(Forbidden(RoleDenied))
    else if filter == "" then
      Ok(set id | id in invoices && invoices[id].customerId == caller.customerId && CustomerVisible(invoices[id].status))
    else
      Ok(set id | id in invoices && invoices[id].customerId == caller.customerId && CustomerVisible(invoices[id].status)
                  && invoices[id].status.Name() == filter)
  }

  /** The vendor listing without a filter is exactly the vendor's invoices. */
  lemma VendorUnfilteredIsAll(invoices: map<InvoiceId, Invoice>, vendor: VendorId)
    ensures VendorInvoices(invoices, VendorUser(vendor), "").Ok?
    ensures forall id :: id in VendorInvoices(invoices, VendorUser(vendor), "").value <==> OwnedInvoice(invoices, id, vendor)
  {
  }

  /** With the filter naming status `s`, the vendor listing is exactly the
      vendor's invoices in status `s`. */
  lemma VendorFilterIsExact(invoices: map<InvoiceId, Invoice>, vendor: VendorId, s: S.Status)
    ensures VendorInvoices(invoices, VendorUser(vendor), s.Name()).Ok?
    ensures forall id :: id in VendorInvoices(invoices, VendorUser(vendor), s.Name()).value
                     <==> OwnedInvoice(invoices, id, vendor) && invoices[id].status == s
  {
    forall id | id in invoices
      ensures invoices[id].status.Name() == s.Name() <==> invoices[id].status == s
    {
      S.NameInjective(invoices[id].status, s);
    }
  }

  /** A non-empty filter that names no status yields an empty vendor listing. */
  lemma VendorUnknownFilterIsEmpty(invoices: map<InvoiceId, Invoice>, vendor: VendorId, filter: string)
    requires filter != ""
    requires forall s: S.Status :: s.Name() != filter
    ensures VendorInvoices(invoices, VendorUser(vendor), filter) == Ok({})
  {
    var r := VendorInvoices(invoices, VendorUser(vendor), filter);
    assert forall id :: id in r.value ==> invoices[id].status.Name() == filter;
    assert r.value == {};
  }

  /** The customer listing never holds a draft, whatever the filter. */
  lemma CustomerNeverSeesDrafts(invoices: map<InvoiceId, Invoice>, customer: CustomerId, filter: string)
    ensures CustomerInvoices(invoices, CustomerUser(customer), filter).Ok?
    ensures forall id :: id in CustomerInvoices(invoices, CustomerUser(customer), filter).value
                     ==> invoices[id].status != S.Draft
  {
    forall id | id in invoices { CustomerVisibleIsNonDraft(invoices[id].status); }
  }

  /** Asking the customer listing for drafts yields nothing. */
  lemma CustomerDraftFilterIsEmpty(invoices: map<InvoiceId, Invoice>, customer: CustomerId)
    ensures CustomerInvoices(invoices, CustomerUser(customer), "draft") == Ok({})
  {
    var r := CustomerInvoices(invoices, CustomerUser(customer), "draft");
    forall id | id in r.value ensures false {
      S.NameInjective(invoices[id].status, S.Draft);
      CustomerVisibleIsNonDraft(invoices[id].status);
    }
    assert r.value == {};
  }

  /** The unfiltered customer listing is exactly the customer's non-draft invoices. */
  lemma CustomerUnfilteredIsNonDrafts(invoices: map<InvoiceId, Invoice>, customer: CustomerId)
    ensures CustomerInvoices(invoices, CustomerUser(customer), "").Ok?
    ensures forall id :: id in CustomerInvoices(invoices, CustomerUser(customer), "").value
                     <==> id in invoices && invoices[id].customerId == customer && invoices[id].status != S.Draft
  {
    forall id | id in invoices { CustomerVisibleIsNonDraft(invoices[id].status); }
  }

  /** A filter naming a non-draft status lists exactly the customer's invoices
      in that status. */
  lemma CustomerFilterIsExact(invoices: map<InvoiceId, Invoice>, customer: CustomerId, s: S.Status)
    requires s != S.Draft
    ensures CustomerInvoices(invoices, CustomerUser(customer), s.Name()).Ok?
    ensures forall id :: id in CustomerInvoices(invoices, CustomerUser(customer), s.Name()).value
                     <==> id in invoices && invoices[id].customerId == customer && invoices[id].status == s
  {
    CustomerVisibleIsNonDraft(s);
    forall id | id in invoices
      ensures invoices[id].status.Name() == s.Name() <==> invoices[id].status == s
    {
      S.NameInjective(invoices[id].status, s);
    }
  }

  // The details of the HTTPException each route raises, as the routes spell them.
  const DraftOrPendingOnly: string := "You can only save an invoice as draft or pending."
  const DueDatePassed: string := "Due date cannot be in the past."
  const StatusInvoiceNotFound: string := "Invoice not found."
  const NoAccessToInvoice: string := " You do not have access to make changes to this invoice"
  const NoDraftUpdate: string := "Invoice cannot be updated to a draft."
  const InvoiceNotFound: string := "Invoice not found"
  const ProductNotFound: string := "Product not found"
  const ProductAlreadyOnInvoice: string := "This product is already on this invoice"
  const ItemDoesNotExist: string := "Invoice item does not exist"
  const ProductDoesNotExist: string := "Product does not exist"
  const InvoiceDoesNotExist: string := "Invoice does not exist"
  const ItemNotFound: string := "Product invoice item not found"
  const PaymentCompleted: string := "Invoice payment completed successfully"

  class Ledger {
    var invoices: map<InvoiceId, Invoice>
    var items: map<ItemId, Item>
    var products: map<ProductId, Product>
    var payments: seq<Payment>

    /** Every invoice's total is the sum of its items' stored totals, every
        item's stored total is its line total, and no product is twice on an invoice. */
    ghost predicate Valid()
      reads this
    {
      LedgerInvariant(invoices, items)
    }

    /** An empty ledger over a product catalogue. */
    constructor (catalogue: map<ProductId, Product>)
      ensures Valid()
      ensures invoices == map[] && items == map[] && products == catalogue && payments == []
    {
      invoices, items, products, payments := map[], map[], catalogue, [];
    }

    /** issue_invoice: a vendor opens an invoice for a customer, as a draft or
        pending, due strictly after `now`, with a zero total. `id` and `number`
        are the generated primary key and invoice number; the key is fresh. */
    method IssueInvoice(caller: Caller, customerId: CustomerId, schema: S.IssueInvoice, now: S.Time, id: InvoiceId, number: int)
      returns (r: Result<Invoice>)
      requires Valid()
      requires id !in invoices && forall k :: k in items ==> items[k].invoiceId != id
      modifies this
      ensures Valid()
      ensures items == old(items) && products == old(products) && payments == old(payments)
      ensures !caller.VendorUser? ==> r == Err(Forbidden(RoleDenied))
      ensures caller.VendorUser? && schema.status !in {S.Draft, S.Pending}
              ==> r == Err(BadRequest(DraftOrPendingOnly))
      ensures caller.VendorUser? && schema.status in {S.Draft, S.Pending} && DueDateInPast(now, schema.dueDate)
              ==> r == Err(BadRequest(DueDatePassed))
      ensures r.Ok? <==> caller.VendorUser? && schema.status in {S.Draft, S.Pending} && !DueDateInPast(now, schema.dueDate)
      ensures r.Err? ==> invoices == old(invoices)
      ensures r.Ok? ==> r.value == Invoice(number, customerId, caller.vendorId, now, schema.dueDate, schema.status, 0.0)
      ensures r.Ok? ==> invoices == old(invoices)[id := r.value]
    {
      if !caller.VendorUser? {
        return Err(Forbidden(RoleDenied));
      }
      if schema.status !in {S.Draft, S.Pending} {
        return Err(BadRequest(DraftOrPendingOnly));
      }
      if DueDateInPast(now, schema.dueDate) {
        return Err(BadRequest(DueDatePassed));
      }
      var invoice := Invoice(number, customerId, caller.vendorId, now, schema.dueDate, schema.status, 0.0);
      InvoiceSumNoItems(items, id);
      invoices := invoices[id := invoice];
      r := Ok(invoice);
    }

    /** update_invoice_status: the owning vendor moves an invoice to any status
        but draft; only the status changes. */
    method UpdateStatus(caller: Caller, id: InvoiceId, schema: S.UpdateInvoiceStatus) returns (r: Result<Invoice>)
      requires Valid()
      modifies this
      ensures Valid()
      ensures items == old(items) && products == old(products) && payments == old(payments)
      ensures !caller.VendorUser? ==> r == Err(Forbidden(RoleDenied))
      ensures caller.VendorUser? && id !in old(invoices) ==> r == Err(NotFound(StatusInvoiceNotFound))
      ensures caller.VendorUser? && id in old(invoices) && old(invoices)[id].vendorId != caller.vendorId
              ==> r == Err(Forbidden(NoAccessToInvoice))
      ensures caller.VendorUser? && OwnedInvoice(old(invoices), id, caller.vendorId) && schema.status == S.Draft
              ==> r == Err(BadRequest(NoDraftUpdate))
      ensures r.Ok? <==> caller.VendorUser? && OwnedInvoice(old(invoices), id, caller.vendorId) && schema.status != S.Draft
      ensures r.Err? ==> invoices == old(invoices)
      ensures r.Ok? ==> r.value == old(invoices)[id].(status := schema.status)
      ensures r.Ok? ==> invoices == old(invoices)[id := r.value]
    {
      if !caller.VendorUser? {
        return Err(Forbidden(RoleDenied));
      }
      if id !in invoices {
        return Err(NotFound(StatusInvoiceNotFound));
      }
      var invoice := invoices[id];
      if invoice.vendorId != caller.vendorId {
        return Err(Forbidden(NoAccessToInvoice));
      }
      if schema.status == S.Draft {
        return Err(BadRequest(NoDraftUpdate));
      }
      invoice := invoice.(status := schema.status);
      SameTotalKeepsInvariant(invoices, items, id, invoice);
      invoices := invoices[id := invoice];
      r := Ok(invoice);
    }

    /** add_item_to_invoice: the vendor puts one of its products on one of its
        invoices, once; the invoice total rises by the new line total.
        `itemId` is the generated primary key of the new row. */
    method AddItem(caller: Caller, invoiceId: InvoiceId, productId: ProductId, schema: S.InvoiceItemBase, itemId: ItemId)
      returns (r: Result<Item>)
      requires Valid()
      requires itemId !in items
      modifies this
      ensures Valid()
      ensures products == old(products) && payments == old(payments)
      ensures !caller.VendorUser? ==> r == Err(Forbidden(RoleDenied))
      ensures caller.VendorUser? && !OwnedInvoice(old(invoices), invoiceId, caller.vendorId)
              ==> r == Err(NotFound(InvoiceNotFound))
      ensures caller.VendorUser? && OwnedInvoice(old(invoices), invoiceId, caller.vendorId)
              && !OwnedProduct(products, productId, caller.vendorId)
              ==> r == Err(NotFound(ProductNotFound))
      ensures caller.VendorUser? && OwnedInvoice(old(invoices), invoiceId, caller.vendorId)
              && OwnedProduct(products, productId, caller.vendorId) && OnInvoice(old(items), invoiceId, productId)
              ==> r == Err(BadRequest(ProductAlreadyOnInvoice))
      ensures r.Ok? <==> caller.VendorUser? && OwnedInvoice(old(invoices), invoiceId, caller.vendorId)
                         && OwnedProduct(products, productId, caller.vendorId) && !OnInvoice(old(items), invoiceId, productId)
      ensures r.Err? ==> invoices == old(invoices) && items == old(items)
      ensures r.Ok? ==> r.value == NewItem(invoiceId, productId, schema, products[productId].unitPrice)
      ensures r.Ok? ==> items == old(items)[itemId := r.value]
      ensures r.Ok? ==> invoices == old(invoices)[invoiceId := old(invoices)[invoiceId].(total := old(invoices)[invoiceId].total + r.value.totalPrice)]
    {
      if !caller.VendorUser? {
        return Err(Forbidden(RoleDenied));
      }
      var vendor := caller.vendorId;
      if !OwnedInvoice(invoices, invoiceId, vendor) {
        return Err(NotFound(InvoiceNotFound));
      }
      if !OwnedProduct(products, productId, vendor) {
        return Err(NotFound(ProductNotFound));
      }
      if OnInvoice(items, invoiceId, productId) {
        return Err(BadRequest(ProductAlreadyOnInvoice));
      }
      var item := NewItem(invoiceId, productId, schema, products[productId].unitPrice);
      AddKeepsInvariant(invoices, items, itemId, item);
      items := items[itemId := item];
      var invoice := invoices[invoiceId];
      invoices := invoices[invoiceId := invoice.(total := invoice.total + item.totalPrice)];
      r := Ok(item);
    }

    /** remove_item_from_invoice: any vendor deletes an item by id; the item's
        invoice total drops by the item's stored total. Ownership is not checked. */
    method RemoveItem(caller: Caller, itemId: ItemId) returns (r: Result<()>)
      requires Valid()
      modifies this
      ensures Valid()
      ensures products == old(products) && payments == old(payments)
      ensures !caller.VendorUser? ==> r == Err(Forbidden(RoleDenied))
      ensures caller.VendorUser? && itemId !in old(items) ==> r == Err(NotFound(ItemDoesNotExist))
      ensures caller.VendorUser? && itemId in old(items) && old(items)[itemId].productId !in products
              ==> r == Err(NotFound(ProductDoesNotExist))
      ensures caller.VendorUser? && itemId in old(items) && old(items)[itemId].productId in products
              && old(items)[itemId].invoiceId !in old(invoices)
              ==> r == Err(NotFound(InvoiceDoesNotExist))
      ensures r.Ok? <==> caller.VendorUser? && itemId in old(items) && old(items)[itemId].productId in products
                         && old(items)[itemId].invoiceId in old(invoices)
      ensures r.Err? ==> invoices == old(invoices) && items == old(items)
      ensures r.Ok? ==> items == old(items) - {itemId}
      ensures r.Ok? ==> var inv := old(items)[itemId].invoiceId;
                        invoices == old(invoices)[inv := old(invoices)[inv].(total := old(invoices)[inv].total - old(items)[itemId].totalPrice)]
      ensures r.Ok? && (forall k :: k in items ==> items[k].invoiceId != old(items)[itemId].invoiceId)
              ==> invoices[old(items)[itemId].invoiceId].total == 0.0
    {
      if !caller.VendorUser? {
        return Err(Forbidden(RoleDenied));
      }
      if itemId !in items {
        return Err(NotFound(ItemDoesNotExist));
      }
      var item := items[itemId];
      if item.productId !in products {
        return Err(NotFound(ProductDoesNotExist));
      }
      if item.invoiceId !in invoices {
        return Err(NotFound(InvoiceDoesNotExist));
      }
      RemoveKeepsInvariant(invoices, items, itemId);
      items := items - {itemId};
      var invoice := invoices[item.invoiceId];
      invoices := invoices[item.invoiceId := invoice.(total := invoice.total - item.totalPrice)];
      if forall k :: k in items ==> items[k].invoiceId != item.invoiceId {
        InvoiceSumNoItems(items, item.invoiceId);
      }
      r := Ok(());
    }

    /** update_item_in_invoice: any vendor replaces an item's fields; the
        invoice total drops by the old stored total and rises by the new line
        total. A missing parent invoice makes the handler fail with nothing committed. */
    method UpdateItem(caller: Caller, itemId: ItemId, schema: S.UpdateInvoiceItem) returns (r: Result<Item>)
      requires Valid()
      modifies this
      ensures Valid()
      ensures products == old(products) && payments == old(payments)
      ensures !caller.VendorUser? ==> r == Err(Forbidden(RoleDenied))
      ensures caller.VendorUser? && itemId !in old(items) ==> r == Err(NotFound(ItemNotFound))
      ensures caller.VendorUser? && itemId in old(items) && old(items)[itemId].invoiceId !in old(invoices)
              ==> r == Err(ServerError)
      ensures r.Ok? <==> caller.VendorUser? && itemId in old(items) && old(items)[itemId].invoiceId in old(invoices)
      ensures r.Err? ==> invoices == old(invoices) && items == old(items)
      ensures r.Ok? ==> r.value == UpdatedItem(old(items)[itemId], schema)
      ensures r.Ok? ==> items == old(items)[itemId := r.value]
      ensures r.Ok? ==> var inv := old(items)[itemId].invoiceId;
                        invoices == old(invoices)[inv := old(invoices)[inv].(total := old(invoices)[inv].total - old(items)[itemId].totalPrice + r.value.totalPrice)]
    {
      if !caller.VendorUser? {
        return Err(Forbidden(RoleDenied));
      }
      if itemId !in items {
        return Err(NotFound(ItemNotFound));
      }
      var item := items[itemId];
      if item.invoiceId !in invoices {
        return Err(ServerError);
      }
      var invoice := invoices[item.invoiceId];
      // First commit: the old line total comes off the invoice.
      invoice := invoice.(total := invoice.total - item.totalPrice);
      // Second commit: the item takes its new fields and its new total goes back on.
      var updated := UpdatedItem(item, schema);
      invoice := invoice.(total := invoice.total + updated.totalPrice);
      ReplaceKeepsInvariant(invoices, items, itemId, updated);
      invoices := invoices[item.invoiceId := invoice];
      items := items[itemId := updated];
      r := Ok(updated);
    }

    /** process_payment_for_invoice: the invoice's customer pays it; the status
        becomes paid and one payment of the current total is recorded. There is
        no guard against paying an invoice twice. */
    method Pay(caller: Caller, invoiceId: InvoiceId) returns (r: Result<string>)
      requires Valid()
      modifies this
      ensures Valid()
      ensures items == old(items) && products == old(products)
      ensures invoiceId !in old(invoices) ==> r == Err(NotFound(InvoiceNotFound))
      ensures invoiceId in old(invoices) && !(caller.CustomerUser? && caller.customerId == old(invoices)[invoiceId].customerId)
              ==> r == Err(Forbidden(RoleDenied))
      ensures r.Ok? <==> invoiceId in old(invoices) && caller.CustomerUser? && caller.customerId == old(invoices)[invoiceId].customerId
      ensures r.Err? ==> invoices == old(invoices) && payments == old(payments)
      ensures r.Ok? ==> r.value == PaymentCompleted
      ensures r.Ok? ==> invoices == old(invoices)[invoiceId := old(invoices)[invoiceId].(status := S.Paid)]
      ensures r.Ok? ==> payments == old(payments) + [Payment(old(invoices)[invoiceId].total, invoiceId)]
    {
      if invoiceId !in invoices {
        return Err(NotFound(InvoiceNotFound));
      }
      var invoice := invoices[invoiceId];
      if !(caller.CustomerUser? && caller.customerId == invoice.customerId) {
        return Err(Forbidden(RoleDenied));
      }
      SameTotalKeepsInvariant(invoices, items, invoiceId, invoice.(status := S.Paid));
      invoices := invoices[invoiceId := invoice.(status := S.Paid)];
      payments := payments + [Payment(invoice.total, invoiceId)];
      r := Ok(PaymentCompleted);
    }
  }

  /** Paying the same invoice twice succeeds twice and records two equal
      payments of its total, which the second payment leaves unchanged. */
  method PayTwice(ledger: Ledger, customer: CustomerId, id: InvoiceId) returns (first: Result<string>, second: Result<string>)
    requires ledger.Valid()
    requires id in ledger.invoices && ledger.invoices[id].customerId == customer
    modifies ledger
    ensures first.Ok? && second.Ok? && id in ledger.invoices
    ensures ledger.payments == old(ledger.payments) + [Payment(old(ledger.invoices[id].total), id), Payment(old(ledger.invoices[id].total), id)]
    ensures ledger.invoices[id].status == S.Paid && ledger.invoices[id].total == old(ledger.invoices[id].total)
  {
    first := ledger.Pay(CustomerUser(customer), id);
    second := ledger.Pay(CustomerUser(customer), id);
  }

  /** A vendor issues an invoice, adds 3 x 10.00 at 10% tax, 5% discount and
      2.00 charges (total 33.50), cuts the quantity to 1 (total 12.50), and the
      customer pays 12.50. */
  method WorkedExample()
  {
    var vendor, customer := VendorUser(1), CustomerUser(2);
    var ledger := new Ledger(map[7 := Product(1, 10.0)]);
    var issued := ledger.IssueInvoice(vendor, 2, S.IssueInvoice(100), 0, 5, 1001);
    assert issued.Ok? && ledger.invoices[5].total == 0.0;

    var line := S.InvoiceItemBase("widget", 3, 99.0, Some(0.10), Some(0.05), Some(2.0));
    var added := ledger.AddItem(vendor, 5, 7, line, 40);
    assert !OnInvoice(map[], 5, 7);
    Pricing.WorkedLineTotals();
    assert added.Ok? && added.value.unitPrice == 10.0;
    assert ledger.invoices[5].total == 33.5;

    var updated := ledger.UpdateItem(vendor, 40, S.UpdateInvoiceItem("widget", 1, Some(0.10), Some(0.05), Some(2.0)));
    assert updated.Ok? && ledger.invoices[5].total == 12.5;

    var paid := ledger.Pay(customer, 5);
    assert paid.Ok? && ledger.payments == [Payment(12.5, 5)] && ledger.invoices[5].status == S.Paid;
  }
}

/** Six places where the source, as written, departs from what it evidently
    intends. Each is modelled here as written, with an input that shows the
    departure; the rest of the model uses the corrected behaviour. */
module AsWritten {
  import opened Http
  import S = InvoiceSchemas
  import opened Models
  import Ledger
  import Pricing

  // Add item: the InvoiceItem row is built from the dumped request body AND
  // explicit keyword arguments. The body has a `unit_price` field, so the
  // keyword is given twice and Python raises TypeError before anything is stored.

  /** The keys of InvoiceItemBase.model_dump(), in declaration order. */
  const DumpedItemKeywords: seq<string> := ["description", "quantity", "unit_price", "tax", "discount", "additional_charges"]

  /** The keywords the add-item route passes explicitly after the dumped body. */
  const ExplicitItemKeywords: seq<string> := ["unit_price", "total_price", "invoice_id", "product_id"]

  predicate DistinctKeywords(ks: seq<string>)
  {
    forall i, j :: 0 <= i < j < |ks| ==> ks[i] != ks[j]
  }

  /** A Python call with these keyword arguments binds them, or raises
      TypeError (a 500) when one is repeated. */
  function BindKeywords(keywords: seq<string>): (r: Result<seq<string>>)
  {
    if DistinctKeywords(keywords) then Ok(keywords) else Err(ServerError)
  }

  /** As written, the row construction of every add-item request that passes
      the checks raises: `unit_price` is bound twice. */
  lemma AddItemRowRaises()
    ensures BindKeywords(DumpedItemKeywords + ExplicitItemKeywords) == Err(ServerError)
  {
    var ks := DumpedItemKeywords + ExplicitItemKeywords;
    assert ks[2] == ks[6];
  }

  /** Leaving `unit_price` out of the dumped body, as the evident intent asks,
      binds every keyword once. */
  lemma AddItemRowCorrectedBinds()
    ensures BindKeywords(["description", "quantity", "tax", "discount", "additional_charges"] + ExplicitItemKeywords).Ok?
  {
    var ks := ["description", "quantity", "tax", "discount", "additional_charges"] + ExplicitItemKeywords;
    forall i, j | 0 <= i < j < |ks| ensures ks[i] != ks[j] {
      assert ks[i][0] != ks[j][0] || |ks[i]| != |ks[j]|;
    }
  }

  // Update item: the new line total is computed from `invoice_item.product`,
  // the live product row, instead of the unit price stored on the item.

  /** The updated row as written: like the corrected update, but priced at the
      product's current unit price while keeping the stored unit price. */
  function UpdatedItemAsWritten(it: Item, schema: S.UpdateInvoiceItem, live: Product): (it': Item)
  {
    Ledger.UpdatedItem(it, schema).(totalPrice := Pricing.LineTotal(schema.quantity, live.unitPrice, schema.tax, schema.discount, schema.additionalCharges))
  }

  /** While the product's price is the one that was copied, both readings agree. */
  lemma LivePriceAgreesWhileUnchanged(it: Item, schema: S.UpdateInvoiceItem, live: Product)
    requires live.unitPrice == it.unitPrice
    ensures UpdatedItemAsWritten(it, schema, live) == Ledger.UpdatedItem(it, schema)
  {
  }

  /** An item added at 10.00 whose product is repriced to 12.00: updating it
      with unchanged fields stores a total of 12.00 beside a unit price of
      10.00, so the stored row no longer agrees with its own fields; the
      corrected update keeps 10.00. */
  lemma LivePriceBreaksItemConsistency()
    ensures var it := Ledger.NewItem(1, 7, S.InvoiceItemBase("pen", unitPrice := 10.0), 10.0);
            var schema := S.UpdateInvoiceItem("pen", 1, Some(0.0), Some(0.0), Some(0.0));
            && !Consistent(UpdatedItemAsWritten(it, schema, Product(1, 12.0)))
            && Consistent(Ledger.UpdatedItem(it, schema))
            && Ledger.UpdatedItem(it, schema).totalPrice == 10.0
  {
  }

  // Issue invoice: the default due date `datetime.now() + timedelta(days=7)`
  // is evaluated once, when the schema class is defined at import time.

  /** The default request body as written, for a process that imported the
      schema module at `loadedAt`. */
  function FrozenIssueDefault(loadedAt: S.Time): (s: S.IssueInvoice)
  {
    S.IssueInvoice(loadedAt + S.Week)
  }

  /** A week after the import, every request relying on the default due date
      is rejected as due in the past. */
  lemma FrozenDefaultExpires(loadedAt: S.Time, now: S.Time)
    requires now >= loadedAt + S.Week
    ensures Ledger.DueDateInPast(now, FrozenIssueDefault(loadedAt).dueDate)
  {
  }

  /** The default computed per request is never in the past. */
  lemma RequestTimeDefaultAccepted(now: S.Time)
    ensures !Ledger.DueDateInPast(now, S.IssueInvoiceDefault(now).dueDate)
  {
  }

  // Payment: the route calls `is_invoice_customer` on the invoice permissions
  // module, which defines only `is_invoice_vendor`. The attribute lookup
  // raises AttributeError (a 500) before the invoice is looked at.

  /** The helpers app/invoice/permissions.py defines. */
  const InvoicePermissionHelpers: set<string> := {"is_invoice_vendor"}

  /** An attribute lookup on a module: the helper, or AttributeError (a 500). */
  function LookupHelper(defined: set<string>, name: string): (r: Result<string>)
  {
    if name in defined then Ok(name) else Err(ServerError)
  }

  /** The checks of the payment route in the order written, for a permissions
      module defining `defined`: the customer helper first, then the 404. */
  function PaymentChecksAsWritten(defined: set<string>, invoices: map<InvoiceId, Invoice>, invoiceId: InvoiceId): (r: Result<()>)
  {
    match LookupHelper(defined, "is_invoice_customer")
    case Err(e) => Err(e)
    case Ok(_) => if invoiceId !in invoices then Err(NotFound(Ledger.InvoiceNotFound)) else Ok(())
  }

  /** As written, every payment request fails with a 500, for any caller and
      any invoice, existing or not. */
  lemma PaymentAlwaysFailsAsWritten(invoices: map<InvoiceId, Invoice>, invoiceId: InvoiceId)
    ensures PaymentChecksAsWritten(InvoicePermissionHelpers, invoices, invoiceId) == Err(ServerError)
  {
    assert "is_invoice_customer" != "is_invoice_vendor" by {
      assert |"is_invoice_customer"| != |"is_invoice_vendor"|;
    }
  }

  // Role checks: the invoice routes call `user_permissions.is_vendor` and
  // `user_permissions.is_customer`, but app/user/permissions.py defines at
  // module level only the class UserPermissions (with the decorators
  // is_admin and is_employee) beside its imports. Each lookup raises
  // AttributeError (a 500) before the route does anything else.

  /** The names app/user/permissions.py binds at module level. */
  const UserPermissionNames: set<string> := {"HTTPException", "status", "User", "UserPermissions"}

  /** A role check in the order written: the helper lookup, then the 403 for
      a caller without the role. */
  function RoleCheckAsWritten(defined: set<string>, helper: string, hasRole: bool): (r: Result<()>)
  {
    match LookupHelper(defined, helper)
    case Err(e) => Err(e)
    case Ok(_) => if hasRole then Ok(()) else Err(Forbidden(RoleDenied))
  }

  /** As written, the vendor and customer role checks fail with a 500 for
      every caller, vendors and customers included. */
  lemma RoleChecksAlwaysFailAsWritten(caller: Caller)
    ensures RoleCheckAsWritten(UserPermissionNames, "is_vendor", caller.VendorUser?) == Err(ServerError)
    ensures RoleCheckAsWritten(UserPermissionNames, "is_customer", caller.CustomerUser?) == Err(ServerError)
  {
    assert "is_vendor" !in UserPermissionNames by {
      assert |"is_vendor"| !in {|"HTTPException"|, |"status"|, |"User"|, |"UserPermissions"|};
    }
    assert "is_customer" !in UserPermissionNames by {
      assert |"is_customer"| !in {|"HTTPException"|, |"status"|, |"User"|, |"UserPermissions"|};
    }
  }

  // Update item without its product: the first commit lowers the invoice
  // total; pricing against `invoice_item.product`, which is None once the
  // product row is deleted, then raises AttributeError (a 500), so the
  // lowered total stays committed beside the unchanged item.

  /** The invoices after an update-item request for an item whose product is
      gone, as written: only the first commit took effect. */
  function UpdateWithoutProductAsWritten(invoices: map<InvoiceId, Invoice>, items: map<ItemId, Item>, itemId: ItemId): (invoices': map<InvoiceId, Invoice>)
    requires itemId in items && items[itemId].invoiceId in invoices
  {
    var it := items[itemId];
    var inv := invoices[it.invoiceId];
    invoices[it.invoiceId := inv.(total := inv.total - it.totalPrice)]
  }

  /** That partial commit breaks the ledger invariant for good whenever the
      item's total is not zero: its invoice's total no longer equals the sum
      of its items. */
  lemma PartialCommitBreaksTotals(invoices: map<InvoiceId, Invoice>, items: map<ItemId, Item>, itemId: ItemId)
    requires LedgerInvariant(invoices, items)
    requires itemId in items && items[itemId].invoiceId in invoices
    requires items[itemId].totalPrice != 0.0
    ensures !TotalsMatch(UpdateWithoutProductAsWritten(invoices, items, itemId), items)
  {
    var id := items[itemId].invoiceId;
    var after := UpdateWithoutProductAsWritten(invoices, items, itemId);
    assert after[id].total != InvoiceSum(items, id);
  }
}

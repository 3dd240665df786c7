# Invoice Management System API — a Dafny model of the invoice core

This project models the invoice core of a FastAPI service. Vendors issue
invoices to customers and put their own products on them as line items.
Each line total comes from a quantity, a unit price, a tax rate, a discount
rate and flat additional charges. An invoice's total follows its items.
Customers list the invoices addressed to them and pay them.

The model has these parts:

- **Pricing** (`pricing.dfy`): the `total_price` helper of the invoice
  routes, in exact arithmetic.
- **InvoiceSchemas** (`invoice_schemas.dfy`): the request bodies with their
  defaults, the item schema's own total, and the status enumeration.
- **Models** (`models.dfy`): the rows the routes read and write (invoice,
  invoice item, product, payment). It also holds the ledger invariant: every
  invoice's total is the sum of its items' stored totals, every stored item
  total is the line total of that item's fields, and a product appears on an
  invoice at most once.
- **Ledger** (`ledger.dfy`): the database as the request handlers see it, as
  a `Ledger` class with fields for invoices, items, products and payments.
  - One method per state-changing route: issue, status update, add item,
    remove item, update item and pay. Each method states the full error
    ladder of its route (status code and detail), its committed new state,
    and that it keeps the invariant.
  - The two listing routes are functions over the invoice map.
- **UserUtils** (`user_utils.dfy`): the e-mail and password validators, as
  predicates. Each regular expression is stated piece by piece and then
  characterised in plain terms.
- **Upload** (`upload.dfy`): the extension check of the file-upload helper
  and where an accepted file is stored.
- **Text** (`text.dfy`) and **Http** (`http.dfy`): string helpers, and an
  error ladder over HTTP failures (`Result`, `Failure`, the caller's role).
- **AsWritten** (`as_written.dfy`): six places where the code as written
  does something other than what it evidently intends (see Findings).

The caller is an input: a vendor, a customer or some other user. The role
helpers the routes call are defined nowhere in the repository (see
Findings); the model gives the evidently intended 403 for a caller without
the role, with the placeholder detail `RoleDenied`. Generated keys (UUIDs, invoice numbers) and the request time
are parameters. Where a route makes two commits, the model gives the state
after the second.

## Model

| member | source | states |
|---|---|---|
| Pricing.LineTotal | app/invoice/routes.py:20-26 | Definition: quantity × price, plus tax and minus discount on that amount, plus the flat charges; a missing rate or charge is 0. |
| Pricing.LineTotalFactored | app/invoice/routes.py:20-26 | The line total is quantity × price × (1 + tax − discount) + charges. |
| Pricing.MissingMeansZero | app/invoice/routes.py:20-26 | A missing rate or charge counts as 0.0. With neither rates nor charges the total is quantity × price. |
| Pricing.EqualRatesCancel | app/invoice/routes.py:20-26 | Equal tax and discount rates cancel, whatever the rate. |
| Pricing.ChargesAddFlat | app/invoice/routes.py:20-26 | The additional charges are flat: the total moves by exactly their change. |
| Pricing.WorkedLineTotals | app/invoice/routes.py:20-26 | 3 × 10.00 at 10% tax, 5% discount and 2.00 charges is 33.50. The same line at quantity 1 is 12.50. |
| InvoiceSchemas.NameInjective | app/invoice/routes.py:42-45 | Distinct statuses have distinct string values, so a filter string names at most one status. |
| InvoiceSchemas.InvoiceItemBase.TotalPriceBeforeTax | app/invoice/schemas.py:19-21 | Definition: quantity × unit price. |
| InvoiceSchemas.InvoiceItemBase.TotalPrice | app/invoice/schemas.py:23-27 | Definition: the pre-tax total, plus tax and minus discount on it, plus the flat charges; a missing rate or charge is 0. |
| InvoiceSchemas.ItemDefaults | app/invoice/schemas.py:12-17 | An item body that gives only description and price has quantity 1 and zero tax, discount and charges. Its total is the unit price. |
| InvoiceSchemas.TotalPriceIsLineTotal | app/invoice/schemas.py:23-27 | The schema's own total agrees with the route helper's line total on the same fields. |
| InvoiceSchemas.EqualRatesCancel | app/invoice/schemas.py:23-27 | Equal tax and discount leave the pre-tax total plus charges. |
| InvoiceSchemas.IssueInvoiceDefault | app/invoice/schemas.py:77-78 | The default issue body, taken per request, is pending and due exactly one week after the request time, so strictly after it. |
| InvoiceSchemas.StatusDefaults | app/invoice/schemas.py:74-84 | Both status-carrying bodies default to pending. |
| Models.InvoiceSumAdd | app/invoice/routes.py:181-184 | Adding an item raises its invoice's item sum by exactly that item's total. No other invoice's sum changes. |
| Models.InvoiceSumRemove | app/invoice/routes.py:257-260 | An invoice's item sum is any one item's share plus the sum of the other items. |
| Models.InvoiceSumReplace | app/invoice/routes.py:304-314 | Replacing an item changes its invoice's sum by the new total minus the old total. |
| Models.InvoiceSumNoItems | app/invoice/routes.py:87-91 | An invoice with no items has item sum 0, which matches its starting total. |
| Models.AddKeepsInvariant | app/invoice/routes.py:163-184 | A new, consistent item for a product not yet on the invoice, with that invoice's total raised by the item's total, keeps the invariant. |
| Models.RemoveKeepsInvariant | app/invoice/routes.py:257-260 | Deleting an item and lowering its invoice's total by the item's stored total keeps the invariant. |
| Models.ReplaceKeepsInvariant | app/invoice/routes.py:304-314 | Replacing an item by a consistent one on the same invoice and product, with the total adjusted by the difference, keeps the invariant. |
| Models.SameTotalKeepsInvariant | app/invoice/routes.py:130 | Changing an invoice without changing its total (a status change) keeps the invariant. |
| Ledger.NewItem | app/invoice/routes.py:171-179 | The stored row carries the request's fields, the product's unit price and the line total at that price. It is consistent. |
| Ledger.UpdatedItem | app/invoice/routes.py:308-312 | The updated row takes the request's fields, keeps invoice, product and stored unit price, and is consistent. |
| Ledger.VendorInvoices | app/invoice/routes.py:29-47 | A non-vendor is refused with 403. A vendor only ever sees its own invoices. |
| Ledger.VendorUnfilteredIsAll | app/invoice/routes.py:37-40 | Without a filter, the vendor listing is exactly the vendor's invoices. |
| Ledger.VendorFilterIsExact | app/invoice/routes.py:41-45 | With a filter naming status s, the vendor listing is exactly the vendor's invoices in status s. |
| Ledger.VendorUnknownFilterIsEmpty | app/invoice/routes.py:41-45 | A filter that names no status yields nothing. |
| Ledger.CustomerVisibleIsNonDraft | app/invoice/routes.py:61 | The statuses pending, paid and overdue are exactly the non-draft ones. |
| Ledger.CustomerInvoices | app/invoice/routes.py:50-70 | A non-customer is refused with 403. A customer only ever sees invoices addressed to them. |
| Ledger.CustomerNeverSeesDrafts | app/invoice/routes.py:58-68 | With any filter, the customer listing holds no draft. |
| Ledger.CustomerDraftFilterIsEmpty | app/invoice/routes.py:63-68 | Asking for drafts gives an empty customer listing. |
| Ledger.CustomerUnfilteredIsNonDrafts | app/invoice/routes.py:58-62 | Without a filter, the customer listing is exactly the customer's non-draft invoices. |
| Ledger.CustomerFilterIsExact | app/invoice/routes.py:63-68 | With a filter naming a non-draft status, the customer listing is exactly the customer's invoices in that status. |
| Ledger.Ledger.IssueInvoice | app/invoice/routes.py:73-96 | Each refusal comes in order: 403 for a non-vendor, then 400 for a status other than draft or pending, then 400 for a due date not after now. It succeeds exactly when none applies. It then stores one new invoice with total 0, its vendor as owner and the body's status and due date. Nothing else changes and the invariant holds. |
| Ledger.Ledger.UpdateStatus | app/invoice/routes.py:113-133 | Refusals: 403 for a role, then 404, then 403 for another vendor's invoice, then 400 for draft. Otherwise only that invoice's status changes, to the requested one. The invariant holds. |
| Ledger.Ledger.AddItem | app/invoice/routes.py:136-189 | Refusals: 403, then 404 for an invoice the vendor does not own, then 404 for a product the vendor does not own, then 400 when the product is already on the invoice. Otherwise one item is stored, as NewItem gives it at the product's price, and the invoice total rises by its line total. The invariant holds. |
| Ledger.Ledger.RemoveItem | app/invoice/routes.py:237-262 | Refusals: 403, then 404 for a missing item, product or invoice, in that order. Otherwise the item is deleted and its invoice's total drops by its stored total. That total is 0 once the invoice has no items left. The invariant holds. |
| Ledger.Ledger.UpdateItem | app/invoice/routes.py:266-318 | Refusals: 403, then 404 for a missing item, then 500 with nothing changed when its invoice is missing. Otherwise the item becomes UpdatedItem, and the invoice total loses the old line total and gains the new one. The invariant holds. |
| Ledger.Ledger.Pay | app/payment/routes.py:14-40 | Refusals: 404 for a missing invoice, then 403 unless the caller is its customer. Otherwise the invoice becomes paid, with its total unchanged, and one payment of that total is appended. Nothing else changes. |
| Ledger.PayTwice | app/payment/routes.py:14-40 | Nothing stops a second payment. Paying twice succeeds twice and records two equal payments of the unchanged total. |
| Ledger.WorkedExample | app/invoice/routes.py:136-189 | A concrete run: issue, add 3 × 10.00 at 10% tax, 5% discount and 2.00 charges (total 33.50), update the quantity to 1 (total 12.50), pay 12.50; the same run touches app/invoice/routes.py:266-318 and app/payment/routes.py:14-40. |
| AsWritten.AddItemRowRaises | app/invoice/routes.py:173-179 | The row construction as written repeats `unit_price` and fails with a 500. |
| AsWritten.AddItemRowCorrectedBinds | app/invoice/routes.py:173-179 | Without `unit_price` in the dumped body, every keyword binds once. |
| AsWritten.LivePriceAgreesWhileUnchanged | app/invoice/routes.py:310 | While the product price equals the stored price, as-written and corrected updates agree. |
| AsWritten.LivePriceBreaksItemConsistency | app/invoice/routes.py:310 | After a reprice, the as-written update stores a total that disagrees with the row's own fields. The corrected update does not. |
| AsWritten.FrozenDefaultExpires | app/invoice/schemas.py:77 | A week after import, every request relying on the default due date is refused as due in the past. |
| AsWritten.RequestTimeDefaultAccepted | app/invoice/schemas.py:77 | The per-request default is never in the past. |
| AsWritten.RoleChecksAlwaysFailAsWritten | app/user/permissions.py:1-34 | The module binds no `is_vendor` or `is_customer`, so the vendor and customer role checks fail with a 500 for every caller. |
| AsWritten.PartialCommitBreaksTotals | app/invoice/routes.py:304-310 | As written, an update of an item whose product is gone commits only the lowered invoice total and then fails, which leaves that invoice's total off the sum of its items whenever the item's total is not 0. |
| AsWritten.PaymentAlwaysFailsAsWritten | app/invoice/permissions.py:6-10 | The permissions module defines only the vendor helper, so every payment request fails with a 500. |
| UserUtils.IsValidPassword | app/user/utils.py:28-38 | Definition: a match of the password expression, piece by piece: four lookaheads (upper, lower, digit, special, each reached without a newline), at least 8 characters, all from the allowed set. |
| UserUtils.PasswordCharacterisation | app/user/utils.py:28-38 | A password is valid exactly when it has at least 8 characters, all from `[A-Za-z0-9@$!%*?&]`, including an upper-case letter, a lower-case letter, a digit and one of `@$!%*?&`. |
| UserUtils.ForeignCharRejected | app/user/utils.py:33 | One character outside the allowed set makes any password invalid. |
| UserUtils.PasswordAccepted | app/user/utils.py:33 | "Passw0rd!" is valid. |
| UserUtils.PasswordsRejected | app/user/utils.py:33 | "Pass w0rd!", "Passw0rd#" and the 7-character "Pa5s!wd" are invalid. |
| UserUtils.IsValidEmail | app/user/utils.py:16-25 | Definition: a match of the e-mail expression: some `@` and `.` split the address into a non-empty local run, a non-empty domain run and at least two letters. |
| UserUtils.EmailCharacterisation | app/user/utils.py:16-25 | An address matches exactly when it has one `@`, a non-empty local part over `[A-Za-z0-9._%+-]`, and a domain over `[A-Za-z0-9.-]` with something before its last dot and at least two letters after it. |
| UserUtils.ShapeSplits | app/user/utils.py:20 | An `@` followed by a well-shaped domain is where a match splits, at the domain's last dot. |
| UserUtils.TwoAtsRejected | app/user/utils.py:20 | Two `@` make any address invalid. |
| UserUtils.ForeignLocalCharRejected | app/user/utils.py:20 | A character outside the local-part class before an `@` makes the address invalid. |
| UserUtils.NoDotAfterAtRejected | app/user/utils.py:20 | No dot after the `@` makes the address invalid. |
| UserUtils.EmailAccepted | app/user/utils.py:20 | "jo@ex.io" is valid. |
| UserUtils.EmailsRejected | app/user/utils.py:20 | "a@b@ex.io", "jo ex@ex.io" and "jo@exio" are invalid. |
| Upload.Lower | app/utils.py:21 | Lowering keeps the length and maps each character to its ASCII lower-case form. |
| Upload.LowerIdempotent | app/utils.py:21 | Lowering twice is lowering once. |
| Upload.JoinSplit | app/utils.py:21 | Joining the pieces of a split on the same separator gives the string back. |
| Upload.Extension | app/utils.py:20-21 | Definition: the last piece of the lowered file name split on dots. |
| Upload.ExtensionAfterLastDot | app/utils.py:21 | The extension is the lowered name after its last dot, or the whole lowered name when there is no dot. |
| Upload.NoDotWholeName | app/utils.py:21 | A name without a dot is its own extension, lowered. |
| Upload.ExtensionIsClean | app/utils.py:21 | The extension holds no dot and no upper-case letter. |
| Upload.ExtensionOfDotted | app/utils.py:21 | Anything, a dot and a dot-free part has that part, lowered, as its extension ("a.tar.gz" is judged by "gz"). |
| Upload.CheckExtension | app/utils.py:20-25 | Definition: refused with 400 "Invalid file format" when a non-empty list is given and the extension is not in it; otherwise accepted. |
| Upload.CheckDecides | app/utils.py:20-25 | A file passes exactly when no list or an empty one is given, or the lowered text after the last dot of its name is listed. |
| Upload.NoListAcceptsAll | app/utils.py:20-25 | No list, or an empty one, lets every file through. |
| Upload.ListDecides | app/utils.py:20-25 | With a non-empty list, a file passes exactly when the lowered text after the last dot of its name is listed. Otherwise it is refused with 400. |
| Upload.FilenameCaseIgnored | app/utils.py:20-25 | The case of the client's file name does not change the verdict. |
| Upload.UpperEntryNeverMatches | app/utils.py:20-25 | An allowed entry with an upper-case letter matches no file. |
| Upload.UpperCaseNameExample | app/utils.py:20-25 | "A.PNG" passes ["png"] and is refused by ["PNG"]. |
| Upload.UploadFile | app/utils.py:16-46 | The upload succeeds exactly when no non-empty list is given or the lowered text after the last dot of the client's name is listed. A refusal is 400 "Invalid file format". An accepted file is reported under the new name, with the path joined from uploads, the folder and the new name. |

## Left out

- Persistence, sessions, HTTP routing, authentication and JWT, password hashing and e-mail sending are not modelled. Neither are the product, user and admin routes. The database is the `Ledger` object's fields.
- The role helpers `user_permissions.is_vendor` and `is_customer`, called at app/invoice/routes.py:33, 54, 77, 117, 140, 241 and 270, exist nowhere in the repository: app/user/permissions.py defines only the class UserPermissions with the decorators is_admin and is_employee (see Findings). The model gives the evidently intended check, a 403 for a caller without the role; its detail is unknown and left as the placeholder `RoleDenied`.
- Money is exact `real`. The float arithmetic of the line total and the `Decimal` conversion of invoice totals are not modelled, so neither is their rounding.
- Time is an integer count of microseconds. Time zones (the routes strip them) and the clock are inputs.
- Keys and numbers are fresh parameters: invoice and item UUIDs and the invoice number the database generates. The issue date of a new invoice is the request time. The payment's own id and timestamp are not modelled.
- Ledger.Ledger.Pay: the source calls `is_invoice_customer`, which app/invoice/permissions.py does not define, before it checks that the invoice exists (see Findings). The model follows the evident intent and checks existence first, then that the caller is the invoice's customer. The 403 detail of that check is `RoleDenied`.
- Ledger.Ledger.UpdateItem: gives the state after the second commit. The state between the two commits is not modelled: there the invoice total has lost the old line total and the item is still unchanged. A missing parent invoice fails before either commit, so it is a 500 with nothing changed. An item whose product row has been deleted is updated at its stored price; as written the route fails between the two commits instead (see Findings).
- Ledger.Ledger.UpdateItem: the body schema `UpdateInvoiceItem` is not defined in app/invoice/schemas.py. The signature at app/invoice/routes.py:267 names `schemas.UpdateInvoiceItem`, and Python evaluates that annotation when the function is defined, so as written app/invoice/routes.py fails to import at all and none of its routes is served. The module fails earlier still: app/invoice/routes.py:12 imports `Vendor` from app/user/models.py, which defines only Role, User, UserModel, Customer and CustomerModel, and app/invoice/permissions.py:3 makes the same import. Nor does app/main.py:5-6 mount the invoice or the payment router. The model sets that aside and assumes the schema carries description, quantity, tax, discount and additional charges, with no price.
- Ledger.Ledger.RemoveItem and Ledger.Ledger.UpdateItem: the source checks no item ownership here (any vendor may act), and the model keeps that.
- InvoiceSchemas.Status: app/invoice/models.py is cut off before the enumeration; the model takes it to be a string-valued enum with the values draft, pending, paid and overdue, which is what the routes' comparisons with string literals (app/invoice/routes.py:61, 81, 127) rely on.
- Ledger.VendorInvoices and Ledger.CustomerInvoices: the listings are sets. Row order and the response schema's fields are not modelled.
- Ledger.VendorInvoices and Ledger.CustomerInvoices: a non-empty filter that names no status is modelled as matching nothing. How the column is declared is not part of this model (app/invoice/models.py is cut off before it); if it is a database enum, PostgreSQL rejects such a value and the route fails with a 500 instead.
- UserUtils.IsValidPassword and UserUtils.IsValidEmail: these are predicates, which shows they return a bool and have no side effects.
  - Their classes are ASCII. Python's `\d` also matches other Unicode digits; that is not modelled.
  - So is the quirk that `$` also matches just before a final newline: an input ending in "\n" is treated as invalid.
- Upload.Lower: only ASCII letters are lowered. Full Unicode case mapping is not modelled.
- Upload.UploadFile: creating the folders, writing the bytes and the absolute BASE_DIR prefix are not modelled. The result gives the reported name and the path as its three joined parts. Where the file really lands is not captured: `os.path.join` drops the earlier parts when the new name is absolute, and the `mkdir uploads\{upload_folder}` command at app/utils.py:34 does not create the folder on a POSIX shell, so the write can fail.
- The model follows the routes' own status codes and order: a product already on an invoice is 400 (app/invoice/routes.py:169), and a status update checks existence (404) before ownership (403).

## Findings

| source | as written | input that shows it | evidently intended | confidence | as-written member | corrected member |
|---|---|---|---|---|---|---|
| app/invoice/routes.py:173-179 | `models.InvoiceItem(**schema.model_dump(), unit_price=product.unit_price, ...)`; the dumped body already holds `unit_price` | any add-item request that passes the checks | the row takes the request's other fields and the product's unit price | not executed; high (Python rejects a repeated keyword argument) | AsWritten.AddItemRowRaises | Ledger.NewItem |
| app/invoice/routes.py:310 | the new total is priced with `invoice_item.product`, the live product row | item added at 10.00, product repriced to 12.00, update with unchanged fields | the total is priced at the unit price stored on the item, so the row stays consistent | not executed; medium | AsWritten.LivePriceBreaksItemConsistency | Ledger.UpdatedItem |
| app/invoice/schemas.py:77 | the default `due_date` is evaluated once, at import | an issue request without due date more than a week after the process started | the default is a week after each request | not executed; high | AsWritten.FrozenDefaultExpires | InvoiceSchemas.IssueInvoiceDefault |
| app/payment/routes.py:21 | `invoice_permissions.is_invoice_customer(...)`, a helper app/invoice/permissions.py does not define | any payment request | check that the invoice exists, then that the caller is its customer | not executed; high for the file as it stands | AsWritten.PaymentAlwaysFailsAsWritten | Ledger.Ledger.Pay |
| app/invoice/routes.py:33 | `user_permissions.is_vendor(current_user)` (and `is_customer` at line 54); app/user/permissions.py defines neither | any request to a vendor or customer invoice route | refuse a caller without the role with 403, let the others through | not executed; high for the file as it stands | AsWritten.RoleChecksAlwaysFailAsWritten | Ledger.VendorInvoices |
| app/invoice/routes.py:304-310 | after the commit at line 306 has lowered the invoice total, the new total is priced with `invoice_item.product`, which is None once the product row is deleted, so `total_price` raises | a Valid ledger with an item of total 10.00 whose product has been deleted (app/product/routes.py:103), then an update of that item | price the update at the item's stored unit price, which needs no product row, so both commits land and the totals still match | not executed; medium (the relationship's loading is not shown) | AsWritten.PartialCommitBreaksTotals | Ledger.UpdatedItem |

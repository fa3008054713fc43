# Invoicing frontend: a Dafny model of its business logic

This project models the logic of an Argentine invoicing and stock frontend, and proves properties of that model. The frontend is a Next.js application in TypeScript. Almost all of it is UI and REST plumbing; the modelled parts are:

- **The payload for the e-invoicing provider TusFacturasApp** (`lib/tus-facturas-app.ts`). There are two pieces.
  - The serializer projects an invoice onto the provider's wire format. It uses three fixed lookup tables (voucher type, document type, province), and each table has a silent default.
  - The validator collects one message per failed presence or range check. Its checks are gated by block: client, voucher, product list.
- **The new-invoice page** (`app/facturacion/nueva/page.tsx`). It is modelled as a class `NewInvoicePage` with the page's state as fields. Its handlers are methods:
  - add a product, merging into an existing line;
  - update one field of a line;
  - remove a line;
  - select a client;
  - save.

  After each handler the totals effect recomputes the document totals. The product search, the save guard and the label switches are functions.
- **The filters, sums and top-k lists of the other pages.**
  - the catalogue page (`app/productos/page.tsx`);
  - the stock page (`app/stock/page.tsx`);
  - the invoice list (`app/facturacion/page.tsx`);
  - the reports page (`app/reportes/page.tsx`);
  - the dashboard (`app/page.tsx`).

## Modules

| file | module | contents |
|---|---|---|
| `Util.dfy` | `Util` | `Option`, `filter` (`Filter`), the `reduce`-to-sum (`SumOf`), `slice(0, k)` (`Take`), order-preserving subsequences, and their lemmas |
| `Text.dfy` | `Text` | `toLowerCase` on ASCII letters, `trim` over the ECMAScript white-space set, `includes`, and the decimal rendering of a position |
| `Types.dfy` | `Types` | the entities of `lib/types.ts` and `lib/api-types.ts` that the modelled code reads |
| `TusFacturasApp.dfy` | `TusFacturasApp` | the serializer, the validator (a method with a loop, proved equal to a function), and the validator's meaning as a list of structured problems |
| `NewInvoice.dfy` | `NewInvoice` | line and total functions, add/merge/update/remove on a line list, search, labels, the save decision, and the class `NewInvoicePage` |
| `Productos.dfy` | `Productos` | the catalogue filter, the in-stock / out-of-stock split and the stock status |
| `Stock.dfy` | `Stock` | the movement filter, the low and critical stock lists, the stock value and the row badge |
| `InvoiceList.dfy` | `InvoiceList` | the invoice filter, the revenue shown, the per-type counts and the status and type labels |
| `Reports.dfy` | `Reports` | revenue, average, `topProducts` (an in-place insertion sort on an array), `topClients` (a functional insertion sort), and `monthlyRevenue` (a method writing into a map) |
| `Dashboard.dfy` | `Dashboard` | the dashboard statistics over lists that may not have loaded yet |

Modelling conventions:

- Money, prices, VAT rates and discounts are `real`; quantities and stock levels are `int`.
- A field that the source tests for falsiness (`!x`) is a `string` that fails the test when it is empty.
- A field that may be absent from a record is an `Option`.
- The clock, the month key built from a date, and the mock lists (`mockProducts`, `mockClients`) are parameters.

Two edge behaviours of the code, each stated by a lemma:

- **Unknown document types.** An unknown client document type is not rejected: it is mapped to `"CUIT"` (`lib/tus-facturas-app.ts:55`). `TusFacturasApp.DocumentoTipoCodes` states the default.
- **Out-of-range removal.** `handleRemoveItem` keeps every line when the index is out of range (`app/facturacion/nueva/page.tsx:181`); `NewInvoice.RemoveAtSpec` states this.

## Model

| member | source | states |
|---|---|---|
| TusFacturasApp.Lookup | lib/tus-facturas-app.ts:55-63 | `table[key] \|\| fallback`: a listed key with a non-empty code gives that code, an unlisted key gives the fallback, and a non-empty fallback never yields an empty code |
| TusFacturasApp.TipoCbteCodes | lib/tus-facturas-app.ts:9-14 | A→"1", B→"6", C→"11", NC→"3", and every other invoice type →"1" |
| TusFacturasApp.DocumentoTipoCodes | lib/tus-facturas-app.ts:17-21 | CUIT, DNI and CUIL pass through unchanged; any other document type becomes "CUIT" |
| TusFacturasApp.ProvinciaCodes | lib/tus-facturas-app.ts:24-49 | there are exactly 24 listed provinces; the i-th (from 0) is in the table with code `String(i + 1)` |
| TusFacturasApp.ProvinciaKeys | lib/tus-facturas-app.ts:24-49 | a name is in the province table exactly when it is one of the 24 listed names |
| TusFacturasApp.UnknownProvinceIsBuenosAires | lib/tus-facturas-app.ts:60 | an unlisted province gets code "1", the code of Buenos Aires |
| TusFacturasApp.ProvinciaInjective | lib/tus-facturas-app.ts:24-49 | two different listed provinces get different codes |
| TusFacturasApp.MapProductos | lib/tus-facturas-app.ts:65-71 | the product list has the invoice's length, and element i is the projection of line i |
| TusFacturasApp.Serialize | lib/tus-facturas-app.ts:3-74 | credentials, document number, business name, e-mail and address are copied verbatim; the point of sale is "0001"; element i of `productos` copies code, description, quantity, unit price and VAT of line i |
| TusFacturasApp.SerializeIgnoresDiscountAndTotal | lib/tus-facturas-app.ts:65-71 | two invoices whose lines differ only in discount and total serialize identically |
| TusFacturasApp.ValidateTusFacturasAppData | lib/tus-facturas-app.ts:76-122 | the method pushing messages check by check returns exactly `ValidationErrors(data)`, and `isValid` holds exactly when there are no errors |
| TusFacturasApp.ValidateCliente | lib/tus-facturas-app.ts:87-96 | the client block pushes exactly `ClienteErrors` |
| TusFacturasApp.ValidateComprobante | lib/tus-facturas-app.ts:99-116 | the voucher block pushes exactly `ComprobanteErrors` |
| TusFacturasApp.ValidateProductos | lib/tus-facturas-app.ts:108-114 | the `forEach` over the products pushes exactly `ProductosErrors`; the loop's invariant is the error list of the products seen so far |
| TusFacturasApp.ValidateProducto | lib/tus-facturas-app.ts:109-113 | one product's checks push exactly `ProductErrors` |
| TusFacturasApp.ErrorsAreMessages | lib/tus-facturas-app.ts:80-121 | the error list is the rendering of the structured problem list, message by message |
| TusFacturasApp.MessageInjective | lib/tus-facturas-app.ts:83-113 | different problems produce different message texts, including products at different positions |
| TusFacturasApp.ProductosProblemsIff | lib/tus-facturas-app.ts:108-114 | a product problem is reported exactly when the product at that 1-based position fails that check |
| TusFacturasApp.ProblemsIff | lib/tus-facturas-app.ts:80-121 | a problem is in the list exactly when its check fails; a per-field check of the client or the voucher fails only when that block is present, and a product check only for a product at that 1-based position |
| TusFacturasApp.ErrorsIff | lib/tus-facturas-app.ts:80-121 | a check's message is among the errors exactly when the check fails |
| TusFacturasApp.ErrorsAreFailures | lib/tus-facturas-app.ts:80-121 | every error is the message of some failing check |
| TusFacturasApp.ValidIff | lib/tus-facturas-app.ts:118-121 | the result is valid exactly when no check fails |
| TusFacturasApp.ProblemsInSourceOrder | lib/tus-facturas-app.ts:82-115 | problems are reported in strictly increasing rank: header, then client, then voucher, then products by position and, within one, check by check |
| TusFacturasApp.ErrorsAreDistinct | lib/tus-facturas-app.ts:80-121 | no message occurs twice, so each failing check contributes exactly one message |
| TusFacturasApp.ClienteGating | lib/tus-facturas-app.ts:87-88 | without a client, "cliente es requerido" is reported and none of the per-field client messages |
| TusFacturasApp.ComprobanteGating | lib/tus-facturas-app.ts:99-100 | without a voucher, "comprobante es requerido" is reported and no voucher-field, product-list or product message |
| TusFacturasApp.ProductosGating | lib/tus-facturas-app.ts:105-106 | a missing or empty product list yields its one message and no per-product message |
| TusFacturasApp.SerializedLookupsPass | lib/tus-facturas-app.ts:55-64 | serializer output never fails the client, document-type, province, voucher, voucher-type or point-of-sale checks |
| TusFacturasApp.ValidIffFields | lib/tus-facturas-app.ts:80-121 | a payload is valid exactly when both credentials are set, both blocks are present with all fields non-empty, and a non-empty product list with every product acceptable |
| TusFacturasApp.LinesAcceptableIff | lib/tus-facturas-app.ts:65-71 | the invoice lines are acceptable exactly when every serialized product passes the per-product checks |
| TusFacturasApp.SerializedValidIff | lib/tus-facturas-app.ts:51-121 | a serialized invoice validates exactly when both credentials, the client's number, name, e-mail and address are non-empty, there is a line, and every line has code, description, positive quantity and price and non-negative VAT |
| TusFacturasApp.ExampleIsValid | lib/tus-facturas-app.ts:124-150 | the built-in example payload validates with no errors |
| TusFacturasApp.MissingApikeyAndZeroQuantity | lib/tus-facturas-app.ts:84-111 | the example with an empty apikey and a second product of quantity 0 yields exactly "apikey es requerido" and "producto 2: cantidad debe ser mayor a 0", in that order |
| TusFacturasApp.SerializeMappingExample | lib/tus-facturas-app.ts:55-63 | a type-B invoice for a DNI client in Córdoba maps to "6", "DNI", "6"; the same client in "Atlantis" maps to province "1" |
| NewInvoice.EmptyTotals | app/facturacion/nueva/page.tsx:122-137 | an empty line list gives subtotal, VAT and total zero |
| NewInvoice.SubtotalIsSumOfLineTotals | app/facturacion/nueva/page.tsx:122-125 | when every line keeps its total, the subtotal is the sum of the stored line totals |
| NewInvoice.TotalsExample | app/facturacion/nueva/page.tsx:122-137 | lines (2 × 50, 21 %, no discount) and (1 × 100, 10.5 %, 10 off) give subtotal 190, VAT 30.45 and total 220.45 |
| NewInvoice.FindIndex | app/facturacion/nueva/page.tsx:143 | `findIndex`: the first line with the product id, or -1 exactly when there is none |
| NewInvoice.AddOrMerge | app/facturacion/nueva/page.tsx:143-170 | for a product already on the invoice: same length, only that line changes, its quantity grows by the dialog quantity, price, VAT and discount are kept, and its total is recomputed. For a new product: one line appended at the end with the product's code, name and price, VAT 21, the dialog discount and the recomputed total |
| NewInvoice.AddOrMergeConsistent | app/facturacion/nueva/page.tsx:149-151 | adding keeps every line's total equal to price × quantity − discount |
| NewInvoice.AddOrMergeKeepsProductsDistinct | app/facturacion/nueva/page.tsx:143-170 | adding never creates a second line for the same product |
| NewInvoice.MergeLineAmount | app/facturacion/nueva/page.tsx:148-151 | a merge adds the price of the added units to the line's amount, counting the discount once |
| NewInvoice.AddOrMergeSubtotalMerged | app/facturacion/nueva/page.tsx:145-153 | merging raises the subtotal by the added units at that line's price |
| NewInvoice.AddOrMergeSubtotalAppended | app/facturacion/nueva/page.tsx:154-170 | appending raises the subtotal by the new line's amount |
| NewInvoice.MergeExample | app/facturacion/nueva/page.tsx:148-151 | merging 3 units into a line of 2 at 100 with no discount gives 5 units and total 500 |
| NewInvoice.UpdateLine | app/facturacion/nueva/page.tsx:185-194 | only line `index` changes; apart from its total it is the old line with the one field set; its total is then recomputed |
| NewInvoice.UpdateLineConsistent | app/facturacion/nueva/page.tsx:189-191 | updating any field, the total included, keeps every line consistent |
| NewInvoice.UpdateLineSubtotal | app/facturacion/nueva/page.tsx:185-194 | updating one line changes the subtotal by the change of its amount |
| NewInvoice.RemoveAtSpec | app/facturacion/nueva/page.tsx:180-183 | an index in range removes exactly that line, keeping the others' order; any other index leaves the lines as they are |
| NewInvoice.RemoveAtConsistent | app/facturacion/nueva/page.tsx:180-183 | removing keeps every line consistent |
| NewInvoice.RemoveAtSubtotal | app/facturacion/nueva/page.tsx:180-183 | removing a line lowers the subtotal by its amount |
| NewInvoice.SearchProductsSpec | app/facturacion/nueva/page.tsx:105-119 | a term that trims to empty finds nothing; otherwise a product is found exactly when its code (or name) contains the untrimmed term ignoring case, in catalogue order |
| NewInvoice.FindClient | app/facturacion/nueva/page.tsx:197 | `find`: the first client with the id, or none exactly when no client has it |
| NewInvoice.InvoiceTypeLabel | app/facturacion/nueva/page.tsx:306-314 | the four invoice types get a label and any other code is shown unchanged (the same switch is at app/facturacion/page.tsx:45-53) |
| NewInvoice.InvoiceTypeLabelsDistinct | app/facturacion/nueva/page.tsx:306-314 | the four invoice types get four different labels |
| NewInvoice.PaymentMethodLabel | app/facturacion/nueva/page.tsx:316-324 | the four payment methods get a label and any other code is shown unchanged |
| NewInvoice.SaveGuard | app/facturacion/nueva/page.tsx:206-252 | a save goes through exactly when there is a client id and a line and, when the integration is on, both credentials are set, the client object exists and the serialized payload validates; when it is off, nothing is serialized |
| NewInvoice.NewInvoicePage.constructor | app/facturacion/nueva/page.tsx:69-100 | the initial state: type A, no client, no lines, zero totals, payment by transfer, integration off with empty credentials, quantity 1, discount 0, dialogs closed |
| NewInvoice.NewInvoicePage.RecomputeTotals | app/facturacion/nueva/page.tsx:122-138 | the totals effect: subtotal, VAT and total become the functions of the lines, and nothing else changes |
| NewInvoice.NewInvoicePage.AddProduct | app/facturacion/nueva/page.tsx:140-178 | with no product selected nothing changes; otherwise the lines become `AddOrMerge`, the dialog resets to quantity 1 and discount 0 and closes, and the page invariant holds |
| NewInvoice.NewInvoicePage.RemoveItem | app/facturacion/nueva/page.tsx:180-183 | the lines become `RemoveAt`, the totals follow, and nothing else changes |
| NewInvoice.NewInvoicePage.UpdateItem | app/facturacion/nueva/page.tsx:185-194 | the lines become `UpdateLine`, the totals follow, and nothing else changes |
| NewInvoice.NewInvoicePage.SelectClient | app/facturacion/nueva/page.tsx:196-204 | records the id and the client found for it, possibly none, and closes the client dialog |
| NewInvoice.NewInvoicePage.SaveInvoice | app/facturacion/nueva/page.tsx:206-267 | the outcome is `SaveDecision` of the current state; the method calls the serializer and the validator method |
| Productos.FilteredProductsSpec | app/productos/page.tsx:141-152 | nothing before loading; otherwise an order-preserving subsequence holding exactly the products passing the trimmed, lower-cased search on name or code and the category test |
| Productos.BlankSearchShowsAll | app/productos/page.tsx:144-150 | a blank search with every category shows the whole list |
| Productos.SearchIgnoresPaddingAndCase | app/productos/page.tsx:143 | search terms equal after trimming and lowering filter alike |
| Productos.StockPartition | app/productos/page.tsx:154-155 | `activos` and `sinStock` are disjoint subsequences of the filtered list; negative stock is in neither; together with the negatives they account for the whole list |
| Productos.StockStatusSpec | app/productos/page.tsx:157-161 | stock 0 is critical ("Sin stock"), a non-zero stock up to 5 (negatives included) is low, and above 5 is normal |
| Productos.StatusAgreesWithLists | app/productos/page.tsx:154-161 | out-of-stock products carry the critical badge and in-stock ones never do |
| Stock.FilteredMovementsSpec | app/stock/page.tsx:27-35 | a movement is kept exactly when its product's name or code contains the term, ignoring case, and the type filter is "all" or its type; order kept |
| Stock.EmptyTermFiltersByTypeOnly | app/stock/page.tsx:27-35 | with an empty term the type filter alone decides |
| Stock.StockListsSpec | app/stock/page.tsx:37-38 | the low list holds exactly the products at or below their minimum and the critical list exactly those with no stock, both in order |
| Stock.CriticalWithinLow | app/stock/page.tsx:37-38 | when no minimum is negative, the critical list is the stock-zero part of the low list |
| Stock.CriticalNotLowWithNegativeMinimum | app/stock/page.tsx:37-38 | with a negative minimum a product with no stock is critical but not low |
| Stock.TotalStockValueSpec | app/stock/page.tsx:40 | the stock value is 0 for no products, each product adds its stock times its price, the value adds up over parts of the list, and it is non-negative when stock and prices are |
| Stock.RecentMovements | app/stock/page.tsx:42 | the prefix of at most 10 movements |
| Stock.RowStatusAgreesWithLists | app/stock/page.tsx:268-272 | a row reads "Sin stock" exactly for a critical product, "Bajo" exactly for a low one with stock, and "Normal" for one in neither list |
| InvoiceList.OrDefault | app/facturacion/page.tsx:32-34 | `x \|\| fallback`: a missing or empty string gives the fallback, any other the value |
| InvoiceList.FilteredInvoicesSpec | app/facturacion/page.tsx:31-43 | nothing before loading; otherwise an invoice is kept exactly when its number or client name (missing read as empty) contains the term ignoring case and the type filter is "all" or its type code; order kept |
| InvoiceList.TotalRevenueSpec | app/facturacion/page.tsx:64 | no rows give 0, each row adds its total with a missing total as 0, and the revenue adds up over parts of the list |
| InvoiceList.RevenueOfShownAndHidden | app/facturacion/page.tsx:64 | the revenue of the rows shown plus that of the rows hidden is the revenue of all rows |
| InvoiceList.CountsIgnoreSearch | app/facturacion/page.tsx:104-134 | the per-type counts are over all invoices: filtering by a type never shows more than its count, and with an empty term exactly as many |
| InvoiceList.StatusLabel | app/facturacion/page.tsx:55-62 | draft, issued and cancelled get a label and any other code is shown unchanged |
| InvoiceList.RowStatusLabel | app/facturacion/page.tsx:249-250 | a missing or empty state code is shown as draft ("Borrador"), any other through the status label |
| InvoiceList.RowTypeLabel | app/facturacion/page.tsx:227 | a missing type code is shown empty, any other through the invoice-type label |
| Reports.AverageInvoiceValue | app/reportes/page.tsx:29-31 | no invoices give 0; otherwise the average times the count is the total revenue |
| Reports.AverageOfEqualInvoices | app/reportes/page.tsx:29-31 | invoices all with total t have revenue n·t and average t |
| Reports.SortDescending | app/reportes/page.tsx:33-34 | the in-place sort leaves the array non-increasing by the key and a permutation of what it held |
| Reports.InsertForward | app/reportes/page.tsx:33-34 | one insertion step: the sorted prefix grows by one element, the suffix beyond it is untouched and the array holds the same multiset |
| Reports.SortByWorth | app/reportes/page.tsx:33-34 | the products end up in place, ordered by decreasing price × stock, with the same multiset |
| Reports.TopProducts | app/reportes/page.tsx:33-35 | at most five products of the input, non-increasing by price × stock, none worth less than a product left out; the array is left sorted |
| Reports.SummarySpec | app/reportes/page.tsx:37-42 | a client's spending and invoice count, with the other clients' invoices, make up the total revenue and the invoice count; a client with no invoices has 0 and 0 |
| Reports.InsertBySpent | app/reportes/page.tsx:43 | inserting a summary into a list sorted by decreasing spending keeps it sorted and adds exactly that summary |
| Reports.SortBySpent | app/reportes/page.tsx:43 | the summaries sorted by decreasing spending, as a permutation |
| Reports.TopClients | app/reportes/page.tsx:37-44 | min(5, number of clients) entries, non-increasing by spending |
| Reports.TopClientsSpec | app/reportes/page.tsx:37-44 | every entry is the summary of one of the clients, no summary is listed more often than it occurs among all clients' summaries, and every client is either listed or spent no more than each listed one |
| Reports.TopClientsSubMultiset | app/reportes/page.tsx:37-44 | the top list holds each client summary at most as often as the list of all summaries does, so no client is listed twice |
| Reports.MonthlyRevenue | app/reportes/page.tsx:46-50 | the loop writing into the accumulator yields `MonthlyTotals`; its invariant is the totals of the invoices seen so far |
| Reports.MonthlyTotalsKeys | app/reportes/page.tsx:46-50 | each month is listed once, the listed months are the record's keys, and a month is a key exactly when some invoice falls in it |
| Reports.MonthlyTotalsAmount | app/reportes/page.tsx:46-50 | the amount under a month is the revenue of that month's invoices |
| Reports.MonthlyTotalsSum | app/reportes/page.tsx:29-50 | the monthly amounts add up to the total revenue |
| Dashboard.ComputeStatsSpec | app/page.tsx:80-91 | counts are list lengths or 0 before loading; revenue is 0 before loading and otherwise the sales' revenue, whose value `Dashboard.TotalRevenueSpec` pins sale by sale; the low and critical lists hold exactly the products with their condition, in order; the recent lists are the first min(5, n); loading while any list loads |
| Dashboard.TotalRevenueSpec | app/page.tsx:83 | no sales give 0, each sale adds its `totalVenta`, the revenue adds up over parts of the list, and it is non-negative when every sale is |
| Dashboard.CriticalWithinLow | app/page.tsx:85-86 | when no minimum is negative, every critical product is also in the low list, in order |

## Left out

- Floating point: amounts are exact reals, so the rounding of JavaScript numbers is not modelled. This includes the `toFixed(1)` percentages of the reports.
- Lower-casing covers ASCII letters only. `toLowerCase` on other Unicode letters is not modelled.
- A lookup of a table key inherited from `Object.prototype` (such as `"constructor"`) is treated as unlisted.
- Non-string values in fields the validator tests for falsiness are not modelled: such a field is a string, and it fails the test only when empty. NaN quantities and prices are not modelled either.
- Form input parsing is left out: `parseInt(...) || 1` and `parseFloat(...) || 0` for quantity, discount and line fields, and `Number(selectedCategoria)`. The model takes the parsed values.
- Identifiers, invoice numbers and dates built from the clock are left out. The month key of `monthlyRevenue` is a function parameter.
- The React scheduling is left out. Each handler is a synchronous update, and the totals effect runs at its end.
- `alert`, `console.log` and the redirect are left out. `SaveOutcome` names each way `handleSaveInvoice` can end instead.
- `handleEmitInvoice`, which simulates a CAE (the tax authority's authorization code) and touches no modelled state, is left out.
- `formatTusFacturasAppData` is `JSON.stringify` and is not part of this model.
- The REST client, hooks, authentication context, layout components and the settings page are not part of this model.
- The mock lists of products and clients are parameters (`catalogue`, `clients`).
- The merge path of `handleAddProduct` writes through a shallow copy into the same line object that the previous state holds. The model compares states as values, so this aliasing is not modelled; the new state is the same.
- NewInvoice.NewInvoicePage.UpdateItem: requires the index to be in range. For other indices the source writes a partial line object; its only caller passes a row index.
- NewInvoice.InvoiceFormData: only the fields the modelled handlers read or write are kept. Due date, notes, AFIP (tax authority) responsibility, point of sale, fiscal condition, terms, currency and exchange rate are not.
- Reports.TopClients: the order among clients with equal spending is not stated; JavaScript's sort is stable, and no lemma here says whether the model's is. The same holds for `Reports.SortByWorth` and `Reports.TopProducts`.

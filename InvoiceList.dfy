/** app/facturacion/page.tsx: the list of issued invoices as the backend
    returns them, with a search box, a type filter, the revenue of the
    rows shown and per-type counts. */
module InvoiceList {
  import opened Util
  import opened Text
  import NewInvoice

  /** The fields of a backend invoice the page reads. Each may be missing
      in the record (`(invoice as any).x`, `x?.y`), so each is optional;
      `clienteRazonSocial` is absent both when the client and when its name is. */
  datatype FacturaRow = FacturaRow(
    numeroComprobante: Option<string>,
    clienteRazonSocial: Option<string>,
    tipoFacturaCodigo: Option<string>,
    total: Option<real>,
    estadoFacturaCodigo: Option<string>)

  /** `x || fallback` on a string: a missing or empty value gives the fallback. */
  function OrDefault(o: Option<string>, fallback: string): (r: string)
    ensures o.Some? && o.value != "" ==> r == o.value
    ensures (o.None? || o.value == "") ==> r == fallback
  {
    if o.Some? && o.value != "" then o.value else fallback
  }

  function TypeCode(row: FacturaRow): string
  {
    OrDefault(row.tipoFacturaCodigo, "")
  }

  /** The filter test of `filteredInvoices`. */
  predicate InvoiceMatches(row: FacturaRow, searchTerm: string, selectedType: string)
  {
    (IncludesIgnoreCase(OrDefault(row.numeroComprobante, ""), searchTerm) ||
     IncludesIgnoreCase(OrDefault(row.clienteRazonSocial, ""), searchTerm)) &&
    (selectedType == "all" || TypeCode(row) == selectedType)
  }

  /** The invoices, or none before they are loaded. */
  function Rows(facturas: Option<seq<FacturaRow>>): seq<FacturaRow>
  {
    GetOr(facturas, [])
  }

  /** `filteredInvoices`. */
  function FilteredInvoices(facturas: Option<seq<FacturaRow>>, searchTerm: string, selectedType: string): seq<FacturaRow>
  {
    Filter(Rows(facturas), (row: FacturaRow) => InvoiceMatches(row, searchTerm, selectedType))
  }

  /** The filtered list keeps the invoices' order, and an invoice is kept
      exactly when its number or its client's name (missing ones read as
      empty) contains the term, ignoring case, and the type filter is "all"
      or its own type code. */
  lemma FilteredInvoicesSpec(facturas: Option<seq<FacturaRow>>, searchTerm: string, selectedType: string, row: FacturaRow)
    ensures facturas.None? ==> FilteredInvoices(facturas, searchTerm, selectedType) == []
    ensures IsSubseq(FilteredInvoices(facturas, searchTerm, selectedType), Rows(facturas))
    ensures row in FilteredInvoices(facturas, searchTerm, selectedType) <==>
      row in Rows(facturas) &&
      (IncludesIgnoreCase(OrDefault(row.numeroComprobante, ""), searchTerm) ||
       IncludesIgnoreCase(OrDefault(row.clienteRazonSocial, ""), searchTerm)) &&
      (selectedType == "all" || TypeCode(row) == selectedType)
  {
    var keep := (r: FacturaRow) => InvoiceMatches(r, searchTerm, selectedType);
    FilterIsSubseq(Rows(facturas), keep);
    FilterMembership(Rows(facturas), keep, row);
  }

  function RowTotal(row: FacturaRow): real
  {
    GetOr(row.total, 0.0)
  }

  /** `totalRevenue`: the totals of the rows shown, a missing total as 0. */
  function TotalRevenue(filtered: seq<FacturaRow>): real
  {
    SumOf(filtered, RowTotal)
  }

  /** No rows give no revenue, each row adds its total (a missing total
      adds nothing), and the revenue adds up over parts of the list. */
  lemma TotalRevenueSpec(a: seq<FacturaRow>, b: seq<FacturaRow>, row: FacturaRow)
    ensures TotalRevenue([]) == 0.0
    ensures TotalRevenue(a + [row]) == TotalRevenue(a) + GetOr(row.total, 0.0)
    ensures row.total.None? ==> TotalRevenue(a + [row]) == TotalRevenue(a)
    ensures TotalRevenue(a + b) == TotalRevenue(a) + TotalRevenue(b)
  {
    assert (a + [row])[..|a + [row]| - 1] == a;
    SumOfAppend(a, b, RowTotal);
  }

  /** The revenue shown is that of the filtered rows: the rows the filter
      hides and the rows it shows together make up the revenue of all. */
  lemma RevenueOfShownAndHidden(facturas: Option<seq<FacturaRow>>, searchTerm: string, selectedType: string)
    ensures TotalRevenue(FilteredInvoices(facturas, searchTerm, selectedType)) +
      TotalRevenue(Filter(Rows(facturas), (row: FacturaRow) => !InvoiceMatches(row, searchTerm, selectedType))) ==
      TotalRevenue(Rows(facturas))
  {
    SumOfPartition(Rows(facturas), RowTotal,
      (row: FacturaRow) => InvoiceMatches(row, searchTerm, selectedType),
      (row: FacturaRow) => !InvoiceMatches(row, searchTerm, selectedType));
  }

  /** The per-type counts of the summary cards, over all invoices: a
      missing type code never counts. */
  function CountOfType(facturas: Option<seq<FacturaRow>>, code: string): nat
  {
    |Filter(Rows(facturas), (row: FacturaRow) => row.tipoFacturaCodigo == Some(code))|
  }

  /** The cards ignore the search box: filtering by one of the counted
      types never shows more invoices than the card counts, and with an
      empty search box it shows exactly as many. */
  lemma CountsIgnoreSearch(facturas: Option<seq<FacturaRow>>, searchTerm: string, code: string)
    requires code != "" && code != "all"
    ensures |FilteredInvoices(facturas, searchTerm, code)| <= CountOfType(facturas, code)
    ensures |FilteredInvoices(facturas, "", code)| == CountOfType(facturas, code)
  {
    var rows := Rows(facturas);
    var ofType := (row: FacturaRow) => row.tipoFacturaCodigo == Some(code);
    FilterNarrowing(rows, ofType, (row: FacturaRow) => InvoiceMatches(row, searchTerm, code));
    SubseqLength(FilteredInvoices(facturas, searchTerm, code), Filter(rows, ofType));
    forall row | row in rows
      ensures InvoiceMatches(row, "", code) <==> ofType(row)
    {
      ContainsEmpty(Lower(OrDefault(row.numeroComprobante, "")));
    }
    FilterCongruent(rows, (row: FacturaRow) => InvoiceMatches(row, "", code), ofType);
  }

  /** `getStatusLabel`: a label for the three states, any other code shown
      as it is. */
  function StatusLabel(status: string): (shown: string)
    ensures status in {"draft", "issued", "cancelled"} <==> shown != status
  {
    match status
    case "draft" => "Borrador"
    case "issued" => "Emitida"
    case "cancelled" => "Cancelada"
    case _ => status
  }

  /** The status badge of a row: a missing or empty state code reads as draft. */
  function RowStatusLabel(row: FacturaRow): (shown: string)
    ensures (row.estadoFacturaCodigo.None? || row.estadoFacturaCodigo == Some("")) ==> shown == "Borrador"
    ensures row.estadoFacturaCodigo.Some? && row.estadoFacturaCodigo.value != "" ==>
      shown == StatusLabel(row.estadoFacturaCodigo.value)
  {
    StatusLabel(OrDefault(row.estadoFacturaCodigo, "draft"))
  }

  /** The type column: the label of the type code, a missing code read as
      empty (and so shown empty). */
  function RowTypeLabel(row: FacturaRow): (shown: string)
    ensures row.tipoFacturaCodigo.None? ==> shown == ""
    ensures row.tipoFacturaCodigo.Some? ==> shown == NewInvoice.InvoiceTypeLabel(row.tipoFacturaCodigo.value)
  {
    NewInvoice.InvoiceTypeLabel(TypeCode(row))
  }
}

/** app/facturacion/nueva/page.tsx: the new-invoice page. Its state is the
    form record, the integration settings and the product dialog; its
    handlers add, merge, update and remove lines, and the totals effect
    keeps the document totals a function of the lines. Each handler is a
    synchronous update of the page, followed by the totals effect. */
module NewInvoice {
  import opened Util
  import opened Text
  import opened Types
  import TusFacturasApp

  // ---------------------------------------------------------------------
  // Lines and document totals

  /** The VAT rate every new line starts with. */
  const DefaultIva: real := 21.0

  /** A line before VAT: `unitPrice * quantity - discount`. */
  function LineAmount(item: InvoiceItem): real
  {
    item.unitPrice * (item.quantity as real) - item.discount
  }

  /** A line's VAT: its amount times its rate, over 100. */
  function LineIva(item: InvoiceItem): real
  {
    LineAmount(item) * item.iva / 100.0
  }

  /** The stored total of the line is its amount. */
  predicate LineConsistent(item: InvoiceItem)
  {
    item.total == LineAmount(item)
  }

  predicate LinesConsistent(items: seq<InvoiceItem>)
  {
    forall i :: 0 <= i < |items| ==> LineConsistent(items[i])
  }

  /** The first `reduce` of the totals effect. */
  function Subtotal(items: seq<InvoiceItem>): real
  {
    SumOf(items, LineAmount)
  }

  /** The second `reduce` of the totals effect. */
  function IvaTotal(items: seq<InvoiceItem>): real
  {
    SumOf(items, LineIva)
  }

  function LineTotal(item: InvoiceItem): real
  {
    item.total
  }

  /** An empty invoice has all totals zero. */
  lemma EmptyTotals()
    ensures Subtotal([]) == 0.0 && IvaTotal([]) == 0.0 && Subtotal([]) + IvaTotal([]) == 0.0
  {
  }

  /** When every line is consistent, the subtotal is the sum of the stored
      line totals. */
  lemma SubtotalIsSumOfLineTotals(items: seq<InvoiceItem>)
    requires LinesConsistent(items)
    ensures Subtotal(items) == SumOf(items, LineTotal)
  {
    SumOfCongruent(items, LineAmount, LineTotal);
  }

  /** Two lines, (2 × 50, 21%, no discount) and (1 × 100, 10.5%, 10 off):
      subtotal 190, VAT 30.45, total 220.45. */
  lemma TotalsExample(items: seq<InvoiceItem>)
    requires |items| == 2
    requires items[0].quantity == 2 && items[0].unitPrice == 50.0 && items[0].iva == 21.0 && items[0].discount == 0.0
    requires items[1].quantity == 1 && items[1].unitPrice == 100.0 && items[1].iva == 10.5 && items[1].discount == 10.0
    ensures Subtotal(items) == 190.0
    ensures IvaTotal(items) == 30.45
    ensures Subtotal(items) + IvaTotal(items) == 220.45
  {
    assert items[..1][..0] == [];
    assert SumOf(items[..1], LineAmount) == 100.0;
    assert SumOf(items[..1], LineIva) == 21.0;
  }

  // ---------------------------------------------------------------------
  // Adding a product

  /** `items.findIndex(item => item.productId === productId)`: the first
      line for the product, or -1. */
  function FindIndex(items: seq<InvoiceItem>, productId: string): (k: int)
    ensures -1 <= k < |items|
    ensures k >= 0 ==> items[k].productId == productId
    ensures forall j :: 0 <= j < |items| && (k < 0 || j < k) ==> items[j].productId != productId
  {
    if items == [] then -1
    else if items[0].productId == productId then 0
    else
      var k := FindIndex(items[1..], productId);
      if k < 0 then -1 else k + 1
  }

  /** The line appended for a product not yet on the invoice. */
  function NewLine(p: Product, quantity: int, discount: real): InvoiceItem
  {
    InvoiceItem(p.id, p.code, p.name, quantity, p.price, DefaultIva, discount,
      p.price * (quantity as real) - discount)
  }

  /** The existing line with `quantity` more units and its total recomputed. */
  function MergeLine(line: InvoiceItem, quantity: int): InvoiceItem
  {
    var q := line.quantity + quantity;
    line.(quantity := q, total := line.unitPrice * (q as real) - line.discount)
  }

  /** The lines after `handleAddProduct` with product `p` selected. */
  function AddOrMerge(items: seq<InvoiceItem>, p: Product, quantity: int, discount: real): (r: seq<InvoiceItem>)
    ensures var k := FindIndex(items, p.id);
      k >= 0 ==>
        |r| == |items| &&
        r[k].productId == items[k].productId && r[k].code == items[k].code &&
        r[k].description == items[k].description && r[k].unitPrice == items[k].unitPrice &&
        r[k].iva == items[k].iva && r[k].discount == items[k].discount &&
        r[k].quantity == items[k].quantity + quantity && LineConsistent(r[k]) &&
        forall j :: 0 <= j < |items| && j != k ==> r[j] == items[j]
    ensures FindIndex(items, p.id) < 0 ==>
      |r| == |items| + 1 && r[..|items|] == items &&
      var line := r[|items|];
      line.productId == p.id && line.code == p.code && line.description == p.name &&
      line.quantity == quantity && line.unitPrice == p.price && line.iva == 21.0 &&
      line.discount == discount && LineConsistent(line)
  {
    var k := FindIndex(items, p.id);
    if k >= 0 then items[k := MergeLine(items[k], quantity)]
    else items + [NewLine(p, quantity, discount)]
  }

  /** Adding keeps every line consistent. */
  lemma AddOrMergeConsistent(items: seq<InvoiceItem>, p: Product, quantity: int, discount: real)
    requires LinesConsistent(items)
    ensures LinesConsistent(AddOrMerge(items, p, quantity, discount))
  {
    var r := AddOrMerge(items, p, quantity, discount);
    var k := FindIndex(items, p.id);
    forall j | 0 <= j < |r|
      ensures LineConsistent(r[j])
    {
      if k < 0 && j < |items| {
        assert r[j] == r[..|items|][j];
      }
    }
  }

  /** Adding never creates a second line for a product: lines with distinct
      products stay distinct. */
  predicate ProductsDistinct(items: seq<InvoiceItem>)
  {
    forall i, j :: 0 <= i < j < |items| ==> items[i].productId != items[j].productId
  }

  lemma AddOrMergeKeepsProductsDistinct(items: seq<InvoiceItem>, p: Product, quantity: int, discount: real)
    requires ProductsDistinct(items)
    ensures ProductsDistinct(AddOrMerge(items, p, quantity, discount))
  {
    var r := AddOrMerge(items, p, quantity, discount);
    var k := FindIndex(items, p.id);
    forall i, j | 0 <= i < j < |r|
      ensures r[i].productId != r[j].productId
    {
      if k < 0 {
        assert r[i] == r[..|items|][i];
        if j < |items| {
          assert r[j] == r[..|items|][j];
        }
      }
    }
  }

  /** Merging `quantity` more units into a line adds their price to its
      amount; its discount is counted once, as before. */
  lemma MergeLineAmount(line: InvoiceItem, quantity: int)
    ensures LineAmount(MergeLine(line, quantity)) == LineAmount(line) + line.unitPrice * (quantity as real)
  {
    var a, b := line.quantity as real, quantity as real;
    assert ((line.quantity + quantity) as real) == a + b;
    assert line.unitPrice * (a + b) == line.unitPrice * a + line.unitPrice * b;
  }

  /** Adding a product already on the invoice raises the subtotal by the
      price of the added units at that line's unit price. */
  lemma AddOrMergeSubtotalMerged(items: seq<InvoiceItem>, p: Product, quantity: int, discount: real)
    requires FindIndex(items, p.id) >= 0
    ensures Subtotal(AddOrMerge(items, p, quantity, discount)) ==
      Subtotal(items) + items[FindIndex(items, p.id)].unitPrice * (quantity as real)
  {
    var k := FindIndex(items, p.id);
    var merged := MergeLine(items[k], quantity);
    MergedLines(items, p, quantity, discount);
    SubtotalUpdate(items, k, merged);
    MergeLineAmount(items[k], quantity);
  }

  lemma MergedLines(items: seq<InvoiceItem>, p: Product, quantity: int, discount: real)
    requires FindIndex(items, p.id) >= 0
    ensures var k := FindIndex(items, p.id);
      AddOrMerge(items, p, quantity, discount) == items[k := MergeLine(items[k], quantity)]
  {
  }

  /** Replacing one line changes the subtotal by the change of its amount. */
  lemma SubtotalUpdate(items: seq<InvoiceItem>, k: int, line: InvoiceItem)
    requires 0 <= k < |items|
    ensures Subtotal(items[k := line]) == Subtotal(items) - LineAmount(items[k]) + LineAmount(line)
  {
    SumOfUpdate(items, k, line, LineAmount);
  }

  /** Adding a new product raises the subtotal by the new line's amount. */
  lemma AddOrMergeSubtotalAppended(items: seq<InvoiceItem>, p: Product, quantity: int, discount: real)
    requires FindIndex(items, p.id) < 0
    ensures Subtotal(AddOrMerge(items, p, quantity, discount)) ==
      Subtotal(items) + (p.price * (quantity as real) - discount)
  {
    var r := items + [NewLine(p, quantity, discount)];
    assert r[..|r| - 1] == items;
  }

  /** Merging 3 units into a line of 2 at 100 without discount gives 5
      units and a total of 500. */
  lemma MergeExample(line: InvoiceItem)
    requires line.quantity == 2 && line.unitPrice == 100.0 && line.discount == 0.0
    ensures MergeLine(line, 3).quantity == 5 && MergeLine(line, 3).total == 500.0
  {
  }

  // ---------------------------------------------------------------------
  // Updating and removing lines

  /** `[field]: value` for one field of `InvoiceItem`. */
  datatype ItemField =
    | ProductIdField(productId: string)
    | CodeField(code: string)
    | DescriptionField(description: string)
    | QuantityField(quantity: int)
    | UnitPriceField(unitPrice: real)
    | IvaField(iva: real)
    | DiscountField(discount: real)
    | TotalField(total: real)

  /** `{ ...item, [field]: value }`. */
  function ApplyField(item: InvoiceItem, f: ItemField): InvoiceItem
  {
    match f
    case ProductIdField(v) => item.(productId := v)
    case CodeField(v) => item.(code := v)
    case DescriptionField(v) => item.(description := v)
    case QuantityField(v) => item.(quantity := v)
    case UnitPriceField(v) => item.(unitPrice := v)
    case IvaField(v) => item.(iva := v)
    case DiscountField(v) => item.(discount := v)
    case TotalField(v) => item.(total := v)
  }

  /** The field-updated line with its total recomputed. */
  function UpdatedLine(item: InvoiceItem, f: ItemField): InvoiceItem
  {
    var changed := ApplyField(item, f);
    changed.(total := LineAmount(changed))
  }

  /** The lines after `handleUpdateItem(index, field, value)`. */
  function UpdateLine(items: seq<InvoiceItem>, index: int, f: ItemField): (r: seq<InvoiceItem>)
    requires 0 <= index < |items|
    ensures |r| == |items|
    ensures forall j :: 0 <= j < |items| && j != index ==> r[j] == items[j]
    ensures LineConsistent(r[index])
    ensures r[index].(total := 0.0) == ApplyField(items[index], f).(total := 0.0)
  {
    items[index := UpdatedLine(items[index], f)]
  }

  /** Updating keeps every line consistent, whatever the field, even the
      total itself. */
  lemma UpdateLineConsistent(items: seq<InvoiceItem>, index: int, f: ItemField)
    requires 0 <= index < |items| && LinesConsistent(items)
    ensures LinesConsistent(UpdateLine(items, index, f))
  {
  }

  /** Updating one line changes the subtotal by the change of that line's amount. */
  lemma UpdateLineSubtotal(items: seq<InvoiceItem>, index: int, f: ItemField)
    requires 0 <= index < |items|
    ensures Subtotal(UpdateLine(items, index, f)) ==
      Subtotal(items) - LineAmount(items[index]) + LineAmount(UpdatedLine(items[index], f))
  {
    SumOfUpdate(items, index, UpdatedLine(items[index], f), LineAmount);
  }

  /** `items.filter((_, i) => i !== index)`. */
  function RemoveAt(items: seq<InvoiceItem>, index: int): seq<InvoiceItem>
  {
    if items == [] then []
    else
      var kept := if index == |items| - 1 then [] else [items[|items| - 1]];
      RemoveAt(items[..|items| - 1], index) + kept
  }

  /** Removing drops exactly the line at an index in range, keeping the
      order of the rest; an index out of range leaves the lines as they are. */
  lemma {:induction false} RemoveAtSpec(items: seq<InvoiceItem>, index: int)
    ensures 0 <= index < |items| ==> RemoveAt(items, index) == items[..index] + items[index + 1..]
    ensures !(0 <= index < |items|) ==> RemoveAt(items, index) == items
  {
    if items != [] {
      var n := |items|;
      var front := items[..n - 1];
      RemoveAtSpec(front, index);
      assert items == front + [items[n - 1]];
      if 0 <= index < n - 1 {
        assert front[..index] == items[..index];
        assert front[index + 1..] + [items[n - 1]] == items[index + 1..];
      } else if index == n - 1 {
        assert items[index + 1..] == [];
      }
    }
  }

  /** Removing keeps every line consistent. */
  lemma RemoveAtConsistent(items: seq<InvoiceItem>, index: int)
    requires LinesConsistent(items)
    ensures LinesConsistent(RemoveAt(items, index))
  {
    RemoveAtSpec(items, index);
    var r := RemoveAt(items, index);
    if 0 <= index < |items| {
      forall j | 0 <= j < |r|
        ensures LineConsistent(r[j])
      {
        if j < index {
          assert r[j] == items[j];
        } else {
          assert r[j] == items[j + 1];
        }
      }
    }
  }

  /** Removing a line in range lowers the subtotal by that line's amount. */
  lemma RemoveAtSubtotal(items: seq<InvoiceItem>, index: int)
    requires 0 <= index < |items|
    ensures Subtotal(RemoveAt(items, index)) == Subtotal(items) - LineAmount(items[index])
  {
    RemoveAtSpec(items, index);
    SumOfSplit(items, index, LineAmount);
    SumOfAppend(items[..index], items[index + 1..], LineAmount);
  }

  // ---------------------------------------------------------------------
  // Product search, client selection and labels

  datatype SearchType = ByCode | ByName

  /** The effect that fills the product dialog: nothing for a blank term,
      otherwise the catalogue products whose code (or name) contains the
      term, ignoring case. The blank test trims, the match does not. */
  function SearchProducts(catalogue: seq<Product>, term: string, searchType: SearchType): seq<Product>
  {
    if Trim(term) == "" then []
    else Filter(catalogue, (p: Product) =>
      if searchType == ByCode then IncludesIgnoreCase(p.code, term) else IncludesIgnoreCase(p.name, term))
  }

  /** A blank term finds nothing; otherwise a product is found exactly when
      the searched field contains the term, and the result keeps the
      catalogue's order. */
  lemma SearchProductsSpec(catalogue: seq<Product>, term: string, searchType: SearchType, p: Product)
    ensures Trim(term) == "" ==> SearchProducts(catalogue, term, searchType) == []
    ensures Trim(term) != "" ==>
      (p in SearchProducts(catalogue, term, searchType) <==>
        p in catalogue &&
        (if searchType == ByCode then IncludesIgnoreCase(p.code, term) else IncludesIgnoreCase(p.name, term)))
    ensures IsSubseq(SearchProducts(catalogue, term, searchType), catalogue)
  {
    var pred := (q: Product) =>
      if searchType == ByCode then IncludesIgnoreCase(q.code, term) else IncludesIgnoreCase(q.name, term);
    if Trim(term) != "" {
      FilterMembership(catalogue, pred, p);
      FilterIsSubseq(catalogue, pred);
    }
  }

  /** Position `k` holds the first client with the id. */
  predicate FirstWithId(clients: seq<Client>, clientId: string, k: int)
  {
    0 <= k < |clients| && clients[k].id == clientId &&
    forall j :: 0 <= j < k ==> clients[j].id != clientId
  }

  /** `mockClients.find(c => c.id === clientId)`. */
  function FindClient(clients: seq<Client>, clientId: string): (r: Option<Client>)
    ensures r.Some? ==> r.value in clients && r.value.id == clientId
    ensures r.None? <==> forall c :: c in clients ==> c.id != clientId
    ensures r.Some? ==> exists k :: FirstWithId(clients, clientId, k) && clients[k] == r.value
  {
    if clients == [] then None
    else if clients[0].id == clientId then Some(clients[0])
    else
      var r := FindClient(clients[1..], clientId);
      if r.Some? then
        var k :| FirstWithId(clients[1..], clientId, k) && clients[1..][k] == r.value;
        assert FirstWithId(clients, clientId, k + 1);
        r
      else r
  }

  /** `getInvoiceTypeLabel`: a label for the four invoice types, any other
      code shown as it is. */
  function InvoiceTypeLabel(t: string): (shown: string)
    ensures t in {"A", "B", "C", "NC"} <==> shown != t
  {
    match t
    case "A" => "Factura A"
    case "B" => "Factura B"
    case "C" => "Factura C"
    case "NC" => "Nota de Crédito"
    case _ => t
  }

  /** `getPaymentMethodLabel`: a label for the four payment methods, any
      other code shown as it is. */
  function PaymentMethodLabel(m: string): (shown: string)
    ensures m in {"cash", "transfer", "card", "check"} <==> shown != m
  {
    match m
    case "cash" => "Efectivo"
    case "transfer" => "Transferencia"
    case "card" => "Tarjeta"
    case "check" => "Cheque"
    case _ => m
  }

  /** The four invoice types get four different labels. */
  lemma InvoiceTypeLabelsDistinct()
    ensures |{InvoiceTypeLabel("A"), InvoiceTypeLabel("B"), InvoiceTypeLabel("C"), InvoiceTypeLabel("NC")}| == 4
  {
  }

  // ---------------------------------------------------------------------
  // Saving

  /** The form record the page keeps in `formData` (the fields the modelled
      handlers use). */
  datatype InvoiceFormData = InvoiceFormData(
    invoiceType: string,
    clientId: string,
    client: Option<Client>,
    items: seq<InvoiceItem>,
    subtotal: real,
    iva: real,
    total: real,
    paymentMethod: string)

  datatype TusFacturasAppConfig = TusFacturasAppConfig(usertoken: string, apikey: string, isEnabled: bool)

  /** What `handleSaveInvoice` ends in: each of its early returns, the
      `catch`, or the saved invoice with the payload sent when the
      integration is on. */
  datatype SaveOutcome =
    | Incomplete
    | MissingCredentials
    | SaveFailed
    | ValidationFailed(errors: seq<string>)
    | Saved(payload: Option<TusFacturasAppData>)

  /** The invoice object built for serialization, with `client!`. */
  function InvoiceOf(f: InvoiceFormData): Invoice
    requires f.client.Some?
  {
    Invoice(f.invoiceType, f.clientId, f.client.value, f.items, f.subtotal, f.iva, f.total, "draft")
  }

  /** The decision `handleSaveInvoice` takes. Without a client object the
      serializer reads a field of `undefined`, which throws into the `catch`. */
  function SaveDecision(f: InvoiceFormData, config: TusFacturasAppConfig): SaveOutcome
  {
    if f.clientId == "" || |f.items| == 0 then Incomplete
    else if config.isEnabled && (config.usertoken == "" || config.apikey == "") then MissingCredentials
    else if !config.isEnabled then Saved(None)
    else if f.client.None? then SaveFailed
    else
      var payload := TusFacturasApp.Serialize(InvoiceOf(f), config.usertoken, config.apikey);
      var errors := TusFacturasApp.ValidationErrors(payload);
      if errors != [] then ValidationFailed(errors) else Saved(Some(payload))
  }

  /** A save goes through exactly when there is a client id and a line and,
      with the integration on, both credentials are set, the client object
      is there with its number, name, e-mail and address, and every line is
      acceptable to the provider; with it off nothing is serialized. */
  lemma SaveGuard(f: InvoiceFormData, config: TusFacturasAppConfig)
    ensures SaveDecision(f, config).Saved? <==>
      f.clientId != "" && |f.items| > 0 &&
      (config.isEnabled ==>
        config.usertoken != "" && config.apikey != "" && f.client.Some? &&
        f.client.value.documentNumber != "" && f.client.value.businessName != "" &&
        f.client.value.email != "" && f.client.value.address != "" &&
        TusFacturasApp.LinesAcceptable(f.items))
    ensures !config.isEnabled && SaveDecision(f, config).Saved? ==> SaveDecision(f, config).payload.None?
    ensures SaveDecision(f, config).ValidationFailed? ==> SaveDecision(f, config).errors != []
  {
    if f.client.Some? {
      TusFacturasApp.SerializedValidIff(InvoiceOf(f), config.usertoken, config.apikey);
    }
  }

  // ---------------------------------------------------------------------
  // The page

  class NewInvoicePage {
    var formData: InvoiceFormData
    var config: TusFacturasAppConfig
    var selectedProduct: Option<Product>
    var quantity: int
    var discount: real
    var isProductDialogOpen: bool
    var isClientDialogOpen: bool

    /** Every line keeps its total, and the document totals follow the lines. */
    predicate Valid()
      reads this
    {
      LinesConsistent(formData.items) &&
      formData.subtotal == Subtotal(formData.items) &&
      formData.iva == IvaTotal(formData.items) &&
      formData.total == formData.subtotal + formData.iva
    }

    /** The initial state of the page. */
    constructor ()
      ensures Valid()
      ensures formData == InvoiceFormData("A", "", None, [], 0.0, 0.0, 0.0, "transfer")
      ensures config == TusFacturasAppConfig("", "", false)
      ensures selectedProduct.None? && quantity == 1 && discount == 0.0
      ensures !isProductDialogOpen && !isClientDialogOpen
    {
      formData := InvoiceFormData("A", "", None, [], 0.0, 0.0, 0.0, "transfer");
      config := TusFacturasAppConfig("", "", false);
      selectedProduct := None;
      quantity := 1;
      discount := 0.0;
      isProductDialogOpen := false;
      isClientDialogOpen := false;
    }

    /** The totals effect. */
    method RecomputeTotals()
      requires LinesConsistent(formData.items)
      modifies this
      ensures Valid()
      ensures formData.(subtotal := 0.0, iva := 0.0, total := 0.0) ==
        old(formData).(subtotal := 0.0, iva := 0.0, total := 0.0)
      ensures config == old(config) && selectedProduct == old(selectedProduct)
      ensures quantity == old(quantity) && discount == old(discount)
      ensures isProductDialogOpen == old(isProductDialogOpen) && isClientDialogOpen == old(isClientDialogOpen)
    {
      var subtotal := Subtotal(formData.items);
      var iva := IvaTotal(formData.items);
      formData := formData.(subtotal := subtotal, iva := iva, total := subtotal + iva);
    }

    /** `handleAddProduct`. */
    method AddProduct()
      requires Valid()
      modifies this
      ensures Valid()
      ensures old(selectedProduct).None? ==>
        formData == old(formData) && selectedProduct == old(selectedProduct) &&
        quantity == old(quantity) && discount == old(discount) &&
        isProductDialogOpen == old(isProductDialogOpen)
      ensures old(selectedProduct).Some? ==>
        formData.items == AddOrMerge(old(formData.items), old(selectedProduct).value, old(quantity), old(discount)) &&
        selectedProduct.None? && quantity == 1 && discount == 0.0 && !isProductDialogOpen
      ensures formData.(items := [], subtotal := 0.0, iva := 0.0, total := 0.0) ==
        old(formData).(items := [], subtotal := 0.0, iva := 0.0, total := 0.0)
      ensures config == old(config) && isClientDialogOpen == old(isClientDialogOpen)
    {
      if selectedProduct.None? {
        return;
      }
      var product := selectedProduct.value;
      var items := formData.items;
      var existingItemIndex := FindIndex(items, product.id);
      var updatedItems: seq<InvoiceItem>;
      if existingItemIndex >= 0 {
        ghost var existing := items[existingItemIndex];
        var line := items[existingItemIndex];
        line := line.(quantity := line.quantity + quantity);
        line := line.(total := line.unitPrice * (line.quantity as real) - line.discount);
        assert line.quantity == existing.quantity + quantity;
        assert line.total == existing.unitPrice * ((existing.quantity + quantity) as real) - existing.discount;
        assert line == MergeLine(existing, quantity);
        updatedItems := items[existingItemIndex := line];
        assert updatedItems == AddOrMerge(items, product, quantity, discount);
      } else {
        var newItem := InvoiceItem(product.id, product.code, product.name, quantity, product.price,
          DefaultIva, discount, product.price * (quantity as real) - discount);
        assert newItem == NewLine(product, quantity, discount);
        updatedItems := items + [newItem];
        assert updatedItems == AddOrMerge(items, product, quantity, discount);
      }
      AddOrMergeConsistent(items, product, quantity, discount);
      formData := formData.(items := updatedItems);
      selectedProduct := None;
      quantity := 1;
      discount := 0.0;
      isProductDialogOpen := false;
      RecomputeTotals();
    }

    /** `handleRemoveItem`. */
    method RemoveItem(index: int)
      requires Valid()
      modifies this
      ensures Valid()
      ensures formData.items == RemoveAt(old(formData.items), index)
      ensures formData.(items := [], subtotal := 0.0, iva := 0.0, total := 0.0) ==
        old(formData).(items := [], subtotal := 0.0, iva := 0.0, total := 0.0)
      ensures config == old(config) && selectedProduct == old(selectedProduct)
      ensures quantity == old(quantity) && discount == old(discount)
      ensures isProductDialogOpen == old(isProductDialogOpen) && isClientDialogOpen == old(isClientDialogOpen)
    {
      RemoveAtConsistent(formData.items, index);
      formData := formData.(items := RemoveAt(formData.items, index));
      RecomputeTotals();
    }

    /** `handleUpdateItem`, for a row of the table. */
    method UpdateItem(index: int, f: ItemField)
      requires Valid()
      requires 0 <= index < |formData.items|
      modifies this
      ensures Valid()
      ensures formData.items == UpdateLine(old(formData.items), index, f)
      ensures formData.(items := [], subtotal := 0.0, iva := 0.0, total := 0.0) ==
        old(formData).(items := [], subtotal := 0.0, iva := 0.0, total := 0.0)
      ensures config == old(config) && selectedProduct == old(selectedProduct)
      ensures quantity == old(quantity) && discount == old(discount)
      ensures isProductDialogOpen == old(isProductDialogOpen) && isClientDialogOpen == old(isClientDialogOpen)
    {
      var items := formData.items;
      var item := ApplyField(items[index], f);
      item := item.(total := item.unitPrice * (item.quantity as real) - item.discount);
      assert item == UpdatedLine(items[index], f);
      var updatedItems := items[index := item];
      assert updatedItems == UpdateLine(items, index, f);
      UpdateLineConsistent(items, index, f);
      formData := formData.(items := updatedItems);
      RecomputeTotals();
    }

    /** `handleClientSelect`: records the id and the client found for it
        (possibly none) and closes the client dialog. */
    method SelectClient(clientId: string, clients: seq<Client>)
      requires Valid()
      modifies this
      ensures Valid()
      ensures formData == old(formData).(clientId := clientId, client := FindClient(clients, clientId))
      ensures !isClientDialogOpen
      ensures config == old(config) && selectedProduct == old(selectedProduct)
      ensures quantity == old(quantity) && discount == old(discount)
      ensures isProductDialogOpen == old(isProductDialogOpen)
    {
      var client := FindClient(clients, clientId);
      formData := formData.(clientId := clientId, client := client);
      isClientDialogOpen := false;
    }

    /** `handleSaveInvoice`: changes nothing on the page and reports how it ended. */
    method SaveInvoice() returns (outcome: SaveOutcome)
      ensures outcome == SaveDecision(formData, config)
    {
      if formData.clientId == "" || |formData.items| == 0 {
        return Incomplete;
      }
      if config.isEnabled {
        if config.usertoken == "" || config.apikey == "" {
          return MissingCredentials;
        }
      }
      if !config.isEnabled {
        return Saved(None);
      }
      if formData.client.None? {
        return SaveFailed;
      }
      var payload := TusFacturasApp.Serialize(InvoiceOf(formData), config.usertoken, config.apikey);
      var validation := TusFacturasApp.ValidateTusFacturasAppData(payload);
      if !validation.isValid {
        return ValidationFailed(validation.errors);
      }
      return Saved(Some(payload));
    }
  }
}

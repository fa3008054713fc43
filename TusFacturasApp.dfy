/** lib/tus-facturas-app.ts: the payload sent to the TusFacturasApp
    e-invoicing provider. `Serialize` re-projects an invoice into the
    provider's vocabulary through three fixed lookup tables, each with a
    silent default; `ValidateTusFacturasAppData` runs independent presence
    and range checks and collects one message per failed check. */
module TusFacturasApp {
  import opened Util
  import opened Text
  import opened Types

  // ---------------------------------------------------------------------
  // Lookup tables, as the source writes them

  /** Invoice type to AFIP comprobante code. */
  const TipoCbteMap: map<string, string> :=
    map["A" := "1", "B" := "6", "C" := "11", "NC" := "3"]

  /** Client document type to the provider's document type. */
  const DocumentoTipoMap: map<string, string> :=
    map["CUIT" := "CUIT", "DNI" := "DNI", "CUIL" := "CUIL"]

  /** Province name to AFIP province code. */
  const ProvinciaMap: map<string, string> :=
    map[
      "Buenos Aires" := "1",
      "Ciudad Autónoma de Buenos Aires" := "2",
      "Catamarca" := "3",
      "Chaco" := "4",
      "Chubut" := "5",
      "Córdoba" := "6",
      "Corrientes" := "7",
      "Entre Ríos" := "8",
      "Formosa" := "9",
      "Jujuy" := "10",
      "La Pampa" := "11",
      "La Rioja" := "12",
      "Mendoza" := "13",
      "Misiones" := "14",
      "Neuquén" := "15",
      "Río Negro" := "16",
      "Salta" := "17",
      "San Juan" := "18",
      "San Luis" := "19",
      "Santa Cruz" := "20",
      "Santa Fe" := "21",
      "Santiago del Estero" := "22",
      "Tierra del Fuego" := "23",
      "Tucumán" := "24"
    ]

  /** The province names in the order the table lists them. */
  const Provinces: seq<string> := [
    "Buenos Aires", "Ciudad Autónoma de Buenos Aires", "Catamarca", "Chaco",
    "Chubut", "Córdoba", "Corrientes", "Entre Ríos", "Formosa", "Jujuy",
    "La Pampa", "La Rioja", "Mendoza", "Misiones", "Neuquén", "Río Negro",
    "Salta", "San Juan", "San Luis", "Santa Cruz", "Santa Fe",
    "Santiago del Estero", "Tierra del Fuego", "Tucumán"
  ]

  /** The point of sale is a fixed literal, whatever the invoice holds. */
  const PuntoDeVenta := "0001"

  /** `table[key] || fallback`: a missing key (or an empty value) yields the
      fallback. */
  function Lookup(table: map<string, string>, key: string, fallback: string): (r: string)
    ensures key in table && table[key] != "" ==> r == table[key]
    ensures key !in table ==> r == fallback
    ensures fallback != "" ==> r != ""
  {
    if key in table && table[key] != "" then table[key] else fallback
  }

  function TipoCbteCode(invoiceType: string): string
  {
    Lookup(TipoCbteMap, invoiceType, "1")
  }

  function DocumentoTipoCode(documentType: string): string
  {
    Lookup(DocumentoTipoMap, documentType, "CUIT")
  }

  function ProvinciaCode(province: string): string
  {
    Lookup(ProvinciaMap, province, "1")
  }

  /** A→"1", B→"6", C→"11", NC→"3", and every other invoice type to "1". */
  lemma TipoCbteCodes(t: string)
    ensures TipoCbteCode("A") == "1" && TipoCbteCode("B") == "6"
    ensures TipoCbteCode("C") == "11" && TipoCbteCode("NC") == "3"
    ensures t !in {"A", "B", "C", "NC"} ==> TipoCbteCode(t) == "1"
  {
  }

  /** CUIT, DNI and CUIL pass through unchanged; anything else becomes CUIT. */
  lemma DocumentoTipoCodes(t: string)
    ensures t in {"CUIT", "DNI", "CUIL"} ==> DocumentoTipoCode(t) == t
    ensures t !in {"CUIT", "DNI", "CUIL"} ==> DocumentoTipoCode(t) == "CUIT"
  {
  }

  /** The province at position i of the list (from 0) gets the code
      `String(i + 1)`: the codes run from "1" to "24" in list order. */
  lemma ProvinciaCodes()
    ensures |Provinces| == 24
    ensures forall i :: 0 <= i < |Provinces| ==>
      Provinces[i] in ProvinciaMap && ProvinciaCode(Provinces[i]) == Decimal(i + 1)
  {
    ProvinciaCodesFirst();
    ProvinciaCodesSecond();
    ProvinciaCodesThird();
    ProvinciaCodesFourth();
  }

  lemma ProvinciaCodesFirst()
    ensures forall i :: 0 <= i < 6 ==>
      Provinces[i] in ProvinciaMap && ProvinciaCode(Provinces[i]) == Decimal(i + 1)
  {
  }

  lemma ProvinciaCodesSecond()
    ensures forall i :: 6 <= i < 12 ==>
      Provinces[i] in ProvinciaMap && ProvinciaCode(Provinces[i]) == Decimal(i + 1)
  {
  }

  lemma ProvinciaCodesThird()
    ensures forall i :: 12 <= i < 18 ==>
      Provinces[i] in ProvinciaMap && ProvinciaCode(Provinces[i]) == Decimal(i + 1)
  {
  }

  lemma ProvinciaCodesFourth()
    ensures forall i :: 18 <= i < 24 ==>
      Provinces[i] in ProvinciaMap && ProvinciaCode(Provinces[i]) == Decimal(i + 1)
  {
  }

  /** The table's keys are exactly the listed provinces. */
  lemma ProvinciaKeys()
    ensures forall n :: n in ProvinciaMap <==> n in Provinces
  {
  }

  /** An unlisted name gets "1", the code of Buenos Aires: an unknown
      province is sent as Buenos Aires. */
  lemma UnknownProvinceIsBuenosAires(name: string)
    requires name !in Provinces
    ensures ProvinciaCode(name) == "1" == ProvinciaCode("Buenos Aires")
  {
    ProvinciaKeys();
    assert name !in ProvinciaMap;
    BuenosAiresCode();
  }

  lemma BuenosAiresCode()
    ensures ProvinciaCode("Buenos Aires") == "1"
  {
    assert "Buenos Aires" in ProvinciaMap;
  }

  /** Distinct listed province names get distinct codes. */
  lemma ProvinciaInjective(a: string, b: string)
    requires a in ProvinciaMap && b in ProvinciaMap && a != b
    ensures ProvinciaCode(a) != ProvinciaCode(b)
  {
    ProvinciaCodes();
    ProvinciaKeys();
    var i :| 0 <= i < |Provinces| && Provinces[i] == a;
    var j :| 0 <= j < |Provinces| && Provinces[j] == b;
    if Decimal(i + 1) == Decimal(j + 1) {
      DecimalInjective(i + 1, j + 1);
    }
  }

  // ---------------------------------------------------------------------
  // Serializer

  /** One payload product per invoice line; `discount` and `total` are not
      carried over. */
  function ProductoOf(item: InvoiceItem): ProductoData
  {
    ProductoData(item.code, item.description, item.quantity, item.unitPrice, item.iva)
  }

  /** `items.map(ProductoOf)`. */
  function MapProductos(items: seq<InvoiceItem>): (ps: seq<ProductoData>)
    ensures |ps| == |items|
    ensures forall i :: 0 <= i < |items| ==> ps[i] == ProductoOf(items[i])
  {
    if items == [] then [] else MapProductos(items[..|items| - 1]) + [ProductoOf(items[|items| - 1])]
  }

  /** `serializeInvoiceForTusFacturasApp`. */
  function Serialize(invoice: Invoice, usertoken: string, apikey: string): (d: TusFacturasAppData)
    ensures d.usertoken == usertoken && d.apikey == apikey
    ensures d.cliente.Some? && d.comprobante.Some? && d.comprobante.value.productos.Some?
    ensures d.cliente.value.documento_nro == invoice.client.documentNumber
    ensures d.cliente.value.razon_social == invoice.client.businessName
    ensures d.cliente.value.email == invoice.client.email
    ensures d.cliente.value.domicilio == invoice.client.address
    ensures d.comprobante.value.pto_vta == "0001"
    ensures |d.comprobante.value.productos.value| == |invoice.items|
    ensures forall i :: 0 <= i < |invoice.items| ==>
      var p, item := d.comprobante.value.productos.value[i], invoice.items[i];
      p.codigo == item.code && p.descripcion == item.description && p.cantidad == item.quantity &&
      p.precio_unitario == item.unitPrice && p.iva == item.iva
  {
    var client := invoice.client;
    TusFacturasAppData(
      usertoken,
      apikey,
      Some(ClienteData(
        DocumentoTipoCode(client.documentType),
        client.documentNumber,
        client.businessName,
        client.email,
        client.address,
        ProvinciaCode(client.province))),
      Some(ComprobanteData(
        TipoCbteCode(invoice.invoiceType),
        PuntoDeVenta,
        Some(MapProductos(invoice.items)))))
  }

  /** Two invoices whose lines differ at most in `discount` and `total` (and
      in fields the serializer does not read) give the same payload. */
  lemma SerializeIgnoresDiscountAndTotal(a: Invoice, b: Invoice, usertoken: string, apikey: string)
    requires a.invoiceType == b.invoiceType && a.client == b.client
    requires |a.items| == |b.items|
    requires forall i :: 0 <= i < |a.items| ==>
      a.items[i].(discount := 0.0, total := 0.0, productId := "") ==
      b.items[i].(discount := 0.0, total := 0.0, productId := "")
    ensures Serialize(a, usertoken, apikey) == Serialize(b, usertoken, apikey)
  {
    var pa, pb := MapProductos(a.items), MapProductos(b.items);
    forall i | 0 <= i < |pa|
      ensures pa[i] == pb[i]
    {
      var x, y := a.items[i], b.items[i];
      assert x.(discount := 0.0, total := 0.0, productId := "").code == y.code;
      assert x.(discount := 0.0, total := 0.0, productId := "").description == y.description;
      assert x.(discount := 0.0, total := 0.0, productId := "").quantity == y.quantity;
      assert x.(discount := 0.0, total := 0.0, productId := "").unitPrice == y.unitPrice;
      assert x.(discount := 0.0, total := 0.0, productId := "").iva == y.iva;
    }
    assert pa == pb;
  }

  // ---------------------------------------------------------------------
  // Validator

  datatype ValidationResult = ValidationResult(isValid: bool, errors: seq<string>)

  /** The checks that are not about one product, in the order the source runs them. */
  datatype Check =
    | UsertokenRequired | ApikeyRequired
    | ClienteRequired | DocumentoTipoRequired | DocumentoNroRequired | RazonSocialRequired
    | EmailRequired | DomicilioRequired | ProvinciaRequired
    | ComprobanteRequired | TipoCbteRequired | PtoVtaRequired | ProductosRequired

  /** The checks run on each product. */
  datatype ProductCheck = CodigoRequired | DescripcionRequired | CantidadPositive | PrecioPositive | IvaNonNegative

  function MessageOf(k: Check): string
  {
    match k
    case UsertokenRequired => "usertoken es requerido"
    case ApikeyRequired => "apikey es requerido"
    case ClienteRequired => "cliente es requerido"
    case DocumentoTipoRequired => "documento_tipo es requerido"
    case DocumentoNroRequired => "documento_nro es requerido"
    case RazonSocialRequired => "razon_social es requerido"
    case EmailRequired => "email es requerido"
    case DomicilioRequired => "domicilio es requerido"
    case ProvinciaRequired => "provincia es requerido"
    case ComprobanteRequired => "comprobante es requerido"
    case TipoCbteRequired => "tipo_cbte es requerido"
    case PtoVtaRequired => "pto_vta es requerido"
    case ProductosRequired => "productos es requerido" + " y no puede estar vacío"
  }

  function ProductCheckText(k: ProductCheck): string
  {
    match k
    case CodigoRequired => "codigo es requerido"
    case DescripcionRequired => "descripcion es requerido"
    case CantidadPositive => "cantidad debe ser mayor a 0"
    case PrecioPositive => "precio_unitario debe ser mayor a 0"
    case IvaNonNegative => "iva no puede ser negativo"
  }

  /** `producto ${index + 1}: <text>` for the product at 1-based `position`. */
  function ProductMessage(position: nat, k: ProductCheck): string
  {
    "producto " + (Decimal(position) + (": " + ProductCheckText(k)))
  }

  /** `[x]` when the check failed, nothing otherwise. */
  function Report<T>(failed: bool, x: T): seq<T>
  {
    if failed then [x] else []
  }

  function ProductErrors(position: nat, p: ProductoData): seq<string>
  {
    Report(p.codigo == "", ProductMessage(position, CodigoRequired)) +
    Report(p.descripcion == "", ProductMessage(position, DescripcionRequired)) +
    Report(p.cantidad <= 0, ProductMessage(position, CantidadPositive)) +
    Report(p.precio_unitario <= 0.0, ProductMessage(position, PrecioPositive)) +
    Report(p.iva < 0.0, ProductMessage(position, IvaNonNegative))
  }

  /** The messages of the `forEach` over the products, positions from 1. */
  function ProductosErrors(ps: seq<ProductoData>): seq<string>
  {
    if ps == [] then [] else ProductosErrors(ps[..|ps| - 1]) + ProductErrors(|ps|, ps[|ps| - 1])
  }

  function ClienteErrors(cliente: Option<ClienteData>): seq<string>
  {
    match cliente
    case None => [MessageOf(ClienteRequired)]
    case Some(c) =>
      Report(c.documento_tipo == "", MessageOf(DocumentoTipoRequired)) +
      Report(c.documento_nro == "", MessageOf(DocumentoNroRequired)) +
      Report(c.razon_social == "", MessageOf(RazonSocialRequired)) +
      Report(c.email == "", MessageOf(EmailRequired)) +
      Report(c.domicilio == "", MessageOf(DomicilioRequired)) +
      Report(c.provincia == "", MessageOf(ProvinciaRequired))
  }

  function ComprobanteErrors(comprobante: Option<ComprobanteData>): seq<string>
  {
    match comprobante
    case None => [MessageOf(ComprobanteRequired)]
    case Some(c) =>
      Report(c.tipo_cbte == "", MessageOf(TipoCbteRequired)) +
      Report(c.pto_vta == "", MessageOf(PtoVtaRequired)) +
      (if c.productos.None? || |c.productos.value| == 0 then [MessageOf(ProductosRequired)]
       else ProductosErrors(c.productos.value))
  }

  /** The error list `validateTusFacturasAppData` builds, in source order. */
  function ValidationErrors(d: TusFacturasAppData): seq<string>
  {
    Report(d.usertoken == "", MessageOf(UsertokenRequired)) +
    Report(d.apikey == "", MessageOf(ApikeyRequired)) +
    ClienteErrors(d.cliente) +
    ComprobanteErrors(d.comprobante)
  }

  /** `validateTusFacturasAppData`: never fails, reports every failed check. */
  method ValidateTusFacturasAppData(data: TusFacturasAppData) returns (result: ValidationResult)
    ensures result.errors == ValidationErrors(data)
    ensures result.isValid <==> result.errors == []
  {
    var errors: seq<string> := [];
    if data.usertoken == "" { errors := errors + [MessageOf(UsertokenRequired)]; }
    assert errors == Report(data.usertoken == "", MessageOf(UsertokenRequired));
    ghost var header := errors;
    if data.apikey == "" { errors := errors + [MessageOf(ApikeyRequired)]; }
    assert errors == header + Report(data.apikey == "", MessageOf(ApikeyRequired));
    header := errors;
    var clienteErrors := ValidateCliente(data.cliente);
    errors := errors + clienteErrors;
    var comprobanteErrors := ValidateComprobante(data.comprobante);
    errors := errors + comprobanteErrors;
    assert errors == header + ClienteErrors(data.cliente) + ComprobanteErrors(data.comprobante);
    result := ValidationResult(errors == [], errors);
  }

  /** The `cliente` block of the validator. */
  method ValidateCliente(cliente: Option<ClienteData>) returns (errors: seq<string>)
    ensures errors == ClienteErrors(cliente)
  {
    errors := [];
    if cliente.None? {
      errors := errors + [MessageOf(ClienteRequired)];
    } else {
      var c := cliente.value;
      ghost var r1 := Report(c.documento_tipo == "", MessageOf(DocumentoTipoRequired));
      ghost var r2 := Report(c.documento_nro == "", MessageOf(DocumentoNroRequired));
      ghost var r3 := Report(c.razon_social == "", MessageOf(RazonSocialRequired));
      ghost var r4 := Report(c.email == "", MessageOf(EmailRequired));
      ghost var r5 := Report(c.domicilio == "", MessageOf(DomicilioRequired));
      if c.documento_tipo == "" { errors := errors + [MessageOf(DocumentoTipoRequired)]; }
      assert errors == r1;
      if c.documento_nro == "" { errors := errors + [MessageOf(DocumentoNroRequired)]; }
      assert errors == r1 + r2;
      if c.razon_social == "" { errors := errors + [MessageOf(RazonSocialRequired)]; }
      assert errors == r1 + r2 + r3;
      if c.email == "" { errors := errors + [MessageOf(EmailRequired)]; }
      assert errors == r1 + r2 + r3 + r4;
      if c.domicilio == "" { errors := errors + [MessageOf(DomicilioRequired)]; }
      assert errors == r1 + r2 + r3 + r4 + r5;
      if c.provincia == "" { errors := errors + [MessageOf(ProvinciaRequired)]; }
    }
  }

  /** The `comprobante` block of the validator, with its loop over the products. */
  method ValidateComprobante(comprobante: Option<ComprobanteData>) returns (errors: seq<string>)
    ensures errors == ComprobanteErrors(comprobante)
  {
    errors := [];
    if comprobante.None? {
      errors := errors + [MessageOf(ComprobanteRequired)];
    } else {
      var c := comprobante.value;
      ghost var r1 := Report(c.tipo_cbte == "", MessageOf(TipoCbteRequired));
      ghost var r2 := Report(c.pto_vta == "", MessageOf(PtoVtaRequired));
      if c.tipo_cbte == "" { errors := errors + [MessageOf(TipoCbteRequired)]; }
      assert errors == r1;
      if c.pto_vta == "" { errors := errors + [MessageOf(PtoVtaRequired)]; }
      assert errors == r1 + r2;
      if c.productos.None? || |c.productos.value| == 0 {
        errors := errors + [MessageOf(ProductosRequired)];
      } else {
        var productosErrors := ValidateProductos(c.productos.value);
        errors := errors + productosErrors;
      }
    }
  }

  /** The `forEach` over the products. */
  method ValidateProductos(productos: seq<ProductoData>) returns (errors: seq<string>)
    ensures errors == ProductosErrors(productos)
  {
    errors := [];
    var index := 0;
    while index < |productos|
      invariant 0 <= index <= |productos|
      invariant errors == ProductosErrors(productos[..index])
    {
      var productErrors := ValidateProducto(index + 1, productos[index]);
      ProductosErrorsStep(productos, index);
      errors := errors + productErrors;
      index := index + 1;
    }
    assert productos[..index] == productos;
  }

  /** The `forEach` reaching the product at `i` (from 0) appends its messages. */
  lemma ProductosErrorsStep(ps: seq<ProductoData>, i: int)
    requires 0 <= i < |ps|
    ensures ProductosErrors(ps[..i + 1]) == ProductosErrors(ps[..i]) + ProductErrors(i + 1, ps[i])
  {
    assert ps[..i + 1][..i] == ps[..i];
  }

  /** The body of the `forEach`: the checks on the product at 1-based `position`. */
  method ValidateProducto(position: nat, producto: ProductoData) returns (errors: seq<string>)
    ensures errors == ProductErrors(position, producto)
  {
    ghost var r1 := Report(producto.codigo == "", ProductMessage(position, CodigoRequired));
    ghost var r2 := Report(producto.descripcion == "", ProductMessage(position, DescripcionRequired));
    ghost var r3 := Report(producto.cantidad <= 0, ProductMessage(position, CantidadPositive));
    ghost var r4 := Report(producto.precio_unitario <= 0.0, ProductMessage(position, PrecioPositive));
    errors := [];
    if producto.codigo == "" { errors := errors + [ProductMessage(position, CodigoRequired)]; }
    assert errors == r1;
    if producto.descripcion == "" { errors := errors + [ProductMessage(position, DescripcionRequired)]; }
    assert errors == r1 + r2;
    if producto.cantidad <= 0 { errors := errors + [ProductMessage(position, CantidadPositive)]; }
    assert errors == r1 + r2 + r3;
    if producto.precio_unitario <= 0.0 { errors := errors + [ProductMessage(position, PrecioPositive)]; }
    assert errors == r1 + r2 + r3 + r4;
    if producto.iva < 0.0 { errors := errors + [ProductMessage(position, IvaNonNegative)]; }
  }

  // ---------------------------------------------------------------------
  // The same checks, as structured problems

  /** One reported problem: a failed check, or a failed check of the product
      at a 1-based position. `Message` renders it as the text pushed for it. */
  datatype Problem = Missing(check: Check) | BadProduct(position: nat, productCheck: ProductCheck)

  function Message(p: Problem): string
  {
    match p
    case Missing(k) => MessageOf(k)
    case BadProduct(position, k) => ProductMessage(position, k)
  }

  function Messages(ps: seq<Problem>): seq<string>
  {
    MapSeq(ps, Message)
  }

  function ProductProblems(position: nat, p: ProductoData): seq<Problem>
  {
    Report(p.codigo == "", BadProduct(position, CodigoRequired)) +
    Report(p.descripcion == "", BadProduct(position, DescripcionRequired)) +
    Report(p.cantidad <= 0, BadProduct(position, CantidadPositive)) +
    Report(p.precio_unitario <= 0.0, BadProduct(position, PrecioPositive)) +
    Report(p.iva < 0.0, BadProduct(position, IvaNonNegative))
  }

  function ProductosProblems(ps: seq<ProductoData>): seq<Problem>
  {
    if ps == [] then [] else ProductosProblems(ps[..|ps| - 1]) + ProductProblems(|ps|, ps[|ps| - 1])
  }

  function HeaderProblems(d: TusFacturasAppData): seq<Problem>
  {
    Report(d.usertoken == "", Missing(UsertokenRequired)) +
    Report(d.apikey == "", Missing(ApikeyRequired))
  }

  function ClienteProblems(cliente: Option<ClienteData>): seq<Problem>
  {
    match cliente
    case None => [Missing(ClienteRequired)]
    case Some(c) =>
      Report(c.documento_tipo == "", Missing(DocumentoTipoRequired)) +
      Report(c.documento_nro == "", Missing(DocumentoNroRequired)) +
      Report(c.razon_social == "", Missing(RazonSocialRequired)) +
      Report(c.email == "", Missing(EmailRequired)) +
      Report(c.domicilio == "", Missing(DomicilioRequired)) +
      Report(c.provincia == "", Missing(ProvinciaRequired))
  }

  function ComprobanteProblems(comprobante: Option<ComprobanteData>): seq<Problem>
  {
    match comprobante
    case None => [Missing(ComprobanteRequired)]
    case Some(c) =>
      Report(c.tipo_cbte == "", Missing(TipoCbteRequired)) +
      Report(c.pto_vta == "", Missing(PtoVtaRequired)) +
      (if c.productos.None? || |c.productos.value| == 0 then [Missing(ProductosRequired)]
       else ProductosProblems(c.productos.value))
  }

  /** The problems the validator finds, in the order it reports them. */
  function Problems(d: TusFacturasAppData): seq<Problem>
  {
    HeaderProblems(d) + ClienteProblems(d.cliente) + ComprobanteProblems(d.comprobante)
  }

  lemma MessagesAppend(a: seq<Problem>, b: seq<Problem>)
    ensures Messages(a + b) == Messages(a) + Messages(b)
  {
    MapSeqAppend(a, b, Message);
  }

  lemma MessagesReport(failed: bool, p: Problem)
    ensures Messages(Report(failed, p)) == Report(failed, Message(p))
  {
    if failed {
      assert Messages([p]) == [Message(p)];
    }
  }

  lemma ProductErrorsAreMessages(position: nat, p: ProductoData)
    ensures ProductErrors(position, p) == Messages(ProductProblems(position, p))
  {
    var r1 := Report(p.codigo == "", BadProduct(position, CodigoRequired));
    var r2 := Report(p.descripcion == "", BadProduct(position, DescripcionRequired));
    var r3 := Report(p.cantidad <= 0, BadProduct(position, CantidadPositive));
    var r4 := Report(p.precio_unitario <= 0.0, BadProduct(position, PrecioPositive));
    var r5 := Report(p.iva < 0.0, BadProduct(position, IvaNonNegative));
    MessagesReport(p.codigo == "", BadProduct(position, CodigoRequired));
    MessagesReport(p.descripcion == "", BadProduct(position, DescripcionRequired));
    MessagesReport(p.cantidad <= 0, BadProduct(position, CantidadPositive));
    MessagesReport(p.precio_unitario <= 0.0, BadProduct(position, PrecioPositive));
    MessagesReport(p.iva < 0.0, BadProduct(position, IvaNonNegative));
    MessagesAppend(r1, r2);
    MessagesAppend(r1 + r2, r3);
    MessagesAppend(r1 + r2 + r3, r4);
    MessagesAppend(r1 + r2 + r3 + r4, r5);
  }

  lemma {:induction false} ProductosErrorsAreMessages(ps: seq<ProductoData>)
    ensures ProductosErrors(ps) == Messages(ProductosProblems(ps))
  {
    if ps != [] {
      ProductosErrorsAreMessages(ps[..|ps| - 1]);
      ProductErrorsAreMessages(|ps|, ps[|ps| - 1]);
      MessagesAppend(ProductosProblems(ps[..|ps| - 1]), ProductProblems(|ps|, ps[|ps| - 1]));
    }
  }

  lemma ClienteErrorsAreMessages(cliente: Option<ClienteData>)
    ensures ClienteErrors(cliente) == Messages(ClienteProblems(cliente))
  {
    match cliente {
      case None =>
        assert Messages([Missing(ClienteRequired)]) == [MessageOf(ClienteRequired)];
      case Some(c) =>
        var r1 := Report(c.documento_tipo == "", Missing(DocumentoTipoRequired));
        var r2 := Report(c.documento_nro == "", Missing(DocumentoNroRequired));
        var r3 := Report(c.razon_social == "", Missing(RazonSocialRequired));
        var r4 := Report(c.email == "", Missing(EmailRequired));
        var r5 := Report(c.domicilio == "", Missing(DomicilioRequired));
        var r6 := Report(c.provincia == "", Missing(ProvinciaRequired));
        MessagesReport(c.documento_tipo == "", Missing(DocumentoTipoRequired));
        MessagesReport(c.documento_nro == "", Missing(DocumentoNroRequired));
        MessagesReport(c.razon_social == "", Missing(RazonSocialRequired));
        MessagesReport(c.email == "", Missing(EmailRequired));
        MessagesReport(c.domicilio == "", Missing(DomicilioRequired));
        MessagesReport(c.provincia == "", Missing(ProvinciaRequired));
        MessagesAppend(r1, r2);
        MessagesAppend(r1 + r2, r3);
        MessagesAppend(r1 + r2 + r3, r4);
        MessagesAppend(r1 + r2 + r3 + r4, r5);
        MessagesAppend(r1 + r2 + r3 + r4 + r5, r6);
    }
  }

  lemma ComprobanteErrorsAreMessages(comprobante: Option<ComprobanteData>)
    ensures ComprobanteErrors(comprobante) == Messages(ComprobanteProblems(comprobante))
  {
    match comprobante {
      case None =>
        assert Messages([Missing(ComprobanteRequired)]) == [MessageOf(ComprobanteRequired)];
      case Some(c) =>
        var r1 := Report(c.tipo_cbte == "", Missing(TipoCbteRequired));
        var r2 := Report(c.pto_vta == "", Missing(PtoVtaRequired));
        var rest := if c.productos.None? || |c.productos.value| == 0 then [Missing(ProductosRequired)]
          else ProductosProblems(c.productos.value);
        MessagesReport(c.tipo_cbte == "", Missing(TipoCbteRequired));
        MessagesReport(c.pto_vta == "", Missing(PtoVtaRequired));
        if c.productos.None? || |c.productos.value| == 0 {
          assert Messages(rest) == [MessageOf(ProductosRequired)];
        } else {
          ProductosErrorsAreMessages(c.productos.value);
        }
        MessagesAppend(r1, r2);
        MessagesAppend(r1 + r2, rest);
    }
  }

  /** The error list is the rendering of the problem list, element by element. */
  lemma ErrorsAreMessages(d: TusFacturasAppData)
    ensures ValidationErrors(d) == Messages(Problems(d))
  {
    var h1 := Report(d.usertoken == "", Missing(UsertokenRequired));
    var h2 := Report(d.apikey == "", Missing(ApikeyRequired));
    MessagesReport(d.usertoken == "", Missing(UsertokenRequired));
    MessagesReport(d.apikey == "", Missing(ApikeyRequired));
    MessagesAppend(h1, h2);
    ClienteErrorsAreMessages(d.cliente);
    ComprobanteErrorsAreMessages(d.comprobante);
    MessagesAppend(HeaderProblems(d), ClienteProblems(d.cliente));
    MessagesAppend(HeaderProblems(d) + ClienteProblems(d.cliente), ComprobanteProblems(d.comprobante));
  }

  // ---------------------------------------------------------------------
  // Messages are distinct

  /** First character and length tell the non-product messages apart. */
  function MessageKey(k: Check): (char, int)
  {
    match k
    case UsertokenRequired => ('u', 22)
    case ApikeyRequired => ('a', 19)
    case ClienteRequired => ('c', 20)
    case DocumentoTipoRequired => ('d', 27)
    case DocumentoNroRequired => ('d', 26)
    case RazonSocialRequired => ('r', 25)
    case EmailRequired => ('e', 18)
    case DomicilioRequired => ('d', 22)
    case ProvinciaRequired => ('p', 22)
    case ComprobanteRequired => ('c', 24)
    case TipoCbteRequired => ('t', 22)
    case PtoVtaRequired => ('p', 20)
    case ProductosRequired => ('p', 45)
  }

  /** Each message has its key, and one starting with 'p' has no blank at
      position 8, which every product message has. */
  lemma MessageKeyOf(k: Check)
    ensures |MessageOf(k)| == MessageKey(k).1 && MessageOf(k)[0] == MessageKey(k).0
    ensures MessageOf(k)[0] == 'p' ==> MessageOf(k)[8] != ' '
  {
  }

  lemma MessageOfInjective(k: Check, l: Check)
    requires MessageOf(k) == MessageOf(l)
    ensures k == l
  {
    MessageKeyOf(k);
    MessageKeyOf(l);
  }

  function ProductTextLength(k: ProductCheck): nat
  {
    match k
    case CodigoRequired => 19
    case DescripcionRequired => 24
    case CantidadPositive => 27
    case PrecioPositive => 34
    case IvaNonNegative => 25
  }

  lemma ProductCheckTextLength(k: ProductCheck)
    ensures |ProductCheckText(k)| == ProductTextLength(k)
  {
  }

  lemma PrefixCancel(p: string, a: string, b: string)
    requires p + a == p + b
    ensures a == b
  {
    assert a == (p + a)[|p|..];
    assert b == (p + b)[|p|..];
  }

  /** Product messages identify their position and their check. */
  lemma ProductMessageInjective(i: nat, k: ProductCheck, j: nat, l: ProductCheck)
    requires ProductMessage(i, k) == ProductMessage(j, l)
    ensures i == j && k == l
  {
    var ti, tj := ": " + ProductCheckText(k), ": " + ProductCheckText(l);
    PrefixCancel("producto ", Decimal(i) + ti, Decimal(j) + tj);
    DigitsPrefixUnique(Decimal(i), ti, Decimal(j), tj);
    DecimalInjective(i, j);
    ProductCheckTextLength(k);
    ProductCheckTextLength(l);
  }

  lemma ProductMessageShape(position: nat, k: ProductCheck)
    ensures |ProductMessage(position, k)| > 9
    ensures ProductMessage(position, k)[0] == 'p' && ProductMessage(position, k)[8] == ' '
  {
  }

  /** Different problems are reported with different texts. */
  lemma MessageInjective(p: Problem, q: Problem)
    requires Message(p) == Message(q)
    ensures p == q
  {
    match p {
      case Missing(k) =>
        match q {
          case Missing(l) => MessageOfInjective(k, l);
          case BadProduct(j, l) =>
            MessageKeyOf(k);
            ProductMessageShape(j, l);
        }
      case BadProduct(i, k) =>
        match q {
          case Missing(l) =>
            MessageKeyOf(l);
            ProductMessageShape(i, k);
          case BadProduct(j, l) => ProductMessageInjective(i, k, j, l);
        }
    }
  }

  lemma MessagesMembership(ps: seq<Problem>, p: Problem)
    ensures Message(p) in Messages(ps) <==> p in ps
  {
    var r := Messages(ps);
    if Message(p) in r {
      var i :| 0 <= i < |r| && r[i] == Message(p);
      MessageInjective(ps[i], p);
    }
    if p in ps {
      var i :| 0 <= i < |ps| && ps[i] == p;
      assert r[i] == Message(p);
    }
  }

  // ---------------------------------------------------------------------
  // What the validator reports

  /** When each check fails, stated flatly: a per-field check of a block
      only fails when the block is present. */
  predicate CheckFails(d: TusFacturasAppData, k: Check)
  {
    match k
    case UsertokenRequired => d.usertoken == ""
    case ApikeyRequired => d.apikey == ""
    case ClienteRequired => d.cliente.None?
    case DocumentoTipoRequired => d.cliente.Some? && d.cliente.value.documento_tipo == ""
    case DocumentoNroRequired => d.cliente.Some? && d.cliente.value.documento_nro == ""
    case RazonSocialRequired => d.cliente.Some? && d.cliente.value.razon_social == ""
    case EmailRequired => d.cliente.Some? && d.cliente.value.email == ""
    case DomicilioRequired => d.cliente.Some? && d.cliente.value.domicilio == ""
    case ProvinciaRequired => d.cliente.Some? && d.cliente.value.provincia == ""
    case ComprobanteRequired => d.comprobante.None?
    case TipoCbteRequired => d.comprobante.Some? && d.comprobante.value.tipo_cbte == ""
    case PtoVtaRequired => d.comprobante.Some? && d.comprobante.value.pto_vta == ""
    case ProductosRequired =>
      d.comprobante.Some? &&
      (d.comprobante.value.productos.None? || |d.comprobante.value.productos.value| == 0)
  }

  predicate ProductFails(p: ProductoData, k: ProductCheck)
  {
    match k
    case CodigoRequired => p.codigo == ""
    case DescripcionRequired => p.descripcion == ""
    case CantidadPositive => p.cantidad <= 0
    case PrecioPositive => p.precio_unitario <= 0.0
    case IvaNonNegative => p.iva < 0.0
  }

  /** The product at 1-based `position` exists and fails check `k`. */
  predicate ProductCheckFails(d: TusFacturasAppData, position: nat, k: ProductCheck)
  {
    d.comprobante.Some? && d.comprobante.value.productos.Some? &&
    var ps := d.comprobante.value.productos.value;
    1 <= position <= |ps| && ProductFails(ps[position - 1], k)
  }

  predicate Fails(d: TusFacturasAppData, p: Problem)
  {
    match p
    case Missing(k) => CheckFails(d, k)
    case BadProduct(position, k) => ProductCheckFails(d, position, k)
  }

  predicate IsHeaderCheck(k: Check)
  {
    k == UsertokenRequired || k == ApikeyRequired
  }

  predicate IsClienteCheck(k: Check)
  {
    k.ClienteRequired? || k.DocumentoTipoRequired? || k.DocumentoNroRequired? ||
    k.RazonSocialRequired? || k.EmailRequired? || k.DomicilioRequired? || k.ProvinciaRequired?
  }

  predicate IsComprobanteCheck(k: Check)
  {
    k.ComprobanteRequired? || k.TipoCbteRequired? || k.PtoVtaRequired? || k.ProductosRequired?
  }

  lemma ProductProblemsIff(position: nat, p: ProductoData, q: Problem)
    ensures q in ProductProblems(position, p) <==>
      q.BadProduct? && q.position == position && ProductFails(p, q.productCheck)
  {
    var r1 := Report(p.codigo == "", BadProduct(position, CodigoRequired));
    var r2 := Report(p.descripcion == "", BadProduct(position, DescripcionRequired));
    var r3 := Report(p.cantidad <= 0, BadProduct(position, CantidadPositive));
    var r4 := Report(p.precio_unitario <= 0.0, BadProduct(position, PrecioPositive));
    var r5 := Report(p.iva < 0.0, BadProduct(position, IvaNonNegative));
    assert q in ProductProblems(position, p) <==>
      q in r1 || q in r2 || q in r3 || q in r4 || q in r5;
    ReportIff(p.codigo == "", BadProduct(position, CodigoRequired), q);
    ReportIff(p.descripcion == "", BadProduct(position, DescripcionRequired), q);
    ReportIff(p.cantidad <= 0, BadProduct(position, CantidadPositive), q);
    ReportIff(p.precio_unitario <= 0.0, BadProduct(position, PrecioPositive), q);
    ReportIff(p.iva < 0.0, BadProduct(position, IvaNonNegative), q);
  }

  lemma {:induction false} ProductosProblemsIff(ps: seq<ProductoData>, q: Problem)
    ensures q in ProductosProblems(ps) <==>
      q.BadProduct? && 1 <= q.position <= |ps| && ProductFails(ps[q.position - 1], q.productCheck)
  {
    if ps != [] {
      var ps' := ps[..|ps| - 1];
      ProductosProblemsIff(ps', q);
      ProductProblemsIff(|ps|, ps[|ps| - 1], q);
      if q.BadProduct? && 1 <= q.position <= |ps'| {
        assert ps[q.position - 1] == ps'[q.position - 1];
      }
    }
  }

  lemma HeaderProblemsIff(d: TusFacturasAppData, q: Problem)
    ensures q in HeaderProblems(d) <==> q.Missing? && IsHeaderCheck(q.check) && Fails(d, q)
  {
  }

  lemma ReportIff<T>(failed: bool, x: T, y: T)
    ensures y in Report(failed, x) <==> failed && y == x
  {
  }

  lemma ClienteProblemsIff(d: TusFacturasAppData, q: Problem)
    ensures q in ClienteProblems(d.cliente) <==> q.Missing? && IsClienteCheck(q.check) && Fails(d, q)
  {
    if d.cliente.Some? {
      var c := d.cliente.value;
      var r0 := Report(c.documento_tipo == "", Missing(DocumentoTipoRequired));
      var r1 := Report(c.documento_nro == "", Missing(DocumentoNroRequired));
      var r2 := Report(c.razon_social == "", Missing(RazonSocialRequired));
      var r3 := Report(c.email == "", Missing(EmailRequired));
      var r4 := Report(c.domicilio == "", Missing(DomicilioRequired));
      var r5 := Report(c.provincia == "", Missing(ProvinciaRequired));
      assert ClienteProblems(d.cliente) == r0 + r1 + r2 + r3 + r4 + r5;
      assert q in ClienteProblems(d.cliente) <==>
        q in r0 || q in r1 || q in r2 || q in r3 || q in r4 || q in r5;
      ReportIff(c.documento_tipo == "", Missing(DocumentoTipoRequired), q);
      ReportIff(c.documento_nro == "", Missing(DocumentoNroRequired), q);
      ReportIff(c.razon_social == "", Missing(RazonSocialRequired), q);
      ReportIff(c.email == "", Missing(EmailRequired), q);
      ReportIff(c.domicilio == "", Missing(DomicilioRequired), q);
      ReportIff(c.provincia == "", Missing(ProvinciaRequired), q);
    }
  }

  lemma NoProductListIff(d: TusFacturasAppData, c: ComprobanteData, q: Problem)
    requires d.comprobante == Some(c)
    requires c.productos.None? || |c.productos.value| == 0
    ensures q in ProductListProblems(c) <==>
      (q == Missing(ProductosRequired) && Fails(d, q)) || (q.BadProduct? && Fails(d, q))
  {
    assert ProductListProblems(c) == [Missing(ProductosRequired)];
    assert CheckFails(d, ProductosRequired);
    if q.BadProduct? {
      assert !ProductCheckFails(d, q.position, q.productCheck);
    }
  }

  lemma SomeProductListIff(d: TusFacturasAppData, c: ComprobanteData, q: Problem)
    requires d.comprobante == Some(c)
    requires c.productos.Some? && |c.productos.value| != 0
    ensures q in ProductListProblems(c) <==>
      (q == Missing(ProductosRequired) && Fails(d, q)) || (q.BadProduct? && Fails(d, q))
  {
    var ps := c.productos.value;
    assert ProductListProblems(c) == ProductosProblems(ps);
    ProductosProblemsIff(ps, q);
    assert !CheckFails(d, ProductosRequired);
    if q.BadProduct? {
      assert Fails(d, q) <==> 1 <= q.position <= |ps| && ProductFails(ps[q.position - 1], q.productCheck);
    }
  }

  lemma ProductListProblemsIff(d: TusFacturasAppData, c: ComprobanteData, q: Problem)
    requires d.comprobante == Some(c)
    ensures q in ProductListProblems(c) <==>
      (q == Missing(ProductosRequired) && Fails(d, q)) || (q.BadProduct? && Fails(d, q))
  {
    if c.productos.None? || |c.productos.value| == 0 {
      NoProductListIff(d, c, q);
    } else {
      SomeProductListIff(d, c, q);
    }
  }

  lemma ComprobanteProblemsIff(d: TusFacturasAppData, q: Problem)
    ensures q in ComprobanteProblems(d.comprobante) <==>
      (q.Missing? && IsComprobanteCheck(q.check) && Fails(d, q)) || (q.BadProduct? && Fails(d, q))
  {
    if d.comprobante.Some? {
      var c := d.comprobante.value;
      var r0 := Report(c.tipo_cbte == "", Missing(TipoCbteRequired));
      var r1 := Report(c.pto_vta == "", Missing(PtoVtaRequired));
      assert ComprobanteProblems(d.comprobante) == r0 + r1 + ProductListProblems(c);
      ProductListProblemsIff(d, c, q);
    }
  }

  /** A problem is found exactly when its check fails. */
  lemma ProblemsIff(d: TusFacturasAppData, q: Problem)
    ensures q in Problems(d) <==> Fails(d, q)
  {
    HeaderProblemsIff(d, q);
    ClienteProblemsIff(d, q);
    ComprobanteProblemsIff(d, q);
  }

  /** A check's message is in the error list exactly when the check fails. */
  lemma ErrorsIff(d: TusFacturasAppData, q: Problem)
    ensures Message(q) in ValidationErrors(d) <==> Fails(d, q)
  {
    ErrorsAreMessages(d);
    ProblemsIff(d, q);
    MessagesMembership(Problems(d), q);
  }

  /** Nothing else is reported: every error is the message of a failed check. */
  lemma ErrorsAreFailures(d: TusFacturasAppData, m: string)
    requires m in ValidationErrors(d)
    ensures exists q :: m == Message(q) && Fails(d, q)
  {
    ErrorsAreMessages(d);
    var ps := Problems(d);
    var i :| 0 <= i < |ps| && Messages(ps)[i] == m;
    ProblemsIff(d, ps[i]);
  }

  /** The payload is valid exactly when no check fails. */
  lemma ValidIff(d: TusFacturasAppData)
    ensures ValidationErrors(d) == [] <==> forall q :: !Fails(d, q)
  {
    var errs := ValidationErrors(d);
    if errs == [] {
      forall q ensures !Fails(d, q) { ErrorsIff(d, q); }
    } else {
      ErrorsAreFailures(d, errs[0]);
    }
  }

  /** A missing `cliente` yields "cliente es requerido" and none of the
      per-field client messages. */
  lemma ClienteGating(d: TusFacturasAppData)
    requires d.cliente.None?
    ensures MessageOf(ClienteRequired) in ValidationErrors(d)
    ensures forall k :: (IsClienteCheck(k) && k != ClienteRequired) ==> MessageOf(k) !in ValidationErrors(d)
  {
    forall k ensures MessageOf(k) in ValidationErrors(d) <==> CheckFails(d, k) {
      ErrorsIff(d, Missing(k));
    }
  }

  /** A missing `comprobante` yields "comprobante es requerido" and no
      tipo_cbte, pto_vta, productos or per-product message. */
  lemma ComprobanteGating(d: TusFacturasAppData)
    requires d.comprobante.None?
    ensures MessageOf(ComprobanteRequired) in ValidationErrors(d)
    ensures MessageOf(TipoCbteRequired) !in ValidationErrors(d)
    ensures MessageOf(PtoVtaRequired) !in ValidationErrors(d)
    ensures MessageOf(ProductosRequired) !in ValidationErrors(d)
    ensures forall i: nat, k :: ProductMessage(i, k) !in ValidationErrors(d)
  {
    ErrorsIff(d, Missing(ComprobanteRequired));
    ErrorsIff(d, Missing(TipoCbteRequired));
    ErrorsIff(d, Missing(PtoVtaRequired));
    ErrorsIff(d, Missing(ProductosRequired));
    forall i: nat, k ensures ProductMessage(i, k) !in ValidationErrors(d) {
      ErrorsIff(d, BadProduct(i, k));
    }
  }

  /** A missing or empty product list yields one message and no per-product
      message. */
  lemma ProductosGating(d: TusFacturasAppData)
    requires d.comprobante.Some?
    requires d.comprobante.value.productos.None? || d.comprobante.value.productos.value == []
    ensures MessageOf(ProductosRequired) in ValidationErrors(d)
    ensures forall i: nat, k :: ProductMessage(i, k) !in ValidationErrors(d)
  {
    ErrorsIff(d, Missing(ProductosRequired));
    forall i: nat, k ensures ProductMessage(i, k) !in ValidationErrors(d) {
      ErrorsIff(d, BadProduct(i, k));
    }
  }

  // ---------------------------------------------------------------------
  // Serializer and validator together

  /** The lookup defaults mean a serialized payload never fails the
      cliente, documento_tipo, provincia, comprobante, tipo_cbte or pto_vta
      checks. */
  lemma SerializedLookupsPass(invoice: Invoice, usertoken: string, apikey: string)
    ensures var errs := ValidationErrors(Serialize(invoice, usertoken, apikey));
      MessageOf(ClienteRequired) !in errs && MessageOf(DocumentoTipoRequired) !in errs &&
      MessageOf(ProvinciaRequired) !in errs && MessageOf(ComprobanteRequired) !in errs &&
      MessageOf(TipoCbteRequired) !in errs && MessageOf(PtoVtaRequired) !in errs
  {
    var d := Serialize(invoice, usertoken, apikey);
    ErrorsIff(d, Missing(ClienteRequired));
    ErrorsIff(d, Missing(DocumentoTipoRequired));
    ErrorsIff(d, Missing(ProvinciaRequired));
    ErrorsIff(d, Missing(ComprobanteRequired));
    ErrorsIff(d, Missing(TipoCbteRequired));
    ErrorsIff(d, Missing(PtoVtaRequired));
  }

  /** A product that passes all five per-product checks. */
  predicate ProductoAcceptable(p: ProductoData)
  {
    p.codigo != "" && p.descripcion != "" && p.cantidad > 0 && p.precio_unitario > 0.0 && p.iva >= 0.0
  }

  /** Every field checked is non-empty, there is a product, and every
      product is acceptable. */
  predicate FieldsPresent(d: TusFacturasAppData)
    requires d.cliente.Some? && d.comprobante.Some? && d.comprobante.value.productos.Some?
  {
    var c, v, ps := d.cliente.value, d.comprobante.value, d.comprobante.value.productos.value;
    d.usertoken != "" && d.apikey != "" &&
    c.documento_tipo != "" && c.documento_nro != "" && c.razon_social != "" &&
    c.email != "" && c.domicilio != "" && c.provincia != "" &&
    v.tipo_cbte != "" && v.pto_vta != "" && |ps| > 0 &&
    forall p :: p in ps ==> ProductoAcceptable(p)
  }

  /** With no check failing, the product at index `j` is acceptable. */
  lemma ProductAcceptableAt(d: TusFacturasAppData, j: nat)
    requires d.comprobante.Some? && d.comprobante.value.productos.Some?
    requires j < |d.comprobante.value.productos.value|
    requires forall q :: !Fails(d, q)
    ensures ProductoAcceptable(d.comprobante.value.productos.value[j])
  {
    assert !Fails(d, BadProduct(j + 1, CodigoRequired));
    assert !Fails(d, BadProduct(j + 1, DescripcionRequired));
    assert !Fails(d, BadProduct(j + 1, CantidadPositive));
    assert !Fails(d, BadProduct(j + 1, PrecioPositive));
    assert !Fails(d, BadProduct(j + 1, IvaNonNegative));
  }

  /** With no check failing, the credentials and the client's fields are non-empty. */
  lemma ClienteFieldsPresent(d: TusFacturasAppData)
    requires d.cliente.Some?
    requires forall q :: !Fails(d, q)
    ensures var c := d.cliente.value;
      d.usertoken != "" && d.apikey != "" &&
      c.documento_tipo != "" && c.documento_nro != "" && c.razon_social != "" &&
      c.email != "" && c.domicilio != "" && c.provincia != ""
  {
    assert !Fails(d, Missing(UsertokenRequired)) && !Fails(d, Missing(ApikeyRequired));
    assert !Fails(d, Missing(DocumentoTipoRequired)) && !Fails(d, Missing(DocumentoNroRequired));
    assert !Fails(d, Missing(RazonSocialRequired)) && !Fails(d, Missing(EmailRequired));
    assert !Fails(d, Missing(DomicilioRequired)) && !Fails(d, Missing(ProvinciaRequired));
  }

  /** With no check failing, the voucher's fields are non-empty and it has a product. */
  lemma VoucherFieldsPresent(d: TusFacturasAppData)
    requires d.comprobante.Some? && d.comprobante.value.productos.Some?
    requires forall q :: !Fails(d, q)
    ensures var v := d.comprobante.value;
      v.tipo_cbte != "" && v.pto_vta != "" && |v.productos.value| > 0
  {
    assert !Fails(d, Missing(TipoCbteRequired)) && !Fails(d, Missing(PtoVtaRequired));
    assert !Fails(d, Missing(ProductosRequired));
  }

  lemma {:induction false} ValidOnlyIfFieldsPresent(d: TusFacturasAppData)
    requires d.cliente.Some? && d.comprobante.Some? && d.comprobante.value.productos.Some?
    requires forall q :: !Fails(d, q)
    ensures FieldsPresent(d)
  {
    var ps := d.comprobante.value.productos.value;
    ClienteFieldsPresent(d);
    VoucherFieldsPresent(d);
    forall p | p in ps
      ensures ProductoAcceptable(p)
    {
      var j :| 0 <= j < |ps| && ps[j] == p;
      ProductAcceptableAt(d, j);
    }
  }

  lemma {:induction false} FieldsPresentNoFailure(d: TusFacturasAppData, q: Problem)
    requires d.cliente.Some? && d.comprobante.Some? && d.comprobante.value.productos.Some?
    requires FieldsPresent(d)
    ensures !Fails(d, q)
  {
    var ps := d.comprobante.value.productos.value;
    if q.BadProduct? && 1 <= q.position <= |ps| {
      assert ps[q.position - 1] in ps;
    }
  }

  /** With every block present, the payload is valid exactly when every
      field checked is non-empty, there is a product, and every product is
      acceptable. */
  lemma ValidIffFields(d: TusFacturasAppData)
    requires d.cliente.Some? && d.comprobante.Some? && d.comprobante.value.productos.Some?
    ensures ValidationErrors(d) == [] <==> FieldsPresent(d)
  {
    ValidIff(d);
    if forall q :: !Fails(d, q) {
      ValidOnlyIfFieldsPresent(d);
    }
    if FieldsPresent(d) {
      forall q ensures !Fails(d, q) { FieldsPresentNoFailure(d, q); }
    }
  }

  /** Every line of the invoice is acceptable to the provider. */
  predicate LinesAcceptable(items: seq<InvoiceItem>)
  {
    forall item :: item in items ==>
      item.code != "" && item.description != "" && item.quantity > 0 &&
      item.unitPrice > 0.0 && item.iva >= 0.0
  }

  lemma LinesAcceptableIff(items: seq<InvoiceItem>)
    ensures LinesAcceptable(items) <==> forall p :: p in MapProductos(items) ==> ProductoAcceptable(p)
  {
    var ps := MapProductos(items);
    if LinesAcceptable(items) {
      forall p | p in ps ensures ProductoAcceptable(p) {
        var j :| 0 <= j < |ps| && ps[j] == p;
        assert items[j] in items;
      }
    }
    if forall p :: p in ps ==> ProductoAcceptable(p) {
      forall item | item in items
        ensures item.code != "" && item.description != "" && item.quantity > 0 &&
          item.unitPrice > 0.0 && item.iva >= 0.0
      {
        var j :| 0 <= j < |items| && items[j] == item;
        assert ps[j] in ps;
      }
    }
  }

  /** A serialized invoice validates exactly when both credentials are set,
      the client's number, name, e-mail and address are non-empty, there is
      at least one line, and every line has a code, a description, a
      positive quantity, a positive unit price and a non-negative VAT rate. */
  lemma SerializedValidIff(invoice: Invoice, usertoken: string, apikey: string)
    ensures ValidationErrors(Serialize(invoice, usertoken, apikey)) == [] <==>
      usertoken != "" && apikey != "" &&
      invoice.client.documentNumber != "" && invoice.client.businessName != "" &&
      invoice.client.email != "" && invoice.client.address != "" &&
      |invoice.items| > 0 && LinesAcceptable(invoice.items)
  {
    var d := Serialize(invoice, usertoken, apikey);
    ValidIffFields(d);
    LinesAcceptableIff(invoice.items);
  }

  // ---------------------------------------------------------------------
  // Order of the messages

  /** The position of a check in the order the source runs them. */
  function CheckRank(k: Check): nat
  {
    match k
    case UsertokenRequired => 0
    case ApikeyRequired => 1
    case ClienteRequired => 2
    case DocumentoTipoRequired => 3
    case DocumentoNroRequired => 4
    case RazonSocialRequired => 5
    case EmailRequired => 6
    case DomicilioRequired => 7
    case ProvinciaRequired => 8
    case ComprobanteRequired => 9
    case TipoCbteRequired => 10
    case PtoVtaRequired => 11
    case ProductosRequired => 12
  }

  function ProductCheckRank(k: ProductCheck): nat
  {
    match k
    case CodigoRequired => 0
    case DescripcionRequired => 1
    case CantidadPositive => 2
    case PrecioPositive => 3
    case IvaNonNegative => 4
  }

  /** The position of a problem in the run: the product checks of the
      product at position `i` come after those of earlier products and
      after every check on the header, the client and the voucher. */
  function Rank(q: Problem): nat
  {
    match q
    case Missing(k) => CheckRank(k)
    case BadProduct(position, k) => 12 + 5 * position + ProductCheckRank(k)
  }

  /** The list is in strictly increasing rank, every rank in `[lo, hi)`. */
  predicate RanksWithin(s: seq<Problem>, lo: int, hi: int)
  {
    s == [] || (lo <= Rank(s[0]) < hi && RanksWithin(s[1..], Rank(s[0]) + 1, hi))
  }

  lemma {:induction false} RanksWiden(s: seq<Problem>, lo: int, hi: int, lo': int, hi': int)
    requires RanksWithin(s, lo, hi) && lo' <= lo && hi <= hi'
    ensures RanksWithin(s, lo', hi')
  {
    if s != [] {
      RanksWiden(s[1..], Rank(s[0]) + 1, hi, Rank(s[0]) + 1, hi');
    }
  }

  lemma {:induction false} RanksChain(a: seq<Problem>, b: seq<Problem>, lo: int, mid: int, hi: int)
    requires lo <= mid <= hi
    requires RanksWithin(a, lo, mid) && RanksWithin(b, mid, hi)
    ensures RanksWithin(a + b, lo, hi)
  {
    if a == [] {
      assert a + b == b;
      RanksWiden(b, mid, hi, lo, hi);
    } else {
      assert (a + b)[1..] == a[1..] + b;
      RanksChain(a[1..], b, Rank(a[0]) + 1, mid, hi);
    }
  }

  /** A list within ranks is strictly increasing in rank. */
  lemma {:induction false} RanksIncreasing(s: seq<Problem>, lo: int, hi: int)
    requires RanksWithin(s, lo, hi)
    ensures forall i :: 0 <= i < |s| ==> lo <= Rank(s[i]) < hi
    ensures forall i, j :: 0 <= i < j < |s| ==> Rank(s[i]) < Rank(s[j])
  {
    if s != [] {
      RanksIncreasing(s[1..], Rank(s[0]) + 1, hi);
      forall i | 0 < i < |s|
        ensures Rank(s[0]) < Rank(s[i])
      {
        assert s[i] == s[1..][i - 1];
      }
      forall i, j | 0 < i < j < |s|
        ensures Rank(s[i]) < Rank(s[j])
      {
        assert s[i] == s[1..][i - 1] && s[j] == s[1..][j - 1];
      }
    }
  }

  lemma ReportRanks(failed: bool, q: Problem)
    ensures RanksWithin(Report(failed, q), Rank(q), Rank(q) + 1)
  {
  }

  /** The code, description and quantity checks of one product. */
  function ProductFrontProblems(position: nat, p: ProductoData): seq<Problem>
  {
    Report(p.codigo == "", BadProduct(position, CodigoRequired)) +
    Report(p.descripcion == "", BadProduct(position, DescripcionRequired)) +
    Report(p.cantidad <= 0, BadProduct(position, CantidadPositive))
  }

  /** The price and VAT checks of one product. */
  function ProductBackProblems(position: nat, p: ProductoData): seq<Problem>
  {
    Report(p.precio_unitario <= 0.0, BadProduct(position, PrecioPositive)) +
    Report(p.iva < 0.0, BadProduct(position, IvaNonNegative))
  }

  lemma ProductFrontRanks(position: nat, p: ProductoData)
    ensures RanksWithin(ProductFrontProblems(position, p), 12 + 5 * position, 15 + 5 * position)
  {
    var b := 12 + 5 * position;
    var r0 := Report(p.codigo == "", BadProduct(position, CodigoRequired));
    var r1 := Report(p.descripcion == "", BadProduct(position, DescripcionRequired));
    var r2 := Report(p.cantidad <= 0, BadProduct(position, CantidadPositive));
    ReportRanks(p.codigo == "", BadProduct(position, CodigoRequired));
    ReportRanks(p.descripcion == "", BadProduct(position, DescripcionRequired));
    ReportRanks(p.cantidad <= 0, BadProduct(position, CantidadPositive));
    RanksChain(r0, r1, b, b + 1, b + 2);
    RanksChain(r0 + r1, r2, b, b + 2, b + 3);
  }

  lemma ProductBackRanks(position: nat, p: ProductoData)
    ensures RanksWithin(ProductBackProblems(position, p), 15 + 5 * position, 17 + 5 * position)
  {
    var b := 15 + 5 * position;
    ReportRanks(p.precio_unitario <= 0.0, BadProduct(position, PrecioPositive));
    ReportRanks(p.iva < 0.0, BadProduct(position, IvaNonNegative));
    RanksChain(Report(p.precio_unitario <= 0.0, BadProduct(position, PrecioPositive)),
      Report(p.iva < 0.0, BadProduct(position, IvaNonNegative)), b, b + 1, b + 2);
  }

  lemma ProductProblemsSplit(position: nat, p: ProductoData)
    ensures ProductProblems(position, p) == ProductFrontProblems(position, p) + ProductBackProblems(position, p)
  {
  }

  lemma ProductProblemsRanks(position: nat, p: ProductoData)
    ensures RanksWithin(ProductProblems(position, p), 12 + 5 * position, 17 + 5 * position)
  {
    ProductFrontRanks(position, p);
    ProductBackRanks(position, p);
    ProductProblemsSplit(position, p);
    RanksChain(ProductFrontProblems(position, p), ProductBackProblems(position, p),
      12 + 5 * position, 15 + 5 * position, 17 + 5 * position);
  }

  lemma {:induction false} ProductosProblemsRanks(ps: seq<ProductoData>)
    ensures RanksWithin(ProductosProblems(ps), 17, 17 + 5 * |ps|)
  {
    if ps != [] {
      var n := |ps|;
      var front := ProductosProblems(ps[..n - 1]);
      var last := ProductProblems(n, ps[n - 1]);
      assert ProductosProblems(ps) == front + last;
      ProductosProblemsRanks(ps[..n - 1]);
      ProductProblemsRanks(n, ps[n - 1]);
      assert 17 + 5 * |ps[..n - 1]| == 12 + 5 * n;
      RanksChain(front, last, 17, 12 + 5 * n, 17 + 5 * n);
    }
  }

  lemma HeaderProblemsRanks(d: TusFacturasAppData)
    ensures RanksWithin(HeaderProblems(d), 0, 2)
  {
    ReportRanks(d.usertoken == "", Missing(UsertokenRequired));
    ReportRanks(d.apikey == "", Missing(ApikeyRequired));
    RanksChain(Report(d.usertoken == "", Missing(UsertokenRequired)),
      Report(d.apikey == "", Missing(ApikeyRequired)), 0, 1, 2);
  }

  /** The document type, number and name checks of a present client. */
  function ClienteFrontProblems(c: ClienteData): seq<Problem>
  {
    Report(c.documento_tipo == "", Missing(DocumentoTipoRequired)) +
    Report(c.documento_nro == "", Missing(DocumentoNroRequired)) +
    Report(c.razon_social == "", Missing(RazonSocialRequired))
  }

  /** The email, address and province checks of a present client. */
  function ClienteBackProblems(c: ClienteData): seq<Problem>
  {
    Report(c.email == "", Missing(EmailRequired)) +
    Report(c.domicilio == "", Missing(DomicilioRequired)) +
    Report(c.provincia == "", Missing(ProvinciaRequired))
  }

  lemma ClienteFrontRanks(c: ClienteData)
    ensures RanksWithin(ClienteFrontProblems(c), 3, 6)
  {
    var r0 := Report(c.documento_tipo == "", Missing(DocumentoTipoRequired));
    var r1 := Report(c.documento_nro == "", Missing(DocumentoNroRequired));
    var r2 := Report(c.razon_social == "", Missing(RazonSocialRequired));
    ReportRanks(c.documento_tipo == "", Missing(DocumentoTipoRequired));
    ReportRanks(c.documento_nro == "", Missing(DocumentoNroRequired));
    ReportRanks(c.razon_social == "", Missing(RazonSocialRequired));
    RanksChain(r0, r1, 3, 4, 5);
    RanksChain(r0 + r1, r2, 3, 5, 6);
  }

  lemma ClienteBackRanks(c: ClienteData)
    ensures RanksWithin(ClienteBackProblems(c), 6, 9)
  {
    var r3 := Report(c.email == "", Missing(EmailRequired));
    var r4 := Report(c.domicilio == "", Missing(DomicilioRequired));
    var r5 := Report(c.provincia == "", Missing(ProvinciaRequired));
    ReportRanks(c.email == "", Missing(EmailRequired));
    ReportRanks(c.domicilio == "", Missing(DomicilioRequired));
    ReportRanks(c.provincia == "", Missing(ProvinciaRequired));
    RanksChain(r3, r4, 6, 7, 8);
    RanksChain(r3 + r4, r5, 6, 8, 9);
  }

  lemma ClienteProblemsSplit(c: ClienteData)
    ensures ClienteProblems(Some(c)) == ClienteFrontProblems(c) + ClienteBackProblems(c)
  {
  }

  lemma ClienteFieldsRanks(c: ClienteData)
    ensures RanksWithin(ClienteProblems(Some(c)), 3, 9)
  {
    ClienteFrontRanks(c);
    ClienteBackRanks(c);
    ClienteProblemsSplit(c);
    RanksChain(ClienteFrontProblems(c), ClienteBackProblems(c), 3, 6, 9);
  }

  lemma ClienteProblemsRanks(cliente: Option<ClienteData>)
    ensures RanksWithin(ClienteProblems(cliente), 2, 9)
  {
    if cliente.Some? {
      ClienteFieldsRanks(cliente.value);
      RanksWiden(ClienteProblems(cliente), 3, 9, 2, 9);
    }
  }

  /** The largest rank a voucher's checks can reach, plus one. */
  function ComprobanteRankBound(comprobante: Option<ComprobanteData>): nat
  {
    if comprobante.Some? && comprobante.value.productos.Some? then 17 + 5 * |comprobante.value.productos.value|
    else 17
  }

  /** The product-list part of a present voucher's problems. */
  function ProductListProblems(c: ComprobanteData): seq<Problem>
  {
    if c.productos.None? || |c.productos.value| == 0 then [Missing(ProductosRequired)]
    else ProductosProblems(c.productos.value)
  }

  lemma ProductListRanks(c: ComprobanteData)
    ensures RanksWithin(ProductListProblems(c), 12, ComprobanteRankBound(Some(c)))
  {
    var hi := ComprobanteRankBound(Some(c));
    if c.productos.None? || |c.productos.value| == 0 {
      assert RanksWithin(ProductListProblems(c), 12, 13);
      RanksWiden(ProductListProblems(c), 12, 13, 12, hi);
    } else {
      ProductosProblemsRanks(c.productos.value);
      RanksWiden(ProductListProblems(c), 17, hi, 12, hi);
    }
  }

  lemma ComprobanteFieldsRanks(c: ComprobanteData)
    ensures RanksWithin(ComprobanteProblems(Some(c)), 10, ComprobanteRankBound(Some(c)))
  {
    var r0 := Report(c.tipo_cbte == "", Missing(TipoCbteRequired));
    var r1 := Report(c.pto_vta == "", Missing(PtoVtaRequired));
    var rest := ProductListProblems(c);
    ReportRanks(c.tipo_cbte == "", Missing(TipoCbteRequired));
    ReportRanks(c.pto_vta == "", Missing(PtoVtaRequired));
    ProductListRanks(c);
    RanksChain(r0, r1, 10, 11, 12);
    RanksChain(r0 + r1, rest, 10, 12, ComprobanteRankBound(Some(c)));
    assert ComprobanteProblems(Some(c)) == r0 + r1 + rest;
  }

  lemma ComprobanteProblemsRanks(comprobante: Option<ComprobanteData>)
    ensures RanksWithin(ComprobanteProblems(comprobante), 9, ComprobanteRankBound(comprobante))
  {
    if comprobante.Some? {
      ComprobanteFieldsRanks(comprobante.value);
      RanksWiden(ComprobanteProblems(comprobante), 10, ComprobanteRankBound(comprobante), 9,
        ComprobanteRankBound(comprobante));
    }
  }

  /** The validator reports the problems in the order it runs the checks,
      and so never reports the same problem twice. */
  lemma {:induction false} ProblemsInSourceOrder(d: TusFacturasAppData)
    ensures forall i, j :: 0 <= i < j < |Problems(d)| ==> Rank(Problems(d)[i]) < Rank(Problems(d)[j])
  {
    var hi := ComprobanteRankBound(d.comprobante);
    HeaderProblemsRanks(d);
    ClienteProblemsRanks(d.cliente);
    ComprobanteProblemsRanks(d.comprobante);
    RanksChain(HeaderProblems(d), ClienteProblems(d.cliente), 0, 2, 9);
    RanksChain(HeaderProblems(d) + ClienteProblems(d.cliente), ComprobanteProblems(d.comprobante), 0, 9, hi);
    RanksIncreasing(Problems(d), 0, hi);
  }

  /** Each failed check contributes exactly one message: no message is
      repeated, so with `ErrorsIff` every failing check appears once. */
  lemma ErrorsAreDistinct(d: TusFacturasAppData)
    ensures forall i, j :: 0 <= i < j < |ValidationErrors(d)| ==> ValidationErrors(d)[i] != ValidationErrors(d)[j]
  {
    ErrorsAreMessages(d);
    ProblemsInSourceOrder(d);
    var ps := Problems(d);
    forall i, j | 0 <= i < j < |ValidationErrors(d)|
      ensures ValidationErrors(d)[i] != ValidationErrors(d)[j]
    {
      if Message(ps[i]) == Message(ps[j]) {
        MessageInjective(ps[i], ps[j]);
      }
    }
  }

  // ---------------------------------------------------------------------
  // Test vectors

  /** `generateTusFacturasAppExample`. */
  function Example(): TusFacturasAppData
  {
    TusFacturasAppData(
      "xxxxx",
      "xxxxx",
      Some(ClienteData("CUIT", "30712293841", "Ejemplo SRL", "cliente@ejemplo.com",
        "Av. Siempre Viva 742", "2")),
      Some(ComprobanteData("1", "0001",
        Some([ProductoData("PRD001", "Producto de ejemplo", 2, 100.0, 21.0)]))))
  }

  /** The built-in example payload validates with zero errors. */
  lemma ExampleIsValid()
    ensures ValidationErrors(Example()) == []
  {
    var ps := Example().comprobante.value.productos.value;
    assert ps[..0] == [];
  }

  /** Without `apikey` and with a zero quantity on the second product,
      exactly those two problems are reported, in that order. */
  lemma MissingApikeyAndZeroQuantity(d: TusFacturasAppData)
    requires var e := Example();
      var p := e.comprobante.value.productos.value[0];
      d == e.(apikey := "", comprobante := Some(e.comprobante.value.(productos := Some([p, p.(cantidad := 0)]))))
    ensures ValidationErrors(d) == [MessageOf(ApikeyRequired), ProductMessage(2, CantidadPositive)]
    ensures Decimal(2) == "2"
  {
    var ps := d.comprobante.value.productos.value;
    assert ps[..1][..0] == [];
    assert ProductosErrors(ps[..1][..0]) == [];
    assert ProductosErrors(ps[..1]) == [];
    assert ProductosErrors(ps) == [ProductMessage(2, CantidadPositive)];
  }

  /** Type B, a DNI client in Córdoba: comprobante "6", document "DNI",
      province "6"; an unknown province falls back to "1". */
  lemma SerializeMappingExample(invoice: Invoice, usertoken: string, apikey: string)
    requires invoice.invoiceType == "B"
    requires invoice.client.documentType == "DNI" && invoice.client.province == "Córdoba"
    ensures var d := Serialize(invoice, usertoken, apikey);
      d.comprobante.value.tipo_cbte == "6" && d.cliente.value.documento_tipo == "DNI" &&
      d.cliente.value.provincia == "6"
    ensures Serialize(invoice.(client := invoice.client.(province := "Atlantis")), usertoken, apikey)
      .cliente.value.provincia == "1"
  {
  }
}

/** The entities the modelled pages work on, as declared in lib/types.ts
    (the application's own domain) and lib/api-types.ts (the REST backend's
    records). Only the fields some modelled operation reads or writes are
    kept; money is `real`, quantities and stock levels are `int`. */
module Types {
  import opened Util

  /** A catalogue product (lib/types.ts). */
  datatype Product = Product(
    id: string,
    code: string,
    name: string,
    description: string,
    price: real,
    stock: int,
    minStock: int,
    categories: seq<string>)

  /** A customer (lib/types.ts). `documentType` is declared as a union of
      three literals, but nothing checks it at run time, so any string. */
  datatype Client = Client(
    id: string,
    documentType: string,
    documentNumber: string,
    businessName: string,
    email: string,
    address: string,
    province: string)

  /** One line of an invoice (lib/types.ts). `iva` is a percentage and
      `discount` an absolute amount. */
  datatype InvoiceItem = InvoiceItem(
    productId: string,
    code: string,
    description: string,
    quantity: int,
    unitPrice: real,
    iva: real,
    discount: real,
    total: real)

  /** An invoice (lib/types.ts); the identifiers, number and dates built
      from the clock are not part of this model. */
  datatype Invoice = Invoice(
    invoiceType: string,
    clientId: string,
    client: Client,
    items: seq<InvoiceItem>,
    subtotal: real,
    iva: real,
    total: real,
    status: string)

  /** A stock movement with its product (lib/types.ts); `movementType` is
      "in" or "out". */
  datatype StockMovement = StockMovement(
    id: string,
    product: Product,
    movementType: string,
    quantity: int,
    reason: string)

  /** The payload of the external e-invoicing provider (lib/types.ts). Field
      names are the provider's wire names. The validator guards against a
      missing `cliente`, `comprobante` or `productos`, so those are optional. */
  datatype TusFacturasAppData = TusFacturasAppData(
    usertoken: string,
    apikey: string,
    cliente: Option<ClienteData>,
    comprobante: Option<ComprobanteData>)

  datatype ClienteData = ClienteData(
    documento_tipo: string,
    documento_nro: string,
    razon_social: string,
    email: string,
    domicilio: string,
    provincia: string)

  datatype ComprobanteData = ComprobanteData(
    tipo_cbte: string,
    pto_vta: string,
    productos: Option<seq<ProductoData>>)

  datatype ProductoData = ProductoData(
    codigo: string,
    descripcion: string,
    cantidad: int,
    precio_unitario: real,
    iva: real)

  /** A product as the REST backend returns it (lib/api-types.ts). */
  datatype Producto = Producto(
    id: int,
    idCategoria: int,
    codigo: string,
    nombre: string,
    precio: real,
    stock: int,
    stockMinimo: int,
    descripcion: string)

  /** A sale as the REST backend returns it (lib/api-types.ts). */
  datatype Venta = Venta(
    id: int,
    idCliente: int,
    totalVenta: real)
}

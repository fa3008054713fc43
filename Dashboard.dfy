/** app/page.tsx: the dashboard's statistics over the lists fetched from the
    backend, each of which is missing until it has loaded. */
module Dashboard {
  import opened Util
  import opened Types

  /** `list?.length || 0`. */
  function CountOf<T>(list: Option<seq<T>>): nat
  {
    match list
    case None => 0
    case Some(s) => |s|
  }

  function VentaTotal(v: Venta): real
  {
    v.totalVenta
  }

  /** `ventas?.reduce((sum, venta) => sum + venta.totalVenta, 0) || 0`. */
  function TotalRevenue(ventas: Option<seq<Venta>>): real
  {
    match ventas
    case None => 0.0
    case Some(s) => SumOf(s, VentaTotal)
  }

  /** `productos?.filter(product => product.stock <= product.stockMinimo) || []`. */
  function LowStockProducts(productos: Option<seq<Producto>>): seq<Producto>
  {
    match productos
    case None => []
    case Some(s) => Filter(s, (p: Producto) => p.stock <= p.stockMinimo)
  }

  /** `productos?.filter(product => product.stock === 0) || []`. */
  function CriticalStockProducts(productos: Option<seq<Producto>>): seq<Producto>
  {
    match productos
    case None => []
    case Some(s) => Filter(s, (p: Producto) => p.stock == 0)
  }

  /** `list?.slice(0, 5) || []`. */
  function Recent<T>(list: Option<seq<T>>): seq<T>
  {
    match list
    case None => []
    case Some(s) => Take(s, 5)
  }

  /** The statistics the dashboard shows, the movements of type `M`. */
  datatype Stats<M> = Stats(
    totalProducts: nat,
    totalClients: nat,
    totalVentas: nat,
    totalRevenue: real,
    lowStockProducts: seq<Producto>,
    criticalStockProducts: seq<Producto>,
    recentVentas: seq<Venta>,
    recentMovements: seq<M>,
    isLoading: bool)

  function ComputeStats<C, M>(
    productos: Option<seq<Producto>>, clientes: Option<seq<C>>,
    ventas: Option<seq<Venta>>, movimientos: Option<seq<M>>,
    loadingProductos: bool, loadingClientes: bool, loadingVentas: bool, loadingMovimientos: bool): Stats<M>
  {
    Stats(CountOf(productos), CountOf(clientes), CountOf(ventas), TotalRevenue(ventas),
      LowStockProducts(productos), CriticalStockProducts(productos),
      Recent(ventas), Recent(movimientos),
      loadingProductos || loadingClientes || loadingVentas || loadingMovimientos)
  }

  /** Counts are the list lengths, or 0 before loading; the revenue is the
      revenue of the sales (see `TotalRevenueSpec`), or 0 before loading; the low and critical lists hold
      exactly the products with their condition, in order; the recent lists
      are the first (at most) five; the page is loading while any list is. */
  lemma ComputeStatsSpec<C, M>(
    productos: Option<seq<Producto>>, clientes: Option<seq<C>>,
    ventas: Option<seq<Venta>>, movimientos: Option<seq<M>>,
    lp: bool, lc: bool, lv: bool, lm: bool, p: Producto)
    ensures var st := ComputeStats(productos, clientes, ventas, movimientos, lp, lc, lv, lm);
      (st.totalProducts == if productos.Some? then |productos.value| else 0) &&
      (st.totalClients == if clientes.Some? then |clientes.value| else 0) &&
      (st.totalVentas == if ventas.Some? then |ventas.value| else 0) &&
      (ventas.None? ==> st.totalRevenue == 0.0) &&
      (ventas.Some? ==> st.totalRevenue == TotalRevenue(ventas)) &&
      (p in st.lowStockProducts <==> productos.Some? && p in productos.value && p.stock <= p.stockMinimo) &&
      (p in st.criticalStockProducts <==> productos.Some? && p in productos.value && p.stock == 0) &&
      (productos.Some? ==> IsSubseq(st.lowStockProducts, productos.value) && IsSubseq(st.criticalStockProducts, productos.value)) &&
      (ventas.Some? ==> st.recentVentas == ventas.value[..Min(5, |ventas.value|)]) &&
      (movimientos.Some? ==> st.recentMovements == movimientos.value[..Min(5, |movimientos.value|)]) &&
      (ventas.None? ==> st.recentVentas == []) && (movimientos.None? ==> st.recentMovements == []) &&
      (st.isLoading <==> lp || lc || lv || lm)
  {
    if productos.Some? {
      var s := productos.value;
      FilterMembership(s, (q: Producto) => q.stock <= q.stockMinimo, p);
      FilterMembership(s, (q: Producto) => q.stock == 0, p);
      FilterIsSubseq(s, (q: Producto) => q.stock <= q.stockMinimo);
      FilterIsSubseq(s, (q: Producto) => q.stock == 0);
    }
  }

  /** The dashboard's revenue is 0 for no sales, each sale adds its
      `totalVenta`, the revenue adds up over parts of the list, and it is
      never negative when no sale is. */
  lemma TotalRevenueSpec(a: seq<Venta>, b: seq<Venta>, v: Venta)
    ensures TotalRevenue(Some([])) == 0.0
    ensures TotalRevenue(Some(a + [v])) == TotalRevenue(Some(a)) + v.totalVenta
    ensures TotalRevenue(Some(a + b)) == TotalRevenue(Some(a)) + TotalRevenue(Some(b))
    ensures (forall v :: v in a ==> v.totalVenta >= 0.0) ==> TotalRevenue(Some(a)) >= 0.0
  {
    assert (a + [v])[..|a + [v]| - 1] == a;
    SumOfAppend(a, b, VentaTotal);
    if forall v :: v in a ==> v.totalVenta >= 0.0 {
      SumOfNonNegative(a, VentaTotal);
    }
  }

  /** When no minimum is negative, every critical product is also low. */
  lemma CriticalWithinLow(productos: Option<seq<Producto>>)
    requires productos.Some? ==> forall p :: p in productos.value ==> p.stockMinimo >= 0
    ensures IsSubseq(CriticalStockProducts(productos), LowStockProducts(productos))
  {
    if productos.Some? {
      FilterNarrowing(productos.value, (p: Producto) => p.stock <= p.stockMinimo, (p: Producto) => p.stock == 0);
    }
  }
}

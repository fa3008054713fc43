/** app/productos/page.tsx: the product catalogue page. The list shown is
    the backend's products narrowed by a search box and a category select,
    split into products in stock and products out of stock, each with a
    stock status badge. */
module Productos {
  import opened Util
  import opened Text
  import opened Types

  /** The value of the category select: "all", or a category id. */
  datatype CategorySelection = AllCategories | CategoryId(id: int)

  /** The search test, for a term already trimmed and lowered: the blank
      term matches everything, otherwise the name or the code must contain it. */
  predicate MatchesSearch(p: Producto, term: string)
  {
    term == "" || Contains(Lower(p.nombre), term) || Contains(Lower(p.codigo), term)
  }

  predicate MatchesCategory(p: Producto, selection: CategorySelection)
  {
    match selection
    case AllCategories => true
    case CategoryId(id) => p.idCategoria == id
  }

  /** The search term the filter works with. */
  function SearchKey(searchTerm: string): string
  {
    Lower(Trim(searchTerm))
  }

  /** `filteredProducts`: nothing before the products are loaded, otherwise
      the products passing both tests. */
  function FilteredProducts(productos: Option<seq<Producto>>, searchTerm: string, selection: CategorySelection): seq<Producto>
  {
    match productos
    case None => []
    case Some(ps) =>
      var term := SearchKey(searchTerm);
      Filter(ps, (p: Producto) => MatchesSearch(p, term) && MatchesCategory(p, selection))
  }

  /** The filtered list keeps the products' order, and a product is in it
      exactly when it passes the search and the category tests. */
  lemma FilteredProductsSpec(productos: Option<seq<Producto>>, searchTerm: string, selection: CategorySelection, x: Producto)
    ensures productos.None? ==> FilteredProducts(productos, searchTerm, selection) == []
    ensures productos.Some? ==> IsSubseq(FilteredProducts(productos, searchTerm, selection), productos.value)
    ensures productos.Some? ==>
      (x in FilteredProducts(productos, searchTerm, selection) <==>
        x in productos.value && MatchesSearch(x, SearchKey(searchTerm)) && MatchesCategory(x, selection))
  {
    if productos.Some? {
      var term := SearchKey(searchTerm);
      var keep := (p: Producto) => MatchesSearch(p, term) && MatchesCategory(p, selection);
      FilterIsSubseq(productos.value, keep);
      FilterMembership(productos.value, keep, x);
    }
  }

  /** A blank search with every category shows the whole list. */
  lemma BlankSearchShowsAll(ps: seq<Producto>, searchTerm: string)
    requires Trim(searchTerm) == ""
    ensures FilteredProducts(Some(ps), searchTerm, AllCategories) == ps
  {
    var term := SearchKey(searchTerm);
    FilterAll(ps, (p: Producto) => MatchesSearch(p, term) && MatchesCategory(p, AllCategories));
  }

  /** Surrounding white space and case in the search box do not matter. */
  lemma SearchIgnoresPaddingAndCase(ps: seq<Producto>, a: string, b: string, selection: CategorySelection)
    requires Lower(Trim(a)) == Lower(Trim(b))
    ensures FilteredProducts(Some(ps), a, selection) == FilteredProducts(Some(ps), b, selection)
  {
  }

  /** `activos`: the filtered products with stock left. */
  function Activos(filtered: seq<Producto>): seq<Producto>
  {
    Filter(filtered, (p: Producto) => p.stock > 0)
  }

  /** `sinStock`: the filtered products with stock exactly zero. */
  function SinStock(filtered: seq<Producto>): seq<Producto>
  {
    Filter(filtered, (p: Producto) => p.stock == 0)
  }

  /** Both lists keep the order of the filtered list, never share a product,
      and leave out exactly the products with negative stock: together
      with those, they account for the whole filtered list. */
  lemma StockPartition(filtered: seq<Producto>, x: Producto)
    ensures IsSubseq(Activos(filtered), filtered) && IsSubseq(SinStock(filtered), filtered)
    ensures !(x in Activos(filtered) && x in SinStock(filtered))
    ensures x in filtered && x.stock < 0 ==> x !in Activos(filtered) && x !in SinStock(filtered)
    ensures x in filtered && x.stock >= 0 ==> x in Activos(filtered) || x in SinStock(filtered)
    ensures |Activos(filtered)| + |SinStock(filtered)| + |Filter(filtered, (p: Producto) => p.stock < 0)| == |filtered|
  {
    var positive := (p: Producto) => p.stock > 0;
    var zero := (p: Producto) => p.stock == 0;
    var atMostZero := (p: Producto) => p.stock <= 0;
    var negative := (p: Producto) => p.stock < 0;
    FilterIsSubseq(filtered, positive);
    FilterIsSubseq(filtered, zero);
    FilterMembership(filtered, positive, x);
    FilterMembership(filtered, zero, x);
    FilterPartitionLength(filtered, positive, atMostZero);
    var rest := Filter(filtered, atMostZero);
    FilterPartitionLength(rest, zero, negative);
    FilterTwice(filtered, atMostZero, zero);
    FilterTwice(filtered, atMostZero, negative);
  }

  /** The three badges of `getStockStatus`. */
  datatype StockStatus = Critical | Low | Normal

  function StockStatusOf(stock: int): StockStatus
  {
    if stock == 0 then Critical else if stock <= 5 then Low else Normal
  }

  function StockStatusLabel(s: StockStatus): string
  {
    match s
    case Critical => "Sin stock"
    case Low => "Stock bajo"
    case Normal => "Normal"
  }

  /** Exactly zero stock is critical; a level up to five other than zero,
      negative ones included, is low; more than five is normal. Each
      status has its own label. */
  lemma StockStatusSpec(stock: int)
    ensures StockStatusOf(stock) == Critical <==> stock == 0
    ensures StockStatusOf(stock) == Low <==> stock != 0 && stock <= 5
    ensures StockStatusOf(stock) == Normal <==> stock > 5
    ensures StockStatusLabel(StockStatusOf(stock)) == "Sin stock" <==> stock == 0
  {
  }

  /** Every product shown as out of stock carries the critical badge, and
      every product in stock has a low or normal one. */
  lemma StatusAgreesWithLists(filtered: seq<Producto>, x: Producto)
    ensures x in SinStock(filtered) ==> StockStatusOf(x.stock) == Critical
    ensures x in Activos(filtered) ==> StockStatusOf(x.stock) != Critical
  {
  }
}

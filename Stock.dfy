/** app/stock/page.tsx: the inventory page over the catalogue and its stock
    movements: a searchable, type-filtered movement list, the low and
    critical stock lists, the value of the stock on hand and the status
    shown on each movement row. */
module Stock {
  import opened Util
  import opened Text
  import opened Types

  /** The movement filter test. Unlike the product search, the term is
      neither trimmed nor required to be non-blank. */
  predicate MovementMatches(m: StockMovement, searchTerm: string, selectedType: string)
  {
    (IncludesIgnoreCase(m.product.name, searchTerm) || IncludesIgnoreCase(m.product.code, searchTerm)) &&
    (selectedType == "all" || m.movementType == selectedType)
  }

  /** `filteredMovements`. */
  function FilteredMovements(movements: seq<StockMovement>, searchTerm: string, selectedType: string): seq<StockMovement>
  {
    Filter(movements, (m: StockMovement) => MovementMatches(m, searchTerm, selectedType))
  }

  /** The filtered movements keep their order, and a movement is kept exactly
      when its product's name or code contains the term, ignoring case, and
      the type filter is "all" or its own type. */
  lemma FilteredMovementsSpec(movements: seq<StockMovement>, searchTerm: string, selectedType: string, m: StockMovement)
    ensures IsSubseq(FilteredMovements(movements, searchTerm, selectedType), movements)
    ensures m in FilteredMovements(movements, searchTerm, selectedType) <==>
      m in movements &&
      (IncludesIgnoreCase(m.product.name, searchTerm) || IncludesIgnoreCase(m.product.code, searchTerm)) &&
      (selectedType == "all" || m.movementType == selectedType)
  {
    var keep := (x: StockMovement) => MovementMatches(x, searchTerm, selectedType);
    FilterIsSubseq(movements, keep);
    FilterMembership(movements, keep, m);
  }

  /** With an empty search box the type filter alone decides. */
  lemma EmptyTermFiltersByTypeOnly(movements: seq<StockMovement>, selectedType: string)
    ensures FilteredMovements(movements, "", selectedType) ==
      Filter(movements, (m: StockMovement) => selectedType == "all" || m.movementType == selectedType)
  {
    forall m | m in movements
      ensures MovementMatches(m, "", selectedType) <==> (selectedType == "all" || m.movementType == selectedType)
    {
      ContainsEmpty(Lower(m.product.name));
    }
    FilterCongruent(movements, (m: StockMovement) => MovementMatches(m, "", selectedType),
      (m: StockMovement) => selectedType == "all" || m.movementType == selectedType);
  }

  /** `lowStockProducts`: stock at or below the product's own minimum. */
  function LowStockProducts(products: seq<Product>): seq<Product>
  {
    Filter(products, (p: Product) => p.stock <= p.minStock)
  }

  /** `criticalStockProducts`: no stock at all. */
  function CriticalStockProducts(products: seq<Product>): seq<Product>
  {
    Filter(products, (p: Product) => p.stock == 0)
  }

  /** Both lists keep the catalogue's order and hold exactly the products
      with their condition. */
  lemma StockListsSpec(products: seq<Product>, p: Product)
    ensures IsSubseq(LowStockProducts(products), products) && IsSubseq(CriticalStockProducts(products), products)
    ensures p in LowStockProducts(products) <==> p in products && p.stock <= p.minStock
    ensures p in CriticalStockProducts(products) <==> p in products && p.stock == 0
  {
    FilterIsSubseq(products, (q: Product) => q.stock <= q.minStock);
    FilterIsSubseq(products, (q: Product) => q.stock == 0);
    FilterMembership(products, (q: Product) => q.stock <= q.minStock, p);
    FilterMembership(products, (q: Product) => q.stock == 0, p);
  }

  /** When no minimum is negative, the critical list is the part of the low
      list with no stock, in the same order. */
  lemma CriticalWithinLow(products: seq<Product>)
    requires forall p :: p in products ==> p.minStock >= 0
    ensures Filter(LowStockProducts(products), (p: Product) => p.stock == 0) == CriticalStockProducts(products)
    ensures IsSubseq(CriticalStockProducts(products), LowStockProducts(products))
  {
    FilterNarrowing(products, (p: Product) => p.stock <= p.minStock, (p: Product) => p.stock == 0);
  }

  /** A negative minimum lets a product with no stock be critical but not low. */
  lemma CriticalNotLowWithNegativeMinimum(p: Product)
    requires p.stock == 0 && p.minStock == -1
    ensures p in CriticalStockProducts([p]) && p !in LowStockProducts([p])
  {
    assert [p][..0] == [];
  }

  function StockValue(p: Product): real
  {
    (p.stock as real) * p.price
  }

  /** `totalStockValue`. */
  function TotalStockValue(products: seq<Product>): real
  {
    SumOf(products, StockValue)
  }

  /** The stock value is zero for an empty catalogue, each product adds its
      stock times its price, the value adds up over parts of the catalogue,
      and it is never negative when no stock or price is. */
  lemma TotalStockValueSpec(a: seq<Product>, b: seq<Product>, p: Product)
    ensures TotalStockValue([]) == 0.0
    ensures TotalStockValue(a + [p]) == TotalStockValue(a) + (p.stock as real) * p.price
    ensures TotalStockValue(a + b) == TotalStockValue(a) + TotalStockValue(b)
    ensures (forall q :: q in a ==> q.stock >= 0 && q.price >= 0.0) ==> TotalStockValue(a) >= 0.0
  {
    assert (a + [p])[..|a + [p]| - 1] == a;
    SumOfAppend(a, b, StockValue);
    if forall q :: q in a ==> q.stock >= 0 && q.price >= 0.0 {
      SumOfNonNegative(a, StockValue);
    }
  }

  /** `recentMovements`: the first ten movements, or all when fewer. */
  function RecentMovements(movements: seq<StockMovement>): (r: seq<StockMovement>)
    ensures |r| == Min(10, |movements|) && r <= movements
  {
    Take(movements, 10)
  }

  /** The badge of a movement row. */
  function RowStatusLabel(p: Product): string
  {
    if p.stock == 0 then "Sin stock" else if p.stock <= p.minStock then "Bajo" else "Normal"
  }

  /** A row reads "Sin stock" exactly for a product in the critical list and
      "Normal" exactly for one in neither list. */
  lemma RowStatusAgreesWithLists(products: seq<Product>, p: Product)
    requires p in products
    ensures RowStatusLabel(p) == "Sin stock" <==> p in CriticalStockProducts(products)
    ensures RowStatusLabel(p) == "Bajo" <==> p in LowStockProducts(products) && p !in CriticalStockProducts(products)
    ensures RowStatusLabel(p) == "Normal" <==> p !in LowStockProducts(products) && p !in CriticalStockProducts(products)
  {
    StockListsSpec(products, p);
  }
}

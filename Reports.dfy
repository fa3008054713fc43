/** app/reportes/page.tsx: the reports page: revenue and average invoice
    value, the five products holding the most stock value, the five
    clients who spent the most, and revenue per month. */
module Reports {
  import opened Util
  import opened Types

  // ---------------------------------------------------------------------
  // Revenue

  function InvoiceTotal(invoice: Invoice): real
  {
    invoice.total
  }

  /** `totalRevenue`. */
  function TotalRevenue(invoices: seq<Invoice>): real
  {
    SumOf(invoices, InvoiceTotal)
  }

  /** `averageInvoiceValue`: the revenue shared equally among the invoices,
      or 0 when there are none. */
  function AverageInvoiceValue(invoices: seq<Invoice>): (average: real)
    ensures |invoices| == 0 ==> average == 0.0
    ensures |invoices| > 0 ==> average * (|invoices| as real) == TotalRevenue(invoices)
  {
    if |invoices| > 0 then TotalRevenue(invoices) / (|invoices| as real) else 0.0
  }

  /** With all invoices equal, the average is that invoice's total. */
  lemma {:induction false} AverageOfEqualInvoices(invoices: seq<Invoice>, t: real)
    requires |invoices| > 0
    requires forall inv :: inv in invoices ==> inv.total == t
    ensures TotalRevenue(invoices) == (|invoices| as real) * t
    ensures AverageInvoiceValue(invoices) == t
  {
    var n := |invoices|;
    if n > 1 {
      var front := invoices[..n - 1];
      assert invoices == front + [invoices[n - 1]];
      AverageOfEqualInvoices(front, t);
    } else {
      assert invoices[..0] == [];
      assert invoices[0] in invoices;
      assert TotalRevenue(invoices) == SumOf(invoices[..0], InvoiceTotal) + InvoiceTotal(invoices[0]);
    }
  }

  // ---------------------------------------------------------------------
  // Top products

  /** The key the products are ranked by: the value of their stock. */
  function Worth(p: Product): real
  {
    p.price * (p.stock as real)
  }

  /** Non-increasing by `key`. */
  predicate SortedBy<T>(s: seq<T>, key: T -> real)
  {
    forall i, j :: 0 <= i < j < |s| ==> key(s[i]) >= key(s[j])
  }

  predicate SortedByWorth(s: seq<Product>)
  {
    SortedBy(s, Worth)
  }

  /** Placing `x` between a sorted prefix and the run of elements with a
      smaller key keeps the result sorted. */
  lemma InsertedSorted<T>(s: seq<T>, j: int, x: T, key: T -> real)
    requires 0 <= j <= |s| && SortedBy(s, key)
    requires j > 0 ==> key(s[j - 1]) >= key(x)
    requires forall l :: j <= l < |s| ==> key(s[l]) < key(x)
    ensures SortedBy(s[..j] + [x] + s[j..], key)
  {
    var r := s[..j] + [x] + s[j..];
    forall p, q | 0 <= p < q < |r|
      ensures key(r[p]) >= key(r[q])
    {
      if p < j && q == j {
        assert key(s[p]) >= key(s[j - 1]);
      } else if p < j && q > j {
        assert r[p] == s[p] && r[q] == s[q - 1];
      } else if p > j {
        assert r[p] == s[p - 1] && r[q] == s[q - 1];
      }
    }
  }

  /** The array after one insertion step, as a sequence: the prefix, the
      inserted element, the shifted run, the untouched rest. */
  lemma ShiftedShape<T>(s: seq<T>, t: seq<T>, i: int, j: int)
    requires 0 <= j <= i < |s| == |t|
    requires forall k :: 0 <= k < j ==> t[k] == s[k]
    requires t[j] == s[i]
    requires forall k :: j < k <= i ==> t[k] == s[k - 1]
    requires forall k :: i < k < |s| ==> t[k] == s[k]
    ensures t == s[..j] + [s[i]] + s[j..i] + s[i + 1..]
  {
    var u := s[..j] + [s[i]] + s[j..i] + s[i + 1..];
    forall k | 0 <= k < |t|
      ensures t[k] == u[k]
    {
      if k < j {
      } else if k == j {
      } else if k <= i {
        assert u[k] == s[j..i][k - j - 1];
      } else {
        assert u[k] == s[i + 1..][k - i - 1];
      }
    }
  }

  lemma ShiftedSame<T>(s: seq<T>, i: int, j: int)
    requires 0 <= j <= i < |s|
    ensures multiset(s[..j] + [s[i]] + s[j..i] + s[i + 1..]) == multiset(s)
  {
    var front, x, run, back := s[..j], s[i], s[j..i], s[i + 1..];
    assert s == front + run + [x] + back;
    calc {
      multiset(front + [x] + run + back);
      multiset(front) + multiset{x} + multiset(run) + multiset(back);
      multiset(front + run + [x] + back);
    }
  }

  lemma ShiftedRest<T>(s: seq<T>, i: int, j: int)
    requires 0 <= j <= i < |s|
    ensures (s[..j] + [s[i]] + s[j..i] + s[i + 1..])[i + 1..] == s[i + 1..]
  {
  }

  lemma ShiftedSorted<T>(s: seq<T>, i: int, j: int, key: T -> real)
    requires 0 <= j <= i < |s| && SortedBy(s[..i], key)
    requires j > 0 ==> key(s[j - 1]) >= key(s[i])
    requires forall l :: j <= l < i ==> key(s[l]) < key(s[i])
    ensures SortedBy((s[..j] + [s[i]] + s[j..i] + s[i + 1..])[..i + 1], key)
  {
    var p := s[..i];
    assert (s[..j] + [s[i]] + s[j..i] + s[i + 1..])[..i + 1] == p[..j] + [s[i]] + p[j..];
    InsertedSorted(p, j, s[i], key);
  }

  /** One insertion step on sequences: `t` is `s` with element `i` moved
      to `j`, ahead of the run of smaller keys. */
  lemma InsertStep<T>(s: seq<T>, t: seq<T>, i: int, j: int, key: T -> real)
    requires 0 <= j <= i < |s| == |t| && SortedBy(s[..i], key)
    requires forall k :: 0 <= k < j ==> t[k] == s[k]
    requires t[j] == s[i]
    requires forall k :: j < k <= i ==> t[k] == s[k - 1]
    requires forall k :: i < k < |s| ==> t[k] == s[k]
    requires j > 0 ==> key(s[j - 1]) >= key(s[i])
    requires forall l :: j <= l < i ==> key(s[l]) < key(s[i])
    ensures SortedBy(t[..i + 1], key)
    ensures multiset(t) == multiset(s)
    ensures t[i + 1..] == s[i + 1..]
  {
    ShiftedShape(s, t, i, j);
    ShiftedSame(s, i, j);
    ShiftedRest(s, i, j);
    ShiftedSorted(s, i, j, key);
  }

  /** The inner loop: shifts right, by one place, the run of elements
      before `i` whose key is below that of `x`, and returns where the run
      starts, leaving that slot for `x`. */
  method ShiftRun<T>(a: array<T>, i: int, x: T, key: T -> real) returns (j: int)
    requires 0 <= i < a.Length
    modifies a
    ensures 0 <= j <= i
    ensures forall k :: 0 <= k < j ==> a[k] == old(a[k])
    ensures forall k :: j < k <= i ==> a[k] == old(a[k - 1])
    ensures forall k :: i < k < a.Length ==> a[k] == old(a[k])
    ensures forall l :: j <= l < i ==> key(old(a[l])) < key(x)
    ensures j > 0 ==> key(old(a[j - 1])) >= key(x)
  {
    j := i;
    while j > 0 && key(a[j - 1]) < key(x)
      invariant 0 <= j <= i
      invariant forall k :: 0 <= k < j ==> a[k] == old(a[k])
      invariant forall k :: j < k <= i ==> a[k] == old(a[k - 1])
      invariant forall k :: i < k < a.Length ==> a[k] == old(a[k])
      invariant forall l :: j <= l < i ==> key(old(a[l])) < key(x)
    {
      a[j] := a[j - 1];
      j := j - 1;
    }
  }

  /** One step of insertion sort: the element at `i` moves forward past
      the elements with a strictly smaller key, so that the first `i + 1`
      are sorted. */
  method InsertForward<T>(a: array<T>, i: int, key: T -> real)
    requires 0 <= i < a.Length && SortedBy(a[..i], key)
    modifies a
    ensures SortedBy(a[..i + 1], key)
    ensures multiset(a[..]) == old(multiset(a[..]))
    ensures a[i + 1..] == old(a[i + 1..])
  {
    ghost var s := a[..];
    var x := a[i];
    var j := ShiftRun(a, i, x, key);
    a[j] := x;
    InsertStep(s, a[..], i, j, key);
  }
  /** Insertion sort by decreasing `key`, in place. */
  method SortDescending<T>(a: array<T>, key: T -> real)
    modifies a
    ensures SortedBy(a[..], key)
    ensures multiset(a[..]) == old(multiset(a[..]))
  {
    var i := 0;
    while i < a.Length
      invariant 0 <= i <= a.Length
      invariant SortedBy(a[..i], key)
      invariant multiset(a[..]) == old(multiset(a[..]))
    {
      InsertForward(a, i, key);
      i := i + 1;
    }
    assert a[..] == a[..a.Length];
  }

  /** `products.sort((a, b) => worth(b) - worth(a))`, in place: the array
      ends up ordered by decreasing worth, holding the same products. */
  method SortByWorth(a: array<Product>)
    modifies a
    ensures SortedByWorth(a[..])
    ensures multiset(a[..]) == old(multiset(a[..]))
  {
    SortDescending(a, Worth);
  }

  /** The first `k` of a list sorted by worth are sorted too and are worth
      at least as much as any product after them. */
  lemma SortedPrefixDominates(s: seq<Product>, k: nat)
    requires SortedByWorth(s)
    ensures SortedByWorth(Take(s, k))
    ensures forall i, j :: 0 <= i < |Take(s, k)| <= j < |s| ==> Worth(Take(s, k)[i]) >= Worth(s[j])
  {
  }

  /** `topProducts`: sorts the products in place and keeps the first five:
      at most five products of the input, by decreasing worth, none worth
      less than a product left out. */
  method TopProducts(products: array<Product>) returns (top: seq<Product>)
    modifies products
    ensures SortedByWorth(products[..]) && multiset(products[..]) == old(multiset(products[..]))
    ensures top == Take(products[..], 5)
    ensures |top| == Min(5, products.Length) && SortedByWorth(top)
    ensures forall x :: x in top ==> x in old(products[..])
    ensures forall i, j :: 0 <= i < |top| <= j < products.Length ==> Worth(top[i]) >= Worth(products[j])
  {
    SortByWorth(products);
    top := products[..Min(5, products.Length)];
    SortedPrefixDominates(products[..], 5);
    forall x | x in top
      ensures x in old(products[..])
    {
      assert x in multiset(products[..]);
    }
  }

  // ---------------------------------------------------------------------
  // Top clients

  /** A client with what they spent and how many invoices they have. */
  datatype ClientSummary = ClientSummary(client: Client, totalSpent: real, invoiceCount: nat)

  function ClientInvoices(invoices: seq<Invoice>, clientId: string): seq<Invoice>
  {
    Filter(invoices, (inv: Invoice) => inv.clientId == clientId)
  }

  /** The summary built for one client by `topClients`' `map`. */
  function Summary(c: Client, invoices: seq<Invoice>): ClientSummary
  {
    var mine := ClientInvoices(invoices, c.id);
    ClientSummary(c, TotalRevenue(mine), |mine|)
  }

  /** A client's spending and invoice count are their share of the
      revenue and of the invoices: with the other clients' shares they
      make up the whole. */
  lemma SummarySpec(c: Client, invoices: seq<Invoice>)
    ensures var others := Filter(invoices, (inv: Invoice) => inv.clientId != c.id);
      Summary(c, invoices).totalSpent + TotalRevenue(others) == TotalRevenue(invoices) &&
      Summary(c, invoices).invoiceCount + |others| == |invoices|
    ensures (forall inv :: inv in invoices ==> inv.clientId != c.id) ==>
      Summary(c, invoices).invoiceCount == 0 && Summary(c, invoices).totalSpent == 0.0
  {
    var mine := (inv: Invoice) => inv.clientId == c.id;
    var notMine := (inv: Invoice) => inv.clientId != c.id;
    SumOfPartition(invoices, InvoiceTotal, mine, notMine);
    FilterPartitionLength(invoices, mine, notMine);
    if forall inv :: inv in invoices ==> inv.clientId != c.id {
      FilterNone(invoices, mine);
    }
  }

  function Summaries(clients: seq<Client>, invoices: seq<Invoice>): seq<ClientSummary>
  {
    seq(|clients|, i requires 0 <= i < |clients| => Summary(clients[i], invoices))
  }

  /** Non-increasing by `totalSpent`. */
  predicate SortedBySpent(s: seq<ClientSummary>)
  {
    forall i, j :: 0 <= i < j < |s| ==> s[i].totalSpent >= s[j].totalSpent
  }

  /** A summary spending at least as much as every one of a sorted list
      can head it. */
  lemma SortedBySpentCons(h: ClientSummary, rest: seq<ClientSummary>)
    requires SortedBySpent(rest)
    requires forall k :: 0 <= k < |rest| ==> rest[k].totalSpent <= h.totalSpent
    ensures SortedBySpent([h] + rest)
  {
    var r := [h] + rest;
    forall i, j | 0 <= i < j < |r|
      ensures r[i].totalSpent >= r[j].totalSpent
    {
      assert r[j] == rest[j - 1];
      if i > 0 {
        assert r[i] == rest[i - 1];
      }
    }
  }

  /** What comes out of inserting `x` into the tail of a sorted list is
      bounded by the list's head. */
  lemma InsertedBelowHead(x: ClientSummary, s: seq<ClientSummary>, rest: seq<ClientSummary>)
    requires s != [] && SortedBySpent(s) && x.totalSpent <= s[0].totalSpent
    requires multiset(rest) == multiset(s[1..]) + multiset{x}
    ensures forall k :: 0 <= k < |rest| ==> rest[k].totalSpent <= s[0].totalSpent
  {
    forall k | 0 <= k < |rest|
      ensures rest[k].totalSpent <= s[0].totalSpent
    {
      assert rest[k] in multiset(rest);
      if rest[k] != x {
        assert rest[k] in multiset(s[1..]);
        var m :| 0 <= m < |s[1..]| && s[1..][m] == rest[k];
        assert s[m + 1] == rest[k];
      }
    }
  }

  /** Places `x` after every summary that spent at least as much. */
  function InsertBySpent(x: ClientSummary, s: seq<ClientSummary>): (r: seq<ClientSummary>)
    requires SortedBySpent(s)
    ensures SortedBySpent(r)
    ensures multiset(r) == multiset(s) + multiset{x}
  {
    if s == [] then [x]
    else if s[0].totalSpent >= x.totalSpent then
      var rest := InsertBySpent(x, s[1..]);
      InsertedBelowHead(x, s, rest);
      SortedBySpentCons(s[0], rest);
      assert s == [s[0]] + s[1..];
      [s[0]] + rest
    else
      SortedBySpentCons(x, s);
      [x] + s
  }

  /** The `sort` of `topClients`, by decreasing spending: the same
      summaries, in order. */
  function SortBySpent(s: seq<ClientSummary>): (r: seq<ClientSummary>)
    ensures SortedBySpent(r)
    ensures multiset(r) == multiset(s)
  {
    if s == [] then []
    else
      assert s == s[..|s| - 1] + [s[|s| - 1]];
      InsertBySpent(s[|s| - 1], SortBySpent(s[..|s| - 1]))
  }

  /** `topClients`. */
  function TopClients(clients: seq<Client>, invoices: seq<Invoice>): (top: seq<ClientSummary>)
    ensures |top| == Min(5, |clients|)
    ensures SortedBySpent(top)
  {
    var sorted := SortBySpent(Summaries(clients, invoices));
    assert |sorted| == |multiset(sorted)| == |clients|;
    Take(sorted, 5)
  }

  lemma TopClientsSubMultiset(clients: seq<Client>, invoices: seq<Invoice>)
    ensures multiset(TopClients(clients, invoices)) <= multiset(Summaries(clients, invoices))
  {
    TakeSubMultiset(SortBySpent(Summaries(clients, invoices)), 5);
  }

  /** Every entry of the top list summarizes a client, no summary appears
      more often than among all clients' summaries, and every client is
      either in it or spent no more than anyone in it. */
  lemma TopClientsSpec(clients: seq<Client>, invoices: seq<Invoice>, c: Client)
    ensures forall y :: y in TopClients(clients, invoices) ==>
      y.client in clients && y == Summary(y.client, invoices)
    ensures c in clients ==>
      Summary(c, invoices) in TopClients(clients, invoices) ||
      forall y :: y in TopClients(clients, invoices) ==> y.totalSpent >= Summary(c, invoices).totalSpent
    ensures multiset(TopClients(clients, invoices)) <= multiset(Summaries(clients, invoices))
  {
    var all := Summaries(clients, invoices);
    var sorted := SortBySpent(all);
    var top := TopClients(clients, invoices);
    assert top == sorted[..|top|];
    TopClientsSubMultiset(clients, invoices);
    forall y | y in top
      ensures y.client in clients && y == Summary(y.client, invoices)
    {
      assert y in multiset(all);
      var i :| 0 <= i < |all| && all[i] == y;
    }
    if c in clients {
      var i :| 0 <= i < |clients| && clients[i] == c;
      assert all[i] == Summary(c, invoices);
      assert Summary(c, invoices) in multiset(sorted);
      var j :| 0 <= j < |sorted| && sorted[j] == Summary(c, invoices);
      if j >= |top| {
        forall y | y in top
          ensures y.totalSpent >= Summary(c, invoices).totalSpent
        {
          var k :| 0 <= k < |top| && top[k] == y;
          assert sorted[k] == y;
        }
      } else {
        assert top[j] == sorted[j];
      }
    }
  }

  // ---------------------------------------------------------------------
  // Monthly revenue

  /** The `Record<string, number>` built by `monthlyRevenue`: its keys in the
      order they were first written, which is the order `Object.entries`
      lists them in, and the amount under each. */
  datatype RevenueByMonth = RevenueByMonth(months: seq<string>, amounts: map<string, real>)

  /** One step of the reduction: `amount` added under `key`. */
  function AddAmount(acc: RevenueByMonth, key: string, amount: real): RevenueByMonth
  {
    var previous := if key in acc.amounts then acc.amounts[key] else 0.0;
    var months := if key in acc.amounts then acc.months else acc.months + [key];
    RevenueByMonth(months, acc.amounts[key := previous + amount])
  }

  /** The reduction `acc[month] = (acc[month] || 0) + invoice.total`, with the
      month of an invoice given by `month`. */
  function MonthlyTotals(invoices: seq<Invoice>, month: Invoice -> string): RevenueByMonth
  {
    if invoices == [] then RevenueByMonth([], map[])
    else
      var invoice := invoices[|invoices| - 1];
      AddAmount(MonthlyTotals(invoices[..|invoices| - 1], month), month(invoice), invoice.total)
  }

  /** `monthlyRevenue`, writing into the accumulator invoice by invoice. */
  method MonthlyRevenue(invoices: seq<Invoice>, month: Invoice -> string) returns (revenue: RevenueByMonth)
    ensures revenue == MonthlyTotals(invoices, month)
  {
    var acc: map<string, real> := map[];
    var months: seq<string> := [];
    for i := 0 to |invoices|
      invariant RevenueByMonth(months, acc) == MonthlyTotals(invoices[..i], month)
    {
      assert invoices[..i + 1][..i] == invoices[..i];
      var key := month(invoices[i]);
      if key !in acc {
        months := months + [key];
      }
      acc := acc[key := (if key in acc then acc[key] else 0.0) + invoices[i].total];
    }
    assert invoices[..|invoices|] == invoices;
    revenue := RevenueByMonth(months, acc);
  }

  predicate Distinct(s: seq<string>)
  {
    forall i, j :: 0 <= i < j < |s| ==> s[i] != s[j]
  }

  /** Each month is listed once, the listed months are the keys of the
      record, and a month is a key exactly when some invoice falls in it. */
  lemma {:induction false} MonthlyTotalsKeys(invoices: seq<Invoice>, month: Invoice -> string, key: string)
    ensures Distinct(MonthlyTotals(invoices, month).months)
    ensures forall k :: k in MonthlyTotals(invoices, month).months <==> k in MonthlyTotals(invoices, month).amounts
    ensures key in MonthlyTotals(invoices, month).amounts <==> exists inv :: inv in invoices && month(inv) == key
  {
    if invoices != [] {
      var front := invoices[..|invoices| - 1];
      assert invoices == front + [invoices[|invoices| - 1]];
      MonthlyTotalsKeys(front, month, key);
    }
  }

  /** The invoices of one month. */
  function OfMonth(month: Invoice -> string, key: string): Invoice -> bool
  {
    (inv: Invoice) => month(inv) == key
  }

  /** The amount under a month is the revenue of the invoices of that month. */
  lemma {:induction false} MonthlyTotalsAmount(invoices: seq<Invoice>, month: Invoice -> string, key: string)
    requires key in MonthlyTotals(invoices, month).amounts
    ensures MonthlyTotals(invoices, month).amounts[key] == TotalRevenue(Filter(invoices, OfMonth(month, key)))
  {
    var n := |invoices|;
    var front := invoices[..n - 1];
    var last := invoices[n - 1];
    var acc := MonthlyTotals(front, month);
    var r := MonthlyTotals(invoices, month);
    var previous := if month(last) in acc.amounts then acc.amounts[month(last)] else 0.0;
    assert r.amounts == acc.amounts[month(last) := previous + last.total];
    var mine := Filter(front, OfMonth(month, key));
    if month(last) == key {
      if key in acc.amounts {
        MonthlyTotalsAmount(front, month, key);
      } else {
        MonthlyTotalsKeys(front, month, key);
        FilterNone(front, OfMonth(month, key));
      }
      assert previous == TotalRevenue(mine);
      var all := Filter(invoices, OfMonth(month, key));
      assert all == mine + [last];
      assert all[..|all| - 1] == mine;
    } else {
      assert key in acc.amounts;
      MonthlyTotalsAmount(front, month, key);
      assert Filter(invoices, OfMonth(month, key)) == mine;
    }
  }

  /** The sum of the amounts listed under `months`. */
  function SumAmounts(months: seq<string>, amounts: map<string, real>): real
    requires forall k :: k in months ==> k in amounts
  {
    if months == [] then 0.0
    else SumAmounts(months[..|months| - 1], amounts) + amounts[months[|months| - 1]]
  }

  lemma {:induction false} SumAmountsFrame(months: seq<string>, amounts: map<string, real>, key: string, v: real)
    requires forall k :: k in months ==> k in amounts
    requires key !in months
    ensures SumAmounts(months, amounts[key := v]) == SumAmounts(months, amounts)
  {
    if months != [] {
      SumAmountsFrame(months[..|months| - 1], amounts, key, v);
    }
  }

  lemma {:induction false} SumAmountsUpdate(months: seq<string>, amounts: map<string, real>, key: string, v: real)
    requires forall k :: k in months ==> k in amounts
    requires Distinct(months) && key in months
    ensures SumAmounts(months, amounts[key := v]) == SumAmounts(months, amounts) - amounts[key] + v
  {
    var front := months[..|months| - 1];
    assert months == front + [months[|months| - 1]];
    if months[|months| - 1] == key {
      SumAmountsFrame(front, amounts, key, v);
    } else {
      SumAmountsUpdate(front, amounts, key, v);
    }
  }

  /** A step adds its amount to the sum over the listed months. */
  lemma AddAmountSum(acc: RevenueByMonth, key: string, amount: real)
    requires Distinct(acc.months)
    requires forall k :: k in acc.months <==> k in acc.amounts
    ensures forall k :: k in AddAmount(acc, key, amount).months ==> k in AddAmount(acc, key, amount).amounts
    ensures SumAmounts(AddAmount(acc, key, amount).months, AddAmount(acc, key, amount).amounts) ==
      SumAmounts(acc.months, acc.amounts) + amount
  {
    var r := AddAmount(acc, key, amount);
    if key in acc.amounts {
      SumAmountsUpdate(acc.months, acc.amounts, key, acc.amounts[key] + amount);
    } else {
      SumAmountsFrame(acc.months, acc.amounts, key, amount);
      assert r.months[..|r.months| - 1] == acc.months;
    }
  }

  /** The months listed are distinct and are the record's keys. */
  lemma MonthlyTotalsListed(invoices: seq<Invoice>, month: Invoice -> string)
    ensures Distinct(MonthlyTotals(invoices, month).months)
    ensures forall k :: k in MonthlyTotals(invoices, month).months <==> k in MonthlyTotals(invoices, month).amounts
  {
    MonthlyTotalsKeys(invoices, month, "");
  }

  /** The reduction's last step is `AddAmount`. */
  lemma MonthlyTotalsStep(invoices: seq<Invoice>, month: Invoice -> string)
    requires invoices != []
    ensures MonthlyTotals(invoices, month) ==
      AddAmount(MonthlyTotals(invoices[..|invoices| - 1], month), month(invoices[|invoices| - 1]),
        invoices[|invoices| - 1].total)
    ensures TotalRevenue(invoices) == TotalRevenue(invoices[..|invoices| - 1]) + invoices[|invoices| - 1].total
  {
  }

  /** The sum after a step of the reduction, from the sum before it. */
  lemma {:induction false} AddAmountStep(r: RevenueByMonth, acc: RevenueByMonth, key: string, amount: real, before: real)
    requires r == AddAmount(acc, key, amount)
    requires Distinct(acc.months)
    requires forall k :: k in acc.months <==> k in acc.amounts
    requires SumAmounts(acc.months, acc.amounts) == before
    ensures forall k :: k in r.months ==> k in r.amounts
    ensures SumAmounts(r.months, r.amounts) == before + amount
  {
    AddAmountSum(acc, key, amount);
  }

  /** The monthly amounts add up to the total revenue. */
  lemma {:induction false} MonthlyTotalsSum(invoices: seq<Invoice>, month: Invoice -> string)
    ensures forall k :: k in MonthlyTotals(invoices, month).months ==> k in MonthlyTotals(invoices, month).amounts
    ensures SumAmounts(MonthlyTotals(invoices, month).months, MonthlyTotals(invoices, month).amounts) ==
      TotalRevenue(invoices)
  {
    MonthlyTotalsListed(invoices, month);
    if invoices != [] {
      MonthlyTotalsSum(invoices[..|invoices| - 1], month);
      MonthlyTotalsSumStep(invoices, month);
    }
  }

  /** One step of `MonthlyTotalsSum`: the sum for the whole list from the
      sum for all invoices but the last. */
  lemma MonthlyTotalsSumStep(invoices: seq<Invoice>, month: Invoice -> string)
    requires invoices != []
    requires var acc := MonthlyTotals(invoices[..|invoices| - 1], month);
      (forall k :: k in acc.months ==> k in acc.amounts) &&
      SumAmounts(acc.months, acc.amounts) == TotalRevenue(invoices[..|invoices| - 1])
    ensures var r := MonthlyTotals(invoices, month);
      (forall k :: k in r.months ==> k in r.amounts) &&
      SumAmounts(r.months, r.amounts) == TotalRevenue(invoices)
  {
    var front := invoices[..|invoices| - 1];
    var last := invoices[|invoices| - 1];
    MonthlyTotalsListed(front, month);
    MonthlyTotalsStep(invoices, month);
    AddAmountStep(MonthlyTotals(invoices, month), MonthlyTotals(front, month), month(last), last.total,
      TotalRevenue(front));
  }
}

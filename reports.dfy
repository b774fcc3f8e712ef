/** The figures of the reports page (src/pages/admin/Reports.tsx): total
    revenue and order count, revenue and orders per month, and the ten
    best-selling products.

    The rows the page aggregates are inputs here; a query that returned no
    data is None. The month an order falls in (a locale date format in the
    page) is the parameter `monthOf`, so the properties hold for any month
    key. */
module Reports {
  import opened Seqs

  /** a paid order as the revenue query returns it */
  datatype RevenueRow = RevenueRow(total: int, createdAt: string)

  /** an order as the order-count query returns it */
  datatype OrderRow = OrderRow(id: string, createdAt: string)

  /** an order line as the best-seller query returns it */
  datatype ItemRow = ItemRow(productName: string, quantity: int, total: int)

  /** an order as the recent-orders query returns it */
  datatype RecentOrder = RecentOrder(id: string, customerName: string, total: int, createdAt: string,
                                     orderStatus: string)

  // ------------------------------------------------------------ dictionaries

  /** An entry of one of the dictionaries the page fills (`monthlyData`,
      `productStats`): a key and its two running sums. A dictionary is the
      list of its entries in insertion order, which is the order
      Object.entries lists them in. */
  datatype Tally = Tally(key: string, x: int, y: int)

  function KeyOf(t: Tally): string {
    t.key
  }

  function Keys(d: seq<Tally>): seq<string> {
    Map(d, KeyOf)
  }

  /** one step of a forEach: create the entry with zero sums when the key is
      new, then add the contribution's amounts to the key's entry */
  function AddOne(d: seq<Tally>, c: Tally): seq<Tally> {
    var e := if c.key in Keys(d) then d else d + [Tally(c.key, 0, 0)];
    assert c.key in Keys(e) by {
      if c.key !in Keys(d) {
        assert Keys(e)[|d|] == c.key;
      }
    }
    var j := FirstIndex(Keys(e), c.key);
    e[j := e[j].(x := e[j].x + c.x, y := e[j].y + c.y)]
  }

  /** the dictionary after a forEach over the contributions cs */
  function Fold(d: seq<Tally>, cs: seq<Tally>): seq<Tally> {
    if cs == [] then d else AddOne(Fold(d, cs[..|cs| - 1]), cs[|cs| - 1])
  }

  /** the body of a forEach: create the entry when the key is new, then add
      the contribution's amounts to it */
  method AddStep(d: seq<Tally>, c: Tally) returns (r: seq<Tally>)
    ensures r == AddOne(d, c)
  {
    r := d;
    if c.key !in Keys(r) {
      r := r + [Tally(c.key, 0, 0)];
      assert Keys(r)[|r| - 1] == c.key;
    }
    var j := FirstIndex(Keys(r), c.key);
    r := r[j := r[j].(x := r[j].x + c.x, y := r[j].y + c.y)];
  }

  /** a forEach adding each contribution to its key's entry */
  method AddAll(d: seq<Tally>, cs: seq<Tally>) returns (r: seq<Tally>)
    ensures r == Fold(d, cs)
  {
    r := d;
    var i := 0;
    while i < |cs|
      invariant 0 <= i <= |cs|
      invariant r == Fold(d, cs[..i])
    {
      r := AddStep(r, cs[i]);
      assert cs[..i + 1][..i] == cs[..i];
      i := i + 1;
    }
    assert cs[..|cs|] == cs;
  }

  /** the sums of the first and the second amounts over all entries */
  function TotalX(d: seq<Tally>): int {
    if d == [] then 0 else TotalX(d[..|d| - 1]) + d[|d| - 1].x
  }

  function TotalY(d: seq<Tally>): int {
    if d == [] then 0 else TotalY(d[..|d| - 1]) + d[|d| - 1].y
  }

  /** the sums of the amounts the contributions give to key k */
  function SumX(cs: seq<Tally>, k: string): int {
    if cs == [] then 0 else SumX(cs[..|cs| - 1], k) + (if cs[|cs| - 1].key == k then cs[|cs| - 1].x else 0)
  }

  function SumY(cs: seq<Tally>, k: string): int {
    if cs == [] then 0 else SumY(cs[..|cs| - 1], k) + (if cs[|cs| - 1].key == k then cs[|cs| - 1].y else 0)
  }

  /** replacing one entry changes the totals by the difference */
  lemma {:induction false} TotalsUpdate(d: seq<Tally>, j: nat, t: Tally)
    requires j < |d|
    ensures TotalX(d[j := t]) == TotalX(d) - d[j].x + t.x
    ensures TotalY(d[j := t]) == TotalY(d) - d[j].y + t.y
  {
    var n := |d| - 1;
    if j == n {
      assert d[j := t][..n] == d[..n];
    } else {
      assert d[j := t][..n] == d[..n][j := t];
      TotalsUpdate(d[..n], j, t);
    }
  }

  lemma {:induction false} TotalsAppend(a: seq<Tally>, b: seq<Tally>)
    ensures TotalX(a + b) == TotalX(a) + TotalX(b)
    ensures TotalY(a + b) == TotalY(a) + TotalY(b)
  {
    if b != [] {
      assert (a + b)[..|a + b| - 1] == a + b[..|b| - 1];
      assert (a + b)[|a + b| - 1] == b[|b| - 1];
      TotalsAppend(a, b[..|b| - 1]);
    } else {
      assert a + b == a;
    }
  }

  lemma {:induction false} SumsAppend(a: seq<Tally>, b: seq<Tally>, k: string)
    ensures SumX(a + b, k) == SumX(a, k) + SumX(b, k)
    ensures SumY(a + b, k) == SumY(a, k) + SumY(b, k)
  {
    if b != [] {
      assert (a + b)[..|a + b| - 1] == a + b[..|b| - 1];
      assert (a + b)[|a + b| - 1] == b[|b| - 1];
      SumsAppend(a, b[..|b| - 1], k);
    } else {
      assert a + b == a;
    }
  }

  /** a key no contribution has receives nothing */
  lemma {:induction false} SumsAbsent(cs: seq<Tally>, k: string)
    requires k !in Keys(cs)
    ensures SumX(cs, k) == 0 && SumY(cs, k) == 0
  {
    if cs != [] {
      var init := cs[..|cs| - 1];
      assert Keys(init) == Keys(cs)[..|cs| - 1];
      assert cs[|cs| - 1].key == Keys(cs)[|cs| - 1];
      SumsAbsent(init, k);
    }
  }

  /** a new key is appended with the contribution's amounts */
  lemma {:induction false} AddOneNew(d: seq<Tally>, c: Tally)
    requires c.key !in Keys(d)
    ensures AddOne(d, c) == d + [c]
  {
    var e := d + [Tally(c.key, 0, 0)];
    assert Keys(e)[|d|] == c.key;
    forall i | 0 <= i < |d| ensures Keys(e)[i] != c.key {
      assert Keys(e)[i] == Keys(d)[i];
    }
    assert FirstIndex(Keys(e), c.key) == |d|;
  }

  /** an existing key's first entry grows by the contribution's amounts */
  lemma {:induction false} AddOneExisting(d: seq<Tally>, c: Tally)
    requires c.key in Keys(d)
    ensures var j := FirstIndex(Keys(d), c.key);
            AddOne(d, c) == d[j := d[j].(x := d[j].x + c.x, y := d[j].y + c.y)]
  {
  }

  /** one step grows the totals by the contribution's amounts */
  lemma {:induction false} AddOneTotals(d: seq<Tally>, c: Tally)
    ensures TotalX(AddOne(d, c)) == TotalX(d) + c.x
    ensures TotalY(AddOne(d, c)) == TotalY(d) + c.y
  {
    if c.key in Keys(d) {
      AddOneExisting(d, c);
      var j := FirstIndex(Keys(d), c.key);
      TotalsUpdate(d, j, AddOne(d, c)[j]);
    } else {
      AddOneNew(d, c);
      assert (d + [c])[..|d|] == d;
    }
  }

  /** One step on a dictionary with distinct keys: a new key is appended
      with the contribution's amounts, an existing key's entry grows by
      them, every other entry is untouched, and the totals grow by them. */
  lemma {:induction false} AddOneSpec(d: seq<Tally>, c: Tally)
    requires Distinct(Keys(d))
    ensures Keys(AddOne(d, c)) == if c.key in Keys(d) then Keys(d) else Keys(d) + [c.key]
    ensures forall j :: 0 <= j < |d| ==>
              AddOne(d, c)[j].x == d[j].x + (if d[j].key == c.key then c.x else 0)
              && AddOne(d, c)[j].y == d[j].y + (if d[j].key == c.key then c.y else 0)
    ensures c.key !in Keys(d) ==> AddOne(d, c)[|d|] == c
  {
    AddOneKeys(d, c);
    AddOneEntries(d, c);
    if c.key !in Keys(d) {
      AddOneNew(d, c);
    }
  }

  /** a step keeps the keys, adding the contribution's key when it is new */
  lemma {:induction false} AddOneKeys(d: seq<Tally>, c: Tally)
    ensures Keys(AddOne(d, c)) == if c.key in Keys(d) then Keys(d) else Keys(d) + [c.key]
  {
    var r := AddOne(d, c);
    if c.key in Keys(d) {
      AddOneExisting(d, c);
      assert Keys(r) == Keys(d) by {
        forall i | 0 <= i < |d| ensures Keys(r)[i] == Keys(d)[i] {
        }
      }
    } else {
      AddOneNew(d, c);
      assert Keys(r) == Keys(d) + [c.key];
    }
  }

  /** on distinct keys a step adds the contribution's amounts to the entry
      of its key and to no other */
  lemma {:induction false} AddOneEntries(d: seq<Tally>, c: Tally)
    requires Distinct(Keys(d))
    ensures forall j :: 0 <= j < |d| ==>
              AddOne(d, c)[j].x == d[j].x + (if d[j].key == c.key then c.x else 0)
              && AddOne(d, c)[j].y == d[j].y + (if d[j].key == c.key then c.y else 0)
  {
    var r := AddOne(d, c);
    if c.key in Keys(d) {
      var k := FirstIndex(Keys(d), c.key);
      AddOneExisting(d, c);
      forall i | 0 <= i < |d|
        ensures r[i].x == d[i].x + (if d[i].key == c.key then c.x else 0)
                && r[i].y == d[i].y + (if d[i].key == c.key then c.y else 0)
      {
        assert Keys(d)[i] == d[i].key;
        if i != k {
          assert Keys(d)[i] != Keys(d)[k];
        }
      }
    } else {
      AddOneNew(d, c);
      forall i | 0 <= i < |d|
        ensures r[i].x == d[i].x + (if d[i].key == c.key then c.x else 0)
                && r[i].y == d[i].y + (if d[i].key == c.key then c.y else 0)
      {
        assert Keys(d)[i] == d[i].key;
      }
    }
  }

  /** A forEach over contributions into an empty dictionary gives one entry
      per distinct key, in the order the keys first appear. */
  lemma {:induction false} FoldKeys(cs: seq<Tally>)
    ensures Keys(Fold([], cs)) == Dedup(Keys(cs))
    ensures Distinct(Keys(Fold([], cs)))
  {
    DedupDistinct(Keys(cs));
    if cs != [] {
      var init, c := cs[..|cs| - 1], cs[|cs| - 1];
      FoldKeys(init);
      AddOneSpec(Fold([], init), c);
      assert Keys(cs)[..|cs| - 1] == Keys(init);
      assert Keys(cs)[|cs| - 1] == c.key;
    }
  }

  /** entries holding the sums of the contributions so far still do after
      a step that behaves as AddOneSpec states */
  lemma {:induction false} StepKeepsSums(d: seq<Tally>, r: seq<Tally>, cs: seq<Tally>, c: Tally)
    requires Keys(d) == Dedup(Keys(cs))
    requires forall j :: 0 <= j < |d| ==> d[j].x == SumX(cs, d[j].key) && d[j].y == SumY(cs, d[j].key)
    requires Keys(r) == if c.key in Keys(d) then Keys(d) else Keys(d) + [c.key]
    requires forall j :: 0 <= j < |d| ==>
               r[j].x == d[j].x + (if d[j].key == c.key then c.x else 0)
               && r[j].y == d[j].y + (if d[j].key == c.key then c.y else 0)
    requires c.key !in Keys(d) ==> r[|d|] == c
    ensures forall j :: 0 <= j < |r| ==> r[j].x == SumX(cs + [c], r[j].key) && r[j].y == SumY(cs + [c], r[j].key)
  {
    forall j | 0 <= j < |r|
      ensures r[j].x == SumX(cs + [c], r[j].key) && r[j].y == SumY(cs + [c], r[j].key)
    {
      if j < |d| {
        assert r[j].key == Keys(r)[j] == Keys(d)[j] == d[j].key;
        OldEntrySums(d[j], r[j], cs, c);
      } else {
        assert c.key !in Keys(cs) by {
          DedupMembers(Keys(cs), c.key);
        }
        NewEntrySums(r[j], cs, c);
      }
    }
  }

  /** an entry that held its key's sums still does after its share of one
      more contribution */
  lemma {:induction false} OldEntrySums(dj: Tally, rj: Tally, cs: seq<Tally>, c: Tally)
    requires dj.x == SumX(cs, dj.key) && dj.y == SumY(cs, dj.key)
    requires rj.key == dj.key
    requires rj.x == dj.x + (if dj.key == c.key then c.x else 0)
    requires rj.y == dj.y + (if dj.key == c.key then c.y else 0)
    ensures rj.x == SumX(cs + [c], rj.key) && rj.y == SumY(cs + [c], rj.key)
  {
    SumsSnoc(cs, c, rj.key);
  }

  /** the entry opened for a key seen first holds that contribution's sums */
  lemma {:induction false} NewEntrySums(rj: Tally, cs: seq<Tally>, c: Tally)
    requires rj == c && c.key !in Keys(cs)
    ensures rj.x == SumX(cs + [c], rj.key) && rj.y == SumY(cs + [c], rj.key)
  {
    SumsSnoc(cs, c, c.key);
    SumsAbsent(cs, c.key);
  }

  /** one more contribution adds its amounts to its own key's sums only */
  lemma {:induction false} SumsSnoc(cs: seq<Tally>, c: Tally, k: string)
    ensures SumX(cs + [c], k) == SumX(cs, k) + (if c.key == k then c.x else 0)
    ensures SumY(cs + [c], k) == SumY(cs, k) + (if c.key == k then c.y else 0)
  {
    assert (cs + [c])[..|cs|] == cs;
  }

  /** Each entry holds the sums of the amounts given to its key. */
  lemma {:induction false} FoldSums(cs: seq<Tally>)
    ensures forall j :: 0 <= j < |Fold([], cs)| ==>
              Fold([], cs)[j].x == SumX(cs, Fold([], cs)[j].key)
              && Fold([], cs)[j].y == SumY(cs, Fold([], cs)[j].key)
  {
    if cs != [] {
      var init, c := cs[..|cs| - 1], cs[|cs| - 1];
      assert cs == init + [c];
      FoldSums(init);
      FoldKeys(init);
      AddOneSpec(Fold([], init), c);
      StepKeepsSums(Fold([], init), Fold([], cs), init, c);
    }
  }

  /** The entries' totals are the totals of all contributions. */
  lemma {:induction false} FoldTotals(cs: seq<Tally>)
    ensures TotalX(Fold([], cs)) == TotalX(cs) && TotalY(Fold([], cs)) == TotalY(cs)
  {
    if cs != [] {
      FoldTotals(cs[..|cs| - 1]);
      AddOneTotals(Fold([], cs[..|cs| - 1]), cs[|cs| - 1]);
    }
  }

  /** two forEach loops over one dictionary add the concatenation */
  lemma {:induction false} FoldAppend(d: seq<Tally>, a: seq<Tally>, b: seq<Tally>)
    ensures Fold(Fold(d, a), b) == Fold(d, a + b)
  {
    if b == [] {
      assert a + b == a;
    } else {
      assert (a + b)[..|a + b| - 1] == a + b[..|b| - 1];
      FoldAppend(d, a, b[..|b| - 1]);
    }
  }

  // ----------------------------------------------------------------- totals

  /** revenueResult's `reduce((sum, order) => sum + order.total, 0)` */
  function RevenueSum(rows: seq<RevenueRow>): int {
    if rows == [] then 0 else RevenueSum(rows[..|rows| - 1]) + rows[|rows| - 1].total
  }

  /** totalRevenue: the sum, or 0 without data */
  function TotalRevenue(revenueData: Option<seq<RevenueRow>>): int {
    if revenueData.Some? then RevenueSum(revenueData.value) else 0
  }

  /** totalOrders: the number of rows, or 0 without data */
  function TotalOrders(ordersData: Option<seq<OrderRow>>): nat {
    if ordersData.Some? then |ordersData.value| else 0
  }

  // ---------------------------------------------------------------- months

  /** the revenue of the paid orders in month m */
  function RevenueInMonth(rows: seq<RevenueRow>, monthOf: string -> string, m: string): int {
    if rows == [] then 0
    else RevenueInMonth(rows[..|rows| - 1], monthOf, m)
         + (if monthOf(rows[|rows| - 1].createdAt) == m then rows[|rows| - 1].total else 0)
  }

  /** the number of orders in month m */
  function OrdersInMonth(rows: seq<OrderRow>, monthOf: string -> string, m: string): nat {
    if rows == [] then 0
    else OrdersInMonth(rows[..|rows| - 1], monthOf, m) + (if monthOf(rows[|rows| - 1].createdAt) == m then 1 else 0)
  }

  /** the months of the revenue rows, in order */
  function RevenueMonths(rows: seq<RevenueRow>, monthOf: string -> string): seq<string> {
    if rows == [] then [] else RevenueMonths(rows[..|rows| - 1], monthOf) + [monthOf(rows[|rows| - 1].createdAt)]
  }

  /** the months of the order rows, in order */
  function OrderMonths(rows: seq<OrderRow>, monthOf: string -> string): seq<string> {
    if rows == [] then [] else OrderMonths(rows[..|rows| - 1], monthOf) + [monthOf(rows[|rows| - 1].createdAt)]
  }

  /** the months of the revenue rows, then those of the order rows, in the
      order the two loops visit them */
  function MonthsVisited(rows: seq<RevenueRow>, orders: seq<OrderRow>, monthOf: string -> string): seq<string> {
    RevenueMonths(rows, monthOf) + OrderMonths(orders, monthOf)
  }

  /** what the revenue loop adds: the order's total to its month's revenue */
  function RevenueContributions(rows: seq<RevenueRow>, monthOf: string -> string): seq<Tally> {
    if rows == [] then []
    else RevenueContributions(rows[..|rows| - 1], monthOf)
         + [Tally(monthOf(rows[|rows| - 1].createdAt), rows[|rows| - 1].total, 0)]
  }

  /** what the orders loop adds: one to its month's order count */
  function OrderContributions(rows: seq<OrderRow>, monthOf: string -> string): seq<Tally> {
    if rows == [] then []
    else OrderContributions(rows[..|rows| - 1], monthOf) + [Tally(monthOf(rows[|rows| - 1].createdAt), 0, 1)]
  }

  lemma KeysAppend(a: seq<Tally>, b: seq<Tally>)
    ensures Keys(a + b) == Keys(a) + Keys(b)
  {
    forall i | 0 <= i < |a + b| ensures Keys(a + b)[i] == (Keys(a) + Keys(b))[i] {
      if i < |a| {
        assert (a + b)[i] == a[i];
      } else {
        assert (a + b)[i] == b[i - |a|];
      }
    }
  }

  lemma {:induction false} RevenueContributionsKeys(rows: seq<RevenueRow>, monthOf: string -> string)
    ensures Keys(RevenueContributions(rows, monthOf)) == RevenueMonths(rows, monthOf)
  {
    if rows != [] {
      var init := rows[..|rows| - 1];
      RevenueContributionsKeys(init, monthOf);
      KeysAppend(RevenueContributions(init, monthOf), [Tally(monthOf(rows[|rows| - 1].createdAt), rows[|rows| - 1].total, 0)]);
    }
  }

  lemma {:induction false} OrderContributionsKeys(rows: seq<OrderRow>, monthOf: string -> string)
    ensures Keys(OrderContributions(rows, monthOf)) == OrderMonths(rows, monthOf)
  {
    if rows != [] {
      var init := rows[..|rows| - 1];
      OrderContributionsKeys(init, monthOf);
      KeysAppend(OrderContributions(init, monthOf), [Tally(monthOf(rows[|rows| - 1].createdAt), 0, 1)]);
    }
  }

  /** the revenue loop adds to month m exactly that month's revenue */
  lemma {:induction false} RevenueContributionsSums(rows: seq<RevenueRow>, monthOf: string -> string, m: string)
    ensures SumX(RevenueContributions(rows, monthOf), m) == RevenueInMonth(rows, monthOf, m)
    ensures SumY(RevenueContributions(rows, monthOf), m) == 0
  {
    if rows != [] {
      var init := rows[..|rows| - 1];
      RevenueContributionsSums(init, monthOf, m);
    }
  }

  /** the revenue loop adds the whole revenue and no orders */
  lemma {:induction false} RevenueContributionsTotals(rows: seq<RevenueRow>, monthOf: string -> string)
    ensures TotalX(RevenueContributions(rows, monthOf)) == RevenueSum(rows)
    ensures TotalY(RevenueContributions(rows, monthOf)) == 0
  {
    if rows != [] {
      var init := rows[..|rows| - 1];
      RevenueContributionsTotals(init, monthOf);
    }
  }

  /** the orders loop adds to month m exactly that month's order count */
  lemma {:induction false} OrderContributionsSums(rows: seq<OrderRow>, monthOf: string -> string, m: string)
    ensures SumX(OrderContributions(rows, monthOf), m) == 0
    ensures SumY(OrderContributions(rows, monthOf), m) == OrdersInMonth(rows, monthOf, m)
  {
    if rows != [] {
      var init := rows[..|rows| - 1];
      OrderContributionsSums(init, monthOf, m);
    }
  }

  /** the orders loop adds no revenue and one per order */
  lemma {:induction false} OrderContributionsTotals(rows: seq<OrderRow>, monthOf: string -> string)
    ensures TotalX(OrderContributions(rows, monthOf)) == 0
    ensures TotalY(OrderContributions(rows, monthOf)) == |rows|
  {
    if rows != [] {
      var init := rows[..|rows| - 1];
      OrderContributionsTotals(init, monthOf);
    }
  }

  /** an entry of monthlyRevenue */
  datatype MonthEntry = MonthEntry(month: string, revenue: int, orders: int)

  function MonthEntryOf(t: Tally): MonthEntry {
    MonthEntry(t.key, t.x, t.y)
  }

  /** `monthlyData` after both loops; a loop over absent data does nothing */
  function MonthlyData(revenueData: Option<seq<RevenueRow>>, ordersData: Option<seq<OrderRow>>,
                       monthOf: string -> string): seq<Tally>
  {
    Fold(Fold([], RevenueContributions(revenueData.GetOr([]), monthOf)),
         OrderContributions(ordersData.GetOr([]), monthOf))
  }

  /** monthlyRevenue: the entries of `monthlyData` */
  function MonthlyRevenue(revenueData: Option<seq<RevenueRow>>, ordersData: Option<seq<OrderRow>>,
                          monthOf: string -> string): seq<MonthEntry>
  {
    Map(MonthlyData(revenueData, ordersData, monthOf), MonthEntryOf)
  }

  /** the two forEach loops filling `monthlyData`, and its entries */
  method GroupByMonth(revenueData: Option<seq<RevenueRow>>, ordersData: Option<seq<OrderRow>>,
                      monthOf: string -> string) returns (monthly: seq<MonthEntry>)
    ensures monthly == MonthlyRevenue(revenueData, ordersData, monthOf)
  {
    var monthlyData: seq<Tally> := [];
    monthlyData := AddAll(monthlyData, RevenueContributions(revenueData.GetOr([]), monthOf));
    monthlyData := AddAll(monthlyData, OrderContributions(ordersData.GetOr([]), monthOf));
    monthly := Map(monthlyData, MonthEntryOf);
  }

  function MonthOfEntry(e: MonthEntry): string {
    e.month
  }

  function SumRevenue(monthly: seq<MonthEntry>): int {
    if monthly == [] then 0 else SumRevenue(monthly[..|monthly| - 1]) + monthly[|monthly| - 1].revenue
  }

  function SumOrders(monthly: seq<MonthEntry>): int {
    if monthly == [] then 0 else SumOrders(monthly[..|monthly| - 1]) + monthly[|monthly| - 1].orders
  }

  lemma {:induction false} MonthEntriesTotals(d: seq<Tally>)
    ensures SumRevenue(Map(d, MonthEntryOf)) == TotalX(d)
    ensures SumOrders(Map(d, MonthEntryOf)) == TotalY(d)
  {
    if d != [] {
      assert Map(d, MonthEntryOf)[..|d| - 1] == Map(d[..|d| - 1], MonthEntryOf);
      MonthEntriesTotals(d[..|d| - 1]);
    }
  }

  /** Each month appears once, in the order the two loops first meet it,
      and every month of a row appears. */
  lemma {:induction false} MonthlyRevenueMonths(revenueData: Option<seq<RevenueRow>>, ordersData: Option<seq<OrderRow>>,
                                                monthOf: string -> string)
    ensures Map(MonthlyRevenue(revenueData, ordersData, monthOf), MonthOfEntry)
            == Dedup(MonthsVisited(revenueData.GetOr([]), ordersData.GetOr([]), monthOf))
    ensures Distinct(Map(MonthlyRevenue(revenueData, ordersData, monthOf), MonthOfEntry))
  {
    var rows, orders := revenueData.GetOr([]), ordersData.GetOr([]);
    var rc, oc := RevenueContributions(rows, monthOf), OrderContributions(orders, monthOf);
    var d := MonthlyData(revenueData, ordersData, monthOf);
    FoldAppend([], rc, oc);
    FoldKeys(rc + oc);
    KeysAppend(rc, oc);
    RevenueContributionsKeys(rows, monthOf);
    OrderContributionsKeys(orders, monthOf);
    assert Map(MonthlyRevenue(revenueData, ordersData, monthOf), MonthOfEntry) == Keys(d);
  }

  /** an entry holding the sums both loops give its key holds that month's
      revenue and order count */
  lemma {:induction false} MonthFigures(rows: seq<RevenueRow>, orders: seq<OrderRow>, monthOf: string -> string,
                                        t: Tally)
    requires t.x == SumX(RevenueContributions(rows, monthOf) + OrderContributions(orders, monthOf), t.key)
    requires t.y == SumY(RevenueContributions(rows, monthOf) + OrderContributions(orders, monthOf), t.key)
    ensures t.x == RevenueInMonth(rows, monthOf, t.key) && t.y == OrdersInMonth(orders, monthOf, t.key)
  {
    SumsAppend(RevenueContributions(rows, monthOf), OrderContributions(orders, monthOf), t.key);
    RevenueContributionsSums(rows, monthOf, t.key);
    OrderContributionsSums(orders, monthOf, t.key);
  }

  /** A month's revenue is the revenue of that month's paid orders and its
      count the number of that month's orders. */
  lemma {:induction false} MonthlyRevenueFigures(revenueData: Option<seq<RevenueRow>>, ordersData: Option<seq<OrderRow>>,
                                                 monthOf: string -> string)
    ensures var monthly := MonthlyRevenue(revenueData, ordersData, monthOf);
            forall i :: 0 <= i < |monthly| ==>
              monthly[i].revenue == RevenueInMonth(revenueData.GetOr([]), monthOf, monthly[i].month)
              && monthly[i].orders == OrdersInMonth(ordersData.GetOr([]), monthOf, monthly[i].month)
  {
    var rows, orders := revenueData.GetOr([]), ordersData.GetOr([]);
    var cs := RevenueContributions(rows, monthOf) + OrderContributions(orders, monthOf);
    var d := MonthlyData(revenueData, ordersData, monthOf);
    var monthly := MonthlyRevenue(revenueData, ordersData, monthOf);
    assert d == Fold([], cs) by {
      FoldAppend([], RevenueContributions(rows, monthOf), OrderContributions(orders, monthOf));
    }
    FoldSums(cs);
    forall i | 0 <= i < |monthly|
      ensures monthly[i].revenue == RevenueInMonth(rows, monthOf, monthly[i].month)
              && monthly[i].orders == OrdersInMonth(orders, monthOf, monthly[i].month)
    {
      assert monthly[i] == MonthEntryOf(d[i]);
      MonthFigures(rows, orders, monthOf, d[i]);
    }
  }

  /** The monthly revenues add up to totalRevenue and the monthly counts to
      totalOrders. */
  lemma {:induction false} MonthlyRevenueTotals(revenueData: Option<seq<RevenueRow>>, ordersData: Option<seq<OrderRow>>,
                                                monthOf: string -> string)
    ensures SumRevenue(MonthlyRevenue(revenueData, ordersData, monthOf)) == TotalRevenue(revenueData)
    ensures SumOrders(MonthlyRevenue(revenueData, ordersData, monthOf)) == TotalOrders(ordersData)
  {
    var rows, orders := revenueData.GetOr([]), ordersData.GetOr([]);
    var rc, oc := RevenueContributions(rows, monthOf), OrderContributions(orders, monthOf);
    FoldAppend([], rc, oc);
    FoldTotals(rc + oc);
    TotalsAppend(rc, oc);
    RevenueContributionsTotals(rows, monthOf);
    OrderContributionsTotals(orders, monthOf);
    MonthEntriesTotals(MonthlyData(revenueData, ordersData, monthOf));
  }

  // -------------------------------------------------------------- products

  /** an entry of topProducts */
  datatype ProductStat = ProductStat(name: string, quantity: int, revenue: int)

  function StatOf(t: Tally): ProductStat {
    ProductStat(t.key, t.x, t.y)
  }

  /** what the product loop adds: the line's quantity and total to its
      product's entry */
  function ItemContributions(items: seq<ItemRow>): seq<Tally> {
    if items == [] then []
    else ItemContributions(items[..|items| - 1])
         + [Tally(items[|items| - 1].productName, items[|items| - 1].quantity, items[|items| - 1].total)]
  }

  /** the product names of the order lines, in order */
  function ItemNames(items: seq<ItemRow>): seq<string> {
    if items == [] then [] else ItemNames(items[..|items| - 1]) + [items[|items| - 1].productName]
  }

  lemma {:induction false} ItemContributionsKeys(items: seq<ItemRow>)
    ensures Keys(ItemContributions(items)) == ItemNames(items)
  {
    if items != [] {
      var last := items[|items| - 1];
      ItemContributionsKeys(items[..|items| - 1]);
      KeysAppend(ItemContributions(items[..|items| - 1]), [Tally(last.productName, last.quantity, last.total)]);
    }
  }

  /** the entries of `productStats` after the loop */
  function ProductStats(itemsData: Option<seq<ItemRow>>): seq<ProductStat> {
    Map(Fold([], ItemContributions(itemsData.GetOr([]))), StatOf)
  }

  /** the forEach filling `productStats`, and its entries */
  method GroupByProduct(itemsData: Option<seq<ItemRow>>) returns (stats: seq<ProductStat>)
    ensures stats == ProductStats(itemsData)
  {
    var productStats: seq<Tally> := [];
    productStats := AddAll(productStats, ItemContributions(itemsData.GetOr([])));
    stats := Map(productStats, StatOf);
  }

  /** units of the named product sold */
  function QuantitySold(items: seq<ItemRow>, name: string): int {
    if items == [] then 0
    else QuantitySold(items[..|items| - 1], name)
         + (if items[|items| - 1].productName == name then items[|items| - 1].quantity else 0)
  }

  /** revenue of the named product */
  function ProductRevenue(items: seq<ItemRow>, name: string): int {
    if items == [] then 0
    else ProductRevenue(items[..|items| - 1], name)
         + (if items[|items| - 1].productName == name then items[|items| - 1].total else 0)
  }

  function NameOf(s: ProductStat): string {
    s.name
  }

  /** the loop adds to a product exactly its order lines' quantities and
      totals */
  lemma {:induction false} ItemContributionsSums(items: seq<ItemRow>, name: string)
    ensures SumX(ItemContributions(items), name) == QuantitySold(items, name)
    ensures SumY(ItemContributions(items), name) == ProductRevenue(items, name)
  {
    if items != [] {
      var init := items[..|items| - 1];
      ItemContributionsSums(init, name);
    }
  }

  /** Each product name appears once, in the order the loop first meets
      it, and every sold product appears. */
  lemma {:induction false} ProductStatsNames(itemsData: Option<seq<ItemRow>>)
    ensures Map(ProductStats(itemsData), NameOf)
            == Dedup(ItemNames(itemsData.GetOr([])))
    ensures Distinct(Map(ProductStats(itemsData), NameOf))
  {
    var cs := ItemContributions(itemsData.GetOr([]));
    FoldKeys(cs);
    ItemContributionsKeys(itemsData.GetOr([]));
    assert Map(ProductStats(itemsData), NameOf) == Keys(Fold([], cs));
  }

  /** A product's quantity and revenue are the sums over its order lines. */
  lemma {:induction false} ProductStatsFigures(itemsData: Option<seq<ItemRow>>)
    ensures var stats := ProductStats(itemsData);
            forall i :: 0 <= i < |stats| ==>
              stats[i].quantity == QuantitySold(itemsData.GetOr([]), stats[i].name)
              && stats[i].revenue == ProductRevenue(itemsData.GetOr([]), stats[i].name)
  {
    var items := itemsData.GetOr([]);
    var cs := ItemContributions(items);
    var d := Fold([], cs);
    var stats := ProductStats(itemsData);
    FoldSums(cs);
    forall i | 0 <= i < |stats|
      ensures stats[i].quantity == QuantitySold(items, stats[i].name)
              && stats[i].revenue == ProductRevenue(items, stats[i].name)
    {
      assert stats[i] == StatOf(d[i]);
      ItemContributionsSums(items, stats[i].name);
    }
  }

  // ------------------------------------------------------------ best sellers

  /** highest revenue first */
  predicate SortedByRevenue(s: seq<ProductStat>) {
    forall i, j :: 0 <= i < j < |s| ==> s[i].revenue >= s[j].revenue
  }

  /** no two entries share a name */
  predicate DistinctNames(s: seq<ProductStat>) {
    forall i, j :: 0 <= i < j < |s| ==> s[i].name != s[j].name
  }

  /** x placed after every entry with at least its revenue */
  function InsertByRevenue(s: seq<ProductStat>, x: ProductStat): seq<ProductStat> {
    if s == [] then [x]
    else if s[0].revenue >= x.revenue then [s[0]] + InsertByRevenue(s[1..], x)
    else [x] + s
  }

  /** `sort((a, b) => b.revenue - a.revenue)`, a stable sort by descending
      revenue, as insertion of each entry in turn */
  function SortByRevenue(s: seq<ProductStat>): seq<ProductStat> {
    if s == [] then [] else InsertByRevenue(SortByRevenue(s[..|s| - 1]), s[|s| - 1])
  }

  /** topProducts: the first ten of the sorted entries */
  function TopProducts(stats: seq<ProductStat>): seq<ProductStat> {
    Take(SortByRevenue(stats), 10)
  }

  /** inserting adds x and nothing else */
  lemma {:induction false} InsertMembers(s: seq<ProductStat>, x: ProductStat)
    ensures forall y :: y in InsertByRevenue(s, x) <==> (y == x || y in s)
  {
    if s != [] && s[0].revenue >= x.revenue {
      InsertMembers(s[1..], x);
      assert s == [s[0]] + s[1..];
    }
  }

  lemma {:induction false} InsertPermutes(s: seq<ProductStat>, x: ProductStat)
    ensures multiset(InsertByRevenue(s, x)) == multiset(s) + multiset{x}
  {
    if s != [] && s[0].revenue >= x.revenue {
      InsertPermutes(s[1..], x);
      assert s == [s[0]] + s[1..];
    }
  }

  /** the head of a sorted sequence earns at least as much as the rest */
  lemma HeadEarnsMost(s: seq<ProductStat>)
    requires s != [] && SortedByRevenue(s)
    ensures forall y :: y in s ==> s[0].revenue >= y.revenue
  {
    forall y | y in s ensures s[0].revenue >= y.revenue {
      var k :| 0 <= k < |s| && s[k] == y;
      if k > 0 {
        assert s[0].revenue >= s[k].revenue;
      }
    }
  }

  lemma {:induction false} InsertSorted(s: seq<ProductStat>, x: ProductStat)
    requires SortedByRevenue(s)
    ensures SortedByRevenue(InsertByRevenue(s, x))
  {
    if s != [] {
      var r := InsertByRevenue(s, x);
      HeadEarnsMost(s);
      if s[0].revenue >= x.revenue {
        var rest := InsertByRevenue(s[1..], x);
        assert SortedByRevenue(s[1..]);
        InsertSorted(s[1..], x);
        InsertMembers(s[1..], x);
        forall i, j | 0 <= i < j < |r| ensures r[i].revenue >= r[j].revenue {
          if i == 0 {
            assert r[j] == rest[j - 1] && rest[j - 1] in rest;
          } else {
            assert r[i] == rest[i - 1] && r[j] == rest[j - 1];
          }
        }
      } else {
        forall i, j | 0 <= i < j < |r| ensures r[i].revenue >= r[j].revenue {
          assert r[j] == s[j - 1];
          if i > 0 {
            assert r[i] == s[i - 1];
          }
        }
      }
    }
  }

  lemma {:induction false} InsertKeepsNamesDistinct(s: seq<ProductStat>, x: ProductStat)
    requires DistinctNames(s)
    requires forall y :: y in s ==> y.name != x.name
    ensures DistinctNames(InsertByRevenue(s, x))
  {
    if s != [] {
      var r := InsertByRevenue(s, x);
      if s[0].revenue >= x.revenue {
        var rest := InsertByRevenue(s[1..], x);
        assert DistinctNames(s[1..]);
        InsertKeepsNamesDistinct(s[1..], x);
        InsertMembers(s[1..], x);
        forall i, j | 0 <= i < j < |r| ensures r[i].name != r[j].name {
          if i == 0 {
            assert r[j] == rest[j - 1] && rest[j - 1] in rest;
            if rest[j - 1] != x {
              var k :| 0 <= k < |s[1..]| && s[1..][k] == rest[j - 1];
              assert s[k + 1] == rest[j - 1];
            }
          } else {
            assert r[i] == rest[i - 1] && r[j] == rest[j - 1];
          }
        }
      } else {
        forall i, j | 0 <= i < j < |r| ensures r[i].name != r[j].name {
          assert r[j] == s[j - 1];
          if i > 0 {
            assert r[i] == s[i - 1];
          }
        }
      }
    }
  }

  /** The sorted entries are the entries, no more and no fewer. */
  lemma {:induction false} SortPermutes(s: seq<ProductStat>)
    ensures multiset(SortByRevenue(s)) == multiset(s)
    ensures forall y :: y in SortByRevenue(s) <==> y in s
  {
    if s != [] {
      var init := s[..|s| - 1];
      SortPermutes(init);
      InsertPermutes(SortByRevenue(init), s[|s| - 1]);
      assert s == init + [s[|s| - 1]];
      forall y ensures y in SortByRevenue(s) <==> y in s {
        assert y in SortByRevenue(s) <==> y in multiset(SortByRevenue(s));
        assert y in s <==> y in multiset(s);
      }
    }
  }

  /** The sorted entries are in non-increasing revenue order. */
  lemma {:induction false} SortSorted(s: seq<ProductStat>)
    ensures SortedByRevenue(SortByRevenue(s))
  {
    if s != [] {
      SortSorted(s[..|s| - 1]);
      InsertSorted(SortByRevenue(s[..|s| - 1]), s[|s| - 1]);
    }
  }

  /** Sorting keeps distinct names distinct. */
  lemma {:induction false} SortKeepsNamesDistinct(s: seq<ProductStat>)
    requires DistinctNames(s)
    ensures DistinctNames(SortByRevenue(s))
  {
    if s != [] {
      var init, x := s[..|s| - 1], s[|s| - 1];
      assert DistinctNames(init);
      SortKeepsNamesDistinct(init);
      SortPermutes(init);
      forall y | y in SortByRevenue(init) ensures y.name != x.name {
        var k :| 0 <= k < |init| && init[k] == y;
        assert s[k] == y;
      }
      InsertKeepsNamesDistinct(SortByRevenue(init), x);
    }
  }

  /** At most ten best sellers, highest revenue first. */
  lemma {:induction false} TopProductsSorted(stats: seq<ProductStat>)
    ensures |TopProducts(stats)| <= 10
    ensures SortedByRevenue(TopProducts(stats))
  {
    SortSorted(stats);
  }

  /** Each best seller is one of the entries, and any entry left out
      earned no more than any entry kept. */
  lemma {:induction false} TopProductsCutoff(stats: seq<ProductStat>)
    ensures forall t :: t in TopProducts(stats) ==> t in stats
    ensures forall t, o :: (t in TopProducts(stats) && o in stats && o !in TopProducts(stats))
                           ==> o.revenue <= t.revenue
  {
    var sorted := SortByRevenue(stats);
    var top := TopProducts(stats);
    SortPermutes(stats);
    SortSorted(stats);
    forall t | t in top ensures t in stats {
      var i :| 0 <= i < |top| && top[i] == t;
      assert sorted[i] == t;
    }
    forall t, o | t in top && o in stats && o !in top ensures o.revenue <= t.revenue {
      var k :| 0 <= k < |sorted| && sorted[k] == o;
      var i :| 0 <= i < |top| && top[i] == t;
      assert k >= |top| by {
        assert forall m :: 0 <= m < |top| ==> sorted[m] in top;
      }
      assert sorted[i] == t;
    }
  }

  /** No product is named twice among the best sellers. */
  lemma {:induction false} TopProductsNamesDistinct(itemsData: Option<seq<ItemRow>>)
    ensures DistinctNames(TopProducts(ProductStats(itemsData)))
  {
    var stats := ProductStats(itemsData);
    ProductStatsNames(itemsData);
    assert DistinctNames(stats) by {
      forall i, j | 0 <= i < j < |stats| ensures stats[i].name != stats[j].name {
        assert Map(stats, NameOf)[i] == stats[i].name;
        assert Map(stats, NameOf)[j] == stats[j].name;
      }
    }
    SortKeepsNamesDistinct(stats);
  }

  // ------------------------------------------------------------ the report

  /** what the page's queries returned; None where a query gave no data */
  datatype QueryResults = QueryResults(
    revenueData: Option<seq<RevenueRow>>,
    ordersData: Option<seq<OrderRow>>,
    productsCount: Option<int>,
    customersCount: Option<int>,
    recentOrders: Option<seq<RecentOrder>>,
    itemsData: Option<seq<ItemRow>>)

  datatype ReportData = ReportData(
    totalRevenue: int,
    totalOrders: int,
    totalProducts: int,
    totalCustomers: int,
    monthlyRevenue: seq<MonthEntry>,
    topProducts: seq<ProductStat>,
    recentOrders: seq<RecentOrder>)

  /** the report setReportData receives; a missing count counts as 0 and
      missing recent orders as none */
  function ReportOf(q: QueryResults, monthOf: string -> string): ReportData {
    ReportData(TotalRevenue(q.revenueData), TotalOrders(q.ordersData),
               q.productsCount.GetOr(0), q.customersCount.GetOr(0),
               MonthlyRevenue(q.revenueData, q.ordersData, monthOf),
               TopProducts(ProductStats(q.itemsData)), q.recentOrders.GetOr([]))
  }

  /** fetchReportData's computation once the queries have answered */
  method FetchReportData(q: QueryResults, monthOf: string -> string) returns (report: ReportData)
    ensures report == ReportOf(q, monthOf)
  {
    var totalRevenue := 0;
    if q.revenueData.Some? {
      totalRevenue := SumRevenueRows(q.revenueData.value);
    }
    var totalOrders := if q.ordersData.Some? then |q.ordersData.value| else 0;
    var monthlyRevenue := GroupByMonth(q.revenueData, q.ordersData, monthOf);
    var stats := GroupByProduct(q.itemsData);
    var topProducts := Take(SortByRevenue(stats), 10);
    report := ReportData(totalRevenue, totalOrders, q.productsCount.GetOr(0), q.customersCount.GetOr(0),
                         monthlyRevenue, topProducts, q.recentOrders.GetOr([]));
  }

  /** the reduce over the revenue rows */
  method SumRevenueRows(rows: seq<RevenueRow>) returns (sum: int)
    ensures sum == RevenueSum(rows)
  {
    sum := 0;
    var i := 0;
    while i < |rows|
      invariant 0 <= i <= |rows|
      invariant sum == RevenueSum(rows[..i])
    {
      sum := sum + rows[i].total;
      assert rows[..i + 1][..i] == rows[..i];
      i := i + 1;
    }
    assert rows[..|rows|] == rows;
  }

  /** The report's figures agree with each other: the monthly revenues add
      up to the total revenue and the monthly counts to the order count;
      with no data every figure is zero and every list empty. */
  lemma {:induction false} ReportSpec(q: QueryResults, monthOf: string -> string)
    ensures SumRevenue(ReportOf(q, monthOf).monthlyRevenue) == ReportOf(q, monthOf).totalRevenue
    ensures SumOrders(ReportOf(q, monthOf).monthlyRevenue) == ReportOf(q, monthOf).totalOrders
    ensures |ReportOf(q, monthOf).topProducts| <= 10
    ensures q == QueryResults(None, None, None, None, None, None)
            ==> ReportOf(q, monthOf) == ReportData(0, 0, 0, 0, [], [], [])
  {
    MonthlyRevenueTotals(q.revenueData, q.ordersData, monthOf);
    TopProductsSorted(ProductStats(q.itemsData));
    if q == QueryResults(None, None, None, None, None, None) {
      assert RevenueContributions([], monthOf) == [];
      assert OrderContributions([], monthOf) == [];
      assert ItemContributions([]) == [];
    }
  }
}

/**
 * The per-product purchase statistics: the receipt items saved inside the
 * expenses are searched for a product term, within a date range and a set
 * of categories, and totalled for the whole period and month by month.
 *
 * `Date.parse` is the parameter `timeOf`; a text it cannot read gives
 * `NotFinite` (NaN).
 */
module ProductAnalytics {
  import opened Wrappers
  import opened JsText
  import opened Money
  import opened Lists
  import opened Sorting
  import opened Grouping
  import opened FinanceTypes
  import opened Categories
  import opened ReceiptImport

  datatype ProductMonthlyStat = ProductMonthlyStat(
    mes: string,
    totalQtd: real,
    totalGasto: real,
    precoMedio: real,
    diffValor: Option<real>,
    diffPercent: Option<real>)

  datatype ProductSummary = ProductSummary(
    produto: string,
    totalQtdPeriodo: real,
    totalGastoPeriodo: real,
    precoMedioPeriodo: real,
    numCompras: nat)

  /** What the hook returns: `{ summary, monthly }`. */
  datatype Analytics = Analytics(summary: ProductSummary, monthly: seq<ProductMonthlyStat>)

  const EmptySummary := ProductSummary("", 0.0, 0.0, 0.0, 0)

  /** `produtoTerm?.trim().toLowerCase() ?? ""` */
  function NormalizedTerm(produtoTerm: Option<string>): string {
    if produtoTerm.Some? then ToLower(Trim(produtoTerm.value)) else ""
  }

  // ---------------------------------------------------------------------------
  // categoryIdByName and isExpenseInCategories
  // ---------------------------------------------------------------------------

  /** The map `categories.forEach(c => map.set(c.name.toLowerCase(), c.id))` ends with. */
  function NameIndex(categories: seq<UserCategory>): map<string, string> {
    if categories == [] then map[]
    else
      var last := categories[|categories| - 1];
      NameIndex(categories[..|categories| - 1])[ToLower(last.name) := last.id]
  }

  /** `categoryIdByName`: one `set` per category, in order. */
  method CategoryIdByName(categories: seq<UserCategory>) returns (byName: map<string, string>)
    ensures byName == NameIndex(categories)
  {
    byName := map[];
    for i := 0 to |categories|
      invariant byName == NameIndex(categories[..i])
    {
      assert categories[..i + 1][..i] == categories[..i];
      byName := byName[ToLower(categories[i].name) := categories[i].id];
    }
    assert categories[..|categories|] == categories;
  }

  /** Category `i` is the last one whose lower-cased name is `key`. */
  predicate LastNamed(categories: seq<UserCategory>, key: string, i: int) {
    0 <= i < |categories| && ToLower(categories[i].name) == key
    && forall j | i < j < |categories| :: ToLower(categories[j].name) != key
  }

  /**
   * A lower-cased name is a key exactly when some category has it, and it
   * maps to the id of the last such category: a later name overwrites.
   */
  lemma NameIndexSpec(categories: seq<UserCategory>, key: string)
    ensures key in NameIndex(categories) <==> exists i | 0 <= i < |categories| :: ToLower(categories[i].name) == key
    ensures key in NameIndex(categories) ==> exists i :: LastNamed(categories, key, i) && NameIndex(categories)[key] == categories[i].id
  {
    NameIndexKeys(categories, key);
    NameIndexLast(categories, key);
  }

  /** The keys of `NameIndex` are the lower-cased names. */
  lemma {:induction false} NameIndexKeys(categories: seq<UserCategory>, key: string)
    ensures key in NameIndex(categories) <==> exists i | 0 <= i < |categories| :: ToLower(categories[i].name) == key
  {
    if categories != [] {
      var init := categories[..|categories| - 1];
      var n := |init|;
      NameIndexKeys(init, key);
      if ToLower(categories[n].name) != key && exists i | 0 <= i < |categories| :: ToLower(categories[i].name) == key {
        var i :| 0 <= i < |categories| && ToLower(categories[i].name) == key;
        assert i < n && init[i] == categories[i];
      }
      if key in NameIndex(init) {
        var i :| 0 <= i < |init| && ToLower(init[i].name) == key;
        assert categories[i] == init[i];
      }
    }
  }

  /** A key of `NameIndex` maps to the id of the last category with that name. */
  lemma {:induction false} NameIndexLast(categories: seq<UserCategory>, key: string)
    ensures key in NameIndex(categories) ==> exists i :: LastNamed(categories, key, i) && NameIndex(categories)[key] == categories[i].id
  {
    if categories != [] {
      var init := categories[..|categories| - 1];
      var n := |init|;
      NameIndexLast(init, key);
      if ToLower(categories[n].name) == key {
        assert LastNamed(categories, key, n);
      } else if key in NameIndex(init) {
        var i :| LastNamed(init, key, i) && NameIndex(init)[key] == init[i].id;
        assert LastNamed(categories, key, i) by {
          forall j | i < j < |categories| ensures ToLower(categories[j].name) != key {
            if j < n { assert categories[j] == init[j]; }
          }
        }
        assert categories[i] == init[i];
      }
    }
  }

  /** There is only one last category of a name. */
  lemma LastNamedUnique(categories: seq<UserCategory>, key: string, i: int, i': int)
    requires LastNamed(categories, key, i) && LastNamed(categories, key, i')
    ensures i == i'
  {
  }

  /** `isExpenseInCategories(expenseCategoryId, expenseCategoryName)` with `categoriaIds` and the name map given. */
  predicate IsExpenseInCategories(categoriaIds: seq<string>, byName: map<string, string>,
                                  expenseCategoryId: Option<string>, expenseCategoryName: string)
  {
    if |categoriaIds| == 0 then true
    else if expenseCategoryId.Some? && expenseCategoryId.value != [] && expenseCategoryId.value in categoriaIds then true
    else if expenseCategoryName != [] then
      var lowered := ToLower(expenseCategoryName);
      lowered in byName && byName[lowered] != [] && byName[lowered] in categoriaIds
    else false
  }

  /**
   * An empty category list admits every expense. Otherwise an expense is
   * admitted by its own non-empty category id, or by its category name
   * when the last category with that name, compared lower-cased, has a
   * non-empty id in the list.
   */
  lemma CategoryFilterSpec(categoriaIds: seq<string>, categories: seq<UserCategory>,
                           expenseCategoryId: Option<string>, expenseCategoryName: string)
    ensures IsExpenseInCategories(categoriaIds, NameIndex(categories), expenseCategoryId, expenseCategoryName)
        <==> categoriaIds == []
             || (expenseCategoryId.Some? && expenseCategoryId.value != [] && expenseCategoryId.value in categoriaIds)
             || (expenseCategoryName != []
                 && exists i :: LastNamed(categories, ToLower(expenseCategoryName), i)
                                && categories[i].id != [] && categories[i].id in categoriaIds)
  {
    var key := ToLower(expenseCategoryName);
    NameIndexSpec(categories, key);
    if exists i :: LastNamed(categories, key, i) {
      var i :| LastNamed(categories, key, i);
      var i' :| LastNamed(categories, key, i') && NameIndex(categories)[key] == categories[i'].id;
      LastNamedUnique(categories, key, i, i');
    }
  }

  // ---------------------------------------------------------------------------
  // Which items count
  // ---------------------------------------------------------------------------

  /** The range, the categories and the term as the loop sees them. */
  datatype Query = Query(term: string, startTs: JsNum, endTs: JsNum, categoriaIds: seq<string>,
                         byName: map<string, string>, timeOf: string -> JsNum)

  /** `Number.isFinite(bound) && ts < bound`; a comparison with NaN is false. */
  predicate Before(ts: JsNum, bound: JsNum) {
    bound.Finite? && ts.Finite? && ts.value < bound.value
  }

  /** `Number.isFinite(bound) && ts > bound` */
  predicate After(ts: JsNum, bound: JsNum) {
    bound.Finite? && ts.Finite? && ts.value > bound.value
  }

  /** The expense passes the early returns of the outer `forEach`. */
  predicate Admitted(e: Expense, q: Query) {
    e.info.date != []
    && !Before(q.timeOf(e.info.date), q.startTs)
    && !After(q.timeOf(e.info.date), q.endTs)
    && IsExpenseInCategories(q.categoriaIds, q.byName, e.info.categoryId, e.info.category)
    && e.info.receiptItems.Some? && |e.info.receiptItems.value| > 0
  }

  /** The item passes `if (normalizedTerm && !desc.includes(normalizedTerm)) return`. */
  predicate Matches(item: ReceiptItem, term: string) {
    term == [] || Contains(ToLower(item.description), term)
  }

  /** What one counted item adds: to which expense and month, how many, and for how much. */
  datatype Purchase = Purchase(expenseId: string, month: string, quantity: real, total: real)

  function PurchaseOf(e: Expense, item: ReceiptItem): Purchase {
    Purchase(e.id, Slice(e.info.date, 7), PositiveQuantity(item.quantity), item.total)
  }

  /** The purchases of the matching items of `e` among `items`, in order. */
  function ItemPurchases(e: Expense, items: seq<ReceiptItem>, term: string): seq<Purchase> {
    if items == [] then []
    else
      var item := items[|items| - 1];
      ItemPurchases(e, items[..|items| - 1], term) + (if Matches(item, term) then [PurchaseOf(e, item)] else [])
  }

  function ExpensePurchases(e: Expense, q: Query): seq<Purchase> {
    if Admitted(e, q) then ItemPurchases(e, e.info.receiptItems.value, q.term) else []
  }

  /** Every purchase the nested loops count, in the order they count them. */
  function Purchases(es: seq<Expense>, q: Query): seq<Purchase> {
    if es == [] then [] else Purchases(es[..|es| - 1], q) + ExpensePurchases(es[|es| - 1], q)
  }

  /** `comprasSet`: the ids of the expenses with at least one counted item. */
  function Buyers(es: seq<Expense>, q: Query): set<string> {
    if es == [] then {}
    else
      var e := es[|es| - 1];
      Buyers(es[..|es| - 1], q) + (if ExpensePurchases(e, q) != [] then {e.id} else {})
  }

  /** The item counts for `e`: the expense is admitted and the item matches. */
  predicate Counted(e: Expense, q: Query, item: ReceiptItem) {
    Admitted(e, q) && item in e.info.receiptItems.value && Matches(item, q.term)
  }

  /**
   * The purchase of an item is in its expense's month, the first seven
   * characters of the date; a missing or non-positive quantity counts as 1;
   * the amount is the item's total.
   */
  lemma PurchaseOfSpec(e: Expense, item: ReceiptItem)
    ensures var p := PurchaseOf(e, item);
      p.expenseId == e.id && p.month == Slice(e.info.date, 7) && p.total == item.total
      && p.quantity > 0.0
      && (item.quantity > 0.0 ==> p.quantity == item.quantity)
      && (item.quantity <= 0.0 ==> p.quantity == 1.0)
  {
  }

  lemma {:induction false} ItemPurchasesSpec(e: Expense, items: seq<ReceiptItem>, term: string)
    ensures forall p :: p in ItemPurchases(e, items, term)
                    <==> exists item :: item in items && Matches(item, term) && p == PurchaseOf(e, item)
  {
    if items != [] {
      var init := items[..|items| - 1];
      ItemPurchasesSpec(e, init, term);
      assert items == init + [items[|items| - 1]];
    }
  }

  /**
   * The purchases are exactly those of the counted items: items of an
   * admitted expense whose lower-cased description contains the term.
   */
  lemma {:induction false} PurchasesSpec(es: seq<Expense>, q: Query)
    ensures forall p :: p in Purchases(es, q)
                    <==> exists e, item :: e in es && Counted(e, q, item) && p == PurchaseOf(e, item)
  {
    if es != [] {
      var init := es[..|es| - 1];
      var last := es[|es| - 1];
      PurchasesSpec(init, q);
      assert es == init + [last];
      if Admitted(last, q) {
        ItemPurchasesSpec(last, last.info.receiptItems.value, q.term);
      }
    }
  }

  /** An expense is among the buyers exactly when one of its items is counted. */
  lemma {:induction false} BuyersSpec(es: seq<Expense>, q: Query)
    ensures forall id :: id in Buyers(es, q) <==> exists p :: p in Purchases(es, q) && p.expenseId == id
  {
    if es != [] {
      var init := es[..|es| - 1];
      var last := es[|es| - 1];
      BuyersSpec(init, q);
      var own := ExpensePurchases(last, q);
      if Admitted(last, q) {
        ItemPurchasesSpec(last, last.info.receiptItems.value, q.term);
      }
      assert forall p | p in own :: p.expenseId == last.id;
      if own != [] {
        assert own[0] in Purchases(es, q);
      }
    }
  }

  /** Counting one more item appends its purchase when it matches and nothing otherwise. */
  lemma ItemPurchasesStep(e: Expense, items: seq<ReceiptItem>, j: nat, term: string)
    requires j < |items|
    ensures ItemPurchases(e, items[..j + 1], term)
         == ItemPurchases(e, items[..j], term) + (if Matches(items[j], term) then [PurchaseOf(e, items[j])] else [])
  {
    assert items[..j + 1][..j] == items[..j];
  }

  // ---------------------------------------------------------------------------
  // The accumulators
  // ---------------------------------------------------------------------------

  /** One entry of `monthMap` (its `monthsWithProduct` set is never read). */
  datatype MonthStat = MonthStat(totalQtd: real, totalGasto: real)

  /** `monthMap`: entries in the order their key was first set. */
  datatype MonthMap = MonthMap(keys: seq<string>, stats: map<string, MonthStat>)

  const NoMonths := MonthMap([], map[])

  /** `monthMap.get(key) ?? { totalQtd: 0, totalGasto: 0 }` */
  function StatOf(m: MonthMap, key: string): MonthStat {
    if key in m.stats then m.stats[key] else MonthStat(0.0, 0.0)
  }

  /** `current.totalQtd += quantity; current.totalGasto += total; monthMap.set(monthKey, current)` */
  function AddPurchase(m: MonthMap, p: Purchase): MonthMap {
    var current := StatOf(m, p.month);
    MonthMap(if p.month in m.stats then m.keys else m.keys + [p.month],
             m.stats[p.month := MonthStat(current.totalQtd + p.quantity, current.totalGasto + p.total)])
  }

  function MonthMapOf(ps: seq<Purchase>): MonthMap {
    if ps == [] then NoMonths else AddPurchase(MonthMapOf(ps[..|ps| - 1]), ps[|ps| - 1])
  }

  function Quantity(p: Purchase): real { p.quantity }

  function Spent(p: Purchase): real { p.total }

  function PurchaseMonth(p: Purchase): Option<string> { Some(p.month) }

  /** `totalQtdPeriodo`, `totalGastoPeriodo`, `monthMap` and `comprasSet` together. */
  datatype Tally = Tally(totalQtdPeriodo: real, totalGastoPeriodo: real, monthMap: MonthMap, compras: set<string>)

  /** The accumulators after counting `ps`, with buyers `compras`. */
  function TallyOf(ps: seq<Purchase>, compras: set<string>): Tally {
    Tally(SumOf(ps, Quantity), SumOf(ps, Spent), MonthMapOf(ps), compras)
  }

  lemma TallyStep(ps: seq<Purchase>, p: Purchase, compras: set<string>)
    ensures var t := TallyOf(ps, compras);
      TallyOf(ps + [p], compras)
      == Tally(t.totalQtdPeriodo + p.quantity, t.totalGastoPeriodo + p.total, AddPurchase(t.monthMap, p), compras)
  {
    assert (ps + [p])[..|ps|] == ps;
  }

  // ---------------------------------------------------------------------------
  // The monthly list
  // ---------------------------------------------------------------------------

  /** `Array.from(monthMap.entries())` */
  function Entries(m: MonthMap): (r: seq<(string, MonthStat)>)
    ensures |r| == |m.keys|
  {
    seq(|m.keys|, i requires 0 <= i < |m.keys| => (m.keys[i], StatOf(m, m.keys[i])))
  }

  function EntryKey(entry: (string, MonthStat)): string { entry.0 }

  /** The first `map`: `precoMedio = totalQtd ? totalGasto / totalQtd : 0`. */
  function BaseStat(entry: (string, MonthStat)): ProductMonthlyStat {
    var s := entry.1;
    ProductMonthlyStat(entry.0, s.totalQtd, s.totalGasto,
                       if s.totalQtd != 0.0 then MeanPrice(s.totalGasto, s.totalQtd) else 0.0, None, None)
  }

  /** `(change / base) * 100` */
  function PercentOf(change: real, base: real): real
    requires base > 0.0
  {
    change / base * 100.0
  }

  /** `total / quantity`, the mean price of a quantity. */
  function MeanPrice(total: real, quantity: real): real
    requires quantity != 0.0
  {
    total / quantity
  }

  /** The second `map` for a month after the first, against the month before. */
  function WithDiff(stat: ProductMonthlyStat, prev: ProductMonthlyStat): ProductMonthlyStat {
    var diffValor := stat.precoMedio - prev.precoMedio;
    stat.(diffValor := Some(diffValor),
          diffPercent := if prev.precoMedio > 0.0 then Some(PercentOf(diffValor, prev.precoMedio)) else None)
  }

  /** `idx === 0 ? stat : { ...stat, diffValor, diffPercent }` */
  function DiffAt(base: seq<ProductMonthlyStat>, i: nat): ProductMonthlyStat
    requires i < |base|
  {
    if i == 0 then base[0] else WithDiff(base[i], base[i - 1])
  }

  function WithDiffs(base: seq<ProductMonthlyStat>): (r: seq<ProductMonthlyStat>)
    ensures |r| == |base|
  {
    seq(|base|, i requires 0 <= i < |base| => DiffAt(base, i))
  }

  /** The first `map`, entry by entry. */
  function BaseStats(entries: seq<(string, MonthStat)>): (r: seq<ProductMonthlyStat>)
    ensures |r| == |entries|
  {
    seq(|entries|, i requires 0 <= i < |entries| => BaseStat(entries[i]))
  }

  /** `monthlySorted`: the entries sorted by month key, then the two `map`s. */
  function MonthlyStats(m: MonthMap): (r: seq<ProductMonthlyStat>)
    ensures |r| == |m.keys|
  {
    WithDiffs(BaseStats(SortBy(Entries(m), EntryKey)))
  }

  function Mes(s: ProductMonthlyStat): string { s.mes }

  function RowQtd(s: ProductMonthlyStat): real { s.totalQtd }

  function RowGasto(s: ProductMonthlyStat): real { s.totalGasto }

  /** The summary: `produtoTerm?.trim() ?? ""`, the totals, their mean price and the number of buyers. */
  function SummaryOf(produtoTerm: Option<string>, t: Tally): ProductSummary {
    ProductSummary(if produtoTerm.Some? then Trim(produtoTerm.value) else "",
                   t.totalQtdPeriodo, t.totalGastoPeriodo,
                   if t.totalQtdPeriodo > 0.0 then t.totalGastoPeriodo / t.totalQtdPeriodo else 0.0,
                   |t.compras|)
  }

  /** The query the loops run for the hook's parameters. */
  function QueryOf(term: string, categories: seq<UserCategory>, dataInicio: string, dataFim: string,
                   categoriaIds: seq<string>, timeOf: string -> JsNum): Query
  {
    Query(term, timeOf(dataInicio), timeOf(dataFim), categoriaIds, NameIndex(categories), timeOf)
  }

  /** The value of the hook's `useMemo`. */
  function AnalyticsOf(expenses: seq<Expense>, categories: seq<UserCategory>, produtoTerm: Option<string>,
                       dataInicio: string, dataFim: string, categoriaIds: seq<string>,
                       timeOf: string -> JsNum): Analytics
  {
    var term := NormalizedTerm(produtoTerm);
    if term == [] then Analytics(EmptySummary, [])
    else
      var q := QueryOf(term, categories, dataInicio, dataFim, categoriaIds, timeOf);
      var t := TallyOf(Purchases(expenses, q), Buyers(expenses, q));
      Analytics(SummaryOf(produtoTerm, t), MonthlyStats(t.monthMap))
  }

  // ---------------------------------------------------------------------------
  // What the month map and the monthly list promise
  // ---------------------------------------------------------------------------

  /** `m` holds, key for key and in the same order, the quantity buckets `q` and the amount buckets `g`. */
  ghost predicate Mirrors(m: MonthMap, q: Buckets, g: Buckets) {
    m.keys == q.keys && m.keys == g.keys
    && (forall k :: k in m.stats <==> k in q.totals) && (forall k :: k in q.totals <==> k in q.counts)
    && (forall k :: k in m.stats <==> k in g.totals) && (forall k :: k in g.totals <==> k in g.counts)
    && forall k | k in m.stats :: m.stats[k].totalQtd == q.totals[k] && m.stats[k].totalGasto == g.totals[k]
  }

  lemma MirrorStep(m: MonthMap, q: Buckets, g: Buckets, p: Purchase)
    requires Mirrors(m, q, g)
    ensures Mirrors(AddPurchase(m, p), AddTo(q, p.month, p.quantity), AddTo(g, p.month, p.total))
  {
  }

  /** The month map is the grouping of the purchases by month, once by quantity and once by amount. */
  lemma {:induction false} MonthMapMirrors(ps: seq<Purchase>)
    ensures Mirrors(MonthMapOf(ps), GroupBy(ps, PurchaseMonth, Quantity), GroupBy(ps, PurchaseMonth, Spent))
  {
    if ps != [] {
      var init := ps[..|ps| - 1];
      MonthMapMirrors(init);
      MirrorStep(MonthMapOf(init), GroupBy(init, PurchaseMonth, Quantity), GroupBy(init, PurchaseMonth, Spent), ps[|ps| - 1]);
    }
  }

  /** The purchases of month `mes`. */
  function OfMonth(ps: seq<Purchase>, mes: string): seq<Purchase> {
    Keep(ps, InBucket(PurchaseMonth, mes))
  }

  /** Each month is listed once, and exactly the months some purchase falls in are listed. */
  lemma MonthKeysSpec(ps: seq<Purchase>)
    ensures var keys := MonthMapOf(ps).keys;
      (forall i, j | 0 <= i < j < |keys| :: keys[i] != keys[j])
      && (forall k | 0 <= k < |ps| :: ps[k].month in keys)
      && (forall i | 0 <= i < |keys| :: exists k | 0 <= k < |ps| :: ps[k].month == keys[i])
  {
    MonthMapMirrors(ps);
    GroupKeys(ps, PurchaseMonth, Quantity);
    var keys := MonthMapOf(ps).keys;
    forall i | 0 <= i < |keys| ensures exists k | 0 <= k < |ps| :: ps[k].month == keys[i] {
      var k :| 0 <= k < |ps| && PurchaseMonth(ps[k]) == Some(keys[i]);
    }
    forall k | 0 <= k < |ps| ensures ps[k].month in keys {
      assert PurchaseMonth(ps[k]) == Some(ps[k].month);
    }
  }

  /**
   * A listed month's entry holds the quantities and the amounts of its
   * purchases added up, and it has at least one purchase.
   */
  lemma MonthStatsSpec(ps: seq<Purchase>)
    ensures var m := MonthMapOf(ps);
      forall i | 0 <= i < |m.keys| ::
        |OfMonth(ps, m.keys[i])| >= 1
        && StatOf(m, m.keys[i]) == MonthStat(SumOf(OfMonth(ps, m.keys[i]), Quantity), SumOf(OfMonth(ps, m.keys[i]), Spent))
  {
    var m := MonthMapOf(ps);
    forall i | 0 <= i < |m.keys|
      ensures |OfMonth(ps, m.keys[i])| >= 1
      ensures StatOf(m, m.keys[i]) == MonthStat(SumOf(OfMonth(ps, m.keys[i]), Quantity), SumOf(OfMonth(ps, m.keys[i]), Spent))
    {
      KeyStats(ps, i);
    }
  }

  /** One listed month of `MonthStatsSpec`. */
  lemma KeyStats(ps: seq<Purchase>, i: nat)
    requires i < |MonthMapOf(ps).keys|
    ensures var m := MonthMapOf(ps);
      |OfMonth(ps, m.keys[i])| >= 1
      && StatOf(m, m.keys[i]) == MonthStat(SumOf(OfMonth(ps, m.keys[i]), Quantity), SumOf(OfMonth(ps, m.keys[i]), Spent))
  {
    var m := MonthMapOf(ps);
    var q := GroupBy(ps, PurchaseMonth, Quantity);
    var g := GroupBy(ps, PurchaseMonth, Spent);
    MonthMapMirrors(ps);
    assert m.keys == q.keys && m.keys == g.keys;
    KeyInStats(ps, i);
    GroupTotals(ps, PurchaseMonth, Quantity);
    GroupTotals(ps, PurchaseMonth, Spent);
    assert TotalOf(q, q.keys[i]) == SumOf(OfMonth(ps, m.keys[i]), Quantity);
    assert TotalOf(g, g.keys[i]) == SumOf(OfMonth(ps, m.keys[i]), Spent);
    assert CountOf(q, q.keys[i]) == |OfMonth(ps, m.keys[i])|;
  }

  /** A listed month has an entry in the map, holding its two bucket totals. */
  lemma KeyInStats(ps: seq<Purchase>, i: nat)
    requires i < |GroupBy(ps, PurchaseMonth, Quantity).keys|
    ensures var m := MonthMapOf(ps);
      i < |m.keys| && m.keys[i] in m.stats
      && StatOf(m, m.keys[i]) == MonthStat(TotalOf(GroupBy(ps, PurchaseMonth, Quantity), m.keys[i]),
                                          TotalOf(GroupBy(ps, PurchaseMonth, Spent), m.keys[i]))
  {
    var q := GroupBy(ps, PurchaseMonth, Quantity);
    GroupTotals(ps, PurchaseMonth, Quantity);
    assert CountOf(q, q.keys[i]) >= 1;
    MonthMapMirrors(ps);
  }

  /**
   * The diffs only add to each month: its key, totals and mean price are
   * those of the month without diffs.
   */
  lemma WithDiffsKeeps(base: seq<ProductMonthlyStat>)
    ensures var r := WithDiffs(base);
      forall i | 0 <= i < |base| ::
        r[i].mes == base[i].mes && r[i].totalQtd == base[i].totalQtd
        && r[i].totalGasto == base[i].totalGasto && r[i].precoMedio == base[i].precoMedio
  {
  }

  /**
   * After the diffs, the first month has none when it had none before;
   * every later month's `diffValor` is its mean price less the one before,
   * and its `diffPercent` is that change as a percentage when the previous
   * mean price is positive, and absent otherwise.
   */
  lemma WithDiffsSpec(base: seq<ProductMonthlyStat>)
    ensures var rows := WithDiffs(base);
      (|rows| > 0 ==> rows[0] == base[0])
      && forall i | 0 < i < |rows| ::
           var diff := rows[i].precoMedio - rows[i - 1].precoMedio;
           rows[i].diffValor == Some(diff)
           && (rows[i - 1].precoMedio > 0.0 ==> rows[i].diffPercent == Some(PercentOf(diff, rows[i - 1].precoMedio)))
           && (rows[i - 1].precoMedio <= 0.0 ==> rows[i].diffPercent.None?)
  {
    WithDiffsKeeps(base);
  }

  /**
   * The monthly list is sorted by month key and has a row for exactly the
   * months some purchase falls in; a row's totals are those of its month's
   * purchases and its mean price is their quotient, or 0 for a zero quantity.
   */
  lemma MonthlySpec(ps: seq<Purchase>)
    ensures var rows := MonthlyStats(MonthMapOf(ps));
      SortedBy(rows, Mes)
      && (forall k | 0 <= k < |ps| :: exists i | 0 <= i < |rows| :: rows[i].mes == ps[k].month)
      && (forall i | 0 <= i < |rows| :: exists k | 0 <= k < |ps| :: ps[k].month == rows[i].mes)
      && forall i | 0 <= i < |rows| ::
           |OfMonth(ps, rows[i].mes)| >= 1
           && rows[i].totalQtd == SumOf(OfMonth(ps, rows[i].mes), Quantity)
           && rows[i].totalGasto == SumOf(OfMonth(ps, rows[i].mes), Spent)
           && rows[i].precoMedio == (if rows[i].totalQtd != 0.0 then MeanPrice(rows[i].totalGasto, rows[i].totalQtd) else 0.0)
  {
    var rows := MonthlyStats(MonthMapOf(ps));
    SortedRows(MonthMapOf(ps));
    RowsOfPurchases(ps);
    forall k | 0 <= k < |ps|
      ensures exists i | 0 <= i < |rows| :: rows[i].mes == ps[k].month
    {
      var i := PurchaseRow(ps, k);
    }
  }

  /** Every row is the month of some purchase, with its totals and mean price. */
  lemma RowsOfPurchases(ps: seq<Purchase>)
    ensures var rows := MonthlyStats(MonthMapOf(ps));
      forall i | 0 <= i < |rows| ::
        (exists k | 0 <= k < |ps| :: ps[k].month == rows[i].mes)
        && |OfMonth(ps, rows[i].mes)| >= 1
        && rows[i].totalQtd == SumOf(OfMonth(ps, rows[i].mes), Quantity)
        && rows[i].totalGasto == SumOf(OfMonth(ps, rows[i].mes), Spent)
        && rows[i].precoMedio == (if rows[i].totalQtd != 0.0 then MeanPrice(rows[i].totalGasto, rows[i].totalQtd) else 0.0)
  {
    var rows := MonthlyStats(MonthMapOf(ps));
    forall i | 0 <= i < |rows|
      ensures (exists k | 0 <= k < |ps| :: ps[k].month == rows[i].mes)
        && |OfMonth(ps, rows[i].mes)| >= 1
        && rows[i].totalQtd == SumOf(OfMonth(ps, rows[i].mes), Quantity)
        && rows[i].totalGasto == SumOf(OfMonth(ps, rows[i].mes), Spent)
        && rows[i].precoMedio == (if rows[i].totalQtd != 0.0 then MeanPrice(rows[i].totalGasto, rows[i].totalQtd) else 0.0)
    {
      RowFacts(ps, i);
    }
  }

  /** A row of the monthly list stands for the entry of one listed month. */
  lemma RowEntry(m: MonthMap, i: nat) returns (k: nat)
    requires i < |MonthlyStats(m)|
    ensures k < |m.keys|
    ensures var row := MonthlyStats(m)[i];
      row.mes == m.keys[k] && row.totalQtd == StatOf(m, m.keys[k]).totalQtd
      && row.totalGasto == StatOf(m, m.keys[k]).totalGasto
  {
    var entries := Entries(m);
    var sorted := SortBy(entries, EntryKey);
    SortedRows(m);
    assert sorted[i] in multiset(entries);
    k :| 0 <= k < |entries| && entries[k] == sorted[i];
  }

  /** One row of `MonthlySpec`: its month has purchases, and their totals. */
  lemma RowFacts(ps: seq<Purchase>, i: nat)
    requires i < |MonthlyStats(MonthMapOf(ps))|
    ensures var row := MonthlyStats(MonthMapOf(ps))[i];
      (exists k | 0 <= k < |ps| :: ps[k].month == row.mes)
      && |OfMonth(ps, row.mes)| >= 1
      && row.totalQtd == SumOf(OfMonth(ps, row.mes), Quantity)
      && row.totalGasto == SumOf(OfMonth(ps, row.mes), Spent)
      && row.precoMedio == (if row.totalQtd != 0.0 then MeanPrice(row.totalGasto, row.totalQtd) else 0.0)
  {
    SortedRows(MonthMapOf(ps));
    var k := RowEntry(MonthMapOf(ps), i);
    KeyStats(ps, k);
    MonthKeysSpec(ps);
  }

  /** The month of every purchase has a row in the monthly list. */
  lemma PurchaseRow(ps: seq<Purchase>, j: nat) returns (i: nat)
    requires j < |ps|
    ensures i < |MonthlyStats(MonthMapOf(ps))| && MonthlyStats(MonthMapOf(ps))[i].mes == ps[j].month
  {
    var m := MonthMapOf(ps);
    var entries := Entries(m);
    var sorted := SortBy(entries, EntryKey);
    MonthKeysSpec(ps);
    SortedRows(m);
    var k :| 0 <= k < |m.keys| && m.keys[k] == ps[j].month;
    assert entries[k] in multiset(sorted);
    i :| 0 <= i < |sorted| && sorted[i] == entries[k];
  }

  /** The rows are the sorted entries with their mean prices, in key order. */
  lemma SortedRows(m: MonthMap)
    ensures var rows := MonthlyStats(m);
      var sorted := SortBy(Entries(m), EntryKey);
      multiset(sorted) == multiset(Entries(m)) && |rows| == |sorted| && SortedBy(rows, Mes)
      && forall i | 0 <= i < |rows| ::
           rows[i].mes == sorted[i].0 && rows[i].totalQtd == sorted[i].1.totalQtd
           && rows[i].totalGasto == sorted[i].1.totalGasto
           && rows[i].precoMedio == (if rows[i].totalQtd != 0.0 then MeanPrice(rows[i].totalGasto, rows[i].totalQtd) else 0.0)
  {
    var sorted := SortBy(Entries(m), EntryKey);
    WithDiffsKeeps(BaseStats(sorted));
    SortBySpec(Entries(m), EntryKey);
  }

  /** The diffs of the monthly list are taken against the month before in that list. */
  lemma MonthlyDiffsSpec(m: MonthMap)
    ensures var rows := MonthlyStats(m);
      (|rows| > 0 ==> rows[0].diffValor.None? && rows[0].diffPercent.None?)
      && forall i | 0 < i < |rows| ::
           var diff := rows[i].precoMedio - rows[i - 1].precoMedio;
           rows[i].diffValor == Some(diff)
           && (rows[i - 1].precoMedio > 0.0 ==> rows[i].diffPercent == Some(PercentOf(diff, rows[i - 1].precoMedio)))
           && (rows[i - 1].precoMedio <= 0.0 ==> rows[i].diffPercent.None?)
  {
    WithDiffsSpec(BaseStats(SortBy(Entries(m), EntryKey)));
  }

  function EntryQtd(entry: (string, MonthStat)): real { entry.1.totalQtd }

  function EntryGasto(entry: (string, MonthStat)): real { entry.1.totalGasto }

  /** The monthly quantities add up to the period's quantity, and the monthly amounts to the period's amount. */
  lemma MonthlyTotals(ps: seq<Purchase>)
    ensures var rows := MonthlyStats(MonthMapOf(ps));
      SumOf(rows, RowQtd) == SumOf(ps, Quantity) && SumOf(rows, RowGasto) == SumOf(ps, Spent)
  {
    RowsSumEntries(MonthMapOf(ps));
    EntriesSumPurchases(ps, Quantity, EntryQtd);
    EntriesSumPurchases(ps, Spent, EntryGasto);
  }

  /** Sorting the entries and adding the mean prices leave the sums of the totals as they were. */
  lemma RowsSumEntries(m: MonthMap)
    ensures SumOf(MonthlyStats(m), RowQtd) == SumOf(Entries(m), EntryQtd)
    ensures SumOf(MonthlyStats(m), RowGasto) == SumOf(Entries(m), EntryGasto)
  {
    var sorted := SortBy(Entries(m), EntryKey);
    SortedRows(m);
    SumOfPointwise(MonthlyStats(m), RowQtd, sorted, EntryQtd);
    SumOfPermutation(sorted, Entries(m), EntryQtd);
    SumOfPointwise(MonthlyStats(m), RowGasto, sorted, EntryGasto);
    SumOfPermutation(sorted, Entries(m), EntryGasto);
  }

  /**
   * The month entries, one per listed month, add up to the purchases they
   * were built from; `valueOf` and `entryOf` are the quantity or the amount.
   */
  lemma EntriesSumPurchases(ps: seq<Purchase>, valueOf: Purchase -> real, entryOf: ((string, MonthStat)) -> real)
    requires (valueOf == Quantity && entryOf == EntryQtd) || (valueOf == Spent && entryOf == EntryGasto)
    ensures SumOf(Entries(MonthMapOf(ps)), entryOf) == SumOf(ps, valueOf)
  {
    var m := MonthMapOf(ps);
    MonthKeysSpec(ps);
    MonthStatsSpec(ps);
    forall k | 0 <= k < |m.keys|
      ensures entryOf(Entries(m)[k]) == BucketSum(ps, PurchaseMonth, valueOf)(m.keys[k])
    {
      assert OfMonth(ps, m.keys[k]) == Keep(ps, InBucket(PurchaseMonth, m.keys[k]));
    }
    SumOfPointwise(Entries(m), entryOf, m.keys, BucketSum(ps, PurchaseMonth, valueOf));
    forall k | 0 <= k < |ps| ensures PurchaseMonth(ps[k]).Some? && PurchaseMonth(ps[k]).value in m.keys {
    }
    SumOfBuckets(ps, PurchaseMonth, valueOf, m.keys);
  }

  // ---------------------------------------------------------------------------
  // What the hook returns
  // ---------------------------------------------------------------------------

  /** A missing or blank product term gives the empty summary and no months. */
  lemma BlankTermSpec(produtoTerm: Option<string>)
    ensures NormalizedTerm(produtoTerm) == [] <==> produtoTerm.None? || Trim(produtoTerm.value) == []
  {
  }

  /** Every counted purchase is of a positive quantity. */
  lemma PositivePurchases(es: seq<Expense>, q: Query)
    ensures forall k | 0 <= k < |Purchases(es, q)| :: Quantity(Purchases(es, q)[k]) > 0.0
  {
    var ps := Purchases(es, q);
    PurchasesSpec(es, q);
    forall k | 0 <= k < |ps| ensures Quantity(ps[k]) > 0.0 {
      assert ps[k] in ps;
      var e, item :| e in es && Counted(e, q, item) && ps[k] == PurchaseOf(e, item);
      PurchaseOfSpec(e, item);
    }
  }

  /**
   * With a blank term the hook gives the empty summary and no months.
   * Otherwise the summary names the trimmed term; its totals are those of
   * the counted purchases and also the sums of the monthly rows; its mean
   * price is their quotient, and the quantity is positive exactly when some
   * item was counted; `numCompras` is the number of expenses with a counted
   * item.
   */
  lemma AnalyticsSpec(expenses: seq<Expense>, categories: seq<UserCategory>, produtoTerm: Option<string>,
                      dataInicio: string, dataFim: string, categoriaIds: seq<string>, timeOf: string -> JsNum)
    ensures var a := AnalyticsOf(expenses, categories, produtoTerm, dataInicio, dataFim, categoriaIds, timeOf);
      var blank := produtoTerm.None? || Trim(produtoTerm.value) == [];
      (blank ==> a == Analytics(EmptySummary, []))
      && (!blank ==>
            var q := QueryOf(NormalizedTerm(produtoTerm), categories, dataInicio, dataFim, categoriaIds, timeOf);
            var ps := Purchases(expenses, q);
            var s := a.summary;
            s.produto == Trim(produtoTerm.value) && s.produto != []
            && s.totalQtdPeriodo == SumOf(ps, Quantity) == SumOf(a.monthly, RowQtd)
            && s.totalGastoPeriodo == SumOf(ps, Spent) == SumOf(a.monthly, RowGasto)
            && (s.totalQtdPeriodo > 0.0 <==> ps != [])
            && s.precoMedioPeriodo == (if ps != [] then s.totalGastoPeriodo / s.totalQtdPeriodo else 0.0)
            && s.numCompras == |Buyers(expenses, q)|)
  {
    BlankTermSpec(produtoTerm);
    if !(produtoTerm.None? || Trim(produtoTerm.value) == []) {
      var q := QueryOf(NormalizedTerm(produtoTerm), categories, dataInicio, dataFim, categoriaIds, timeOf);
      var ps := Purchases(expenses, q);
      MonthlyTotals(ps);
      PositivePurchases(expenses, q);
      SumOfPositive(ps, Quantity);
    }
  }

  /** Some counted item of `es` is from month `mes`. */
  ghost predicate CountedMonth(es: seq<Expense>, q: Query, mes: string) {
    exists e, item :: e in es && Counted(e, q, item) && Slice(e.info.date, 7) == mes
  }

  /** Some row of `rows` is for month `mes`. */
  predicate HasRow(rows: seq<ProductMonthlyStat>, mes: string) {
    exists i | 0 <= i < |rows| :: rows[i].mes == mes
  }

  /**
   * With a term, the monthly rows are sorted by month and are the months of
   * the counted items: every counted item's month has a row and every row's
   * month is that of a counted item; a row's totals are those of its month's
   * purchases.
   */
  lemma AnalyticsMonthlySpec(expenses: seq<Expense>, categories: seq<UserCategory>, produtoTerm: Option<string>,
                             dataInicio: string, dataFim: string, categoriaIds: seq<string>, timeOf: string -> JsNum,
                             rows: seq<ProductMonthlyStat>)
    requires NormalizedTerm(produtoTerm) != []
    requires rows == AnalyticsOf(expenses, categories, produtoTerm, dataInicio, dataFim, categoriaIds, timeOf).monthly
    ensures SortedBy(rows, Mes)
    ensures var q := QueryOf(NormalizedTerm(produtoTerm), categories, dataInicio, dataFim, categoriaIds, timeOf);
      (forall e, item | e in expenses && Counted(e, q, item) :: HasRow(rows, Slice(e.info.date, 7)))
      && forall i | 0 <= i < |rows| :: CountedMonth(expenses, q, rows[i].mes)
    ensures var ps := Purchases(expenses, QueryOf(NormalizedTerm(produtoTerm), categories, dataInicio, dataFim, categoriaIds, timeOf));
      forall i | 0 <= i < |rows| ::
        rows[i].totalQtd == SumOf(OfMonth(ps, rows[i].mes), Quantity)
        && rows[i].totalGasto == SumOf(OfMonth(ps, rows[i].mes), Spent)
  {
    var q := QueryOf(NormalizedTerm(produtoTerm), categories, dataInicio, dataFim, categoriaIds, timeOf);
    var ps := Purchases(expenses, q);
    assert rows == MonthlyStats(MonthMapOf(ps));
    SortedRows(MonthMapOf(ps));
    RowsOfPurchases(ps);
    CountedHaveRows(expenses, q, rows);
    RowsAreCounted(expenses, q, rows);
  }

  /** The month of every counted item has a row. */
  lemma CountedHaveRows(es: seq<Expense>, q: Query, rows: seq<ProductMonthlyStat>)
    requires rows == MonthlyStats(MonthMapOf(Purchases(es, q)))
    ensures forall e, item | e in es && Counted(e, q, item) :: HasRow(rows, Slice(e.info.date, 7))
  {
    var ps := Purchases(es, q);
    PurchasesSpec(es, q);
    forall e, item | e in es && Counted(e, q, item)
      ensures HasRow(rows, Slice(e.info.date, 7))
    {
      assert PurchaseOf(e, item) in ps;
      var k :| 0 <= k < |ps| && ps[k] == PurchaseOf(e, item);
      var i := PurchaseRow(ps, k);
    }
  }

  /** Every row is the month of a counted item. */
  lemma RowsAreCounted(es: seq<Expense>, q: Query, rows: seq<ProductMonthlyStat>)
    requires rows == MonthlyStats(MonthMapOf(Purchases(es, q)))
    ensures forall i | 0 <= i < |rows| :: CountedMonth(es, q, rows[i].mes)
  {
    var ps := Purchases(es, q);
    PurchasesSpec(es, q);
    forall i | 0 <= i < |rows|
      ensures CountedMonth(es, q, rows[i].mes)
    {
      RowFacts(ps, i);
      var k :| 0 <= k < |ps| && ps[k].month == rows[i].mes;
      assert ps[k] in ps;
    }
  }

  // ---------------------------------------------------------------------------
  // The loops
  // ---------------------------------------------------------------------------

  /** `useProductAnalytics({ produtoTerm, dataInicio, dataFim, categoriaIds })` over the stored expenses and categories. */
  method UseProductAnalytics(expenses: seq<Expense>, categories: seq<UserCategory>, produtoTerm: Option<string>,
                             dataInicio: string, dataFim: string, categoriaIds: seq<string>,
                             timeOf: string -> JsNum)
    returns (result: Analytics)
    ensures result == AnalyticsOf(expenses, categories, produtoTerm, dataInicio, dataFim, categoriaIds, timeOf)
  {
    var term := NormalizedTerm(produtoTerm);
    if term == [] {
      return Analytics(EmptySummary, []);
    }
    var byName := CategoryIdByName(categories);
    var q := Query(term, timeOf(dataInicio), timeOf(dataFim), categoriaIds, byName, timeOf);
    var tally := Tally(0.0, 0.0, NoMonths, {});
    var i := 0;
    while i < |expenses|
      invariant 0 <= i <= |expenses|
      invariant tally == TallyOf(Purchases(expenses[..i], q), Buyers(expenses[..i], q))
    {
      assert expenses[..i + 1][..i] == expenses[..i];
      tally := VisitExpense(expenses[i], q, tally, Purchases(expenses[..i], q), Buyers(expenses[..i], q));
      i := i + 1;
    }
    assert expenses[..i] == expenses;
    result := Analytics(SummaryOf(produtoTerm, tally), MonthlyStats(tally.monthMap));
  }

  /** One pass of the outer `forEach`: the early returns, then the inner `forEach` over the items. */
  method VisitExpense(e: Expense, q: Query, tally: Tally, ghost ps: seq<Purchase>, ghost compras: set<string>)
    returns (next: Tally)
    requires tally == TallyOf(ps, compras)
    ensures next == TallyOf(ps + ExpensePurchases(e, q),
                            compras + (if ExpensePurchases(e, q) != [] then {e.id} else {}))
  {
    var ts := q.timeOf(e.info.date);
    if e.info.date == []
       || (q.startTs.Finite? && ts.Finite? && ts.value < q.startTs.value)
       || (q.endTs.Finite? && ts.Finite? && ts.value > q.endTs.value)
       || !IsExpenseInCategories(q.categoriaIds, q.byName, e.info.categoryId, e.info.category)
       || e.info.receiptItems.None? || |e.info.receiptItems.value| == 0
    {
      assert ps + [] == ps && compras + {} == compras;
      return tally;
    }
    var hasProductInExpense;
    next, hasProductInExpense := VisitItems(e, e.info.receiptItems.value, q.term, tally, ps, compras);
    if hasProductInExpense {
      next := next.(compras := next.compras + {e.id});
    }
  }

  /** The inner `forEach` over the items of an admitted expense. */
  method VisitItems(e: Expense, items: seq<ReceiptItem>, term: string, tally: Tally,
                    ghost ps: seq<Purchase>, ghost compras: set<string>)
    returns (next: Tally, hasProductInExpense: bool)
    requires tally == TallyOf(ps, compras)
    ensures next == TallyOf(ps + ItemPurchases(e, items, term), compras)
    ensures hasProductInExpense <==> ItemPurchases(e, items, term) != []
  {
    var monthKey := Slice(e.info.date, 7);
    hasProductInExpense := false;
    next := tally;
    assert ps + ItemPurchases(e, items[..0], term) == ps;
    for j := 0 to |items|
      invariant next == TallyOf(ps + ItemPurchases(e, items[..j], term), compras)
      invariant hasProductInExpense <==> ItemPurchases(e, items[..j], term) != []
    {
      next, hasProductInExpense := VisitItem(e, items, j, term, monthKey, next, hasProductInExpense, ps, compras);
    }
    assert items[..|items|] == items;
  }

  /**
   * The callback of the inner `forEach` on item `j`: a matching item adds
   * to the totals and to its month, and marks the expense as a purchase.
   */
  method VisitItem(e: Expense, items: seq<ReceiptItem>, j: nat, term: string, monthKey: string,
                   tally: Tally, hasProductInExpense: bool, ghost ps: seq<Purchase>, ghost compras: set<string>)
    returns (next: Tally, hasProduct: bool)
    requires j < |items| && monthKey == Slice(e.info.date, 7)
    requires tally == TallyOf(ps + ItemPurchases(e, items[..j], term), compras)
    requires hasProductInExpense <==> ItemPurchases(e, items[..j], term) != []
    ensures next == TallyOf(ps + ItemPurchases(e, items[..j + 1], term), compras)
    ensures hasProduct <==> ItemPurchases(e, items[..j + 1], term) != []
  {
    CountItem(e, items, j, term, ps, compras);
    var item := items[j];
    var desc := ToLower(item.description);
    if term != [] && !Contains(desc, term) {
      return tally, hasProductInExpense;
    }
    var quantity := PositiveQuantity(item.quantity);
    var total := item.total;
    next := Tally(tally.totalQtdPeriodo + quantity, tally.totalGastoPeriodo + total,
                  AddPurchase(tally.monthMap, Purchase(e.id, monthKey, quantity, total)), tally.compras);
    hasProduct := true;
  }

  /** What item `j` does to the accumulators: a matching item is counted once, any other changes nothing. */
  lemma CountItem(e: Expense, items: seq<ReceiptItem>, j: nat, term: string, ps: seq<Purchase>, compras: set<string>)
    requires j < |items|
    ensures var before := ItemPurchases(e, items[..j], term);
      var t := TallyOf(ps + before, compras);
      var p := PurchaseOf(e, items[j]);
      (Matches(items[j], term) ==>
        ItemPurchases(e, items[..j + 1], term) != []
        && TallyOf(ps + ItemPurchases(e, items[..j + 1], term), compras)
           == Tally(t.totalQtdPeriodo + p.quantity, t.totalGastoPeriodo + p.total, AddPurchase(t.monthMap, p), compras))
      && (!Matches(items[j], term) ==> ItemPurchases(e, items[..j + 1], term) == before)
  {
    ItemPurchasesStep(e, items, j, term);
    var before := ItemPurchases(e, items[..j], term);
    if Matches(items[j], term) {
      var p := PurchaseOf(e, items[j]);
      TallyStep(ps + before, p, compras);
      assert (ps + before) + [p] == ps + (before + [p]);
    }
  }
}

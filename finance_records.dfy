/**
 * What the finance store computes from its record lists, as functions of
 * those lists: partial updates, the receipt upsert, the expenses drawn
 * from a receipt, the bank-balance upsert and deletes, and the price
 * research queries.
 */
module FinanceRecords {
  import opened Wrappers
  import opened JsText
  import opened Money
  import opened Lists
  import opened Sorting
  import opened Grouping
  import opened FinanceTypes

  function ExpenseId(e: Expense): string { e.id }
  function IncomeId(i: Income): string { i.id }
  function ReceiptId(r: Receipt): string { r.id }
  function BankAccountId(a: BankAccount): string { a.id }
  function PaymentMethodId(m: PaymentMethod): string { m.id }

  // ---------------------------------------------------------------------------
  // Partial updates: `{ ...record, ...data }`
  // ---------------------------------------------------------------------------

  /**
   * The fields `data` carries; `None` is a field `data` does not have, and
   * for an optional field `Some(None)` is one set to `undefined`.
   */
  datatype ExpensePatch = ExpensePatch(
    date: Option<string>,
    description: Option<string>,
    amount: Option<real>,
    category: Option<string>,
    categoryId: Option<Option<string>>,
    paymentMethodId: Option<Option<string>>,
    isFixed: Option<bool>,
    isRecurring: Option<bool>,
    dueDate: Option<Option<string>>,
    recurrenceDay: Option<Option<int>>,
    status: Option<ExpenseStatus>,
    receiptId: Option<Option<string>>,
    isReceipt: Option<Option<bool>>,
    receiptStore: Option<Option<string>>,
    receiptItems: Option<Option<seq<ReceiptItem>>>)

  function PatchInfo(i: ExpenseInfo, p: ExpensePatch): ExpenseInfo {
    ExpenseInfo(
      p.date.GetOr(i.date), p.description.GetOr(i.description), p.amount.GetOr(i.amount),
      p.category.GetOr(i.category), p.categoryId.GetOr(i.categoryId),
      p.paymentMethodId.GetOr(i.paymentMethodId), p.isFixed.GetOr(i.isFixed),
      p.isRecurring.GetOr(i.isRecurring), p.dueDate.GetOr(i.dueDate),
      p.recurrenceDay.GetOr(i.recurrenceDay), p.status.GetOr(i.status),
      p.receiptId.GetOr(i.receiptId), p.isReceipt.GetOr(i.isReceipt),
      p.receiptStore.GetOr(i.receiptStore), p.receiptItems.GetOr(i.receiptItems))
  }

  function PatchExpense(p: ExpensePatch): Expense -> Expense {
    (e: Expense) => e.(info := PatchInfo(e.info, p))
  }

  function WithStatus(status: ExpenseStatus): Expense -> Expense {
    (e: Expense) => e.(info := e.info.(status := status))
  }

  datatype IncomePatch = IncomePatch(date: Option<string>, description: Option<string>, amount: Option<real>, source: Option<string>)

  function PatchIncome(p: IncomePatch): Income -> Income {
    (i: Income) => i.(date := p.date.GetOr(i.date), description := p.description.GetOr(i.description),
             amount := p.amount.GetOr(i.amount), source := p.source.GetOr(i.source))
  }

  datatype BankAccountPatch = BankAccountPatch(name: Option<string>, institution: Option<Option<string>>, color: Option<Option<string>>)

  function PatchBankAccount(p: BankAccountPatch): BankAccount -> BankAccount {
    (a: BankAccount) => a.(name := p.name.GetOr(a.name), institution := p.institution.GetOr(a.institution), color := p.color.GetOr(a.color))
  }

  datatype PaymentMethodPatch = PaymentMethodPatch(
    name: Option<string>,
    kind: Option<PaymentMethodType>,
    color: Option<Option<string>>,
    description: Option<Option<string>>,
    active: Option<bool>)

  /** `{ ...pm, ...data, updatedAt: now }` */
  function PatchPaymentMethod(p: PaymentMethodPatch, now: string): PaymentMethod -> PaymentMethod {
    (m: PaymentMethod) => m.(name := p.name.GetOr(m.name), kind := p.kind.GetOr(m.kind), color := p.color.GetOr(m.color),
             description := p.description.GetOr(m.description), active := p.active.GetOr(m.active),
             updatedAt := Some(now))
  }

  /**
   * A patch sets the fields it carries and keeps the others, so applying
   * it twice is applying it once, and the empty patch changes nothing.
   */
  lemma PatchInfoSpec(i: ExpenseInfo, p: ExpensePatch)
    ensures PatchInfo(PatchInfo(i, p), p) == PatchInfo(i, p)
    ensures PatchInfo(i, ExpensePatch(None, None, None, None, None, None, None, None, None, None, None, None, None, None, None)) == i
    ensures p.amount.Some? ==> PatchInfo(i, p).amount == p.amount.value
    ensures p.amount.None? ==> PatchInfo(i, p).amount == i.amount
    ensures p.status.Some? ==> PatchInfo(i, p).status == p.status.value
    ensures p.status.None? ==> PatchInfo(i, p).status == i.status
  {
  }

  /**
   * `updateExpense` changes only the records of that id, keeps every id,
   * creation time, the length and the order, and is idempotent.
   */
  lemma UpdateExpenseSpec(es: seq<Expense>, id: string, p: ExpensePatch)
    ensures var r := UpdateId(es, ExpenseId, id, PatchExpense(p));
      |r| == |es|
      && (forall k | 0 <= k < |es| :: r[k].id == es[k].id && r[k].createdAt == es[k].createdAt)
      && (forall k | 0 <= k < |es| :: es[k].id != id ==> r[k] == es[k])
      && (forall k | 0 <= k < |es| :: es[k].id == id ==> r[k].info == PatchInfo(es[k].info, p))
      && UpdateId(r, ExpenseId, id, PatchExpense(p)) == r
  {
    forall e: Expense ensures PatchExpense(p)(PatchExpense(p)(e)) == PatchExpense(p)(e) {
      PatchInfoSpec(e.info, p);
    }
    UpdateIdSpec(es, ExpenseId, id, PatchExpense(p));
  }

  /** `updateExpenseStatus` sets the status of the records of that id and touches nothing else. */
  lemma UpdateStatusSpec(es: seq<Expense>, id: string, status: ExpenseStatus)
    ensures var r := UpdateId(es, ExpenseId, id, WithStatus(status));
      |r| == |es|
      && (forall k | 0 <= k < |es| :: es[k].id != id ==> r[k] == es[k])
      && (forall k | 0 <= k < |es| :: es[k].id == id ==> r[k] == es[k].(info := es[k].info.(status := status)))
  {
    UpdateIdSpec(es, ExpenseId, id, WithStatus(status));
  }

  // ---------------------------------------------------------------------------
  // Receipts
  // ---------------------------------------------------------------------------

  function ReceiptIdIs(id: string): Receipt -> bool {
    (r: Receipt) => r.id == id
  }

  function Becomes(r: Receipt): Receipt -> Receipt {
    (_: Receipt) => r
  }

  /** `addReceipt`: the receipt replaces every receipt of its id when there is one, else it is appended. */
  function UpsertReceipt(rs: seq<Receipt>, r: Receipt): seq<Receipt> {
    if Find(rs, ReceiptIdIs(r.id)).Some? then UpdateId(rs, ReceiptId, r.id, Becomes(r))
    else rs + [r]
  }

  predicate DistinctIds(rs: seq<Receipt>) {
    forall i, j | 0 <= i < j < |rs| :: rs[i].id != rs[j].id
  }

  predicate HasReceipt(rs: seq<Receipt>, id: string) {
    exists k | 0 <= k < |rs| :: rs[k].id == id
  }

  /**
   * An existing receipt is replaced in place, a new one appended; the
   * receipt is then stored, and distinct ids stay distinct.
   */
  lemma UpsertReceiptSpec(rs: seq<Receipt>, r: Receipt)
    ensures var out := UpsertReceipt(rs, r);
      r in out
      && (HasReceipt(rs, r.id) ==> |out| == |rs| && forall k | 0 <= k < |rs| :: out[k] == (if rs[k].id == r.id then r else rs[k]))
      && (!HasReceipt(rs, r.id) ==> out == rs + [r])
      && (DistinctIds(rs) ==> DistinctIds(out))
  {
    FindSpec(rs, ReceiptIdIs(r.id));
    var out := UpsertReceipt(rs, r);
    if HasReceipt(rs, r.id) {
      var k :| 0 <= k < |rs| && rs[k].id == r.id;
      assert ReceiptIdIs(r.id)(rs[k]);
      assert Any(rs, ReceiptIdIs(r.id));
      assert out == UpdateId(rs, ReceiptId, r.id, Becomes(r));
      assert out[k] == r;
    } else {
      assert !Any(rs, ReceiptIdIs(r.id));
      assert out[|rs|] == r;
    }
  }

  /** Adding the same receipt twice leaves the list as adding it once. */
  lemma UpsertReceiptIdempotent(rs: seq<Receipt>, r: Receipt)
    ensures UpsertReceipt(UpsertReceipt(rs, r), r) == UpsertReceipt(rs, r)
  {
    var once := UpsertReceipt(rs, r);
    UpsertReceiptSpec(rs, r);
    UpsertReceiptSpec(once, r);
    var k :| 0 <= k < |once| && once[k] == r;
    assert HasReceipt(once, r.id);
  }

  // ---------------------------------------------------------------------------
  // Expenses drawn from a receipt
  // ---------------------------------------------------------------------------

  /** `resolveCategoryName(categoryId, categoryNameById, fallback)` */
  function ResolveCategoryName(categoryId: Option<string>, names: Option<map<string, string>>, fallback: Option<string>): (r: string)
    ensures r != []
  {
    if categoryId.Some? && categoryId.value != [] && names.Some? && categoryId.value in names.value
       && names.value[categoryId.value] != []
    then names.value[categoryId.value]
    else if fallback.Some? && fallback.value != [] then fallback.value
    else if categoryId.Some? && categoryId.value != [] then categoryId.value
    else "Outros"
  }

  datatype ReceiptMode = Aggregate | PerItem

  /** `Number.isFinite(receipt.total) ? receipt.total : round2(sum of item totals)` */
  function ReceiptAmount(r: Receipt): real {
    if r.total.Finite? then r.total.value else Round2(SumOf(r.items, ItemTotal))
  }

  function AggregateExpense(r: Receipt, defaultCategoryId: Option<string>, defaultName: string): ExpenseInfo {
    ExpenseInfo(r.date, "Compra em " + (if r.storeName != [] then r.storeName else "loja"), ReceiptAmount(r),
                defaultName, defaultCategoryId, None, false, false, Some(r.date), None, Paga,
                Some(r.id), Some(true), Some(r.storeName), Some(r.items))
  }

  function ItemExpense(r: Receipt, item: ReceiptItem, defaultCategoryId: Option<string>,
                       names: Option<map<string, string>>, defaultName: string): ExpenseInfo
  {
    var categoryId := item.suggestedCategoryId.OrElse(defaultCategoryId);
    ExpenseInfo(r.date, item.description, item.total, ResolveCategoryName(categoryId, names, Some(defaultName)),
                categoryId, None, false, false, Some(r.date), None, Paga, Some(r.id), None, None, None)
  }

  /** The records `createExpensesFromReceipt` adds, before each gets its id and creation time. */
  function ReceiptExpenses(r: Receipt, mode: ReceiptMode, defaultCategoryId: Option<string>,
                           names: Option<map<string, string>>): (out: seq<ExpenseInfo>)
  {
    var defaultName := ResolveCategoryName(defaultCategoryId, names, Some("Outros"));
    match mode
    case Aggregate => [AggregateExpense(r, defaultCategoryId, defaultName)]
    case PerItem => seq(|r.items|, k requires 0 <= k < |r.items| => ItemExpense(r, r.items[k], defaultCategoryId, names, defaultName))
  }

  /**
   * Aggregate mode adds exactly one paid expense for the whole receipt,
   * for its total (the rounded item sum when the total is not finite);
   * per-item mode adds one paid expense per item, for the item's total,
   * filed under the item's category, else the default one. Every record
   * points back at the receipt.
   */
  lemma ReceiptExpensesSpec(r: Receipt, mode: ReceiptMode, defaultCategoryId: Option<string>, names: Option<map<string, string>>)
    ensures var out := ReceiptExpenses(r, mode, defaultCategoryId, names);
      (forall k | 0 <= k < |out| :: out[k].status == Paga && out[k].receiptId == Some(r.id) && out[k].date == r.date
                                   && out[k].paymentMethodId.None? && !out[k].isFixed && !out[k].isRecurring)
      && (mode == Aggregate ==>
            |out| == 1 && out[0].amount == ReceiptAmount(r) && out[0].isReceipt == Some(true)
            && out[0].receiptItems == Some(r.items) && out[0].categoryId == defaultCategoryId)
      && (mode == PerItem ==>
            |out| == |r.items|
            && forall k | 0 <= k < |out| ::
                 out[k].amount == r.items[k].total && out[k].description == r.items[k].description
                 && out[k].categoryId == r.items[k].suggestedCategoryId.OrElse(defaultCategoryId))
  {
  }

  /** The amount is the receipt's total when finite, otherwise the rounded item sum. */
  lemma ReceiptAmountSpec(r: Receipt)
    ensures r.total.Finite? ==> ReceiptAmount(r) == r.total.value
    ensures r.total.NotFinite? ==> ReceiptAmount(r) == Round2(SumOf(r.items, ItemTotal)) && IsCents(ReceiptAmount(r))
  {
    Round2Spec(SumOf(r.items, ItemTotal));
  }

  function InfoAmount(i: ExpenseInfo): real { i.amount }

  /** The per-item expenses add up to the item sum of the receipt. */
  lemma PerItemAmountsAddUp(r: Receipt, defaultCategoryId: Option<string>, names: Option<map<string, string>>)
    ensures SumOf(ReceiptExpenses(r, PerItem, defaultCategoryId, names), InfoAmount) == SumOf(r.items, ItemTotal)
  {
    var out := ReceiptExpenses(r, PerItem, defaultCategoryId, names);
    SumOfPointwise(out, InfoAmount, r.items, ItemTotal);
  }

  /** The category id is given and the table has a non-empty name for it. */
  predicate Named(categoryId: Option<string>, names: Option<map<string, string>>) {
    categoryId.Some? && categoryId.value != [] && categoryId.value in names.GetOr(map[])
    && names.value[categoryId.value] != []
  }

  /**
   * The names under which a receipt's expenses are filed. The default name
   * is the default category's name in the table, else "Outros"; an item's
   * expense takes the table's name for its category, else the default name.
   * Since the fallback passed is never empty, a bare category id is never
   * used as a name.
   */
  lemma ResolveOrder(r: Receipt, mode: ReceiptMode, defaultCategoryId: Option<string>, names: Option<map<string, string>>)
    ensures var out := ReceiptExpenses(r, mode, defaultCategoryId, names);
      var defaultName := if Named(defaultCategoryId, names) then names.value[defaultCategoryId.value] else "Outros";
      (mode == Aggregate ==> out[0].category == defaultName)
      && (mode == PerItem ==>
            forall k | 0 <= k < |out| ::
              var id := r.items[k].suggestedCategoryId.OrElse(defaultCategoryId);
              (Named(id, names) ==> out[k].category == names.value[id.value])
              && (!Named(id, names) ==> out[k].category == defaultName))
  {
  }

  /** A category without a name falls back to the default one's name, and that one to "Outros". */
  lemma ItemCategoryFallback(r: Receipt, k: nat, defaultCategoryId: Option<string>, names: Option<map<string, string>>)
    requires k < |r.items|
    requires r.items[k].suggestedCategoryId.None? && (defaultCategoryId.None? || names.None?)
    ensures ReceiptExpenses(r, PerItem, defaultCategoryId, names)[k].category == "Outros"
  {
  }

  // ---------------------------------------------------------------------------
  // Bank balances
  // ---------------------------------------------------------------------------

  function BankIdOf(b: BankBalance): string { b.bankId }

  function KeyIs(bankId: string, year: int, month: int): BankBalance -> bool {
    (b: BankBalance) => b.bankId == bankId && b.year == year && b.month == month
  }

  predicate SameKey(a: BankBalance, b: BankBalance) {
    a.bankId == b.bankId && a.year == b.year && a.month == b.month
  }

  /** No two balances are of the same bank in the same month. */
  predicate KeysUnique(bs: seq<BankBalance>) {
    forall i, j | 0 <= i < j < |bs| :: !SameKey(bs[i], bs[j])
  }

  /** `upsertBankBalance(data)` */
  function UpsertBalance(bs: seq<BankBalance>, bankId: string, year: int, month: int, balance: real,
                         freshId: string, now: string): seq<BankBalance>
  {
    match FirstIndex(bs, KeyIs(bankId, year, month))
    case Some(i) => bs[i := bs[i].(balance := balance, updatedAt := now)]
    case None => bs + [BankBalance(freshId, bankId, year, month, balance, now, now)]
  }

  /**
   * With an entry for that bank and month, only its balance and update
   * time change; without one, one entry is appended, created and updated
   * now. Unique keys stay unique, and the entry for the key then holds
   * the new balance.
   */
  lemma UpsertBalanceSpec(bs: seq<BankBalance>, bankId: string, year: int, month: int, balance: real,
                          freshId: string, now: string)
    ensures var out := UpsertBalance(bs, bankId, year, month, balance, freshId, now);
      var found := exists k | 0 <= k < |bs| :: bs[k].bankId == bankId && bs[k].year == year && bs[k].month == month;
      (found ==>
         |out| == |bs|
         && exists i | 0 <= i < |bs| :: KeyIs(bankId, year, month)(bs[i])
              && out[i] == bs[i].(balance := balance, updatedAt := now)
              && forall k | 0 <= k < |bs| && k != i :: out[k] == bs[k])
      && (!found ==> out == bs + [BankBalance(freshId, bankId, year, month, balance, now, now)])
      && (KeysUnique(bs) ==>
            KeysUnique(out)
            && forall k | 0 <= k < |out| :: KeyIs(bankId, year, month)(out[k]) ==> out[k].balance == balance)
      && (exists k | 0 <= k < |out| :: KeyIs(bankId, year, month)(out[k]) && out[k].balance == balance)
  {
    var p := KeyIs(bankId, year, month);
    FirstIndexSpec(bs, p);
    var out := UpsertBalance(bs, bankId, year, month, balance, freshId, now);
    assert forall k | 0 <= k < |bs| :: p(bs[k]) == (bs[k].bankId == bankId && bs[k].year == year && bs[k].month == month);
    match FirstIndex(bs, p)
    case Some(i) =>
      assert out[i].balance == balance && p(out[i]);
    case None =>
      assert out[|bs|].balance == balance && p(out[|bs|]);
  }

  /** `bankBalances.some(b => b.bankId === id)` */
  predicate BankHasBalances(bs: seq<BankBalance>, id: string) {
    exists k | 0 <= k < |bs| :: bs[k].bankId == id
  }

  function InYear(year: int, bankIds: Option<seq<string>>): BankBalance -> bool {
    (b: BankBalance) => b.year == year && (bankIds.None? || bankIds.value == [] || b.bankId in bankIds.value)
  }

  /** `getBankBalancesByYear(year, bankIds)`: the year's balances, of the given banks unless none is given. */
  function BalancesByYear(bs: seq<BankBalance>, year: int, bankIds: Option<seq<string>>): (r: seq<BankBalance>)
    ensures forall b :: b in r <==> b in bs && b.year == year && (bankIds.None? || bankIds.value == [] || b.bankId in bankIds.value)
  {
    KeepMembers(bs, InYear(year, bankIds));
    Keep(bs, InYear(year, bankIds))
  }

  /** The filter of `deleteMonthBalances`: what it keeps. */
  function MonthBalanceKept(year: int, month: int, bankId: Option<string>): BankBalance -> bool {
    (b: BankBalance) => if b.year != year || b.month != month then true
         else if bankId.Some? && bankId.value != [] then b.bankId != bankId.value
         else false
  }

  /**
   * Only balances of that year and month go, and of those only the given
   * bank's one when a bank is given; everything else is kept in order.
   */
  lemma DeleteMonthSpec(bs: seq<BankBalance>, year: int, month: int, bankId: Option<string>)
    ensures var r := Keep(bs, MonthBalanceKept(year, month, bankId));
      forall b :: b in r <==> b in bs && (b.year != year || b.month != month
                                          || (bankId.Some? && bankId.value != [] && b.bankId != bankId.value))
  {
    KeepMembers(bs, MonthBalanceKept(year, month, bankId));
  }

  function BalanceYears(bs: seq<BankBalance>): seq<int> {
    seq(|bs|, k requires 0 <= k < |bs| => bs[k].year)
  }

  /** `getAvailableBalanceYears()`: every year of some balance, once, in ascending order. */
  function AvailableYears(bs: seq<BankBalance>): (r: seq<int>)
    ensures StrictlyIncreasing(r)
    ensures forall y :: y in r <==> exists k | 0 <= k < |bs| :: bs[k].year == y
  {
    SortedDistinctSpec(BalanceYears(bs));
    assert forall y :: y in BalanceYears(bs) <==> exists k | 0 <= k < |bs| :: bs[k].year == y by {
      forall y | exists k | 0 <= k < |bs| :: bs[k].year == y ensures y in BalanceYears(bs) {
        var k :| 0 <= k < |bs| && bs[k].year == y;
        assert BalanceYears(bs)[k] == y;
      }
    }
    SortedDistinct(BalanceYears(bs))
  }

  // ---------------------------------------------------------------------------
  // Payment methods
  // ---------------------------------------------------------------------------

  /** `expenses.some(e => e.paymentMethodId === id)` */
  predicate MethodInUse(es: seq<Expense>, id: string) {
    exists k | 0 <= k < |es| :: es[k].info.paymentMethodId == Some(id)
  }

  function IsActive(m: PaymentMethod): bool { m.active }

  function MethodIdIs(id: string): PaymentMethod -> bool {
    (m: PaymentMethod) => m.id == id
  }

  /** `getPaymentMethodById(id)`: nothing for a missing or empty id, else the first method with it. */
  function MethodById(ms: seq<PaymentMethod>, id: Option<string>): (r: Option<PaymentMethod>)
    ensures (id.None? || id.value == []) ==> r.None?
    ensures id.Some? && id.value != [] ==>
      (r.None? <==> forall k | 0 <= k < |ms| :: ms[k].id != id.value)
      && (r.Some? ==> r.value in ms && r.value.id == id.value)
  {
    if id.None? || id.value == [] then None
    else
      FindSpec(ms, MethodIdIs(id.value));
      Find(ms, MethodIdIs(id.value))
  }

  /** The expense's group in `getMonthlyExpensesByPaymentMethod`: its method, or "unknown". */
  function MethodKey(e: Expense): Option<string> {
    Some(if e.info.paymentMethodId.Some? && e.info.paymentMethodId.value != [] then e.info.paymentMethodId.value else "unknown")
  }

  function Amount(e: Expense): real { e.info.amount }

  /** `d.getMonth() + 1 === month && d.getFullYear() === year`, `monthYearOf` reading a date as (month 1-12, year). */
  function InMonth(month: int, year: int, monthYearOf: string -> Option<(int, int)>): Expense -> bool {
    (e: Expense) => monthYearOf(e.info.date) == Some((month, year))
  }

  /** One row of `getMonthlyExpensesByPaymentMethod`. */
  datatype MethodTotal = MethodTotal(paymentMethodId: string, total: real, count: nat)

  /** `Object.entries(grouped).map(...)`, the buckets in the order their keys first appeared. */
  function MethodTotals(b: Buckets): (r: seq<MethodTotal>)
    ensures |r| == |b.keys|
  {
    seq(|b.keys|, k requires 0 <= k < |b.keys| => MethodTotal(b.keys[k], TotalOf(b, b.keys[k]), CountOf(b, b.keys[k])))
  }

  /** `getMonthlyExpensesByPaymentMethod(month, year)` on the expenses `es`. */
  function ExpensesByMethod(es: seq<Expense>, month: int, year: int, monthYearOf: string -> Option<(int, int)>): seq<MethodTotal> {
    MethodTotals(GroupBy(Keep(es, InMonth(month, year, monthYearOf)), MethodKey, Amount))
  }

  /**
   * One row per payment method used that month ("unknown" standing for
   * none), each listed once; a row's total is the sum of the amounts of
   * that month's expenses paid that way, and its count how many they are.
   */
  lemma ExpensesByMethodSpec(es: seq<Expense>, month: int, year: int, monthYearOf: string -> Option<(int, int)>)
    ensures forall e :: e in Keep(es, InMonth(month, year, monthYearOf)) <==> e in es && monthYearOf(e.info.date) == Some((month, year))
    ensures var r := ExpensesByMethod(es, month, year, monthYearOf);
      var monthly := Keep(es, InMonth(month, year, monthYearOf));
      (forall i, j | 0 <= i < j < |r| :: r[i].paymentMethodId != r[j].paymentMethodId)
      && (forall id :: (exists i | 0 <= i < |r| :: r[i].paymentMethodId == id)
                       <==> exists k | 0 <= k < |monthly| :: MethodKey(monthly[k]) == Some(id))
    ensures var r := ExpensesByMethod(es, month, year, monthYearOf);
      var monthly := Keep(es, InMonth(month, year, monthYearOf));
      forall i | 0 <= i < |r| ::
        r[i].total == SumOf(Keep(monthly, InBucket(MethodKey, r[i].paymentMethodId)), Amount)
        && r[i].count == |Keep(monthly, InBucket(MethodKey, r[i].paymentMethodId))| && r[i].count >= 1
  {
    var monthly := Keep(es, InMonth(month, year, monthYearOf));
    KeepMembers(es, InMonth(month, year, monthYearOf));
    MethodRowsListed(monthly);
    MethodRowsTotals(monthly);
  }

  /** The rows list each key of `xs` once. */
  lemma MethodRowsListed(xs: seq<Expense>)
    ensures var r := MethodTotals(GroupBy(xs, MethodKey, Amount));
      (forall i, j | 0 <= i < j < |r| :: r[i].paymentMethodId != r[j].paymentMethodId)
      && (forall id :: (exists i | 0 <= i < |r| :: r[i].paymentMethodId == id)
                       <==> exists k | 0 <= k < |xs| :: MethodKey(xs[k]) == Some(id))
  {
    var keys := GroupBy(xs, MethodKey, Amount).keys;
    GroupKeys(xs, MethodKey, Amount);
    var r := MethodTotals(GroupBy(xs, MethodKey, Amount));
    var keyOf := MethodKey;
    forall id ensures (exists i | 0 <= i < |r| :: r[i].paymentMethodId == id)
                      <==> exists k | 0 <= k < |xs| :: MethodKey(xs[k]) == Some(id) {
      if id in keys {
        var i :| 0 <= i < |keys| && keys[i] == id;
        assert r[i].paymentMethodId == id;
      }
      if exists k | 0 <= k < |xs| :: MethodKey(xs[k]) == Some(id) {
        var k :| 0 <= k < |xs| && MethodKey(xs[k]) == Some(id);
        assert keyOf(xs[k]) == Some(id);
      }
    }
  }

  /** Each row carries its key's total and count over `xs`. */
  lemma MethodRowsTotals(xs: seq<Expense>)
    ensures var r := MethodTotals(GroupBy(xs, MethodKey, Amount));
      forall i | 0 <= i < |r| ::
        r[i].total == SumOf(Keep(xs, InBucket(MethodKey, r[i].paymentMethodId)), Amount)
        && r[i].count == |Keep(xs, InBucket(MethodKey, r[i].paymentMethodId))| && r[i].count >= 1
  {
    GroupTotals(xs, MethodKey, Amount);
  }

  // ---------------------------------------------------------------------------
  // Price research
  // ---------------------------------------------------------------------------

  /** The caller's own description of a variant outside the tracked table. */
  datatype CustomMeta = CustomMeta(familyKey: string, familyLabel: string, variantLabel: string, unit: string)

  /**
   * The sample `addPriceSample` stores: the tracked table's description
   * of the key wins over the caller's, and without either nothing is
   * stored.
   */
  function PriceSampleFor(variantKey: string, value: real, date: string, source: Option<string>,
                          customMeta: Option<CustomMeta>, id: string, now: string): Option<TrackedPriceSample>
  {
    match MetaByText(variantKey)
    case Some(m) =>
      Some(TrackedPriceSample(id, FamilyText(m.familyKey), variantKey, m.familyLabel, m.variantLabel,
                              UnitText(m.unit), m.referenceQuantity, value, date, source, now))
    case None =>
      match customMeta
      case Some(c) =>
        Some(TrackedPriceSample(id, c.familyKey, variantKey, c.familyLabel, c.variantLabel, c.unit, None,
                                value, date, source, now))
      case None => None
  }

  /** A tracked key is described by the table whatever the caller passes. */
  lemma TrackedSampleSpec(k: TrackedVariantKey, value: real, date: string, source: Option<string>,
                          customMeta: Option<CustomMeta>, id: string, now: string)
    ensures var s := PriceSampleFor(KeyText(k), value, date, source, customMeta, id, now);
      s.Some? && s.value.variantKey == KeyText(k) && s.value.familyKey == FamilyText(TrackedMeta(k).familyKey)
      && s.value.variantLabel == TrackedMeta(k).variantLabel && s.value.unit == UnitText(TrackedMeta(k).unit)
      && s.value.referenceQuantity == TrackedMeta(k).referenceQuantity
      && s.value.value == value && s.value.date == date
  {
    MetaByKeyText(k);
  }

  /** An unknown key needs the caller's description, and its sample has no reference quantity. */
  lemma CustomSampleSpec(variantKey: string, value: real, date: string, source: Option<string>,
                         customMeta: Option<CustomMeta>, id: string, now: string)
    requires MetaByText(variantKey).None?
    ensures var s := PriceSampleFor(variantKey, value, date, source, customMeta, id, now);
      (customMeta.None? <==> s.None?)
      && (s.Some? ==> s.value.familyLabel == customMeta.value.familyLabel && s.value.referenceQuantity.None?
                      && s.value.variantKey == variantKey)
  {
  }

  function SampleDate(s: TrackedPriceSample): string { s.date }

  function OfVariant(variantKey: string): TrackedPriceSample -> bool {
    (s: TrackedPriceSample) => s.variantKey == variantKey
  }

  /** `getVariantPriceHistory(variantKey)` */
  function PriceHistory(samples: seq<TrackedPriceSample>, variantKey: string): seq<TrackedPriceSample> {
    SortBy(Keep(samples, OfVariant(variantKey)), SampleDate)
  }

  /** The history holds exactly the variant's samples, each as often as stored, by ascending date. */
  lemma PriceHistorySpec(samples: seq<TrackedPriceSample>, variantKey: string)
    ensures var h := PriceHistory(samples, variantKey);
      SortedBy(h, SampleDate)
      && multiset(h) == multiset(Keep(samples, OfVariant(variantKey)))
      && forall s :: s in h <==> s in samples && s.variantKey == variantKey
  {
    var kept := Keep(samples, OfVariant(variantKey));
    KeepMembers(samples, OfVariant(variantKey));
    SortBySpec(kept, SampleDate);
    var h := PriceHistory(samples, variantKey);
    forall s ensures s in h <==> s in kept {
      assert s in h <==> s in multiset(h);
    }
  }

  /** `getVariantCurrentAndPrevious` on a history. */
  function CurrentAndPrevious(h: seq<TrackedPriceSample>): TrackedPriceSummary {
    if |h| == 0 then TrackedPriceSummary(None, None, None, None, None)
    else
      var last := h[|h| - 1];
      if |h| == 1 then TrackedPriceSummary(Some(last.value), Some(last.date), None, None, None)
      else
        var previous := h[|h| - 2];
        var variationAbs := last.value - previous.value;
        TrackedPriceSummary(Some(last.value), Some(last.date), Some(previous.value), Some(variationAbs),
                            if previous.value != 0.0 then Some(variationAbs / previous.value * 100.0) else None)
  }

  /**
   * Nothing for an empty history; only the last price and date for one
   * sample; otherwise the last two prices, their difference and, unless
   * the previous price is 0, the difference as a percentage of it.
   */
  lemma CurrentAndPreviousSpec(h: seq<TrackedPriceSample>)
    ensures var r := CurrentAndPrevious(h);
      (|h| == 0 ==> r.lastPrice.None? && r.lastDate.None? && r.previousPrice.None? && r.variationAbs.None? && r.variationPercent.None?)
      && (|h| >= 1 ==> r.lastPrice == Some(h[|h| - 1].value) && r.lastDate == Some(h[|h| - 1].date))
      && (|h| == 1 ==> r.previousPrice.None? && r.variationAbs.None? && r.variationPercent.None?)
      && (|h| >= 2 ==>
            r.previousPrice == Some(h[|h| - 2].value)
            && r.variationAbs.Some? && r.lastPrice.value == r.previousPrice.value + r.variationAbs.value
            && (r.variationPercent.None? <==> h[|h| - 2].value == 0.0)
            && (r.variationPercent.Some? ==> r.variationPercent.value * h[|h| - 2].value == r.variationAbs.value * 100.0))
  {
  }

  /** The month a sample counts towards in `getVariantMonthlyAverages`: none without a date. */
  function SampleMonth(s: TrackedPriceSample): Option<string> {
    if s.date == [] then None else Some(Slice(s.date, 7))
  }

  function SampleValue(s: TrackedPriceSample): real { s.value }

  /** One row of `getVariantMonthlyAverages`. */
  datatype MonthAverage = MonthAverage(monthLabel: string, avgPrice: real)

  /** The months that have samples, `YYYY-MM` ascending. */
  function MonthKeys(history: seq<TrackedPriceSample>): seq<string> {
    SortBy(GroupBy(history, SampleMonth, SampleValue).keys, Itself)
  }

  function Averages(b: Buckets, keys: seq<string>, labelOf: string -> string): (r: seq<MonthAverage>)
    ensures |r| == |keys|
  {
    seq(|keys|, k requires 0 <= k < |keys| =>
      MonthAverage(labelOf(keys[k]), if CountOf(b, keys[k]) == 0 then 0.0 else TotalOf(b, keys[k]) / (CountOf(b, keys[k]) as real)))
  }

  /** `getVariantMonthlyAverages` on a history; `labelOf` is how a `YYYY-MM` key is printed. */
  function MonthlyAverages(history: seq<TrackedPriceSample>, labelOf: string -> string): seq<MonthAverage> {
    Averages(GroupBy(history, SampleMonth, SampleValue), MonthKeys(history), labelOf)
  }

  /**
   * One row per month with a dated sample, months ascending; a row's
   * price is the mean of that month's sample values.
   */
  lemma MonthlyAveragesSpec(history: seq<TrackedPriceSample>, labelOf: string -> string)
    ensures var keys := MonthKeys(history);
      var r := MonthlyAverages(history, labelOf);
      |r| == |keys| && SortedBy(keys, Itself)
      && (forall m :: m in keys <==> exists k | 0 <= k < |history| :: SampleMonth(history[k]) == Some(m))
      && forall i | 0 <= i < |keys| ::
           var month := Keep(history, InBucket(SampleMonth, keys[i]));
           |month| >= 1 && r[i].monthLabel == labelOf(keys[i])
           && r[i].avgPrice == SumOf(month, SampleValue) / (|month| as real)
  {
    var b := GroupBy(history, SampleMonth, SampleValue);
    GroupBySpec(history, SampleMonth, SampleValue);
    var keys := MonthKeys(history);
    SortBySpec(b.keys, Itself);
    forall m ensures m in keys <==> m in b.keys {
      assert m in keys <==> m in multiset(keys);
      assert m in b.keys <==> m in multiset(b.keys);
    }
  }
}

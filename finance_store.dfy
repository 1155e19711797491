/**
 * The finance store: the lists of expenses, incomes, receipts, bank
 * accounts, bank balances, payment methods and price samples, and the
 * operations that replace them. Every mutator says what its list becomes
 * and that the other lists stay as they were.
 *
 * Fresh ids and the current time are parameters; loading and saving the
 * lists is not part of this model.
 */
module FinanceStore {
  import opened Wrappers
  import opened JsText
  import opened Lists
  import opened Sorting
  import opened Grouping
  import opened FinanceTypes
  import opened FinanceRecords

  datatype StoreState = StoreState(
    expenses: seq<Expense>,
    incomes: seq<Income>,
    receipts: seq<Receipt>,
    bankAccounts: seq<BankAccount>,
    bankBalances: seq<BankBalance>,
    paymentMethods: seq<PaymentMethod>,
    priceSamples: seq<TrackedPriceSample>)

  /** `{ success, reason? }` of the refusing deletes. */
  datatype DeleteResult = DeleteResult(success: bool, reason: Option<string>)

  const BankInUseReason := "Existem saldos vinculados a este banco."
  const MethodInUseReason := "Esta forma de pagamento est\U{00E1} em uso em sa\U{00ED}das cadastradas. Arquive-a em vez de excluir."

  /** The expenses `createExpensesFromReceipt` adds, the `k`-th drawing id `ids(k)` at time `times(k)`. */
  function Stamped(infos: seq<ExpenseInfo>, ids: nat -> string, times: nat -> string): (r: seq<Expense>)
    ensures |r| == |infos|
  {
    seq(|infos|, k requires 0 <= k < |infos| => Expense(ids(k), times(k), infos[k]))
  }

  class Store {
    var expenses: seq<Expense>
    var incomes: seq<Income>
    var receipts: seq<Receipt>
    var bankAccounts: seq<BankAccount>
    var bankBalances: seq<BankBalance>
    var paymentMethods: seq<PaymentMethod>
    var priceSamples: seq<TrackedPriceSample>

    function State(): StoreState
      reads this
    {
      StoreState(expenses, incomes, receipts, bankAccounts, bankBalances, paymentMethods, priceSamples)
    }

    /** The store over the lists it was loaded with. */
    constructor (loaded: StoreState)
      ensures State() == loaded
    {
      expenses := loaded.expenses;
      incomes := loaded.incomes;
      receipts := loaded.receipts;
      bankAccounts := loaded.bankAccounts;
      bankBalances := loaded.bankBalances;
      paymentMethods := loaded.paymentMethods;
      priceSamples := loaded.priceSamples;
    }

    // -------------------------------------------------------------------------
    // Expenses
    // -------------------------------------------------------------------------

    /** `addExpense(data)`: exactly one record more, at the end. */
    method AddExpense(data: ExpenseInfo, id: string, now: string)
      modifies this
      ensures expenses == old(expenses) + [Expense(id, now, data)]
      ensures State() == old(State()).(expenses := expenses)
    {
      expenses := expenses + [Expense(id, now, data)];
    }

    /** `deleteExpense(id)` */
    method DeleteExpense(id: string)
      modifies this
      ensures expenses == WithoutId(old(expenses), ExpenseId, id)
      ensures State() == old(State()).(expenses := expenses)
    {
      expenses := WithoutId(expenses, ExpenseId, id);
    }

    /** `updateExpense(id, data)` */
    method UpdateExpense(id: string, data: ExpensePatch)
      modifies this
      ensures expenses == UpdateId(old(expenses), ExpenseId, id, PatchExpense(data))
      ensures State() == old(State()).(expenses := expenses)
    {
      expenses := UpdateId(expenses, ExpenseId, id, PatchExpense(data));
    }

    /** `updateExpenseStatus(id, status)` */
    method UpdateExpenseStatus(id: string, status: ExpenseStatus)
      modifies this
      ensures expenses == UpdateId(old(expenses), ExpenseId, id, WithStatus(status))
      ensures State() == old(State()).(expenses := expenses)
    {
      expenses := UpdateId(expenses, ExpenseId, id, WithStatus(status));
    }

    // -------------------------------------------------------------------------
    // Receipts
    // -------------------------------------------------------------------------

    /** `addReceipt(receipt)` */
    method AddReceipt(receipt: Receipt)
      modifies this
      ensures receipts == UpsertReceipt(old(receipts), receipt)
      ensures State() == old(State()).(receipts := receipts)
    {
      receipts := UpsertReceipt(receipts, receipt);
    }

    /**
     * `createExpensesFromReceipt`: the receipt is stored, then its
     * expenses are added one by one.
     */
    method CreateExpensesFromReceipt(receipt: Receipt, mode: ReceiptMode, defaultCategoryId: Option<string>,
                                     names: Option<map<string, string>>, ids: nat -> string, times: nat -> string)
      modifies this
      ensures receipts == UpsertReceipt(old(receipts), receipt)
      ensures expenses == old(expenses) + Stamped(ReceiptExpenses(receipt, mode, defaultCategoryId, names), ids, times)
      ensures State() == old(State()).(expenses := expenses, receipts := receipts)
    {
      AddReceipt(receipt);
      var defaultName := ResolveCategoryName(defaultCategoryId, names, Some("Outros"));
      ghost var added := Stamped(ReceiptExpenses(receipt, mode, defaultCategoryId, names), ids, times);
      if mode == Aggregate {
        AddExpense(AggregateExpense(receipt, defaultCategoryId, defaultName), ids(0), times(0));
        return;
      }
      ghost var start := expenses;
      var i := 0;
      while i < |receipt.items|
        invariant 0 <= i <= |receipt.items| == |added|
        invariant expenses == start + added[..i]
        invariant receipts == UpsertReceipt(old(receipts), receipt)
        invariant State() == old(State()).(expenses := expenses, receipts := receipts)
      {
        AddExpense(ItemExpense(receipt, receipt.items[i], defaultCategoryId, names, defaultName), ids(i), times(i));
        assert added[..i + 1] == added[..i] + [added[i]];
        i := i + 1;
      }
      assert added[..i] == added;
    }

    // -------------------------------------------------------------------------
    // Incomes
    // -------------------------------------------------------------------------

    /** `addIncome(data)`; `data` is everything but the id and creation time. */
    method AddIncome(date: string, description: string, amount: real, source: string, id: string, now: string)
      modifies this
      ensures incomes == old(incomes) + [Income(id, date, description, amount, source, now)]
      ensures State() == old(State()).(incomes := incomes)
    {
      incomes := incomes + [Income(id, date, description, amount, source, now)];
    }

    /** `deleteIncome(id)` */
    method DeleteIncome(id: string)
      modifies this
      ensures incomes == WithoutId(old(incomes), IncomeId, id)
      ensures State() == old(State()).(incomes := incomes)
    {
      incomes := WithoutId(incomes, IncomeId, id);
    }

    /** `updateIncome(id, data)` */
    method UpdateIncome(id: string, data: IncomePatch)
      modifies this
      ensures incomes == UpdateId(old(incomes), IncomeId, id, PatchIncome(data))
      ensures State() == old(State()).(incomes := incomes)
    {
      incomes := UpdateId(incomes, IncomeId, id, PatchIncome(data));
    }

    // -------------------------------------------------------------------------
    // Bank accounts and balances
    // -------------------------------------------------------------------------

    /** `addBankAccount(data)`: the account is appended and returned. */
    method AddBankAccount(name: string, institution: Option<string>, color: Option<string>, id: string, now: string)
      returns (account: BankAccount)
      modifies this
      ensures account == BankAccount(id, name, institution, color, now)
      ensures bankAccounts == old(bankAccounts) + [account]
      ensures State() == old(State()).(bankAccounts := bankAccounts)
    {
      account := BankAccount(id, name, institution, color, now);
      bankAccounts := bankAccounts + [account];
    }

    /** `updateBankAccount(id, data)` */
    method UpdateBankAccount(id: string, data: BankAccountPatch)
      modifies this
      ensures bankAccounts == UpdateId(old(bankAccounts), BankAccountId, id, PatchBankAccount(data))
      ensures State() == old(State()).(bankAccounts := bankAccounts)
    {
      bankAccounts := UpdateId(bankAccounts, BankAccountId, id, PatchBankAccount(data));
    }

    /** `deleteBankAccount(id)`: refused, changing nothing, while a balance refers to the bank. */
    method DeleteBankAccount(id: string) returns (result: DeleteResult)
      modifies this
      ensures result.success <==> !BankHasBalances(old(bankBalances), id)
      ensures !result.success ==> result.reason == Some(BankInUseReason) && State() == old(State())
      ensures result.success ==>
                result.reason.None?
                && bankAccounts == WithoutId(old(bankAccounts), BankAccountId, id)
                && State() == old(State()).(bankAccounts := bankAccounts)
    {
      if exists k | 0 <= k < |bankBalances| :: bankBalances[k].bankId == id {
        return DeleteResult(false, Some(BankInUseReason));
      }
      bankAccounts := WithoutId(bankAccounts, BankAccountId, id);
      return DeleteResult(true, None);
    }

    /** `upsertBankBalance(data)`: the entry of that bank and month is overwritten in place, or one is appended. */
    method UpsertBankBalance(bankId: string, year: int, month: int, balance: real, freshId: string, now: string)
      modifies this
      ensures bankBalances == UpsertBalance(old(bankBalances), bankId, year, month, balance, freshId, now)
      ensures State() == old(State()).(bankBalances := bankBalances)
    {
      var idx := FirstIndex(bankBalances, KeyIs(bankId, year, month));
      if idx.Some? {
        bankBalances := bankBalances[idx.value := bankBalances[idx.value].(balance := balance, updatedAt := now)];
      } else {
        bankBalances := bankBalances + [BankBalance(freshId, bankId, year, month, balance, now, now)];
      }
    }

    /** `deleteBankAndBalances(id)`: the bank and every balance of it go. */
    method DeleteBankAndBalances(id: string)
      modifies this
      ensures bankBalances == WithoutId(old(bankBalances), BankIdOf, id)
      ensures bankAccounts == WithoutId(old(bankAccounts), BankAccountId, id)
      ensures State() == old(State()).(bankBalances := bankBalances, bankAccounts := bankAccounts)
    {
      bankBalances := WithoutId(bankBalances, BankIdOf, id);
      bankAccounts := WithoutId(bankAccounts, BankAccountId, id);
    }

    /** `deleteMonthBalances({ year, month, bankId })` */
    method DeleteMonthBalances(year: int, month: int, bankId: Option<string>)
      modifies this
      ensures bankBalances == Keep(old(bankBalances), MonthBalanceKept(year, month, bankId))
      ensures State() == old(State()).(bankBalances := bankBalances)
    {
      bankBalances := Keep(bankBalances, MonthBalanceKept(year, month, bankId));
    }

    /** `getBankBalancesByYear(year, bankIds)` */
    function BankBalancesOfYear(year: int, bankIds: Option<seq<string>>): (r: seq<BankBalance>)
      reads this
      ensures forall b :: b in r <==> b in bankBalances && b.year == year
                                      && (bankIds.None? || bankIds.value == [] || b.bankId in bankIds.value)
    {
      BalancesByYear(bankBalances, year, bankIds)
    }

    /** `getAvailableBalanceYears()` */
    function AvailableBalanceYears(): (r: seq<int>)
      reads this
      ensures StrictlyIncreasing(r)
      ensures forall y :: y in r <==> exists k | 0 <= k < |bankBalances| :: bankBalances[k].year == y
    {
      AvailableYears(bankBalances)
    }

    // -------------------------------------------------------------------------
    // Payment methods
    // -------------------------------------------------------------------------

    /** `addPaymentMethod(data)`: a new active method, appended and returned. */
    method AddPaymentMethod(name: string, kind: PaymentMethodType, color: Option<string>, description: Option<string>,
                            id: string, now: string)
      returns (m: PaymentMethod)
      modifies this
      ensures m == PaymentMethod(id, name, kind, color, description, true, now, None)
      ensures paymentMethods == old(paymentMethods) + [m]
      ensures State() == old(State()).(paymentMethods := paymentMethods)
    {
      m := PaymentMethod(id, name, kind, color, description, true, now, None);
      paymentMethods := paymentMethods + [m];
    }

    /** `updatePaymentMethod(id, data)`: the patched methods are also stamped as updated now. */
    method UpdatePaymentMethod(id: string, data: PaymentMethodPatch, now: string)
      modifies this
      ensures paymentMethods == UpdateId(old(paymentMethods), PaymentMethodId, id, PatchPaymentMethod(data, now))
      ensures State() == old(State()).(paymentMethods := paymentMethods)
    {
      paymentMethods := UpdateId(paymentMethods, PaymentMethodId, id, PatchPaymentMethod(data, now));
    }

    /** `archivePaymentMethod(id)`: the method becomes inactive, and nothing else of it changes but its update time. */
    method ArchivePaymentMethod(id: string, now: string)
      modifies this
      ensures |paymentMethods| == |old(paymentMethods)|
      ensures forall k | 0 <= k < |paymentMethods| ::
                paymentMethods[k] == if old(paymentMethods)[k].id == id
                                     then old(paymentMethods)[k].(active := false, updatedAt := Some(now))
                                     else old(paymentMethods)[k]
      ensures State() == old(State()).(paymentMethods := paymentMethods)
    {
      UpdatePaymentMethod(id, PaymentMethodPatch(None, None, None, None, Some(false)), now);
    }

    /** `restorePaymentMethod(id)`: the method becomes active again. */
    method RestorePaymentMethod(id: string, now: string)
      modifies this
      ensures |paymentMethods| == |old(paymentMethods)|
      ensures forall k | 0 <= k < |paymentMethods| ::
                paymentMethods[k] == if old(paymentMethods)[k].id == id
                                     then old(paymentMethods)[k].(active := true, updatedAt := Some(now))
                                     else old(paymentMethods)[k]
      ensures State() == old(State()).(paymentMethods := paymentMethods)
    {
      UpdatePaymentMethod(id, PaymentMethodPatch(None, None, None, None, Some(true)), now);
    }

    /** `deletePaymentMethod(id)`: refused, changing nothing, while an expense uses the method. */
    method DeletePaymentMethod(id: string) returns (result: DeleteResult)
      modifies this
      ensures result.success <==> !MethodInUse(old(expenses), id)
      ensures !result.success ==> result.reason == Some(MethodInUseReason) && State() == old(State())
      ensures result.success ==>
                result.reason.None?
                && paymentMethods == WithoutId(old(paymentMethods), PaymentMethodId, id)
                && State() == old(State()).(paymentMethods := paymentMethods)
    {
      if exists k | 0 <= k < |expenses| :: expenses[k].info.paymentMethodId == Some(id) {
        return DeleteResult(false, Some(MethodInUseReason));
      }
      paymentMethods := WithoutId(paymentMethods, PaymentMethodId, id);
      return DeleteResult(true, None);
    }

    /** `getActivePaymentMethods()` */
    function ActivePaymentMethods(): (r: seq<PaymentMethod>)
      reads this
      ensures forall m :: m in r <==> m in paymentMethods && m.active
    {
      KeepMembers(paymentMethods, IsActive);
      Keep(paymentMethods, IsActive)
    }

    /** `getPaymentMethodById(id)` */
    function PaymentMethodById(id: Option<string>): (r: Option<PaymentMethod>)
      reads this
      ensures (id.None? || id.value == []) ==> r.None?
      ensures id.Some? && id.value != [] ==>
        (r.None? <==> forall k | 0 <= k < |paymentMethods| :: paymentMethods[k].id != id.value)
        && (r.Some? ==> r.value in paymentMethods && r.value.id == id.value)
    {
      MethodById(paymentMethods, id)
    }

    /**
     * `getMonthlyExpensesByPaymentMethod(month, year)`: the month's
     * expenses grouped by payment method in a loop; `monthYearOf` reads a
     * date as (month 1-12, year).
     */
    method MonthlyExpensesByPaymentMethod(month: int, year: int, monthYearOf: string -> Option<(int, int)>)
      returns (rows: seq<MethodTotal>)
      ensures rows == ExpensesByMethod(expenses, month, year, monthYearOf)
    {
      var monthly := Keep(expenses, InMonth(month, year, monthYearOf));
      var grouped := NoBuckets;
      var i := 0;
      while i < |monthly|
        invariant 0 <= i <= |monthly|
        invariant grouped == GroupBy(monthly[..i], MethodKey, Amount)
      {
        var e := monthly[i];
        var pmId := if e.info.paymentMethodId.Some? && e.info.paymentMethodId.value != [] then e.info.paymentMethodId.value else "unknown";
        grouped := AddTo(grouped, pmId, e.info.amount);
        assert monthly[..i + 1][..i] == monthly[..i];
        i := i + 1;
      }
      assert monthly[..i] == monthly;
      rows := MethodTotals(grouped);
    }

    // -------------------------------------------------------------------------
    // Price research
    // -------------------------------------------------------------------------

    /** `addPriceSample(data)`: one sample more, or none when the key is neither tracked nor described. */
    method AddPriceSample(variantKey: string, value: real, date: string, source: Option<string>,
                          customMeta: Option<CustomMeta>, id: string, now: string)
      modifies this
      ensures var s := PriceSampleFor(variantKey, value, date, source, customMeta, id, now);
        priceSamples == old(priceSamples) + (if s.Some? then [s.value] else [])
      ensures State() == old(State()).(priceSamples := priceSamples)
    {
      var sample := PriceSampleFor(variantKey, value, date, source, customMeta, id, now);
      if sample.None? {
        return;
      }
      priceSamples := priceSamples + [sample.value];
    }

    /** `getVariantPriceHistory(variantKey)` */
    function VariantPriceHistory(variantKey: string): (r: seq<TrackedPriceSample>)
      reads this
      ensures SortedBy(r, SampleDate)
      ensures multiset(r) == multiset(Keep(priceSamples, OfVariant(variantKey)))
      ensures forall s :: s in r <==> s in priceSamples && s.variantKey == variantKey
    {
      PriceHistorySpec(priceSamples, variantKey);
      PriceHistory(priceSamples, variantKey)
    }

    /** `getVariantCurrentAndPrevious(variantKey)` */
    function VariantCurrentAndPrevious(variantKey: string): (r: TrackedPriceSummary)
      reads this
      ensures var h := VariantPriceHistory(variantKey);
        (|h| == 0 ==> r == TrackedPriceSummary(None, None, None, None, None))
        && (|h| >= 1 ==> r.lastPrice == Some(h[|h| - 1].value) && r.lastDate == Some(h[|h| - 1].date))
        && (|h| >= 2 ==> r.previousPrice == Some(h[|h| - 2].value))
    {
      CurrentAndPrevious(VariantPriceHistory(variantKey))
    }

    /**
     * `getVariantMonthlyAverages(variantKey)`: the history's dated samples
     * grouped by `YYYY-MM` in one loop, then one row per month in
     * ascending order in another; `labelOf` is how a month is printed.
     */
    method VariantMonthlyAverages(variantKey: string, labelOf: string -> string) returns (rows: seq<MonthAverage>)
      ensures rows == MonthlyAverages(VariantPriceHistory(variantKey), labelOf)
    {
      var history := VariantPriceHistory(variantKey);
      var byMonth := GroupByMonth(history);
      var keys := SortBy(byMonth.keys, Itself);
      rows := AverageRows(byMonth, keys, labelOf);
    }
  }

  /** The `forEach` of `getVariantMonthlyAverages`: dated samples totalled and counted by `YYYY-MM`. */
  method GroupByMonth(history: seq<TrackedPriceSample>) returns (byMonth: Buckets)
    ensures byMonth == GroupBy(history, SampleMonth, SampleValue)
  {
    byMonth := NoBuckets;
    var i := 0;
    while i < |history|
      invariant 0 <= i <= |history|
      invariant byMonth == GroupBy(history[..i], SampleMonth, SampleValue)
    {
      var s := history[i];
      assert history[..i + 1][..i] == history[..i];
      if s.date != [] {
        byMonth := AddTo(byMonth, Slice(s.date, 7), s.value);
      }
      i := i + 1;
    }
    assert history[..i] == history;
  }

  /** The sorted months' `forEach`: one row per key, its total over its count. */
  method AverageRows(byMonth: Buckets, keys: seq<string>, labelOf: string -> string) returns (rows: seq<MonthAverage>)
    ensures rows == Averages(byMonth, keys, labelOf)
  {
    ghost var all := Averages(byMonth, keys, labelOf);
    rows := [];
    var j := 0;
    while j < |keys|
      invariant 0 <= j <= |keys| == |all|
      invariant rows == all[..j]
    {
      var key := keys[j];
      rows := rows + [MonthAverage(labelOf(key), if CountOf(byMonth, key) == 0 then 0.0
                                                 else TotalOf(byMonth, key) / (CountOf(byMonth, key) as real))];
      assert all[..j + 1] == all[..j] + [all[j]];
      j := j + 1;
    }
    assert all[..j] == all;
  }
}

/**
 * `getMonthlySummary(expenses, incomes, year)`: the year's twelve months
 * with what came in, what went out, the balance and the shares of the
 * year and of the month.
 *
 * How a date is read (`new Date(s)` with its year and month 0-11) and how
 * a month is labelled are parameters.
 */
module MonthlySummaries {
  import opened Wrappers
  import opened Money
  import opened Lists
  import opened FinanceTypes

  type MonthIndex = m: int | 0 <= m < 12

  /** A parsed date: its year and month of the year, 0 for January. */
  datatype YearMonth = YearMonth(year: int, month: MonthIndex)

  datatype MonthlySummary = MonthlySummary(
    year: int,
    month: int,
    monthLabel: string,
    entradas: real,
    saidas: real,
    saldo: real,
    percentualEntradasAno: real,
    percentualSaidasAno: real,
    percentualEntradasMes: real,
    percentualSaidasMes: real)

  /** The month of `year` a record dated `date` counts in: none without a date, an unreadable one or another year's. */
  function MonthOf(date: string, year: int, dateOf: string -> Option<YearMonth>): Option<MonthIndex> {
    if date == [] then None
    else match dateOf(date)
      case Some(d) => if d.year == year then Some(d.month) else None
      case None => None
  }

  // ---------------------------------------------------------------------------
  // The two forEach loops
  // ---------------------------------------------------------------------------

  const NoMonths: seq<real> := [0.0, 0.0, 0.0, 0.0, 0.0, 0.0, 0.0, 0.0, 0.0, 0.0, 0.0, 0.0]

  /** `summaries[month].saidas += Math.abs(expense.amount)` over the expenses, as twelve totals. */
  function MonthSpend(es: seq<Expense>, year: int, dateOf: string -> Option<YearMonth>): (r: seq<real>)
    ensures |r| == 12
  {
    if es == [] then NoMonths
    else
      var s := MonthSpend(es[..|es| - 1], year, dateOf);
      var e := es[|es| - 1];
      match MonthOf(e.info.date, year, dateOf)
      case Some(m) => s[m := s[m] + Abs(e.info.amount)]
      case None => s
  }

  /** `summaries[month].entradas += income.amount` over the incomes, as twelve totals. */
  function MonthIncome(ins: seq<Income>, year: int, dateOf: string -> Option<YearMonth>): (r: seq<real>)
    ensures |r| == 12
  {
    if ins == [] then NoMonths
    else
      var s := MonthIncome(ins[..|ins| - 1], year, dateOf);
      var i := ins[|ins| - 1];
      match MonthOf(i.date, year, dateOf)
      case Some(m) => s[m := s[m] + i.amount]
      case None => s
  }

  function ExpenseIn(year: int, m: MonthIndex, dateOf: string -> Option<YearMonth>): Expense -> bool {
    (e: Expense) => MonthOf(e.info.date, year, dateOf) == Some(m)
  }

  function IncomeIn(year: int, m: MonthIndex, dateOf: string -> Option<YearMonth>): Income -> bool {
    (i: Income) => MonthOf(i.date, year, dateOf) == Some(m)
  }

  function AbsAmount(e: Expense): real { Abs(e.info.amount) }

  function IncomeAmount(i: Income): real { i.amount }

  /** A month's `saidas` is the sum of the absolute amounts of the expenses dated in it. */
  lemma {:induction false} MonthSpendSpec(es: seq<Expense>, year: int, dateOf: string -> Option<YearMonth>, m: MonthIndex)
    ensures MonthSpend(es, year, dateOf)[m] == SumOf(Keep(es, ExpenseIn(year, m, dateOf)), AbsAmount)
  {
    if es != [] {
      var init := es[..|es| - 1];
      var e := es[|es| - 1];
      MonthSpendSpec(init, year, dateOf, m);
      var kept := Keep(init, ExpenseIn(year, m, dateOf));
      if MonthOf(e.info.date, year, dateOf) == Some(m) {
        assert ExpenseIn(year, m, dateOf)(e);
        assert Keep(es, ExpenseIn(year, m, dateOf)) == kept + [e];
        assert (kept + [e])[..|kept|] == kept;
      } else {
        assert !ExpenseIn(year, m, dateOf)(e);
        assert Keep(es, ExpenseIn(year, m, dateOf)) == kept;
      }
    }
  }

  /** A month's `entradas` is the sum of the amounts of the incomes dated in it. */
  lemma {:induction false} MonthIncomeSpec(ins: seq<Income>, year: int, dateOf: string -> Option<YearMonth>, m: MonthIndex)
    ensures MonthIncome(ins, year, dateOf)[m] == SumOf(Keep(ins, IncomeIn(year, m, dateOf)), IncomeAmount)
  {
    if ins != [] {
      var init := ins[..|ins| - 1];
      var i := ins[|ins| - 1];
      MonthIncomeSpec(init, year, dateOf, m);
      var kept := Keep(init, IncomeIn(year, m, dateOf));
      if MonthOf(i.date, year, dateOf) == Some(m) {
        assert IncomeIn(year, m, dateOf)(i);
        assert Keep(ins, IncomeIn(year, m, dateOf)) == kept + [i];
        assert (kept + [i])[..|kept|] == kept;
      } else {
        assert !IncomeIn(year, m, dateOf)(i);
        assert Keep(ins, IncomeIn(year, m, dateOf)) == kept;
      }
    }
  }

  // ---------------------------------------------------------------------------
  // The final map
  // ---------------------------------------------------------------------------

  function Entradas(s: MonthlySummary): real { s.entradas }
  function Saidas(s: MonthlySummary): real { s.saidas }
  function PercentEntradasAno(s: MonthlySummary): real { s.percentualEntradasAno }
  function PercentSaidasAno(s: MonthlySummary): real { s.percentualSaidasAno }

  /** `part / total * 100` when `total > 0`, else 0. */
  function Share(part: real, total: real): real {
    if total > 0.0 then part / total * 100.0 else 0.0
  }

  /** The twelve summaries before the map: the totals filled in, everything derived still 0. */
  function Accumulated(entradas: seq<real>, saidas: seq<real>, year: int, labelOf: (int, int) -> string): (r: seq<MonthlySummary>)
    requires |entradas| == 12 && |saidas| == 12
    ensures |r| == 12
  {
    seq(12, m requires 0 <= m < 12 =>
      MonthlySummary(year, m, labelOf(m, year), entradas[m], saidas[m], 0.0, 0.0, 0.0, 0.0, 0.0))
  }

  /** `summaries.map(...)`, with the year's totals `totalEntradasAno` and `totalSaidasAno`. */
  function Finished(item: MonthlySummary, totalEntradasAno: real, totalSaidasAno: real): MonthlySummary {
    var totalMes := item.entradas + item.saidas;
    item.(saldo := item.entradas - item.saidas,
          percentualEntradasAno := Share(item.entradas, totalEntradasAno),
          percentualSaidasAno := Share(item.saidas, totalSaidasAno),
          percentualEntradasMes := Share(item.entradas, totalMes),
          percentualSaidasMes := Share(item.saidas, totalMes))
  }

  function FinishAll(items: seq<MonthlySummary>): (r: seq<MonthlySummary>)
    ensures |r| == |items|
  {
    var totalEntradasAno := SumOf(items, Entradas);
    var totalSaidasAno := SumOf(items, Saidas);
    seq(|items|, k requires 0 <= k < |items| => Finished(items[k], totalEntradasAno, totalSaidasAno))
  }

  /** What `getMonthlySummary` returns. */
  function MonthlySummaryOf(es: seq<Expense>, ins: seq<Income>, year: int, dateOf: string -> Option<YearMonth>,
                            labelOf: (int, int) -> string): seq<MonthlySummary>
  {
    FinishAll(Accumulated(MonthIncome(ins, year, dateOf), MonthSpend(es, year, dateOf), year, labelOf))
  }

  /** `getMonthlySummary(expenses, incomes, year)`: two loops fill the twelve month totals, then the map. */
  method GetMonthlySummary(expenses: seq<Expense>, incomes: seq<Income>, year: int,
                           dateOf: string -> Option<YearMonth>, labelOf: (int, int) -> string)
    returns (summaries: seq<MonthlySummary>)
    ensures summaries == MonthlySummaryOf(expenses, incomes, year, dateOf, labelOf)
  {
    var saidas := AddUpExpenses(expenses, year, dateOf);
    var entradas := AddUpIncomes(incomes, year, dateOf);
    summaries := FinishAll(Accumulated(entradas, saidas, year, labelOf));
  }

  /** The `expenses.forEach`: each dated expense of the year adds its absolute amount to its month, in place. */
  method AddUpExpenses(expenses: seq<Expense>, year: int, dateOf: string -> Option<YearMonth>) returns (saidas: seq<real>)
    ensures saidas == MonthSpend(expenses, year, dateOf)
  {
    var totals := new real[12](_ => 0.0);
    assert totals[..] == NoMonths;
    var i := 0;
    while i < |expenses|
      invariant 0 <= i <= |expenses|
      invariant totals[..] == MonthSpend(expenses[..i], year, dateOf)
    {
      var expense := expenses[i];
      assert expenses[..i + 1][..i] == expenses[..i];
      var month := MonthOf(expense.info.date, year, dateOf);
      if month.Some? {
        totals[month.value] := totals[month.value] + Abs(expense.info.amount);
      }
      i := i + 1;
    }
    assert expenses[..i] == expenses;
    saidas := totals[..];
  }

  /** The `incomes.forEach`: each dated income of the year adds its amount to its month, in place. */
  method AddUpIncomes(incomes: seq<Income>, year: int, dateOf: string -> Option<YearMonth>) returns (entradas: seq<real>)
    ensures entradas == MonthIncome(incomes, year, dateOf)
  {
    var totals := new real[12](_ => 0.0);
    assert totals[..] == NoMonths;
    var j := 0;
    while j < |incomes|
      invariant 0 <= j <= |incomes|
      invariant totals[..] == MonthIncome(incomes[..j], year, dateOf)
    {
      var income := incomes[j];
      assert incomes[..j + 1][..j] == incomes[..j];
      var month := MonthOf(income.date, year, dateOf);
      if month.Some? {
        totals[month.value] := totals[month.value] + income.amount;
      }
      j := j + 1;
    }
    assert incomes[..j] == incomes;
    entradas := totals[..];
  }

  // ---------------------------------------------------------------------------
  // What the summary promises
  // ---------------------------------------------------------------------------

  /** Twelve entries, months 0 to 11 in order, each of the given year and labelled for it. */
  lemma SummaryShape(es: seq<Expense>, ins: seq<Income>, year: int, dateOf: string -> Option<YearMonth>,
                     labelOf: (int, int) -> string)
    ensures var r := MonthlySummaryOf(es, ins, year, dateOf, labelOf);
      |r| == 12 && forall m | 0 <= m < 12 :: r[m].month == m && r[m].year == year && r[m].monthLabel == labelOf(m, year)
  {
  }

  /**
   * A month's `saidas` sums the absolute amounts of the expenses dated in
   * that month of that year, its `entradas` the incomes' amounts, and its
   * `saldo` is the one less the other.
   */
  lemma SummaryTotals(es: seq<Expense>, ins: seq<Income>, year: int, dateOf: string -> Option<YearMonth>,
                      labelOf: (int, int) -> string, m: MonthIndex)
    ensures var r := MonthlySummaryOf(es, ins, year, dateOf, labelOf);
      r[m].saidas == SumOf(Keep(es, ExpenseIn(year, m, dateOf)), AbsAmount)
      && r[m].entradas == SumOf(Keep(ins, IncomeIn(year, m, dateOf)), IncomeAmount)
      && r[m].saldo == r[m].entradas - r[m].saidas
  {
    MonthSpendSpec(es, year, dateOf, m);
    MonthIncomeSpec(ins, year, dateOf, m);
  }

  /** An expense without a date, or of another year, changes nothing. */
  lemma SummaryIgnoresUndated(es: seq<Expense>, ins: seq<Income>, year: int, dateOf: string -> Option<YearMonth>,
                              labelOf: (int, int) -> string, e: Expense)
    requires e.info.date == [] || dateOf(e.info.date).None? || dateOf(e.info.date).value.year != year
    ensures MonthlySummaryOf(es + [e], ins, year, dateOf, labelOf) == MonthlySummaryOf(es, ins, year, dateOf, labelOf)
  {
    assert (es + [e])[..|es|] == es;
  }

  /**
   * Within a month both shares are 0 unless the month's total is
   * positive, and then they add up to 100.
   */
  lemma MonthSharesSpec(es: seq<Expense>, ins: seq<Income>, year: int, dateOf: string -> Option<YearMonth>,
                        labelOf: (int, int) -> string, m: MonthIndex)
    ensures var r := MonthlySummaryOf(es, ins, year, dateOf, labelOf)[m];
      (r.entradas + r.saidas <= 0.0 ==> r.percentualEntradasMes == 0.0 && r.percentualSaidasMes == 0.0)
      && (r.entradas + r.saidas > 0.0 ==> r.percentualEntradasMes + r.percentualSaidasMes == 100.0)
  {
    var r := MonthlySummaryOf(es, ins, year, dateOf, labelOf)[m];
    SharesAddUp(r.entradas, r.saidas);
  }

  lemma SharesAddUp(a: real, b: real)
    ensures a + b > 0.0 ==> Share(a, a + b) + Share(b, a + b) == 100.0
  {
    if a + b > 0.0 {
      assert a / (a + b) * 100.0 + b / (a + b) * 100.0 == (a + b) / (a + b) * 100.0;
    }
  }

  /**
   * Over the year the monthly shares of `saidas` add up to 100 when the
   * year's `saidas` are positive and are all 0 otherwise; likewise for
   * `entradas`.
   */
  lemma YearSharesSpec(es: seq<Expense>, ins: seq<Income>, year: int, dateOf: string -> Option<YearMonth>,
                       labelOf: (int, int) -> string)
    ensures var r := MonthlySummaryOf(es, ins, year, dateOf, labelOf);
      var ts := SumOf(r, Saidas);
      var te := SumOf(r, Entradas);
      (ts > 0.0 ==> SumOf(r, PercentSaidasAno) == 100.0)
      && (ts <= 0.0 ==> forall m | 0 <= m < 12 :: r[m].percentualSaidasAno == 0.0)
      && (te > 0.0 ==> SumOf(r, PercentEntradasAno) == 100.0)
      && (te <= 0.0 ==> forall m | 0 <= m < 12 :: r[m].percentualEntradasAno == 0.0)
  {
    var items := Accumulated(MonthIncome(ins, year, dateOf), MonthSpend(es, year, dateOf), year, labelOf);
    var r := FinishAll(items);
    YearShares(items, r);
  }

  /** The final map keeps the totals, so the shares of the year are shares of the totals of `r`. */
  lemma YearShares(items: seq<MonthlySummary>, r: seq<MonthlySummary>)
    requires r == FinishAll(items)
    ensures var ts := SumOf(r, Saidas);
      var te := SumOf(r, Entradas);
      (ts > 0.0 ==> SumOf(r, PercentSaidasAno) == 100.0)
      && (ts <= 0.0 ==> forall m | 0 <= m < |r| :: r[m].percentualSaidasAno == 0.0)
      && (te > 0.0 ==> SumOf(r, PercentEntradasAno) == 100.0)
      && (te <= 0.0 ==> forall m | 0 <= m < |r| :: r[m].percentualEntradasAno == 0.0)
  {
    var ts := SumOf(items, Saidas);
    var te := SumOf(items, Entradas);
    SumOfPointwise(r, Saidas, items, Saidas);
    SumOfPointwise(r, Entradas, items, Entradas);
    assert forall k | 0 <= k < |r| :: PercentSaidasAno(r[k]) == Share(Saidas(r[k]), ts);
    assert forall k | 0 <= k < |r| :: PercentEntradasAno(r[k]) == Share(Entradas(r[k]), te);
    SharesOfTotal(r, Saidas, PercentSaidasAno, ts);
    SharesOfTotal(r, Entradas, PercentEntradasAno, te);
  }

  /** Shares of a positive total add up to 100; shares of any other total are all 0. */
  lemma SharesOfTotal(r: seq<MonthlySummary>, part: MonthlySummary -> real, share: MonthlySummary -> real, total: real)
    requires SumOf(r, part) == total
    requires forall k | 0 <= k < |r| :: share(r[k]) == Share(part(r[k]), total)
    ensures total > 0.0 ==> SumOf(r, share) == 100.0
    ensures total <= 0.0 ==> forall k | 0 <= k < |r| :: share(r[k]) == 0.0
  {
    if total > 0.0 {
      forall k | 0 <= k < |r| ensures share(r[k]) == part(r[k]) * (100.0 / total) {
        ShareScale(part(r[k]), total);
      }
      SumOfScale(r, part, share, 100.0 / total);
      assert total * (100.0 / total) == 100.0;
    }
  }

  lemma ShareScale(part: real, total: real)
    requires total > 0.0
    ensures Share(part, total) == part * (100.0 / total)
  {
  }
}

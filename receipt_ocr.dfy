/**
 * The OCR service's conversion of the windowed parser's result into a
 * `Receipt`: every parsed item becomes one receipt item bought once, the
 * totals fall back in a fixed order, and two kinds of warning are raised.
 *
 * The current date and the fresh receipt id are parameters.
 */
module ReceiptOcr {
  import opened Wrappers
  import opened JsText
  import opened Money
  import opened FinanceTypes
  import WindowedParser

  // ---------------------------------------------------------------------------
  // toISODate
  // ---------------------------------------------------------------------------

  /** `year.length === 2 ? "20" + year : year` */
  function FullYear(year: string): string {
    if |year| == 2 then "20" + year else year
  }

  /** The `/`-separated parts of a date, `day`, `month` and `year` being the first three. */
  predicate HasDateParts(parts: seq<string>) {
    |parts| >= 3 && parts[0] != [] && parts[1] != [] && parts[2] != []
  }

  /**
   * `toISODate(input)`: `dd/mm/yyyy` becomes `yyyy-mm-dd`; a missing or
   * empty input, or one without three non-empty parts, gives `today`.
   */
  function ToISODate(input: Option<string>, today: string): string {
    if input.None? || input.value == [] then today
    else
      var parts := SplitOn(input.value, '/');
      if !HasDateParts(parts) then today
      else FullYear(parts[2]) + "-" + parts[1] + "-" + parts[0]
  }

  /** A date written as `day/month/year` is rewritten year first. */
  lemma ToISODateOfDate(day: string, month: string, year: string, today: string)
    requires day != [] && month != [] && year != []
    requires '/' !in day && '/' !in month && '/' !in year
    ensures ToISODate(Some(day + "/" + month + "/" + year), today) == FullYear(year) + "-" + month + "-" + day
  {
    SplitOnNoSep(year, '/');
    SplitOnSep(month, '/', year);
    assert day + "/" + month + "/" + year == day + ['/'] + (month + ['/'] + year);
    SplitOnSep(day, '/', month + ['/'] + year);
  }

  /** Extra parts after the year are ignored. */
  lemma ToISODateIgnoresRest(day: string, month: string, year: string, rest: string, today: string)
    requires day != [] && month != [] && year != []
    requires '/' !in day && '/' !in month && '/' !in year
    ensures ToISODate(Some(day + "/" + month + "/" + year + "/" + rest), today) == FullYear(year) + "-" + month + "-" + day
  {
    SplitOnSep(year, '/', rest);
    SplitOnSep(month, '/', year + ['/'] + rest);
    assert day + "/" + month + "/" + year + "/" + rest == day + ['/'] + (month + ['/'] + (year + ['/'] + rest));
    SplitOnSep(day, '/', month + ['/'] + (year + ['/'] + rest));
  }

  /** Fewer than two slashes, or an empty part among the first three, gives today's date. */
  lemma ToISODateFallsBack(input: Option<string>, today: string)
    requires input.Some? ==> !HasDateParts(SplitOn(input.value, '/'))
    ensures ToISODate(input, today) == today
  {
  }

  /** A date without slashes at all is not a date. */
  lemma NoSlashIsToday(s: string, today: string)
    requires '/' !in s
    ensures ToISODate(Some(s), today) == today
  {
    SplitOnNoSep(s, '/');
  }

  // ---------------------------------------------------------------------------
  // buildReceipt
  // ---------------------------------------------------------------------------

  /** One parsed item as a receipt item: bought once, at its value. */
  function ItemOf(it: WindowedParser.WItem): ReceiptItem {
    var quantity := 1.0;
    var total := it.valor;
    ReceiptItem(TextId(it.id), it.descricao, quantity, total / quantity, None, total,
                Some(it.valor < 0.0), None, it.categoriaSugerida,
                if it.suspeito then Some(true) else None, Some(it.rawLinha))
  }

  function ItemsOf(itens: seq<WindowedParser.WItem>): (r: seq<ReceiptItem>) {
    seq(|itens|, k requires 0 <= k < |itens| => ItemOf(itens[k]))
  }

  /** The suspect items, with the description and value the warning prints. */
  function Suspects(itens: seq<WindowedParser.WItem>): (r: seq<(string, real)>)
    ensures |r| <= |itens|
  {
    if itens == [] then []
    else
      var last := itens[|itens| - 1];
      Suspects(itens[..|itens| - 1]) + (if last.suspeito then [(last.descricao, last.valor)] else [])
  }

  /** The tolerance both receipt builders allow between the item sum and the total. */
  const Tolerance: real := 0.05

  function Warnings(parsed: WindowedParser.WParsed, itemsTotal: real): seq<ReceiptWarning> {
    var suspects := Suspects(parsed.itens);
    (if parsed.totalCupom.Some? && Abs(parsed.diferenca) > Tolerance
     then [ItemsDifferFromTotal(itemsTotal, parsed.totalCupom.value)] else [])
    + (if suspects != [] then [SuspectValues(suspects)] else [])
  }

  /** `buildReceipt(parsed, rawText)` with the receipt id and today's date given. */
  function BuildReceipt(parsed: WindowedParser.WParsed, rawText: string, receiptId: string, today: string): Receipt {
    var items := ItemsOf(parsed.itens);
    var itemsTotal := Round2(SumOf(items, ItemTotal));
    var total := parsed.totalCupom.GetOr(itemsTotal);
    Receipt(receiptId, if parsed.loja == [] then "Cupom" else parsed.loja, None,
            ToISODate(parsed.data, today), Finite(total), items, rawText,
            parsed.totalCupom, Some(itemsTotal), Some(Warnings(parsed, itemsTotal)), None)
  }

  // ---------------------------------------------------------------------------
  // What the receipt says about the parse
  // ---------------------------------------------------------------------------

  /** One receipt item per parsed item, in order, bought once at the parsed value. */
  lemma ItemsMirrorParse(parsed: WindowedParser.WParsed, rawText: string, receiptId: string, today: string)
    ensures var r := BuildReceipt(parsed, rawText, receiptId, today);
      |r.items| == |parsed.itens|
      && forall k | 0 <= k < |r.items| ::
        var it := parsed.itens[k];
        r.items[k].id == TextId(it.id) && r.items[k].description == it.descricao
        && r.items[k].quantity == 1.0 && r.items[k].unitPrice == it.valor && r.items[k].total == it.valor
        && r.items[k].isDiscount == Some(it.valor < 0.0)
        && r.items[k].suggestedCategoryId.None? && r.items[k].suggestedCategoryName == it.categoriaSugerida
        && r.items[k].suspect == (if it.suspeito then Some(true) else None)
        && r.items[k].rawLine == Some(it.rawLinha)
  {
  }

  /** `itemsTotal` is the rounded sum of the parsed values; the total falls back to it. */
  lemma TotalsOfReceipt(parsed: WindowedParser.WParsed, rawText: string, receiptId: string, today: string)
    ensures var r := BuildReceipt(parsed, rawText, receiptId, today);
      var itemsTotal := Round2(SumOf(parsed.itens, WindowedParser.Valor));
      r.itemsTotal == Some(itemsTotal)
      && r.total == Finite(if parsed.totalCupom.Some? then parsed.totalCupom.value else itemsTotal)
      && (r.rawTotalFromReceipt.None? <==> parsed.totalCupom.None?)
      && (parsed.totalCupom.Some? ==> r.rawTotalFromReceipt == parsed.totalCupom)
  {
    var items := ItemsOf(parsed.itens);
    SumOfPointwise(items, ItemTotal, parsed.itens, WindowedParser.Valor);
  }

  /**
   * On a receipt read from an image the store is the parsed one, never the
   * "Cupom" default (the parser always names a store), and the date is the
   * first printed `dd/mm/yy(yy)` rearranged to year, month and day, with a
   * two-digit year taken in the 2000s; only without a printed date is it today.
   */
  lemma StoreAndDate(rawText: string, freshId: nat -> string, receiptId: string, today: string)
    ensures var parsed := WindowedParser.WindowedParse(rawText, freshId);
      var r := BuildReceipt(parsed, rawText, receiptId, today);
      r.storeName == parsed.loja && r.storeName != []
      && (parsed.data.None? ==> r.date == today)
      && (parsed.data.Some? ==>
            var d := parsed.data.value;
            |d| >= 8 && r.date == FullYear(d[6..]) + "-" + d[3..5] + "-" + d[..2])
      && r.id == receiptId && r.rawText == rawText
  {
    WindowedParser.ParsedStoreNotEmpty(rawText, freshId);
    WindowedParser.ParsedDateShape(rawText, freshId);
    var parsed := WindowedParser.WindowedParse(rawText, freshId);
    if parsed.data.Some? {
      ShortDateToISO(parsed.data.value, today);
    }
  }

  /** A `dd/mm/yy(yy)` text becomes year, month and day. */
  lemma ShortDateToISO(d: string, today: string)
    requires WindowedParser.IsShortDateText(d)
    ensures ToISODate(Some(d), today) == FullYear(d[6..]) + "-" + d[3..5] + "-" + d[..2]
  {
    assert d == d[..2] + "/" + d[3..5] + "/" + d[6..];
    assert '/' !in d[6..] by {
      forall i | 0 <= i < |d[6..]| ensures d[6..][i] != '/' {
        if i >= 2 { assert d[6..][i] == d[8..][i - 2]; }
      }
    }
    ToISODateOfDate(d[..2], d[3..5], d[6..], today);
  }

  /** The suspect list holds exactly the suspect items, in order. */
  lemma SuspectsSpec(itens: seq<WindowedParser.WItem>)
    ensures Suspects(itens) == [] <==> forall k | 0 <= k < |itens| :: !itens[k].suspeito
    ensures forall k | 0 <= k < |itens| :: itens[k].suspeito ==> (itens[k].descricao, itens[k].valor) in Suspects(itens)
    ensures forall e | e in Suspects(itens) :: exists k | 0 <= k < |itens| :: itens[k].suspeito && e == (itens[k].descricao, itens[k].valor)
  {
    SuspectsComplete(itens);
    SuspectsSound(itens);
  }

  /** Every suspect item is listed. */
  lemma {:induction false} SuspectsComplete(itens: seq<WindowedParser.WItem>)
    ensures forall k | 0 <= k < |itens| :: itens[k].suspeito ==> (itens[k].descricao, itens[k].valor) in Suspects(itens)
  {
    if itens != [] {
      var init := itens[..|itens| - 1];
      SuspectsComplete(init);
      forall k | 0 <= k < |itens| - 1 ensures itens[k] == init[k] {
      }
    }
  }

  /** Only suspect items are listed. */
  lemma {:induction false} SuspectsSound(itens: seq<WindowedParser.WItem>)
    ensures forall e | e in Suspects(itens) :: exists k | 0 <= k < |itens| :: itens[k].suspeito && e == (itens[k].descricao, itens[k].valor)
  {
    if itens != [] {
      var init := itens[..|itens| - 1];
      var n := |init|;
      SuspectsSound(init);
      forall e | e in Suspects(itens)
        ensures exists k | 0 <= k < |itens| :: itens[k].suspeito && e == (itens[k].descricao, itens[k].valor)
      {
        if e in Suspects(init) {
          var k :| 0 <= k < n && init[k].suspeito && e == (init[k].descricao, init[k].valor);
          assert itens[k] == init[k];
        } else {
          assert itens[n].suspeito && e == (itens[n].descricao, itens[n].valor);
        }
      }
    }
  }

  /**
   * The mismatch warning comes first and appears exactly when a total was
   * printed and differs by more than 0.05; the suspect warning comes next
   * and appears exactly when some item is suspect. Nothing else is warned.
   */
  lemma WarningsOfReceipt(parsed: WindowedParser.WParsed, rawText: string, receiptId: string, today: string)
    ensures var r := BuildReceipt(parsed, rawText, receiptId, today);
      var ws := r.warnings.value;
      var mismatch := parsed.totalCupom.Some? && Abs(parsed.diferenca) > 0.05;
      var suspect := exists k | 0 <= k < |parsed.itens| :: parsed.itens[k].suspeito;
      r.warnings.Some? && |ws| <= 2
      && |ws| == (if mismatch then 1 else 0) + (if suspect then 1 else 0)
      && (mismatch ==> ws[0] == ItemsDifferFromTotal(r.itemsTotal.value, parsed.totalCupom.value))
      && (suspect ==> ws[|ws| - 1] == SuspectValues(Suspects(parsed.itens)))
  {
    SuspectsSpec(parsed.itens);
  }

  /** Items of the windowed parser are never negative, so none is marked as a discount. */
  lemma NoDiscountsFromOcr(rawText: string, freshId: nat -> string, receiptId: string, today: string)
    ensures var r := BuildReceipt(WindowedParser.WindowedParse(rawText, freshId), rawText, receiptId, today);
      forall k | 0 <= k < |r.items| :: r.items[k].isDiscount == Some(false)
  {
    WindowedParser.ParsedValuesNonNegative(rawText, freshId);
  }
}

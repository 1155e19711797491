/**
 * The front end's reading of the extraction backend's summary into the
 * standardised `ReceiptSummary`: numbers given as text are normalised from
 * the Brazilian format, and every missing figure falls back in a fixed order.
 *
 * The current time, used when the purchase date is missing, is a parameter.
 */
module VeryfiApi {
  import opened Wrappers
  import opened JsText
  import opened JsNumber
  import opened Money
  import opened FinanceTypes

  /** One line item of the backend's summary, each field as loosely typed as the JSON allows. */
  datatype VeryfiItem = VeryfiItem(
    id: Option<ItemId>,
    descricao: Option<string>,
    description: Option<string>,
    quantidade: JsValue,
    quantity: JsValue,
    valorUnitario: JsValue,
    unitPrice: JsValue,
    total: JsValue,
    lineTotal: JsValue)

  datatype VeryfiSummary = VeryfiSummary(
    loja: Option<string>,
    dataCompra: Option<string>,
    totalCupom: JsValue,
    moeda: Option<string>,
    itens: Option<seq<VeryfiItem>>,
    totalItens: JsValue,
    suggestedCategory: Option<string>,
    suggestedCategorySnake: Option<string>)

  /** `value.replace(".", "").replace(",", ".")`: the first dot goes, the first comma becomes a dot. */
  function Normalized(s: string): string {
    ReplaceFirst(ReplaceFirst(s, ".", ""), ",", ".")
  }

  /**
   * `normalizeNumber(value)`: a number is kept, a text is normalised and
   * read with `Number` (`None` when that is not finite), anything else is
   * `None`.
   */
  function NormalizeNumber(v: JsValue): Option<real> {
    match v
    case Num(n) => Some(n)
    case Str(s) => StringToNumber(Normalized(s))
    case _ => None
  }

  /** `quantity > 0 ? quantity : 1` */
  function SafeQuantity(q: real): (r: real)
    ensures r > 0.0
  {
    if q > 0.0 then q else 1.0
  }

  /** `total || unit * quantity` */
  function TotalOr(total: real, unit: real, quantity: real): real {
    if total != 0.0 then total else unit * quantity
  }

  /** The item, at position `idx`, as the summary lists it. */
  function MapItem(item: VeryfiItem, idx: nat): SummaryItem {
    var quantity := NormalizeNumber(Coalesce(item.quantidade, item.quantity)).GetOr(1.0);
    var safeQuantity := SafeQuantity(quantity);
    var total := NormalizeNumber(Coalesce(item.total, item.lineTotal)).GetOr(0.0);
    var unitRaw := NormalizeNumber(Coalesce(item.valorUnitario, item.unitPrice))
                   .GetOr(if safeQuantity != 0.0 then total / safeQuantity else total);
    SummaryItem(item.id.GetOr(NumberId(idx as real)),
                item.descricao.OrElse(item.description).GetOr("Item"),
                safeQuantity, Some(unitRaw),
                Some(TotalOr(total, unitRaw, safeQuantity)))
  }

  function MapItems(itens: seq<VeryfiItem>): (r: seq<SummaryItem>)
    ensures |r| == |itens|
  {
    seq(|itens|, k requires 0 <= k < |itens| => MapItem(itens[k], k))
  }

  /** An item's total; every mapped item has one. */
  function SummaryTotal(it: SummaryItem): real {
    it.total.GetOr(0.0)
  }

  /** `mapVeryfiSummaryToReceipt(summary)` */
  function MapSummary(summary: VeryfiSummary, now: string): ReceiptSummary {
    var items := MapItems(summary.itens.GetOr([]));
    var itemsTotal := SumOf(items, SummaryTotal);
    var totalAmount := NormalizeNumber(Coalesce(summary.totalCupom, summary.totalItens)).GetOr(itemsTotal);
    ReceiptSummary(summary.loja.GetOr("Cupom"), summary.dataCompra.GetOr(now), Some(totalAmount),
                   summary.moeda, items, summary.suggestedCategory.OrElse(summary.suggestedCategorySnake))
  }

  // ---------------------------------------------------------------------------
  // Reading numbers
  // ---------------------------------------------------------------------------

  /** `"1.234,56"` reads as 1234.56: the thousands dot is dropped and the comma is the decimal point. */
  lemma NormalizeBrazilian(i1: string, i2: string, f: string)
    requires AllDigits(i1) && AllDigits(i2) && AllDigits(f) && i1 != []
    ensures NormalizeNumber(Str(i1 + "." + i2 + "," + f)) == Some(Mantissa(i1 + i2, f))
  {
    var rest := i2 + "," + f;
    assert i1 + "." + i2 + "," + f == i1 + ['.'] + rest;
    RemoveFirstCharAt(i1, '.', rest);
    assert i1 + rest == (i1 + i2) + [','] + f;
    ReplaceFirstCharAt(i1 + i2, ',', '.', f);
    AllDigitsAppend(i1, i2);
    NormalDigits(i1 + i2, f);
  }

  /** `"34,90"` reads as 34.9. */
  lemma NormalizeDecimalComma(i: string, f: string)
    requires AllDigits(i) && AllDigits(f) && i != []
    ensures NormalizeNumber(Str(i + "," + f)) == Some(Mantissa(i, f))
  {
    var s := i + "," + f;
    assert s == i + [','] + f;
    ReplaceFirstAbsent(s, '.', []);
    ReplaceFirstCharAt(i, ',', '.', f);
    NormalDigits(i, f);
  }

  /** A single dot is taken for a thousands separator: `"12.50"` reads as 1250. */
  lemma NormalizeSingleDot(i: string, f: string)
    requires AllDigits(i) && AllDigits(f) && i != []
    ensures NormalizeNumber(Str(i + "." + f)) == Some(DigitsValue(i + f) as real)
  {
    assert i + "." + f == i + ['.'] + f;
    RemoveFirstCharAt(i, '.', f);
    AllDigitsAppend(i, f);
    ReplaceFirstAbsent(i + f, ',', ['.']);
    NumeralAgrees(i + f);
    IntegerNumeral(i + f);
  }

  /** `"i.f"` as `Number` reads it. */
  lemma NormalDigits(i: string, f: string)
    requires AllDigits(i) && AllDigits(f) && i != []
    ensures StringToNumber(i + "." + f) == Some(Mantissa(i, f))
  {
    var u := i + "." + f;
    assert AllNumeral(u) by {
      forall k | 0 <= k < |u| ensures IsNumeralChar(u[k]) {
        if k < |i| { assert u[k] == i[k]; } else if k > |i| { assert u[k] == f[k - |i| - 1]; }
      }
    }
    NumeralAgrees(u);
    DecimalNumeral(i, f);
  }

  // ---------------------------------------------------------------------------
  // The summary
  // ---------------------------------------------------------------------------

  /**
   * Each item: its quantity is the parsed one when positive and 1
   * otherwise; its unit price is the parsed unit field, else total over
   * quantity (never a division by zero); its total is the parsed total
   * unless that is 0 or missing, else unit price times quantity.
   */
  lemma MapItemSpec(item: VeryfiItem, idx: nat)
    ensures var r := MapItem(item, idx);
      var q := NormalizeNumber(Coalesce(item.quantidade, item.quantity));
      var t := NormalizeNumber(Coalesce(item.total, item.lineTotal)).GetOr(0.0);
      var u := NormalizeNumber(Coalesce(item.valorUnitario, item.unitPrice));
      r.quantity > 0.0
      && (q.Some? && q.value > 0.0 ==> r.quantity == q.value)
      && (q.None? || q.value <= 0.0 ==> r.quantity == 1.0)
      && (u.Some? ==> r.unitPrice == u)
      && (u.None? ==> r.unitPrice == Some(t / r.quantity))
      && r.total.Some?
      && (t != 0.0 ==> r.total.value == t)
      && (t == 0.0 ==> r.total.value == r.unitPrice.value * r.quantity)
      && (item.id.Some? ==> r.id == item.id.value)
      && (item.id.None? ==> r.id == NumberId(idx as real))
      && (item.descricao.None? && item.description.None? ==> r.description == "Item")
  {
  }

  /** The items keep their count and order; every one has a positive quantity and a total. */
  lemma MapSummaryItems(summary: VeryfiSummary, now: string)
    ensures var r := MapSummary(summary, now);
      var itens := summary.itens.GetOr([]);
      |r.items| == |itens|
      && forall k | 0 <= k < |itens| :: r.items[k] == MapItem(itens[k], k) && r.items[k].quantity > 0.0 && r.items[k].total.Some?
  {
  }

  /**
   * `total_amount` is always set. A given receipt total decides it and
   * hides the items total; one printed in the Brazilian format reads as
   * its value; with neither total given it is the sum of the items' totals.
   */
  lemma TotalAmountFallback(summary: VeryfiSummary, now: string, other: JsValue, i1: string, i2: string, f: string)
    ensures var r := MapSummary(summary, now);
      r.totalAmount.Some?
      && (!Nullish(summary.totalCupom) ==> MapSummary(summary.(totalItens := other), now).totalAmount == r.totalAmount)
      && (AllDigits(i1) && AllDigits(i2) && AllDigits(f) && i1 != [] && summary.totalCupom == Str(i1 + "." + i2 + "," + f) ==>
            r.totalAmount == Some(Mantissa(i1 + i2, f)))
      && (Nullish(summary.totalCupom) && Nullish(summary.totalItens) ==> r.totalAmount == Some(SumOf(r.items, SummaryTotal)))
  {
    if AllDigits(i1) && AllDigits(i2) && AllDigits(f) && i1 != [] && summary.totalCupom == Str(i1 + "." + i2 + "," + f) {
      NormalizeBrazilian(i1, i2, f);
    }
  }
}

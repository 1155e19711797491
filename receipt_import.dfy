/**
 * The import dialog's side of the extraction service: the standardised
 * summary becomes a `Receipt`, the dialog shows a "receipt total" derived
 * from it, and on a per-item save the user's category choices override the
 * suggested ones.
 *
 * Fresh ids, today's date and how an item id number prints are parameters.
 */
module ReceiptImport {
  import opened Wrappers
  import opened JsText
  import opened Money
  import opened FinanceTypes
  import VeryfiApi
  import WindowedParser
  import ReceiptOcr

  // ---------------------------------------------------------------------------
  // buildReceiptFromVeryfi
  // ---------------------------------------------------------------------------

  /** `item.quantity && item.quantity > 0 ? item.quantity : 1` */
  function PositiveQuantity(q: real): real {
    if q != 0.0 && q > 0.0 then q else 1.0
  }

  /** `typeof id === "number" ? id.toString() : id || crypto.randomUUID()` */
  function ImportedId(id: ItemId, numberText: real -> string, freshId: string): string {
    match id
    case NumberId(n) => numberText(n)
    case TextId(t) => if t != [] then t else freshId
  }

  function ImportItem(item: SummaryItem, numberText: real -> string, freshId: string): ReceiptItem {
    var qty := PositiveQuantity(item.quantity);
    var total := GivenTotal(item);
    var unit := if item.unitPrice.Some? then item.unitPrice.value
                else if qty != 0.0 then total / qty else total;
    ReceiptItem(TextId(ImportedId(item.id, numberText, freshId)),
                if item.description != [] then item.description else "Item",
                qty, unit, item.unitPrice, total, None, None, None, None, None)
  }

  /** The items in order; `freshIds(k)` is the id drawn for item `k` when it has none. */
  function ImportItems(items: seq<SummaryItem>, numberText: real -> string, freshIds: nat -> string): (r: seq<ReceiptItem>)
    ensures |r| == |items|
  {
    seq(|items|, k requires 0 <= k < |items| => ImportItem(items[k], numberText, freshIds(k)))
  }

  /** `Number(item.total ?? 0)` */
  function GivenTotal(item: SummaryItem): real {
    item.total.GetOr(0.0)
  }

  /** `buildReceiptFromVeryfi(summary)` */
  function BuildReceiptFromVeryfi(summary: ReceiptSummary, receiptId: string, today: string,
                                  numberText: real -> string, freshIds: nat -> string): Receipt
  {
    var items := ImportItems(summary.items, numberText, freshIds);
    var itemsTotal := Round2(SumOf(items, ItemTotal));
    var total := summary.totalAmount.GetOr(itemsTotal);
    Receipt(receiptId,
            if summary.store != [] then summary.store else "Cupom",
            None,
            if summary.purchaseDate != [] then Slice(summary.purchaseDate, 10) else today,
            Finite(total), items, "Importado via Veryfi", Some(total), Some(itemsTotal),
            Some(if Abs(itemsTotal - total) > 0.05 then [ServiceTotalDiffers] else []),
            summary.suggestedCategory)
  }

  // ---------------------------------------------------------------------------
  // The dialog's totals and the per-item override
  // ---------------------------------------------------------------------------

  /** The dialog's `itemsTotal`: the receipt's own when it has one, else the sum of its item totals. */
  function ShownItemsTotal(r: Receipt): real {
    if r.itemsTotal.Some? then r.itemsTotal.value else SumOf(r.items, ItemTotal)
  }

  /**
   * `cupomTotal = rawTotalFromReceipt ?? total ?? itemsTotal`. A receipt
   * always has a `total`, so the last fallback is never reached; a
   * non-finite total is passed on as it is.
   */
  function CupomTotal(r: Receipt): JsNum {
    if r.rawTotalFromReceipt.Some? then Finite(r.rawTotalFromReceipt.value) else r.total
  }

  /** `itemCategories[String(item.id)] ?? item.suggestedCategoryId`; a missing key stands for `undefined`. */
  function WithChosenCategory(item: ReceiptItem, chosen: map<string, string>, idText: ItemId -> string): ReceiptItem {
    var key := idText(item.id);
    item.(suggestedCategoryId := if key in chosen then Some(chosen[key]) else item.suggestedCategoryId)
  }

  /**
   * The receipt handed over on a per-item save: `total` is `cupomTotal ||
   * itemsTotal`, the raw total falls back to `cupomTotal`, and every
   * item takes the user's category choice for its id.
   */
  function EnrichForPerItem(r: Receipt, chosen: map<string, string>, idText: ItemId -> string): Receipt {
    var shown := ShownItemsTotal(r);
    var cupom := CupomTotal(r);
    r.(total := if cupom.Finite? && cupom.value != 0.0 then cupom else Finite(shown),
       itemsTotal := Some(shown),
       rawTotalFromReceipt := if r.rawTotalFromReceipt.Some? then r.rawTotalFromReceipt
                              else if cupom.Finite? then Some(cupom.value) else None,
       items := seq(|r.items|, k requires 0 <= k < |r.items| => WithChosenCategory(r.items[k], chosen, idText)))
  }

  // ---------------------------------------------------------------------------
  // What the imported receipt promises
  // ---------------------------------------------------------------------------

  /**
   * Each item: the quantity is positive, the given one when that is
   * positive and 1 otherwise; the unit price is the given one when present,
   * else total over quantity; the total is the given one, or 0.
   */
  lemma ImportItemSpec(item: SummaryItem, numberText: real -> string, freshId: string)
    ensures var r := ImportItem(item, numberText, freshId);
      r.quantity > 0.0
      && (item.quantity > 0.0 ==> r.quantity == item.quantity)
      && (item.quantity <= 0.0 ==> r.quantity == 1.0)
      && r.total == item.total.GetOr(0.0)
      && (item.unitPrice.Some? ==> r.unitPrice == item.unitPrice.value)
      && (item.unitPrice.None? ==> r.unitPrice == r.total / r.quantity)
      && r.unitPriceCompat == item.unitPrice
      && (item.description == [] ==> r.description == "Item")
      && (item.description != [] ==> r.description == item.description)
  {
  }

  /**
   * Every imported item has a text id: a non-empty text id is kept as it
   * is, and the id is never empty as long as printed numbers and fresh ids
   * are not, so the dialog can key the user's category choice by it.
   */
  lemma ImportedIdSpec(items: seq<SummaryItem>, numberText: real -> string, freshIds: nat -> string)
    ensures var r := ImportItems(items, numberText, freshIds);
      (forall k | 0 <= k < |r| :: r[k].id.TextId?)
      && (forall k | 0 <= k < |r| :: items[k].id.TextId? && items[k].id.text != [] ==> r[k].id == items[k].id)
      && ((forall n :: numberText(n) != []) && (forall j :: freshIds(j) != []) ==>
            forall k | 0 <= k < |r| :: r[k].id.text != [])
  {
    var r := ImportItems(items, numberText, freshIds);
    forall k | 0 <= k < |r|
      ensures r[k].id == TextId(ImportedId(items[k].id, numberText, freshIds(k)))
    {
    }
  }

  /**
   * One item per summary item, in order; `itemsTotal` is the rounded sum
   * of the item totals, and both `total` and `rawTotalFromReceipt` are
   * `total_amount`, or `itemsTotal` when that is missing.
   */
  lemma ImportedTotals(summary: ReceiptSummary, receiptId: string, today: string,
                       numberText: real -> string, freshIds: nat -> string)
    ensures var r := BuildReceiptFromVeryfi(summary, receiptId, today, numberText, freshIds);
      var itemsTotal := Round2(SumOf(summary.items, GivenTotal));
      |r.items| == |summary.items|
      && r.itemsTotal == Some(itemsTotal) && IsCents(itemsTotal)
      && (summary.totalAmount.Some? ==> r.total == Finite(summary.totalAmount.value))
      && (summary.totalAmount.None? ==> r.total == Finite(itemsTotal))
      && r.rawTotalFromReceipt.Some? && r.total == Finite(r.rawTotalFromReceipt.value)
  {
    var items := ImportItems(summary.items, numberText, freshIds);
    forall k | 0 <= k < |items| ensures ItemTotal(items[k]) == GivenTotal(summary.items[k]) {
      ImportItemSpec(summary.items[k], numberText, freshIds(k));
    }
    SumOfPointwise(items, ItemTotal, summary.items, GivenTotal);
    Round2Spec(SumOf(items, ItemTotal));
  }

  /**
   * There is one warning exactly when the items total and the total differ
   * by more than 0.05, so none when the summary has no total.
   */
  lemma ImportedWarnings(summary: ReceiptSummary, receiptId: string, today: string,
                         numberText: real -> string, freshIds: nat -> string)
    ensures var r := BuildReceiptFromVeryfi(summary, receiptId, today, numberText, freshIds);
      var ws := r.warnings.value;
      r.warnings.Some? && |ws| <= 1
      && (|ws| == 1 <==> Abs(r.itemsTotal.value - r.total.value) > 0.05)
      && (|ws| == 1 ==> ws[0] == ServiceTotalDiffers)
      && (summary.totalAmount.None? ==> ws == [])
  {
  }

  /** The date is the first ten characters of the purchase date, or today without one; the store defaults to "Cupom". */
  lemma ImportedDateAndStore(summary: ReceiptSummary, receiptId: string, today: string,
                             numberText: real -> string, freshIds: nat -> string)
    ensures var r := BuildReceiptFromVeryfi(summary, receiptId, today, numberText, freshIds);
      (summary.purchaseDate == [] ==> r.date == today)
      && (summary.purchaseDate != [] ==>
            |r.date| == (if |summary.purchaseDate| < 10 then |summary.purchaseDate| else 10)
            && r.date == summary.purchaseDate[..|r.date|])
      && (summary.store == [] ==> r.storeName == "Cupom")
      && (summary.store != [] ==> r.storeName == summary.store)
      && r.suggestedCategory == summary.suggestedCategory && r.rawText == "Importado via Veryfi"
  {
  }

  /**
   * For a receipt read from an image the dialog shows its stored total,
   * which is the printed total when the parser found one and the items
   * total otherwise, and always a number.
   */
  lemma CupomTotalSpec(parsed: WindowedParser.WParsed, rawText: string, receiptId: string, today: string)
    ensures var r := ReceiptOcr.BuildReceipt(parsed, rawText, receiptId, today);
      CupomTotal(r) == r.total && ShownItemsTotal(r) == r.itemsTotal.value
      && CupomTotal(r) == Finite(if parsed.totalCupom.Some? then parsed.totalCupom.value else ShownItemsTotal(r))
  {
  }

  /** For an imported receipt the dialog shows its total, which is `total_amount ?? itemsTotal`. */
  lemma CupomOfImported(summary: ReceiptSummary, receiptId: string, today: string,
                        numberText: real -> string, freshIds: nat -> string)
    ensures var r := BuildReceiptFromVeryfi(summary, receiptId, today, numberText, freshIds);
      CupomTotal(r) == r.total && ShownItemsTotal(r) == r.itemsTotal.value
  {
  }

  /**
   * On a per-item save every item keeps everything but its category id,
   * which is the user's choice for its id when there is one and the
   * suggested one otherwise; every other field of the receipt but the
   * totals is unchanged.
   */
  lemma OverridePrecedence(r: Receipt, chosen: map<string, string>, idText: ItemId -> string)
    ensures var e := EnrichForPerItem(r, chosen, idText);
      |e.items| == |r.items|
      && e.id == r.id && e.storeName == r.storeName && e.date == r.date && e.warnings == r.warnings
      && forall k | 0 <= k < |r.items| ::
           var key := idText(r.items[k].id);
           e.items[k] == r.items[k].(suggestedCategoryId := e.items[k].suggestedCategoryId)
           && (key in chosen ==> e.items[k].suggestedCategoryId == Some(chosen[key]))
           && (key !in chosen ==> e.items[k].suggestedCategoryId == r.items[k].suggestedCategoryId)
  {
  }

  /**
   * The saved total is the shown receipt total unless that is 0 or not a
   * number, and then the shown items total; the raw total is kept when
   * there is one.
   */
  lemma EnrichedTotals(r: Receipt, chosen: map<string, string>, idText: ItemId -> string)
    ensures var e := EnrichForPerItem(r, chosen, idText);
      var c := CupomTotal(r);
      e.total.Finite?
      && (c.Finite? && c.value != 0.0 ==> e.total == c)
      && (c.NotFinite? || c.value == 0.0 ==> e.total.value == ShownItemsTotal(r))
      && e.itemsTotal == Some(ShownItemsTotal(r))
      && (r.rawTotalFromReceipt.Some? ==> e.rawTotalFromReceipt == r.rawTotalFromReceipt)
      && (r.rawTotalFromReceipt.None? && r.total.Finite? ==> e.rawTotalFromReceipt == Some(r.total.value))
  {
  }

  /**
   * A receipt imported from the extraction service always names a store:
   * the service's when it gave a non-empty one, else "Cupom". Its date is
   * the first ten characters of the service's date; without one it is
   * those of the current time's ISO text, and only an empty date given by
   * the service falls back to today.
   */
  lemma ServiceStoreAndDate(summary: VeryfiApi.VeryfiSummary, now: string, receiptId: string, today: string,
                            numberText: real -> string, freshIds: nat -> string)
    ensures var r := BuildReceiptFromVeryfi(VeryfiApi.MapSummary(summary, now), receiptId, today, numberText, freshIds);
      r.storeName != []
      && (summary.loja.Some? && summary.loja.value != [] ==> r.storeName == summary.loja.value)
      && (summary.loja.None? || summary.loja.value == [] ==> r.storeName == "Cupom")
      && (summary.dataCompra.Some? && summary.dataCompra.value != [] ==> r.date == Slice(summary.dataCompra.value, 10))
      && (summary.dataCompra.None? && now != [] ==> r.date == Slice(now, 10))
      && (summary.dataCompra == Some([]) ==> r.date == today)
      && r.suggestedCategory == summary.suggestedCategory.OrElse(summary.suggestedCategorySnake)
  {
  }
}

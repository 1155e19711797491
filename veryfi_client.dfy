/**
 * The extraction backend's summary of a document returned by the extraction
 * service: every figure is read into a finite number, the line items are
 * rounded to cents, and a category is guessed from the vendor's texts.
 *
 * How a number prints (`String(n)`), used only when a vendor field holds a
 * number, is the parameter `numberText`.
 */
module VeryfiClient {
  import opened Wrappers
  import opened JsText
  import opened JsNumber
  import opened Money
  import opened Lists
  import LineParser

  // ---------------------------------------------------------------------------
  // toNumber
  // ---------------------------------------------------------------------------

  /**
   * `toNumber(value)`: a number is kept; a text is trimmed, stripped of
   * everything but digits, dots, commas and minus signs, rid of every dot,
   * and its first comma made a dot before `Number` reads it; anything that
   * is not a finite number comes out as 0.
   */
  function ToNumber(v: JsValue): real {
    match v
    case Num(n) => n
    case Str(s) => StringToNumber(LineParser.CleanMoney(Trim(s))).GetOr(0.0)
    case _ => 0.0
  }

  /** White space around the text holds no numeral character: filtering ignores the trim. */
  lemma TrimKeepsNumerals(s: string)
    ensures Filter(Trim(s), IsNumeralChar) == Filter(s, IsNumeralChar)
  {
    var a := LeadingSpaces(s);
    var t := Trim(s);
    TrimSegment(s);
    TrimRemovesSpaces(s);
    var pre, post := s[..a], s[a + |t|..];
    assert s == pre + t + post;
    forall i | 0 <= i < |pre| ensures !IsNumeralChar(pre[i]) {
      SpaceNotNumeral(s[i]);
    }
    forall i | 0 <= i < |post| ensures !IsNumeralChar(post[i]) {
      SpaceNotNumeral(s[a + |t| + i]);
    }
    FilterAppend(pre + t, post, IsNumeralChar);
    FilterAppend(pre, t, IsNumeralChar);
    FilterNone(pre, IsNumeralChar);
    FilterNone(post, IsNumeralChar);
  }

  lemma SpaceNotNumeral(c: char)
    requires IsSpace(c)
    ensures !IsNumeralChar(c)
  {
  }

  /** On texts the backend reads amounts as the line classifier's money parser does, with 0 for its `null`. */
  lemma ToNumberIsBrazilianMoney(s: string)
    ensures ToNumber(Str(s)) == LineParser.ParseBrazilianMoney(s).GetOr(0.0)
  {
    TrimKeepsNumerals(s);
    assert LineParser.CleanMoney(Trim(s)) == LineParser.CleanMoney(s);
    LineParser.ParseIsNumber(s);
  }

  /**
   * An amount printed `1.234,56`, with anything but numeral characters
   * around it (`R$ 1.234,56 `), reads as its value: every dot is a
   * thousands separator and the comma the decimal point.
   */
  lemma ToNumberOfAmount(prefix: string, w: string, cents: string, suffix: string)
    requires LineParser.NoNumeralChars(prefix) && LineParser.NoNumeralChars(suffix)
    requires LineParser.DigitsAndDots(w) && AllDigits(cents) && |cents| == 2
    ensures ToNumber(Str(prefix + w + [','] + cents + suffix)) == Mantissa(LineParser.DigitsOf(w), cents)
  {
    var body := w + [','] + cents;
    assert prefix + w + [','] + cents + suffix == prefix + body + suffix;
    ToNumberIsBrazilianMoney(prefix + body + suffix);
    LineParser.ParseAmount(w, cents);
    LineParser.ParseSurrounded(prefix, body, suffix);
  }

  // ---------------------------------------------------------------------------
  // detectSuggestedCategory
  // ---------------------------------------------------------------------------

  /** `String(v)` for the truthy values a vendor field can hold. */
  function Text(v: JsValue, numberText: real -> string): string {
    match v
    case Str(s) => s
    case Num(n) => numberText(n)
    case Bool(b) => if b then "true" else "false"
    case _ => "[object Object]"
  }

  /** `fields.filter(Boolean)`, each as the join prints it. */
  function TruthyTexts(fields: seq<JsValue>, numberText: real -> string): (r: seq<string>)
    ensures |r| <= |fields|
  {
    var kept := Keep(fields, Truthy);
    seq(|kept|, k requires 0 <= k < |kept| => Text(kept[k], numberText))
  }

  /** `fields.filter(Boolean).join(" ")` */
  function BucketOf(fields: seq<JsValue>, numberText: real -> string): string {
    var texts := TruthyTexts(fields, numberText);
    if texts == [] then [] else Join(texts, ' ')
  }

  predicate ContainsAny(s: string, words: seq<string>) {
    exists k | 0 <= k < |words| :: Contains(s, words[k])
  }

  const PharmacyWords: seq<string> := ["farmacia", "drug", "pharm", "drogaria"]
  const MarketWords: seq<string> := ["mercado", "market", "supermarket", "grocery"]

  /** `detectSuggestedCategory` on the lower-cased bucket of vendor texts. */
  function SuggestFromText(bucket: string): Option<string> {
    if ContainsAny(bucket, PharmacyWords) then Some("farmacia")
    else if ContainsAny(bucket, MarketWords) then Some("mercado")
    else None
  }

  /** The texts that describe the vendor, in the order they are joined. */
  datatype VendorTexts = VendorTexts(
    category: JsValue,
    vendorCategory: JsValue,
    vendorType: JsValue,
    vendorName: JsValue,
    vendorRawName: JsValue,
    vendorNameField: JsValue)

  /** The vendor texts in the order `detectSuggestedCategory` lists them. */
  function VendorFields(t: VendorTexts): (r: seq<JsValue>)
    ensures |r| == 6
  {
    [t.category, t.vendorCategory, t.vendorType, t.vendorName, t.vendorRawName, t.vendorNameField]
  }

  function DetectSuggestedCategory(t: VendorTexts, numberText: real -> string): Option<string> {
    SuggestFromText(ToLower(BucketOf(VendorFields(t), numberText)))
  }

  /**
   * A vendor text that names a pharmacy, in any case, makes the suggestion
   * `farmacia` whatever the other texts say; a market word in any text
   * gives `mercado` unless some text names a pharmacy; and there is no
   * suggestion only when no text holds either kind of word.
   */
  lemma SuggestionFromField(t: VendorTexts, numberText: real -> string, k: nat)
    ensures var fields := VendorFields(t);
      var r := DetectSuggestedCategory(t, numberText);
      k < 6 && Truthy(fields[k]) ==>
        var lower := ToLower(Text(fields[k], numberText));
        (ContainsAny(lower, PharmacyWords) ==> r == Some("farmacia"))
        && (ContainsAny(lower, MarketWords) ==> r.Some?)
        && (r == Some("mercado") ==> !ContainsAny(lower, PharmacyWords))
    ensures DetectSuggestedCategory(t, numberText) in {None, Some("farmacia"), Some("mercado")}
  {
    var fields := VendorFields(t);
    if k < 6 && Truthy(fields[k]) {
      var bucket := ToLower(BucketOf(fields, numberText));
      var lower := ToLower(Text(fields[k], numberText));
      BucketHoldsTexts(fields, numberText, k);
      ToLowerContains(BucketOf(fields, numberText), Text(fields[k], numberText));
      ContainsAnyWithin(bucket, lower, PharmacyWords);
      ContainsAnyWithin(bucket, lower, MarketWords);
    }
  }

  /** A word held by a contained text is held by the text. */
  lemma ContainsAnyWithin(s: string, t: string, words: seq<string>)
    requires Contains(s, t)
    ensures ContainsAny(t, words) ==> ContainsAny(s, words)
  {
    if ContainsAny(t, words) {
      var k :| 0 <= k < |words| && Contains(t, words[k]);
      ContainsWithin(s, t, words[k]);
    }
  }

  /** Falsy fields leave no trace in the bucket. */
  lemma BucketSkipsFalsy(fields: seq<JsValue>, numberText: real -> string)
    requires forall k | 0 <= k < |fields| :: !Truthy(fields[k])
    ensures TruthyTexts(fields, numberText) == [] && BucketOf(fields, numberText) == []
  {
    KeepNone(fields, Truthy);
  }

  /**
   * The joined texts are exactly those of the truthy fields: a text is
   * joined iff some truthy field prints as it.
   */
  lemma TruthyTextsSpec(fields: seq<JsValue>, numberText: real -> string)
    ensures forall x :: x in TruthyTexts(fields, numberText) <==>
      exists k | 0 <= k < |fields| :: Truthy(fields[k]) && x == Text(fields[k], numberText)
  {
    var kept := Keep(fields, Truthy);
    var texts := TruthyTexts(fields, numberText);
    KeepMembers(fields, Truthy);
    forall x | x in texts
      ensures exists k | 0 <= k < |fields| :: Truthy(fields[k]) && x == Text(fields[k], numberText)
    {
      var j :| 0 <= j < |texts| && texts[j] == x;
      assert kept[j] in kept;
      var k :| 0 <= k < |fields| && fields[k] == kept[j];
    }
    forall x | exists k | 0 <= k < |fields| :: Truthy(fields[k]) && x == Text(fields[k], numberText)
      ensures x in texts
    {
      var k :| 0 <= k < |fields| && Truthy(fields[k]) && x == Text(fields[k], numberText);
      assert fields[k] in kept;
      var j :| 0 <= j < |kept| && kept[j] == fields[k];
      assert texts[j] == x;
    }
  }

  /** The filter distributes over concatenation, so the texts keep the fields' order. */
  lemma TruthyTextsAppend(a: seq<JsValue>, b: seq<JsValue>, numberText: real -> string)
    ensures TruthyTexts(a + b, numberText) == TruthyTexts(a, numberText) + TruthyTexts(b, numberText)
  {
    KeepAppend(a, b, Truthy);
  }

  /** Each truthy field's text is in the bucket. */
  lemma BucketHoldsTexts(fields: seq<JsValue>, numberText: real -> string, k: nat)
    requires k < |fields| && Truthy(fields[k])
    ensures Contains(BucketOf(fields, numberText), Text(fields[k], numberText))
  {
    var texts := TruthyTexts(fields, numberText);
    TruthyTextsSpec(fields, numberText);
    assert Text(fields[k], numberText) in texts;
    var j :| 0 <= j < |texts| && texts[j] == Text(fields[k], numberText);
    JoinContains(texts, ' ', j);
  }

  // ---------------------------------------------------------------------------
  // buildReceiptSummary
  // ---------------------------------------------------------------------------

  /** One entry of `doc.line_items`. */
  datatype LineItem = LineItem(
    id: JsValue,
    description: JsValue,
    text: JsValue,
    quantity: JsValue,
    qty: JsValue,
    total: JsValue,
    lineTotal: JsValue,
    netTotal: JsValue,
    price: JsValue,
    unitPrice: JsValue)

  /** The fields of the document the summary reads; `lineItems` is `None` when it is not an array. */
  datatype Doc = Doc(
    vendor: VendorTexts,
    billToName: JsValue,
    date: JsValue,
    createdDate: JsValue,
    currencyCode: JsValue,
    total: JsValue,
    totalAmount: JsValue,
    subtotal: JsValue,
    netTotal: JsValue,
    lineItems: Option<seq<LineItem>>)

  datatype BackendItem = BackendItem(
    id: JsValue,
    descricao: JsValue,
    quantidade: real,
    valorUnitario: real,
    total: real,
    unitPrice: real,
    lineTotal: real)

  datatype BackendSummary = BackendSummary(
    loja: JsValue,
    dataCompra: JsValue,
    totalCupom: real,
    moeda: JsValue,
    itens: seq<BackendItem>,
    totalItens: real,
    suggestedCategory: Option<string>)

  /** `Number(quantity ?? qty ?? 1)` when finite, else 1. */
  function Quantity(item: LineItem): real {
    match JsNumber.ToNumber(Coalesce(item.quantity, Coalesce(item.qty, Num(1.0))))
    case Some(n) => n
    case None => 1.0
  }

  /**
   * `toNumber(total ?? line_total ?? net_total ?? (price && quantidade ?
   * price * quantidade : 0))`; the product is a JavaScript `*`, which reads
   * both sides with `Number`, and `toNumber` turns its NaN into 0.
   */
  function ItemTotal(item: LineItem, quantidade: real): real {
    var given := Coalesce(item.total, Coalesce(item.lineTotal, item.netTotal));
    if !Nullish(given) then ToNumber(given)
    else if Truthy(item.price) && quantidade != 0.0 then
      match JsNumber.ToNumber(item.price)
      case Some(p) => p * quantidade
      case None => 0.0
    else 0.0
  }

  function BuildItem(item: LineItem, index: nat): BackendItem {
    var quantidade := Quantity(item);
    var totalItem := ItemTotal(item, quantidade);
    var unitarioCalc := if quantidade > 0.0 then totalItem / quantidade
                        else ToNumber(Coalesce(item.unitPrice, Coalesce(item.price, Num(0.0))));
    var valorUnitario := Round2(unitarioCalc);
    var total := Round2(totalItem);
    BackendItem(Coalesce(item.id, Num((index + 1) as real)),
                Or(item.description, Or(item.text, Str("Item"))),
                quantidade, valorUnitario, total, valorUnitario, total)
  }

  function BuildItems(lineItems: seq<LineItem>): (r: seq<BackendItem>)
    ensures |r| == |lineItems|
  {
    seq(|lineItems|, k requires 0 <= k < |lineItems| => BuildItem(lineItems[k], k))
  }

  /** `it.total || 0` */
  function TotalOrZero(it: BackendItem): real {
    if it.total != 0.0 then it.total else 0.0
  }

  /** `Number(toNumber(total ?? total_amount ?? subtotal ?? net_total ?? 0).toFixed(2))` */
  function TotalCupom(doc: Doc): real {
    Round2(ToNumber(Coalesce(doc.total, Coalesce(doc.totalAmount, Coalesce(doc.subtotal, Coalesce(doc.netTotal, Num(0.0)))))))
  }

  /** `buildReceiptSummary(doc)` */
  function BuildReceiptSummary(doc: Doc, numberText: real -> string): BackendSummary {
    var itens := if doc.lineItems.Some? then BuildItems(doc.lineItems.value) else [];
    var totalItens := SumOf(itens, TotalOrZero);
    BackendSummary(
      Or(doc.vendor.vendorName, Or(doc.vendor.vendorRawName, Or(doc.vendor.vendorNameField, Or(doc.billToName, Str(""))))),
      Or(doc.date, Or(doc.createdDate, Null)),
      TotalCupom(doc),
      Or(doc.currencyCode, Str("BRL")),
      itens,
      Round2(totalItens),
      DetectSuggestedCategory(doc.vendor, numberText))
  }

  // ---------------------------------------------------------------------------
  // What the summary promises
  // ---------------------------------------------------------------------------

  /**
   * The quantity is 1 when neither `quantity` nor `qty` is given; a given
   * `quantity` hides `qty`; a number is taken as it is and a text of digits
   * as their value, but a text with a decimal comma (`"2,5"`) is not a
   * number to `Number` and so counts as 1.
   */
  lemma QuantitySpec(item: LineItem, other: JsValue)
    ensures Nullish(item.quantity) && Nullish(item.qty) ==> Quantity(item) == 1.0
    ensures !Nullish(item.quantity) ==> Quantity(item.(qty := other)) == Quantity(item)
    ensures item.quantity.Num? ==> Quantity(item) == item.quantity.n
    ensures item.quantity.Str? && AllDigits(item.quantity.s) && item.quantity.s != [] ==>
      Quantity(item) == DigitsValue(item.quantity.s) as real
    ensures item.quantity.Str? && AllNumeral(item.quantity.s) && ',' in item.quantity.s ==> Quantity(item) == 1.0
  {
    if item.quantity.Str? {
      var q := item.quantity.s;
      if AllDigits(q) && q != [] {
        assert AllNumeral(q) by {
          forall i | 0 <= i < |q| ensures IsNumeralChar(q[i]) {
            assert IsDigit(q[i]);
          }
        }
        NumeralAgrees(q);
        IntegerNumeral(q);
      }
      if AllNumeral(q) && ',' in q {
        var k :| 0 <= k < |q| && q[k] == ',';
        NumeralAgrees(q);
        CommaNumeral(q, k);
      }
    }
  }

  /** A quantity given as 0 or a negative number is kept as it is. */
  lemma QuantityMayBeNonPositive(item: LineItem, n: real)
    requires item.quantity == Num(n) && n <= 0.0
    ensures Quantity(item) == n
  {
  }

  /**
   * The unit price is the item total over the quantity only when the
   * quantity is positive, and otherwise the item's own price fields; unit
   * price and total are both whole cents.
   */
  lemma BuildItemSpec(item: LineItem, index: nat)
    ensures var r := BuildItem(item, index);
      var q := Quantity(item);
      var t := ItemTotal(item, q);
      r.quantidade == q
      && (q > 0.0 ==> r.valorUnitario == Round2(t / q))
      && (q <= 0.0 ==> r.valorUnitario == Round2(ToNumber(Coalesce(item.unitPrice, Coalesce(item.price, Num(0.0))))))
      && r.total == Round2(t) && IsCents(r.total) && IsCents(r.valorUnitario)
      && r.unitPrice == r.valorUnitario && r.lineTotal == r.total
      && (Nullish(item.id) ==> r.id == Num((index + 1) as real))
      && (!Truthy(item.description) && !Truthy(item.text) ==> r.descricao == Str("Item"))
  {
    var q := Quantity(item);
    var t := ItemTotal(item, q);
    Round2Spec(t);
    if q > 0.0 {
      Round2Spec(t / q);
    } else {
      Round2Spec(ToNumber(Coalesce(item.unitPrice, Coalesce(item.price, Num(0.0)))));
    }
  }

  /** The item total is the first given total field; the price times the quantity only when none is. */
  lemma ItemTotalSpec(item: LineItem, quantidade: real)
    ensures !Nullish(item.total) ==> ItemTotal(item, quantidade) == ToNumber(item.total)
    ensures Nullish(item.total) && !Nullish(item.lineTotal) ==> ItemTotal(item, quantidade) == ToNumber(item.lineTotal)
    ensures Nullish(item.total) && Nullish(item.lineTotal) && Nullish(item.netTotal) && item.price.Num? && quantidade != 0.0 ==>
      ItemTotal(item, quantidade) == item.price.n * quantidade
  {
  }

  /**
   * One summary item per line item, in order (none when `line_items` is
   * not an array); `total_itens` is the rounded sum of their totals and
   * `total_cupom` the rounded first given document total, both whole cents.
   */
  lemma SummarySpec(doc: Doc, numberText: real -> string)
    ensures var r := BuildReceiptSummary(doc, numberText);
      (doc.lineItems.None? ==> r.itens == [])
      && (doc.lineItems.Some? ==>
            |r.itens| == |doc.lineItems.value|
            && forall k | 0 <= k < |r.itens| :: r.itens[k] == BuildItem(doc.lineItems.value[k], k))
      && r.totalItens == Round2(SumOf(r.itens, (it: BackendItem) => it.total))
      && IsCents(r.totalItens) && IsCents(r.totalCupom)
  {
    var r := BuildReceiptSummary(doc, numberText);
    SumOfPointwise(r.itens, TotalOrZero, r.itens, (it: BackendItem) => it.total);
    Round2Spec(SumOf(r.itens, TotalOrZero));
    TotalCupomFallback(doc, Null, Null, Null);
  }

  /**
   * `total_cupom` is whole cents. The first given document total decides
   * it and hides every later one; a total given as text is read as the
   * receipt-line money parser reads amounts (0 for what it cannot read);
   * with no total at all it is 0.
   */
  lemma TotalCupomFallback(doc: Doc, a: JsValue, b: JsValue, c: JsValue)
    ensures IsCents(TotalCupom(doc))
    ensures !Nullish(doc.total) ==> TotalCupom(doc.(totalAmount := a, subtotal := b, netTotal := c)) == TotalCupom(doc)
    ensures Nullish(doc.total) && !Nullish(doc.totalAmount) ==> TotalCupom(doc.(subtotal := b, netTotal := c)) == TotalCupom(doc)
    ensures doc.total.Str? ==> TotalCupom(doc) == Round2(LineParser.ParseBrazilianMoney(doc.total.s).GetOr(0.0))
    ensures Nullish(doc.total) && Nullish(doc.totalAmount) && Nullish(doc.subtotal) && Nullish(doc.netTotal) ==>
      TotalCupom(doc) == 0.0
  {
    Round2Spec(ToNumber(Coalesce(doc.total, Coalesce(doc.totalAmount, Coalesce(doc.subtotal, Coalesce(doc.netTotal, Num(0.0)))))));
    if doc.total.Str? {
      ToNumberIsBrazilianMoney(doc.total.s);
    }
    assert IsCents(0.0);
    Round2Cents(0.0);
  }

  /**
   * The summary always names a currency, BRL when the document has none.
   * The store is one of the four name fields or empty, and it is empty
   * exactly when every one of them is; the date is the document date,
   * else the creation date, and `null` exactly when neither is given.
   */
  lemma SummaryDefaults(doc: Doc, numberText: real -> string)
    ensures var r := BuildReceiptSummary(doc, numberText);
      Truthy(r.moeda) && (Truthy(doc.currencyCode) ==> r.moeda == doc.currencyCode)
      && (r.loja == doc.vendor.vendorName || r.loja == doc.vendor.vendorRawName
          || r.loja == doc.vendor.vendorNameField || r.loja == doc.billToName || r.loja == Str(""))
      && (Truthy(r.loja) <==> Truthy(doc.vendor.vendorName) || Truthy(doc.vendor.vendorRawName)
                              || Truthy(doc.vendor.vendorNameField) || Truthy(doc.billToName))
      && (r.dataCompra == doc.date || r.dataCompra == doc.createdDate || r.dataCompra == Null)
      && (Truthy(r.dataCompra) <==> Truthy(doc.date) || Truthy(doc.createdDate))
      && (!Truthy(doc.date) && !Truthy(doc.createdDate) ==> r.dataCompra == Null)
  {
  }
}

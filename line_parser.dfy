/**
 * The line-classifying receipt parser (`src/lib/receiptParser.ts`): a money
 * parser for Brazilian amounts, a first-match classifier for receipt lines,
 * and a single pass over the lines of an OCR text that collects the store,
 * the date, the printed total and the priced items, folds discount lines into
 * the item before them and flags a total that disagrees with the item sum.
 *
 * The regular expressions of the source are written out as scanners over the
 * line; the comment on each says which expression it decides and why the
 * scanner finds the same match.
 */
module LineParser {
  import opened Wrappers
  import opened JsText
  import opened JsNumber
  import opened Money

  // ---------------------------------------------------------------------------
  // parseBrazilianMoney
  // ---------------------------------------------------------------------------

  predicate IsNotDot(c: char) {
    c != '.'
  }

  /**
   * The text handed to `Number`: only digits, commas, dots and minus signs
   * (`[\d,.-]`) are kept, every dot (the thousands separator) is dropped,
   * and the first comma (the decimal separator) becomes a dot.
   */
  function CleanMoney(text: string): string {
    ReplaceFirstChar(Filter(Filter(text, IsNumeralChar), IsNotDot), ',', '.')
  }

  /** `parseBrazilianMoney(text)`: the cleaned text as a number, `None` for `null`. */
  function ParseBrazilianMoney(text: string): Option<real> {
    NumeralNumber(CleanMoney(text))
  }

  /** The cleaned text holds only numeral characters. */
  lemma CleanMoneyNumeral(text: string)
    ensures AllNumeral(CleanMoney(text))
  {
    var a := Filter(text, IsNumeralChar);
    var b := Filter(a, IsNotDot);
    FilterKeeps(text, IsNumeralChar);
    FilterKeeps(a, IsNotDot);
    ReplaceFirstCharChars(b, ',', '.');
  }

  /** The amount read is `Number` of the cleaned text, `None` when that is NaN. */
  lemma ParseIsNumber(text: string)
    ensures ParseBrazilianMoney(text) == StringToNumber(CleanMoney(text))
  {
    CleanMoneyNumeral(text);
    NumeralAgrees(CleanMoney(text));
  }

  predicate NoNumeralChars(s: string) {
    forall i | 0 <= i < |s| :: !IsNumeralChar(s[i])
  }

  /** Digits with dots as thousands separators, as in `1.234`. */
  predicate DigitsAndDots(s: string) {
    forall i | 0 <= i < |s| :: IsDigit(s[i]) || s[i] == '.'
  }

  lemma {:induction false} FilterSame(s: string, p: char -> bool, q: char -> bool)
    requires forall i | 0 <= i < |s| :: p(s[i]) == q(s[i])
    ensures Filter(s, p) == Filter(s, q)
  {
    if s != [] {
      FilterSame(s[1..], p, q);
    }
  }

  /** The digits of a text, in order. */
  function DigitsOf(s: string): (r: string)
    ensures AllDigits(r) && ',' !in r
  {
    FilterKeeps(s, IsDigit);
    Filter(s, IsDigit)
  }

  /** Of `prefix body suffix`, only `body` survives the first filter when it alone holds numeral characters. */
  lemma Unwrap(prefix: string, body: string, suffix: string)
    requires NoNumeralChars(prefix) && NoNumeralChars(suffix) && AllNumeral(body)
    ensures Filter(prefix + body + suffix, IsNumeralChar) == body
  {
    FilterAppend(prefix + body, suffix, IsNumeralChar);
    FilterAppend(prefix, body, IsNumeralChar);
    FilterNone(prefix, IsNumeralChar);
    FilterNone(suffix, IsNumeralChar);
    FilterAll(body, IsNumeralChar);
  }

  /** Dropping the dots of a grouped integer part leaves its digits. */
  lemma DropDots(w: string, rest: string)
    requires DigitsAndDots(w) && forall i | 0 <= i < |rest| :: rest[i] != '.'
    ensures Filter(w + rest, IsNotDot) == DigitsOf(w) + rest
  {
    FilterAppend(w, rest, IsNotDot);
    FilterSame(w, IsNotDot, IsDigit);
    FilterAll(rest, IsNotDot);
  }

  /** Text around an amount that holds no digit, comma, dot or minus sign (`R$ `, a label, spaces) changes nothing. */
  lemma ParseSurrounded(prefix: string, body: string, suffix: string)
    requires NoNumeralChars(prefix) && NoNumeralChars(suffix) && AllNumeral(body)
    ensures ParseBrazilianMoney(prefix + body + suffix) == ParseBrazilianMoney(body)
  {
    Unwrap(prefix, body, suffix);
    FilterAll(body, IsNumeralChar);
  }

  /**
   * Cleaning `sign w,tail`, where `sign` is empty or a minus sign and `w` is
   * digits and dots, gives the sign, the digits of `w`, a dot and the tail.
   */
  lemma CleanGrouped(sign: string, w: string, tail: string)
    requires sign == [] || sign == ['-']
    requires DigitsAndDots(w)
    requires forall i | 0 <= i < |tail| :: IsNumeralChar(tail[i]) && tail[i] != '.' && tail[i] != ','
    ensures AllNumeral(sign + w + [','] + tail)
    ensures CleanMoney(sign + w + [','] + tail) == sign + DigitsOf(w) + ['.'] + tail
  {
    var rest := [','] + tail;
    var body := sign + (w + rest);
    assert sign + w + [','] + tail == body;
    forall i | 0 <= i < |body| ensures IsNumeralChar(body[i]) {
      if i >= |sign| + |w| + 1 {
        assert body[i] == tail[i - |sign| - |w| - 1];
      }
    }
    FilterAll(body, IsNumeralChar);
    DropDots(w, rest);
    FilterAppend(sign, w + rest, IsNotDot);
    FilterAll(sign, IsNotDot);
    var d := DigitsOf(w);
    assert Filter(body, IsNotDot) == (sign + d) + [','] + tail;
    ReplaceFirstCharAt(sign + d, ',', '.', tail);
  }

  /**
   * A Brazilian amount `1.234,56` reads as its value: the digits of the
   * grouped integer part as the whole part, the two digits after the comma
   * as the fraction (which `Cents` shows is that many hundredths).
   */
  lemma ParseAmount(w: string, cents: string)
    requires DigitsAndDots(w) && AllDigits(cents) && |cents| == 2
    ensures AllNumeral(w + [','] + cents)
    ensures ParseBrazilianMoney(w + [','] + cents)
      == Some(Mantissa(DigitsOf(w), cents))
  {
    var d := DigitsOf(w);
    CleanGrouped([], w, cents);
    assert [] + w == w && [] + d == d;
    assert d + ['.'] + cents == d + "." + cents;
    DecimalNumeral(d, cents);
  }

  /** With a minus sign before the amount, as in `-5,00`, the value is negative. */
  lemma ParseNegativeAmount(w: string, cents: string)
    requires DigitsAndDots(w) && AllDigits(cents) && |cents| == 2
    ensures AllNumeral(['-'] + w + [','] + cents)
    ensures ParseBrazilianMoney(['-'] + w + [','] + cents)
      == Some(-Mantissa(DigitsOf(w), cents))
  {
    var d := DigitsOf(w);
    CleanGrouped(['-'], w, cents);
    assert ['-'] + d + ['.'] + cents == "-" + (d + "." + cents);
    NegativeDecimalNumeral(d, cents);
  }

  /** A minus sign after the amount, as in `5,00-`, makes the text unreadable. */
  lemma TrailingMinusAmount(w: string, cents: string)
    requires DigitsAndDots(w) && AllDigits(cents)
    ensures AllNumeral(w + [','] + cents + ['-'])
    ensures ParseBrazilianMoney(w + [','] + cents + ['-']) == None
  {
    var tail := cents + ['-'];
    var d := DigitsOf(w);
    CleanGrouped([], w, tail);
    assert [] + w == w && [] + d == d;
    assert w + [','] + tail == w + [','] + cents + ['-'];
    assert d + ['.'] + tail == d + "." + cents + "-";
    TrailingMinusNumeral(d, cents);
  }

  /** A character that survives filtering stays in the filtered text. */
  lemma {:induction false} FilterKeepsChar(s: string, keep: char -> bool, k: nat)
    requires k < |s| && keep(s[k])
    ensures s[k] in Filter(s, keep)
  {
    if k > 0 {
      FilterKeepsChar(s[1..], keep, k - 1);
    }
  }

  /** Two commas, as in `1,2,3`: only the first becomes a dot, and no number has a comma. */
  lemma TwoCommasAreNaN(text: string, j: nat, k: nat)
    requires j < k < |text| && text[j] == ',' && text[k] == ','
    ensures ParseBrazilianMoney(text) == None
  {
    var c := Filter(Filter(text, IsNumeralChar), IsNotDot);
    var q1, q2 := TwoCommasKept(text, j, k);
    var m := SecondCommaRemains(c, q1, q2);
    CommaNumeral(CleanMoney(text), m);
  }

  /** Dropping the other characters and the dots keeps both commas. */
  lemma TwoCommasKept(text: string, j: nat, k: nat) returns (q1: nat, q2: nat)
    requires j < k < |text| && text[j] == ',' && text[k] == ','
    ensures q1 < q2 < |Filter(Filter(text, IsNumeralChar), IsNotDot)|
    ensures Filter(Filter(text, IsNumeralChar), IsNotDot)[q1] == ','
    ensures Filter(Filter(text, IsNumeralChar), IsNotDot)[q2] == ','
  {
    var a, b := text[..k], text[k..];
    assert text == a + b;
    FilterAppend(a, b, IsNumeralChar);
    var a1, b1 := Filter(a, IsNumeralChar), Filter(b, IsNumeralChar);
    assert b == [','] + b[1..];
    FilterAppend([','], b[1..], IsNumeralChar);
    assert b1 == [','] + Filter(b[1..], IsNumeralChar);
    FilterKeepsChar(a, IsNumeralChar, j);
    FilterAppend(a1, b1, IsNotDot);
    var a2, b2 := Filter(a1, IsNotDot), Filter(b1, IsNotDot);
    FilterAppend([','], Filter(b[1..], IsNumeralChar), IsNotDot);
    assert b2 == [','] + Filter(Filter(b[1..], IsNumeralChar), IsNotDot);
    var i :| 0 <= i < |a1| && a1[i] == ',';
    FilterKeepsChar(a1, IsNotDot, i);
    q1 :| 0 <= q1 < |a2| && a2[q1] == ',';
    q2 := |a2|;
  }

  /** Only the first comma becomes a point, so a second one remains. */
  lemma SecondCommaRemains(c: string, q1: nat, q2: nat) returns (m: nat)
    requires q1 < q2 < |c| && c[q1] == ',' && c[q2] == ','
    ensures m < |ReplaceFirstChar(c, ',', '.')| && ReplaceFirstChar(c, ',', '.')[m] == ','
  {
    IndexOfFromSpec(c, [','], 0);
    OccursAtChar(c, ',', q1);
    var p := IndexOf(c, [',']).value;
    assert p <= q1;
    var r := ReplaceFirstChar(c, ',', '.');
    assert r == c[..p] + ['.'] + c[p + 1..];
    m := q2;
    assert c[p + 1..][q2 - p - 1] == ',';
  }


  /** A text with no digit, comma, dot or minus sign, such as `abc`, cleans to `""`, which is 0. */
  lemma NoNumeralCharsIsZero(text: string)
    requires NoNumeralChars(text)
    ensures ParseBrazilianMoney(text) == Some(0.0)
  {
    FilterNone(text, IsNumeralChar);
    ReplaceFirstCharAbsent([], ',', '.');
  }

  // ---------------------------------------------------------------------------
  // classifyReceiptLine
  // ---------------------------------------------------------------------------

  datatype LineKind = Item | Discount | Total | Paid | Change | PaymentMethod | Header | Footer | Unknown

  predicate IsHeaderText(text: string) {
    || Contains(text, "cnpj")
    || Contains(text, "documento auxiliar")
    || Contains(text, "consumidor")
    || Contains(text, "inscric")
    || Contains(text, "telefone")
    || Contains(text, "fone")
  }

  /** `/^total\s+r?\$?/i.test(line)`: `total` in any case, then white space (the rest may match empty). */
  predicate StartsWithTotalWord(line: string) {
    |line| > 5 && OccursAtI(line, "total", 0) && IsSpace(line[5])
  }

  predicate IsTotalText(text: string, line: string) {
    || Contains(text, "total a pagar")
    || StartsWith(text, "total :")
    || StartsWith(text, "total:")
    || Contains(text, "valor total r$")
    || StartsWithTotalWord(line)
  }

  predicate IsPaidText(text: string) {
    Contains(text, "valor pago") || Contains(text, "total pago") || Contains(text, "valor pago r$")
  }

  predicate IsChangeText(text: string) {
    Contains(text, "troco")
  }

  predicate IsPaymentText(text: string) {
    || Contains(text, "forma de pagamento")
    || Contains(text, "cartao debito")
    || Contains(text, "cartao credito")
    || Contains(text, "dinheiro")
    || Contains(text, "pix")
  }

  predicate IsDiscountText(text: string) {
    Contains(text, "desconto")
  }

  /** `/\d/.test(s)` */
  predicate HasDigit(s: string) {
    exists i | 0 <= i < |s| :: IsDigit(s[i])
  }

  predicate IsSeparator(c: char) {
    c == '.' || c == ','
  }

  /**
   * `\$\s*\d+[.,]\d{2}` matches at the `$` at `p` (the optional `r` before
   * it changes nothing): neither `\s*` nor `\d+` can give characters back,
   * because what follows each of them cannot match what they consumed.
   */
  predicate CurrencyPriceAt(line: string, p: nat) {
    p < |line| && line[p] == '$' &&
    var q := p + 1 + LeadingSpaces(line[p + 1..]);
    var n := DigitRun(line[q..]);
    n >= 1 && q + n + 3 <= |line| &&
    IsSeparator(line[q + n]) && IsDigit(line[q + n + 1]) && IsDigit(line[q + n + 2])
  }

  /** `/r?\$\s*\d+[.,]\d{2}/i.test(line)` */
  predicate HasCurrencyPrice(line: string) {
    exists p | 0 <= p < |line| :: CurrencyPriceAt(line, p)
  }

  /** `/\d+[.,]\d{2}\s*$/.test(line)`: without its trailing white space the line ends in `d.dd` or `d,dd`. */
  predicate HasTrailingPrice(line: string) {
    var t := TrimEnd(line);
    |t| >= 4 && IsDigit(t[|t| - 4]) && IsSeparator(t[|t| - 3]) && IsDigit(t[|t| - 2]) && IsDigit(t[|t| - 1])
  }

  /** Which of the classifier's tests a line passes, each on its own. */
  datatype Signals = Signals(
    header: bool, total: bool, paid: bool, change: bool, payment: bool, discount: bool, item: bool)

  function SignalsOf(line: string): Signals {
    var text := ToLower(line);
    Signals(
      IsHeaderText(text), IsTotalText(text, line), IsPaidText(text), IsChangeText(text),
      IsPaymentText(text), IsDiscountText(text),
      HasDigit(text) && (HasCurrencyPrice(line) || HasTrailingPrice(line)))
  }

  /** The chain of `if`s of the classifier, the first test passed deciding. */
  function KindOf(g: Signals): LineKind {
    if g.header then Header
    else if g.total then Total
    else if g.paid then Paid
    else if g.change then Change
    else if g.payment then PaymentMethod
    else if g.discount then Discount
    else if g.item then Item
    else Unknown
  }

  /** `classifyReceiptLine(line)` */
  function ClassifyLine(line: string): LineKind {
    if Trim(ToLower(line)) == [] then Unknown else KindOf(SignalsOf(line))
  }

  /** The kinds the classifier can return for a non-blank line, in the order it tries them. */
  const Precedence: seq<LineKind> := [Header, Total, Paid, Change, PaymentMethod, Discount, Item]

  /** The test for one kind. */
  predicate Passes(g: Signals, kind: LineKind) {
    match kind
    case Header => g.header
    case Total => g.total
    case Paid => g.paid
    case Change => g.change
    case PaymentMethod => g.payment
    case Discount => g.discount
    case Item => g.item
    case _ => false
  }

  /**
   * First match: the chain returns the kind at position `k` of the
   * precedence list exactly when that kind's test passes and no earlier
   * one does.
   */
  lemma KindOfFirstMatch(g: Signals, k: nat)
    requires k < |Precedence|
    ensures KindOf(g) == Precedence[k] <==> Passes(g, Precedence[k]) && forall j | 0 <= j < k :: !Passes(g, Precedence[j])
  {
    var p := Precedence;
    assert p[0] == Header && p[1] == Total && p[2] == Paid && p[3] == Change;
    assert p[4] == PaymentMethod && p[5] == Discount && p[6] == Item;
  }

  /** The chain returns `unknown` exactly when no test passes; it never returns `footer`. */
  lemma KindOfUnknown(g: Signals)
    ensures KindOf(g) == Unknown <==> forall j | 0 <= j < |Precedence| :: !Passes(g, Precedence[j])
    ensures KindOf(g) != Footer
  {
    var p := Precedence;
    assert p[0] == Header && p[1] == Total && p[2] == Paid && p[3] == Change;
    assert p[4] == PaymentMethod && p[5] == Discount && p[6] == Item;
  }

  /** Lower-casing neither creates nor removes white space or digits. */
  lemma LowerCharClass(c: char)
    ensures IsSpace(LowerChar(c)) <==> IsSpace(c)
    ensures IsDigit(LowerChar(c)) <==> IsDigit(c)
  {
  }

  /** A line is blank exactly when its lower-cased text is. */
  lemma BlankLower(line: string)
    ensures Trim(ToLower(line)) == [] <==> Trim(line) == []
  {
    var text := ToLower(line);
    TrimEmpty(line);
    TrimEmpty(text);
    forall i | 0 <= i < |line| ensures IsSpace(text[i]) <==> IsSpace(line[i]) {
      LowerCharClass(line[i]);
    }
  }

  /** A blank line is `unknown`; any other line gets the kind of the first test it passes. */
  lemma ClassifyByTests(line: string)
    ensures Trim(line) == [] ==> ClassifyLine(line) == Unknown
    ensures Trim(line) != [] ==> ClassifyLine(line) == KindOf(SignalsOf(line))
  {
    BlankLower(line);
  }

  /** Text that contains a non-space character is not blank. */
  lemma NotBlank(s: string, i: nat)
    requires i < |s| && !IsSpace(s[i])
    ensures Trim(s) != []
  {
    TrimEmpty(s);
  }

  /** Text containing a pattern that starts with a non-space character is not blank. */
  lemma ContainsNotBlank(text: string, pat: string)
    requires Contains(text, pat) && pat != [] && !IsSpace(pat[0])
    ensures Trim(text) != []
  {
    ContainsSpec(text, pat);
    var i: nat :| OccursAt(text, pat, i);
    assert text[i] == pat[0];
    NotBlank(text, i);
  }

  /** A line mentioning the CNPJ (or a phone number, or the consumer) is a header, whatever price it shows. */
  lemma HeaderWins(line: string)
    requires IsHeaderText(ToLower(line))
    ensures ClassifyLine(line) == Header
  {
    var text := ToLower(line);
    if Contains(text, "cnpj") {
      ContainsNotBlank(text, "cnpj");
    } else if Contains(text, "documento auxiliar") {
      ContainsNotBlank(text, "documento auxiliar");
    } else if Contains(text, "consumidor") {
      ContainsNotBlank(text, "consumidor");
    } else if Contains(text, "inscric") {
      ContainsNotBlank(text, "inscric");
    } else if Contains(text, "telefone") {
      ContainsNotBlank(text, "telefone");
    } else {
      ContainsNotBlank(text, "fone");
    }
    BlankLower(line);
  }

  /** `item` needs a digit and a price pattern: `$` and an amount with two decimals, or such an amount at the end. */
  lemma ItemNeedsPrice(line: string)
    requires ClassifyLine(line) == Item
    ensures HasDigit(line)
    ensures HasCurrencyPrice(line) || HasTrailingPrice(line)
  {
    var text := ToLower(line);
    var i :| 0 <= i < |text| && IsDigit(text[i]);
    LowerCharClass(line[i]);
  }

  // ---------------------------------------------------------------------------
  // The amount text of an item line
  // ---------------------------------------------------------------------------

  /** `[\d.,]` */
  predicate IsAmountChar(c: char) {
    IsDigit(c) || c == '.' || c == ','
  }

  /** The length of the longest prefix of amount characters. */
  function AmountRun(s: string): (n: nat)
    ensures n <= |s|
  {
    if s != [] && IsAmountChar(s[0]) then 1 + AmountRun(s[1..]) else 0
  }

  /** The length of the longest suffix of amount characters. */
  function TrailingAmountRun(s: string): (n: nat)
    ensures n <= |s|
  {
    if s != [] && IsAmountChar(s[|s| - 1]) then 1 + TrailingAmountRun(s[..|s| - 1]) else 0
  }

  /**
   * Group 1 of `/r?\$\s*([\d.,]+)/i`, searching from `p`: the first `$`
   * after which, past white space, an amount character follows; the group is
   * the whole run of amount characters there.
   */
  function CurrencyAmountFrom(line: string, p: nat): Option<string>
    decreases |line| - p
  {
    if p >= |line| then None
    else if line[p] == '$' && AmountRun(line[p + 1 + LeadingSpaces(line[p + 1..])..]) > 0 then
      var q := p + 1 + LeadingSpaces(line[p + 1..]);
      Some(line[q..q + AmountRun(line[q..])])
    else CurrencyAmountFrom(line, p + 1)
  }

  /**
   * Group 1 of `/([\d.,]+)\s*$/`: the leftmost match starts where the run of
   * amount characters ending the line (before its trailing white space)
   * starts, and takes all of it.
   */
  function TrailingAmount(line: string): Option<string> {
    var t := TrimEnd(line);
    var n := TrailingAmountRun(t);
    if n == 0 then None else Some(t[|t| - n..])
  }

  /** `priceMatch`: the `$`-prefixed amount, or else the amount ending the line. */
  function PriceText(line: string): Option<string> {
    CurrencyAmountFrom(line, 0).OrElse(TrailingAmount(line))
  }

  lemma {:induction false} AmountRunChars(s: string)
    ensures forall i | 0 <= i < AmountRun(s) :: IsAmountChar(s[i])
  {
    if s != [] && IsAmountChar(s[0]) {
      AmountRunChars(s[1..]);
    }
  }

  lemma {:induction false} TrailingAmountRunChars(s: string)
    ensures forall i | |s| - TrailingAmountRun(s) <= i < |s| :: IsAmountChar(s[i])
  {
    if s != [] && IsAmountChar(s[|s| - 1]) {
      TrailingAmountRunChars(s[..|s| - 1]);
    }
  }

  /** The `$`-prefixed amount is a non-empty run of amount characters standing in the line. */
  lemma {:induction false} CurrencyAmountSpec(line: string, p: nat)
    decreases |line| - p
    ensures var r := CurrencyAmountFrom(line, p);
      r.Some? ==> r.value != [] && (forall i | 0 <= i < |r.value| :: IsAmountChar(r.value[i]))
                  && exists q: nat :: OccursAt(line, r.value, q)
  {
    if p < |line| {
      var q := p + 1 + LeadingSpaces(line[p + 1..]);
      if line[p] == '$' && AmountRun(line[q..]) > 0 {
        AmountRunChars(line[q..]);
        var r := line[q..q + AmountRun(line[q..])];
        assert OccursAt(line, r, q);
      } else {
        CurrencyAmountSpec(line, p + 1);
      }
    }
  }

  /** The price text of a line, when there is one, is a non-empty run of amount characters standing in the line. */
  lemma PriceTextSpec(line: string)
    ensures var r := PriceText(line);
      r.Some? ==> r.value != [] && (forall i | 0 <= i < |r.value| :: IsAmountChar(r.value[i]))
                  && exists q: nat :: OccursAt(line, r.value, q)
  {
    CurrencyAmountSpec(line, 0);
    if CurrencyAmountFrom(line, 0).None? && TrailingAmount(line).Some? {
      var t := TrimEnd(line);
      var n := TrailingAmountRun(t);
      TrailingAmountRunChars(t);
      assert OccursAt(line, t[|t| - n..], |t| - n);
    }
  }

  // ---------------------------------------------------------------------------
  // parseReceiptText
  // ---------------------------------------------------------------------------

  /** A parsed item; `isDiscount` false stands for the absent field. */
  datatype ParsedItem = ParsedItem(description: string, value: real, isDiscount: bool)

  function ItemValue(it: ParsedItem): real {
    it.value
  }

  /** The mismatch warning, with the two figures its message shows. */
  datatype LibWarning = TotalMismatch(itemsTotal: real, rawTotal: real)

  datatype ParsedReceipt = ParsedReceipt(
    storeName: Option<string>,
    date: Option<string>,
    rawTotalFromReceipt: Option<real>,
    itemsTotal: real,
    items: seq<ParsedItem>,
    warnings: seq<LibWarning>,
    rawText: string)

  /** The item an `item` line yields: its price text read as money, and the line without that text. */
  function ItemOf(line: string): (r: Option<ParsedItem>)
    ensures r.Some? ==> PriceText(line).Some? && ParseBrazilianMoney(PriceText(line).value) == Some(r.value.value)
    ensures r.Some? ==> !r.value.isDiscount && (line != [] ==> r.value.description != [])
  {
    match PriceText(line)
    case None => None
    case Some(p) =>
      match ParseBrazilianMoney(p)
      case None => None
      case Some(v) =>
        var d := Trim(ReplaceFirst(line, p, ""));
        Some(ParsedItem(if d != [] then d else line, v, false))
  }

  /** `\d{2}\/\d{2}\/\d{4}` at `p`. */
  predicate DateAt(s: string, p: nat) {
    p + 10 <= |s| && IsDigit(s[p]) && IsDigit(s[p + 1]) && s[p + 2] == '/'
    && IsDigit(s[p + 3]) && IsDigit(s[p + 4]) && s[p + 5] == '/'
    && IsDigit(s[p + 6]) && IsDigit(s[p + 7]) && IsDigit(s[p + 8]) && IsDigit(s[p + 9])
  }

  function FirstDateFrom(s: string, p: nat): (r: Option<nat>)
    decreases |s| - p
    ensures r.Some? ==> p <= r.value && DateAt(s, r.value)
  {
    if p + 10 > |s| then None
    else if DateAt(s, p) then Some(p)
    else FirstDateFrom(s, p + 1)
  }

  lemma {:induction false} FirstDateFromSpec(s: string, p: nat)
    decreases |s| - p
    ensures var r := FirstDateFrom(s, p);
      (r.Some? ==> forall j | p <= j < r.value :: !DateAt(s, j))
      && (r.None? ==> forall j | p <= j :: !DateAt(s, j))
  {
    if p + 10 <= |s| && !DateAt(s, p) {
      FirstDateFromSpec(s, p + 1);
    }
  }

  /** `line.match(/\d{2}\/\d{2}\/\d{4}/)?.[0]`: the leftmost date, verbatim. */
  function DateIn(line: string): Option<string> {
    match FirstDateFrom(line, 0)
    case None => None
    case Some(p) => Some(line[p..p + 10])
  }

  // The `forEach` updates four independent pieces of state; each is given
  // here as its own fold over the lines visited so far.

  /** `storeName` after visiting `lines`: the first line among the first four that sets it. */
  function StoreNameAfter(lines: seq<string>): Option<string> {
    if lines == [] then None
    else
      var s := StoreNameAfter(lines[..|lines| - 1]);
      if |lines| - 1 <= 3 && (s.None? || s.value == []) then Some(lines[|lines| - 1]) else s
  }

  /** `receiptDate` after visiting `lines`. */
  function DateAfter(lines: seq<string>): Option<string> {
    if lines == [] then None
    else
      var d := DateAfter(lines[..|lines| - 1]);
      if d.None? && DateIn(lines[|lines| - 1]).Some? then DateIn(lines[|lines| - 1]) else d
  }

  /**
   * What the `switch` looks at in a line: its kind, its amount (the whole
   * line read as money) and, for an item, the item it yields.
   */
  datatype LineReading = LineReading(kind: LineKind, amount: Option<real>, item: Option<ParsedItem>)

  function ReadLine(line: string): LineReading {
    LineReading(ClassifyLine(line), ParseBrazilianMoney(line), ItemOf(line))
  }

  function ReadLines(lines: seq<string>): seq<LineReading> {
    seq(|lines|, i requires 0 <= i < |lines| => ReadLine(lines[i]))
  }

  /** A `total` line whose amount parses. */
  predicate ReadableTotal(r: LineReading) {
    r.kind == Total && r.amount.Some?
  }

  /** `rawTotalFromReceipt` after visiting the lines read as `rs`. */
  function TotalAfter(rs: seq<LineReading>): Option<real> {
    if rs == [] then None
    else if ReadableTotal(rs[|rs| - 1]) then rs[|rs| - 1].amount
    else TotalAfter(rs[..|rs| - 1])
  }

  /** The item list and `lastItem`, which points into it. */
  datatype ItemScan = ItemScan(items: seq<ParsedItem>, lastItem: Option<nat>)

  /** `items.push(item); lastItem = item` */
  function PushItem(sc: ItemScan, item: Option<ParsedItem>): ItemScan {
    match item
    case None => sc
    case Some(it) => ItemScan(sc.items + [it], Some(|sc.items|))
  }

  /** The discounted item: its value plus the discount, rounded to cents, and the mark. */
  function Discounted(it: ParsedItem, v: real): ParsedItem {
    it.(value := Round2(it.value + v), isDiscount := true)
  }

  /** The `discount` case: the amount, when it parses and an item came before, goes into that item. */
  function ApplyDiscount(sc: ItemScan, amount: Option<real>): ItemScan {
    match (amount, sc.lastItem)
    case (Some(v), Some(k)) =>
      if k < |sc.items| then ItemScan(sc.items[k := Discounted(sc.items[k], v)], sc.lastItem) else sc
    case _ => sc
  }

  function ItemStep(sc: ItemScan, r: LineReading): ItemScan {
    match r.kind
    case Item => PushItem(sc, r.item)
    case Discount => ApplyDiscount(sc, r.amount)
    case _ => sc
  }

  /** `items` and `lastItem` after visiting the lines read as `rs`. */
  function ItemsAfter(rs: seq<LineReading>): ItemScan {
    if rs == [] then ItemScan([], None)
    else ItemStep(ItemsAfter(rs[..|rs| - 1]), rs[|rs| - 1])
  }

  /** The item sum and the warning computed after the pass. */
  function Finish(storeName: Option<string>, date: Option<string>, total: Option<real>,
                  items: seq<ParsedItem>, rawText: string): ParsedReceipt
  {
    var itemsTotal := Round2(SumOf(items, ItemValue));
    var warnings :=
      if total.Some? && Abs(itemsTotal - total.value) > 0.05 then [TotalMismatch(itemsTotal, total.value)]
      else [];
    ParsedReceipt(storeName, date, total, itemsTotal, items, warnings, rawText)
  }

  /** The pass that `parseReceiptText` performs, in functional form. */
  function ParseReceipt(rawText: string): ParsedReceipt {
    var lines := ReceiptLines(rawText);
    var rs := ReadLines(lines);
    Finish(StoreNameAfter(lines), DateAfter(lines), TotalAfter(rs), ItemsAfter(rs).items, rawText)
  }

  /**
   * The `forEach` callback: visits `line` at position `index`, updating the
   * store name, the date, the total and the items with the last item.
   */
  method VisitLine(line: string, index: nat, storeName: Option<string>, receiptDate: Option<string>,
                   rawTotal: Option<real>, items: seq<ParsedItem>, lastItem: Option<nat>)
    returns (storeName': Option<string>, receiptDate': Option<string>, rawTotal': Option<real>,
             items': seq<ParsedItem>, lastItem': Option<nat>)
    ensures storeName' == if index <= 3 && (storeName.None? || storeName.value == []) then Some(line) else storeName
    ensures receiptDate' == if receiptDate.None? && DateIn(line).Some? then DateIn(line) else receiptDate
    ensures rawTotal' == if ReadableTotal(ReadLine(line)) then ReadLine(line).amount else rawTotal
    ensures ItemScan(items', lastItem') == ItemStep(ItemScan(items, lastItem), ReadLine(line))
  {
    storeName', receiptDate' := storeName, receiptDate;
    var kind := ClassifyLine(line);

    if index <= 3 && (storeName.None? || storeName.value == []) {
      storeName' := Some(line);
    }

    if receiptDate.None? && DateIn(line).Some? {
      receiptDate' := DateIn(line);
    }

    rawTotal', items', lastItem' := VisitKind(kind, line, rawTotal, items, lastItem);
  }

  /** The `switch` on the kind of `line` within the callback. */
  method VisitKind(kind: LineKind, line: string, rawTotal: Option<real>, items: seq<ParsedItem>, lastItem: Option<nat>)
    returns (rawTotal': Option<real>, items': seq<ParsedItem>, lastItem': Option<nat>)
    ensures var r := LineReading(kind, ParseBrazilianMoney(line), ItemOf(line));
      rawTotal' == (if ReadableTotal(r) then r.amount else rawTotal)
      && ItemScan(items', lastItem') == ItemStep(ItemScan(items, lastItem), r)
  {
    rawTotal', items', lastItem' := rawTotal, items, lastItem;
    match kind {
      case Total =>
        var value := ParseBrazilianMoney(line);
        if value.Some? {
          rawTotal' := value;
        }
      case Item =>
        var item := ItemOf(line);
        if item.Some? {
          lastItem' := Some(|items|);
          items' := items + [item.value];
        }
      case Discount =>
        var value := ParseBrazilianMoney(line);
        if value.Some? && lastItem.Some? && lastItem.value < |items| {
          var k := lastItem.value;
          items' := items[k := Discounted(items[k], value.value)];
        }
      case _ =>
    }
  }


  /** `lines.forEach(...)`: the callback applied to every line in order. */
  method VisitLines(lines: seq<string>)
    returns (storeName: Option<string>, receiptDate: Option<string>, rawTotalFromReceipt: Option<real>,
             items: seq<ParsedItem>)
    ensures storeName == StoreNameAfter(lines)
    ensures receiptDate == DateAfter(lines)
    ensures rawTotalFromReceipt == TotalAfter(ReadLines(lines))
    ensures items == ItemsAfter(ReadLines(lines)).items
  {
    ghost var rs := ReadLines(lines);
    items := [];
    storeName := None;
    receiptDate := None;
    rawTotalFromReceipt := None;
    var lastItem: Option<nat> := None;

    for index := 0 to |lines|
      invariant storeName == StoreNameAfter(lines[..index])
      invariant receiptDate == DateAfter(lines[..index])
      invariant rawTotalFromReceipt == TotalAfter(rs[..index])
      invariant ItemScan(items, lastItem) == ItemsAfter(rs[..index])
    {
      storeName, receiptDate, rawTotalFromReceipt, items, lastItem :=
        VisitNext(lines, rs, index, storeName, receiptDate, rawTotalFromReceipt, items, lastItem);
    }
    assert lines[..|lines|] == lines && rs[..|lines|] == rs;
  }

  /** One turn of the `forEach`: the callback on `lines[index]` extends each fold by one line. */
  method VisitNext(lines: seq<string>, ghost rs: seq<LineReading>, index: nat, storeName: Option<string>,
                   receiptDate: Option<string>, rawTotal: Option<real>, items: seq<ParsedItem>, lastItem: Option<nat>)
    returns (storeName': Option<string>, receiptDate': Option<string>, rawTotal': Option<real>,
             items': seq<ParsedItem>, lastItem': Option<nat>)
    requires rs == ReadLines(lines) && index < |lines|
    requires storeName == StoreNameAfter(lines[..index]) && receiptDate == DateAfter(lines[..index])
    requires rawTotal == TotalAfter(rs[..index]) && ItemScan(items, lastItem) == ItemsAfter(rs[..index])
    ensures storeName' == StoreNameAfter(lines[..index + 1]) && receiptDate' == DateAfter(lines[..index + 1])
    ensures rawTotal' == TotalAfter(rs[..index + 1]) && ItemScan(items', lastItem') == ItemsAfter(rs[..index + 1])
  {
    LineStep(lines, index);
    ReadingStep(rs, index);
    storeName', receiptDate', rawTotal', items', lastItem' :=
      VisitLine(lines[index], index, storeName, receiptDate, rawTotal, items, lastItem);
  }

  /** `parseReceiptText(rawText)` */
  method ParseReceiptText(rawText: string) returns (r: ParsedReceipt)
    ensures r == ParseReceipt(rawText)
    ensures |r.warnings| <= 1
    ensures r.warnings != [] <==> r.rawTotalFromReceipt.Some? && Abs(r.itemsTotal - r.rawTotalFromReceipt.value) > 0.05
  {
    var lines := ReceiptLines(rawText);
    var storeName, receiptDate, rawTotalFromReceipt, items := VisitLines(lines);
    r := FinishReceipt(storeName, receiptDate, rawTotalFromReceipt, items, rawText);
  }

  /** The end of `parseReceiptText`: the rounded item sum and the warning. */
  method FinishReceipt(storeName: Option<string>, receiptDate: Option<string>, rawTotalFromReceipt: Option<real>,
                       items: seq<ParsedItem>, rawText: string) returns (r: ParsedReceipt)
    ensures r == Finish(storeName, receiptDate, rawTotalFromReceipt, items, rawText)
    ensures |r.warnings| <= 1
    ensures r.warnings != [] <==> r.rawTotalFromReceipt.Some? && Abs(r.itemsTotal - r.rawTotalFromReceipt.value) > 0.05
  {
    var itemsTotal := Round2(SumOf(items, ItemValue));
    var warnings: seq<LibWarning> := [];
    if rawTotalFromReceipt.Some? && Abs(itemsTotal - rawTotalFromReceipt.value) > 0.05 {
      warnings := warnings + [TotalMismatch(itemsTotal, rawTotalFromReceipt.value)];
    }
    r := ParsedReceipt(storeName, receiptDate, rawTotalFromReceipt, itemsTotal, items, warnings, rawText);
  }


  /** What visiting one more line does to the store name and the date. */
  lemma LineStep(lines: seq<string>, index: nat)
    requires index < |lines|
    ensures var s := StoreNameAfter(lines[..index]);
      StoreNameAfter(lines[..index + 1]) == if index <= 3 && (s.None? || s.value == []) then Some(lines[index]) else s
    ensures var d := DateAfter(lines[..index]);
      DateAfter(lines[..index + 1]) == if d.None? && DateIn(lines[index]).Some? then DateIn(lines[index]) else d
  {
    assert lines[..index + 1][..index] == lines[..index];
  }

  /** What one more reading does to the total and the items. */
  lemma ReadingStep(rs: seq<LineReading>, index: nat)
    requires index < |rs|
    ensures TotalAfter(rs[..index + 1]) == if ReadableTotal(rs[index]) then rs[index].amount else TotalAfter(rs[..index])
    ensures ItemsAfter(rs[..index + 1]) == ItemStep(ItemsAfter(rs[..index]), rs[index])
  {
    assert rs[..index + 1][..index] == rs[..index];
  }


  // ---------------------------------------------------------------------------
  // What the pass computes
  // ---------------------------------------------------------------------------

  /** `lastItem` is always the item pushed last. */
  lemma {:induction false} LastItemIsLast(rs: seq<LineReading>)
    ensures var sc := ItemsAfter(rs);
      sc.lastItem == (if sc.items == [] then None else Some(|sc.items| - 1))
  {
    if rs != [] {
      LastItemIsLast(rs[..|rs| - 1]);
    }
  }

  /** The store name is the first line, since every line is non-empty. */
  lemma {:induction false} StoreNameIsFirstLine(lines: seq<string>)
    requires forall k | 0 <= k < |lines| :: lines[k] != []
    ensures StoreNameAfter(lines) == (if lines == [] then None else Some(lines[0]))
  {
    if lines != [] {
      var init := lines[..|lines| - 1];
      StoreNameIsFirstLine(init);
      if init != [] {
        assert init[0] == lines[0];
      }
    }
  }

  /** The date is the leftmost date of the first line that has one. */
  lemma {:induction false} DateIsFirstMatch(lines: seq<string>, k: nat)
    requires k < |lines| && DateIn(lines[k]).Some?
    requires forall j | 0 <= j < k :: DateIn(lines[j]).None?
    ensures DateAfter(lines) == DateIn(lines[k])
  {
    var init := lines[..|lines| - 1];
    if k < |lines| - 1 {
      DateIsFirstMatch(init, k);
    } else {
      NoDateYet(init);
    }
  }

  /** No line with a date, no date. */
  lemma {:induction false} NoDateYet(lines: seq<string>)
    requires forall j | 0 <= j < |lines| :: DateIn(lines[j]).None?
    ensures DateAfter(lines).None?
  {
    if lines != [] {
      NoDateYet(lines[..|lines| - 1]);
    }
  }

  /** Of several readable total lines, the last one wins. */
  lemma {:induction false} LastTotalWins(rs: seq<LineReading>, k: nat)
    requires k < |rs| && ReadableTotal(rs[k])
    requires forall j | k < j < |rs| :: !ReadableTotal(rs[j])
    ensures TotalAfter(rs) == rs[k].amount
  {
    if k < |rs| - 1 {
      LastTotalWins(rs[..|rs| - 1], k);
    }
  }

  /** Without a readable total line there is no total. */
  lemma {:induction false} NoTotal(rs: seq<LineReading>)
    requires forall j | 0 <= j < |rs| :: !ReadableTotal(rs[j])
    ensures TotalAfter(rs).None?
  {
    if rs != [] {
      NoTotal(rs[..|rs| - 1]);
    }
  }

  /** The items the `item` lines yield, in line order, before any discount is folded in. */
  function PricedItems(rs: seq<LineReading>): seq<ParsedItem> {
    if rs == [] then []
    else
      var r := rs[|rs| - 1];
      PricedItems(rs[..|rs| - 1]) + (if r.kind == Item && r.item.Some? then [r.item.value] else [])
  }

  /**
   * One item per readable `item` line, in line order, each carrying its
   * line's description; discounts change only values and marks.
   */
  lemma {:induction false} ItemsFollowLines(rs: seq<LineReading>)
    ensures |ItemsAfter(rs).items| == |PricedItems(rs)|
    ensures forall k | 0 <= k < |PricedItems(rs)| ::
      ItemsAfter(rs).items[k].description == PricedItems(rs)[k].description
  {
    if rs != [] {
      ItemsFollowLines(rs[..|rs| - 1]);
    }
  }

  /** Without discount lines the items are exactly the priced items. */
  lemma {:induction false} ItemsWithoutDiscounts(rs: seq<LineReading>)
    requires forall j | 0 <= j < |rs| :: rs[j].kind != Discount
    ensures ItemsAfter(rs).items == PricedItems(rs)
  {
    if rs != [] {
      ItemsWithoutDiscounts(rs[..|rs| - 1]);
    }
  }

  /**
   * A discount line adds its amount to the most recent item, rounded to
   * cents, and marks it; every other item stays as it is. With no item
   * before it, or an unreadable amount, it changes no item.
   */
  lemma DiscountFolds(rs: seq<LineReading>, r: LineReading)
    requires r.kind == Discount
    ensures var before := ItemsAfter(rs).items;
      var after := ItemsAfter(rs + [r]).items;
      if before != [] && r.amount.Some? then
        var k := |before| - 1;
        after == before[k := ParsedItem(before[k].description, Round2(before[k].value + r.amount.value), true)]
      else after == before
  {
    LastItemIsLast(rs);
    assert (rs + [r])[..|rs|] == rs;
  }

  /** The readings of the lines are the lines read one by one. */
  lemma ReadLinesSpec(lines: seq<string>)
    ensures |ReadLines(lines)| == |lines|
    ensures forall j | 0 <= j < |lines| :: ReadLines(lines)[j] == ReadLine(lines[j])
  {
  }

  /**
   * The item total is the rounded sum of the item values, and there is one
   * warning exactly when a total was read and differs from it by more than
   * 0.05; the warning carries both figures.
   */
  lemma WarningIffMismatch(rawText: string)
    ensures var r := ParseReceipt(rawText);
      r.itemsTotal == Round2(SumOf(r.items, ItemValue))
      && (r.rawTotalFromReceipt.Some? && Abs(r.itemsTotal - r.rawTotalFromReceipt.value) > 0.05 ==>
            r.warnings == [TotalMismatch(r.itemsTotal, r.rawTotalFromReceipt.value)])
      && (r.rawTotalFromReceipt.None? || Abs(r.itemsTotal - r.rawTotalFromReceipt.value) <= 0.05 ==>
            r.warnings == [])
  {
  }

  /** The store name of a parsed receipt is its first non-empty line, trimmed. */
  lemma ParsedStoreName(rawText: string)
    ensures var lines := ReceiptLines(rawText);
      ParseReceipt(rawText).storeName == (if lines == [] then None else Some(lines[0]))
    ensures var trimmed := TrimAll(SplitLines(rawText));
      && (ParseReceipt(rawText).storeName.None? <==> forall j | 0 <= j < |trimmed| :: trimmed[j] == [])
      && forall i | FirstNonEmptyAt(trimmed, i) :: ParseReceipt(rawText).storeName == Some(trimmed[i])
  {
    ReceiptLinesTrimmed(rawText);
    StoreNameIsFirstLine(ReceiptLines(rawText));
    var trimmed := TrimAll(SplitLines(rawText));
    NonEmptyNone(trimmed);
    forall i | FirstNonEmptyAt(trimmed, i) ensures ParseReceipt(rawText).storeName == Some(trimmed[i]) {
      NonEmptyFirst(trimmed, i);
    }
  }
}

/**
 * The second receipt parser (src/utils/receiptParser.ts): a money reader
 * whose fallback takes the last two digits as cents, a keyword table that
 * suggests a category, and a parser that looks for items only between the
 * code/description header and the item-count footer, joins description
 * lines that wrap, strips quantity and unit tails, and flags suspect values.
 *
 * Its regular expressions are written out as scanners; each comment says
 * why the scanner finds what the regular expression's backtracking finds.
 * The fresh `uuid()` identifiers are a parameter `freshId`: the k-th item
 * pushed gets `freshId(k)`.
 */
module WindowedParser {
  import opened Wrappers
  import opened JsText
  import opened JsNumber
  import opened Money
  import LineParser

  // ---------------------------------------------------------------------------
  // normalizarDescricao and sugerirCategoria
  // ---------------------------------------------------------------------------

  /** `normalizarDescricao`: decomposed, without combining marks, upper case. */
  function NormalizeDescription(input: string): string {
    ToUpper(StripAccents(input))
  }

  datatype Keyword = Keyword(word: string, category: string)

  /** `categoriaPorPalavra`, in the order `Object.entries` lists its keys. */
  const CategoryTable: seq<Keyword> := [
    Keyword("CARNE", "Mercado"),
    Keyword("FILE", "Mercado"),
    Keyword("FRANGO", "Mercado"),
    Keyword("LEITE", "Mercado"),
    Keyword("ARROZ", "Mercado"),
    Keyword("FEIJAO", "Mercado"),
    Keyword("BIS", "Mercado"),
    Keyword("ROUPA", "Presentes"),
    Keyword("ROUP", "Presentes"),
    Keyword("GASOLINA", "Gasolina"),
    Keyword("ETANOL", "Gasolina"),
    Keyword("DIESEL", "Gasolina"),
    Keyword("PET", "Pet"),
    Keyword("RACAO", "Pet"),
    Keyword("RACA", "Pet")
  ]

  /** Every category the table can suggest. */
  const Categories: set<string> := {"Mercado", "Presentes", "Gasolina", "Pet"}

  /** The category of the first keyword of `table`, from entry `k` on, that occurs in `upper`. */
  function FirstCategory(table: seq<Keyword>, upper: string, k: nat): Option<string>
    decreases |table| - k
  {
    if k >= |table| then None
    else if Contains(upper, table[k].word) then Some(table[k].category)
    else FirstCategory(table, upper, k + 1)
  }

  /** What `sugerirCategoria(descricao)` returns. */
  function SuggestedCategory(descricao: string): Option<string> {
    FirstCategory(CategoryTable, NormalizeDescription(descricao), 0)
  }

  /** `sugerirCategoria`: the loop over the table that returns at the first keyword found. */
  method SuggestCategory(descricao: string) returns (r: Option<string>)
    ensures r == SuggestedCategory(descricao)
  {
    var upper := NormalizeDescription(descricao);
    var table := CategoryTable;
    for k := 0 to |table|
      invariant FirstCategory(table, upper, k) == FirstCategory(table, upper, 0)
    {
      if Contains(upper, table[k].word) {
        return Some(table[k].category);
      }
    }
    return None;
  }

  lemma {:induction false} FirstCategorySpec(table: seq<Keyword>, upper: string, k: nat)
    decreases |table| - k
    ensures var r := FirstCategory(table, upper, k);
      (r.None? <==> forall j | k <= j < |table| :: !Contains(upper, table[j].word))
      && (r.Some? ==> exists j | k <= j < |table| ::
            Contains(upper, table[j].word) && r.value == table[j].category
            && forall i | k <= i < j :: !Contains(upper, table[i].word))
  {
    if k < |table| && !Contains(upper, table[k].word) {
      FirstCategorySpec(table, upper, k + 1);
    }
  }

  lemma TableCategories()
    ensures forall j | 0 <= j < |CategoryTable| :: CategoryTable[j].category in Categories
  {
  }

  /**
   * The suggestion is the category of the first keyword, in table order,
   * that occurs in the normalised description, and there is none exactly
   * when no keyword occurs; it is always one of the four categories.
   */
  lemma SuggestedCategorySpec(descricao: string)
    ensures var upper := NormalizeDescription(descricao);
      var r := SuggestedCategory(descricao);
      (r.None? <==> forall j | 0 <= j < |CategoryTable| :: !Contains(upper, CategoryTable[j].word))
      && (r.Some? ==> r.value in Categories && exists j | 0 <= j < |CategoryTable| ::
            Contains(upper, CategoryTable[j].word) && r.value == CategoryTable[j].category
            && forall i | 0 <= i < j :: !Contains(upper, CategoryTable[i].word))
  {
    FirstCategorySpec(CategoryTable, NormalizeDescription(descricao), 0);
    TableCategories();
  }

  // ---------------------------------------------------------------------------
  // parseBRL
  // ---------------------------------------------------------------------------

  /**
   * `\d+[.,]\d{2}` matches at `p`. `\d+` takes the whole run of digits from
   * `p`; giving digits back cannot help, since `[.,]` would then face a digit.
   */
  predicate FragmentAt(s: string, p: nat) {
    p < |s| &&
    var n := DigitRun(s[p..]);
    n >= 1 && p + n + 3 <= |s|
    && LineParser.IsSeparator(s[p + n]) && IsDigit(s[p + n + 1]) && IsDigit(s[p + n + 2])
  }

  /** The leftmost match of `\d+[.,]\d{2}` at or after `p`. */
  function FirstFragmentFrom(s: string, p: nat): (r: Option<nat>)
    decreases |s| - p
    ensures r.Some? ==> p <= r.value && FragmentAt(s, r.value)
  {
    if p >= |s| then None
    else if FragmentAt(s, p) then Some(p)
    else FirstFragmentFrom(s, p + 1)
  }

  lemma {:induction false} FirstFragmentFromSpec(s: string, p: nat)
    decreases |s| - p
    ensures var r := FirstFragmentFrom(s, p);
      (r.Some? ==> forall j | p <= j < r.value :: !FragmentAt(s, j))
      && (r.None? ==> forall j | p <= j :: !FragmentAt(s, j))
  {
    if p < |s| && !FragmentAt(s, p) {
      FirstFragmentFromSpec(s, p + 1);
    }
  }

  /** The text of the match at `p`: the digits, the separator and two digits. */
  function FragmentText(s: string, p: nat): string
    requires FragmentAt(s, p)
  {
    s[p..p + DigitRun(s[p..]) + 3]
  }

  /** `valueStr.replace(/[^\d,.-]/g, "").trim()` */
  function BrlClean(valueStr: string): string {
    Trim(Filter(valueStr, IsNumeralChar))
  }

  /** `Number` of the matched fragment with its dots dropped and its first comma made a dot, 0 if not finite. */
  function FragmentReading(m: string): real {
    NumeralNumber(ReplaceFirstChar(Filter(m, LineParser.IsNotDot), ',', '.')).GetOr(0.0)
  }

  /** The fallback reading of the digits: up to two are cents, otherwise the last two are. */
  function DigitsAsCents(digits: string): real {
    if digits == [] then 0.0
    else if |digits| <= 2 then NumeralNumber(digits).GetOr(0.0) / 100.0
    else NumeralNumber(digits[..|digits| - 2] + "." + digits[|digits| - 2..]).GetOr(0.0)
  }

  /** `parseBRL(valueStr)`; it never yields NaN, so the result is a plain number. */
  function ParseBRL(valueStr: string): real {
    var clean := BrlClean(valueStr);
    if clean == [] then 0.0
    else
      match FirstFragmentFrom(clean, 0)
      case Some(p) => FragmentReading(FragmentText(clean, p))
      case None => DigitsAsCents(Filter(clean, IsDigit))
  }

  /** Filtering to numeral characters leaves no white space for `trim` to remove. */
  lemma BrlCleanIsFilter(valueStr: string)
    ensures BrlClean(valueStr) == Filter(valueStr, IsNumeralChar)
    ensures AllNumeral(BrlClean(valueStr))
  {
    var f := Filter(valueStr, IsNumeralChar);
    FilterKeeps(valueStr, IsNumeralChar);
    if f != [] {
      assert IsNumeralChar(f[0]) && IsNumeralChar(f[|f| - 1]);
      TrimNoSpace(f);
    }
  }

  /**
   * The value of the fragment `w`, a separator and the digits `cc`: with a
   * comma it is `w,cc` read as a decimal; with a dot the dot is dropped, so
   * the digits `w cc` read as an integer.
   */
  lemma FragmentValue(w: string, sep: char, cc: string)
    requires AllDigits(w) && w != [] && LineParser.IsSeparator(sep) && AllDigits(cc) && |cc| == 2
    ensures AllDigits(w + cc)
    ensures FragmentReading(w + [sep] + cc) == if sep == ',' then Mantissa(w, cc) else DigitsValue(w + cc) as real
  {
    AllDigitsAppend(w, cc);
    FilterAppend(w, [sep] + cc, LineParser.IsNotDot);
    FilterAll(w, LineParser.IsNotDot);
    FilterAppend([sep], cc, LineParser.IsNotDot);
    FilterAll(cc, LineParser.IsNotDot);
    assert w + [sep] + cc == w + ([sep] + cc);
    if sep == ',' {
      CommaFragmentValue(w, cc);
    } else {
      DotFragmentValue(w, cc);
    }
  }

  /** With a comma the dots-free text `w,cc` becomes the decimal `w.cc`. */
  lemma CommaFragmentValue(w: string, cc: string)
    requires AllDigits(w) && w != [] && AllDigits(cc) && |cc| == 2
    requires Filter(w + [','] + cc, LineParser.IsNotDot) == w + [','] + cc
    ensures FragmentReading(w + [','] + cc) == Mantissa(w, cc)
  {
    ReplaceFirstCharAt(w, ',', '.', cc);
    assert w + ['.'] + cc == w + "." + cc;
    DecimalNumeral(w, cc);
  }

  /** With a dot, dropped with the other dots, the text becomes the integer `wcc`. */
  lemma DotFragmentValue(w: string, cc: string)
    requires AllDigits(w + cc) && w + cc != []
    requires Filter(w + ['.'] + cc, LineParser.IsNotDot) == w + cc
    ensures FragmentReading(w + ['.'] + cc) == DigitsValue(w + cc) as real
  {
    ReplaceFirstCharAbsent(w + cc, ',', '.');
    IntegerNumeral(w + cc);
  }

  /**
   * The value a fragment `w` `sep` `cc` at `p` stands for: with a comma,
   * `w,cc` as a decimal; with a dot, which is dropped, the integer `wcc`.
   */
  function FragmentValueOf(s: string, p: nat): (r: real)
    requires FragmentAt(s, p)
    ensures r >= 0.0
  {
    var n := DigitRun(s[p..]);
    assert s[p..][..n] == s[p..p + n];
    var w, cc := s[p..p + n], s[p + n + 1..p + n + 3];
    AllDigitsAppend(w, cc);
    if s[p + n] == ',' then Mantissa(w, cc) else DigitsValue(w + cc) as real
  }

  /** The fragment at `p` reads as the value it stands for. */
  lemma FragmentAtValue(s: string, p: nat)
    requires FragmentAt(s, p)
    ensures FragmentReading(FragmentText(s, p)) == FragmentValueOf(s, p)
  {
    var n := DigitRun(s[p..]);
    var w, cc := s[p..p + n], s[p + n + 1..p + n + 3];
    assert s[p..][..n] == w;
    assert FragmentText(s, p) == w + [s[p + n]] + cc;
    FragmentValue(w, s[p + n], cc);
  }

  /** With a fragment leftmost at `p` of the cleaned text, the value is that fragment's reading. */
  lemma LeftmostFragment(valueStr: string, p: nat)
    requires var clean := Filter(valueStr, IsNumeralChar);
      FragmentAt(clean, p) && forall j | 0 <= j < p :: !FragmentAt(clean, j)
    ensures var clean := Filter(valueStr, IsNumeralChar);
      ParseBRL(valueStr) == FragmentReading(FragmentText(clean, p))
  {
    BrlCleanIsFilter(valueStr);
    FirstFragmentFromSpec(Filter(valueStr, IsNumeralChar), 0);
  }

  /**
   * With a fragment `\d+[.,]\d{2}` leftmost at `p` of the cleaned text, the
   * value is the one that fragment stands for: `w,cc` as a decimal, `w.cc`
   * as the integer `wcc` (so `1.234,56` reads as 123). A minus sign is
   * never part of it.
   */
  lemma ParseBRLFragment(valueStr: string, p: nat)
    requires var clean := Filter(valueStr, IsNumeralChar);
      FragmentAt(clean, p) && forall j | 0 <= j < p :: !FragmentAt(clean, j)
    ensures ParseBRL(valueStr) == FragmentValueOf(Filter(valueStr, IsNumeralChar), p)
  {
    LeftmostFragment(valueStr, p);
    FragmentAtValue(Filter(valueStr, IsNumeralChar), p);
  }

  /** The fallback reads the digits as a count of cents. */
  lemma DigitsAsCentsValue(digits: string)
    requires AllDigits(digits)
    ensures DigitsAsCents(digits) == DigitsValue(digits) as real / 100.0
  {
    if 0 < |digits| <= 2 {
      ShortDigitsAsCents(digits);
    } else if |digits| > 2 {
      SplitDigitsAsCents(digits);
    }
  }

  /** One or two digits are read whole and divided by 100. */
  lemma ShortDigitsAsCents(digits: string)
    requires AllDigits(digits) && 0 < |digits| <= 2
    ensures DigitsAsCents(digits) == DigitsValue(digits) as real / 100.0
  {
    IntegerNumeral(digits);
  }

  /** More digits are split before the last two. */
  lemma SplitDigitsAsCents(digits: string)
    requires AllDigits(digits) && |digits| > 2
    ensures DigitsAsCents(digits) == DigitsValue(digits) as real / 100.0
  {
    var k := |digits|;
    LongDigitsAsCents(digits[..k - 2], digits[k - 2..]);
    assert digits == digits[..k - 2] + digits[k - 2..];
  }

  /** More than two digits: the last two, written after a decimal point, are the cents. */
  lemma LongDigitsAsCents(i: string, f: string)
    requires AllDigits(i) && i != [] && AllDigits(f) && |f| == 2
    ensures NumeralNumber(i + "." + f).GetOr(0.0) == DigitsValue(i + f) as real / 100.0
  {
    DecimalNumeral(i, f);
    Cents(f);
    DigitsValueAppend(i, f);
    assert Pow10(|f|) == 100;
    ShiftCents(DigitsValue(i), DigitsValue(f));
  }

  lemma ShiftCents(a: int, b: int)
    ensures (a * 100 + b) as real / 100.0 == a as real + b as real / 100.0
  {
  }

  /**
   * With no such fragment, the digits alone are read with the last two as
   * cents: the value is the digits' integer value divided by 100 (`1234`
   * gives 12.34, `7` gives 0.07), and 0 when there is no digit.
   */
  lemma ParseBRLDigits(valueStr: string)
    requires forall j | 0 <= j :: !FragmentAt(Filter(valueStr, IsNumeralChar), j)
    ensures var digits := Filter(Filter(valueStr, IsNumeralChar), IsDigit);
      AllDigits(digits) && ParseBRL(valueStr) == DigitsValue(digits) as real / 100.0
  {
    var clean := Filter(valueStr, IsNumeralChar);
    BrlCleanIsFilter(valueStr);
    FirstFragmentFromSpec(clean, 0);
    FilterKeeps(clean, IsDigit);
    DigitsAsCentsValue(Filter(clean, IsDigit));
  }

  /** `parseBRL` is never negative: the minus sign is dropped in both branches. */
  lemma ParseBRLNonNegative(valueStr: string)
    ensures ParseBRL(valueStr) >= 0.0
  {
    var clean := Filter(valueStr, IsNumeralChar);
    FirstFragmentFromSpec(clean, 0);
    match FirstFragmentFrom(clean, 0)
    case Some(p) => ParseBRLFragment(valueStr, p);
    case None => ParseBRLDigits(valueStr);
  }

  /** A text without digits reads as 0. */
  lemma ParseBRLNoDigits(valueStr: string)
    requires forall i | 0 <= i < |valueStr| :: !IsDigit(valueStr[i])
    ensures ParseBRL(valueStr) == 0.0
  {
    var clean := Filter(valueStr, IsNumeralChar);
    FilterKeeps(valueStr, IsNumeralChar);
    forall j: nat ensures !FragmentAt(clean, j) {
      if j < |clean| {
        assert clean[j] in valueStr;
      }
    }
    FilterNone(clean, IsDigit);
    ParseBRLDigits(valueStr);
  }

  /** Cleaning such a value keeps its head and cleans what follows. */
  lemma LeadingClean(w: string, sep: char, cc: string, rest: string)
    requires AllDigits(w) && LineParser.IsSeparator(sep) && AllDigits(cc)
    ensures Filter(w + [sep] + cc + rest, IsNumeralChar) == w + ([sep] + cc + Filter(rest, IsNumeralChar))
  {
    var head := w + [sep] + cc;
    assert forall i | 0 <= i < |head| :: IsNumeralChar(head[i]);
    FilterAll(head, IsNumeralChar);
    FilterAppend(head, rest, IsNumeralChar);
  }

  /** A text that starts with `w` `sep` `cc` has its fragment at 0, standing for that head. */
  lemma LeadingFragmentAt(w: string, sep: char, cc: string, t: string)
    requires AllDigits(w) && w != [] && LineParser.IsSeparator(sep) && AllDigits(cc) && |cc| == 2
    ensures FragmentAt(w + ([sep] + cc + t), 0)
    ensures FragmentValueOf(w + ([sep] + cc + t), 0)
      == if sep == ',' then Mantissa(w, cc) else DigitsValue(w + cc) as real
  {
    var clean := w + ([sep] + cc + t);
    DigitRunOf(w, [sep] + cc + t);
    assert clean[0..] == clean;
    assert clean[0..|w|] == w && clean[|w| + 1..|w| + 3] == cc;
  }

  /**
   * A value that starts with digits `w`, a separator and two digits `cc`
   * reads as that fragment, whatever follows.
   */
  lemma ParseBRLLeadingFragment(w: string, sep: char, cc: string, rest: string)
    requires AllDigits(w) && w != [] && LineParser.IsSeparator(sep) && AllDigits(cc) && |cc| == 2
    ensures AllDigits(w + cc)
    ensures ParseBRL(w + [sep] + cc + rest) == if sep == ',' then Mantissa(w, cc) else DigitsValue(w + cc) as real
  {
    LeadingClean(w, sep, cc, rest);
    LeadingFragmentAt(w, sep, cc, Filter(rest, IsNumeralChar));
    ParseBRLFragment(w + [sep] + cc + rest, 0);
    AllDigitsAppend(w, cc);
  }

  /** `"34,90"` reads as 34.9. */
  lemma ParseBRLCommaFragment()
    ensures ParseBRL("34,90") == 34.9
  {
    assert "34,90" == "34" + [','] + "90" + [];
    ParseBRLLeadingFragment("34", ',', "90", []);
    Cents("90");
    assert DigitsValue("34") == 34 by {
      assert "34"[..1] == "3";
    }
    assert DigitsValue("90") == 90 by {
      assert "90"[..1] == "9";
    }
  }

  /** `"1.234,56"` matches `1.23`, whose dot is dropped: it reads as 123. */
  lemma ParseBRLDotFragment()
    ensures ParseBRL("1.234,56") == 123.0
  {
    assert "1.234,56" == "1" + ['.'] + "23" + "4,56";
    ParseBRLLeadingFragment("1", '.', "23", "4,56");
    assert "1" + "23" == "123";
    assert DigitsValue("123") == 123 by {
      assert "123"[..2] == "12" && "12"[..1] == "1";
    }
  }

  /** A value made only of digits has no fragment: it is read as a count of cents. */
  lemma ParseBRLOnlyDigits(d: string)
    requires AllDigits(d)
    ensures ParseBRL(d) == DigitsValue(d) as real / 100.0
  {
    FilterAll(d, IsNumeralChar);
    FilterAll(d, IsDigit);
    forall j: nat ensures !FragmentAt(d, j) {
      if j < |d| {
        assert d[j..] + [] == d[j..];
        DigitRunOf(d[j..], []);
      }
    }
    ParseBRLDigits(d);
  }

  lemma DigitsValueOf1234()
    ensures AllDigits("1234") && DigitsValue("1234") == 1234
  {
    assert "1234"[..3] == "123" && "123"[..2] == "12" && "12"[..1] == "1";
  }

  /** Without a fragment, the last two digits are cents: `"1234"` reads as 12.34. */
  lemma ParseBRLFourDigits()
    ensures ParseBRL("1234") == 12.34
  {
    DigitsValueOf1234();
    ParseBRLOnlyDigits("1234");
  }

  /** Two digits or fewer are all cents: `"7"` reads as 0.07. */
  lemma ParseBRLOneDigit()
    ensures ParseBRL("7") == 0.07
  {
    assert AllDigits("7") && DigitsValue("7") == 7;
    ParseBRLOnlyDigits("7");
  }

  // ---------------------------------------------------------------------------
  // The regular expressions
  // ---------------------------------------------------------------------------

  /** `\d{2}\/\d{2}\/` and two more digits at `p`: where `dateRegex` can match. */
  predicate ShortDateAt(s: string, p: nat) {
    p + 8 <= |s| && IsDigit(s[p]) && IsDigit(s[p + 1]) && s[p + 2] == '/'
    && IsDigit(s[p + 3]) && IsDigit(s[p + 4]) && s[p + 5] == '/'
    && IsDigit(s[p + 6]) && IsDigit(s[p + 7])
  }

  /** The greedy `\d{2,4}` takes up to two digits more than the two it needs. */
  function ShortDateLength(s: string, p: nat): (n: nat)
    requires ShortDateAt(s, p)
    ensures 8 <= n <= 10 && p + n <= |s|
  {
    var extra := DigitRun(s[p + 8..]);
    8 + (if extra < 2 then extra else 2)
  }

  function FirstShortDateFrom(s: string, p: nat): (r: Option<nat>)
    decreases |s| - p
    ensures r.Some? ==> p <= r.value && ShortDateAt(s, r.value)
  {
    if p + 8 > |s| then None
    else if ShortDateAt(s, p) then Some(p)
    else FirstShortDateFrom(s, p + 1)
  }

  lemma {:induction false} FirstShortDateFromSpec(s: string, p: nat)
    decreases |s| - p
    ensures var r := FirstShortDateFrom(s, p);
      (r.Some? ==> forall j | p <= j < r.value :: !ShortDateAt(s, j))
      && (r.None? ==> forall j | p <= j :: !ShortDateAt(s, j))
  {
    if p + 8 <= |s| && !ShortDateAt(s, p) {
      FirstShortDateFromSpec(s, p + 1);
    }
  }

  /** `linha.match(dateRegex)?.[1]`: the leftmost `dd/mm/yy`, with up to two more year digits. */
  function ShortDateIn(line: string): Option<string> {
    match FirstShortDateFrom(line, 0)
    case None => None
    case Some(p) => Some(line[p..p + ShortDateLength(line, p)])
  }

  /**
   * Group 2 of `totalRegex` once its keyword group has ended at `e`: what
   * `\s*R?\$?\s*([\d.,]+)` captures. White space, an `r`, a `$` and amount
   * characters are disjoint, so no quantifier can profit from giving back
   * what it took: the group is the whole run of amount characters after
   * them, when that run is not empty.
   */
  function TotalTail(s: string, e: nat): (r: Option<string>)
    ensures r.Some? ==> r.value != []
  {
    if e > |s| then None
    else
      var a := e + LeadingSpaces(s[e..]);
      var b := if a < |s| && Canonical(s[a]) == 'R' then a + 1 else a;
      var c := if b < |s| && s[b] == '$' then b + 1 else b;
      var d := c + LeadingSpaces(s[c..]);
      var n := LineParser.AmountRun(s[d..]);
      if n == 0 then None else Some(s[d..d + n])
  }

  /** Where the literal keyword `kw` ends when it occurs at `p`, ignoring case. */
  function KeywordEnd(s: string, p: nat, kw: string): seq<nat> {
    if OccursAtI(s, kw, p) then [p + |kw|] else []
  }

  /** After `TOTAL` at `p`, where `\s*R\$` ends, if it matches. */
  function TotalSignEnd(s: string, p: nat): seq<nat> {
    if OccursAtI(s, "TOTAL", p) then KeywordEnd(s, p + 5 + LeadingSpaces(s[p + 5..]), "R$") else []
  }

  /**
   * Where the keyword group of `totalRegex` can end when it starts at `p`,
   * in the order the alternatives are tried; `VALOR A PAGAR R\$?` first
   * tries with the `$`, then without it.
   */
  function TotalKeywordEnds(s: string, p: nat): seq<nat> {
    KeywordEnd(s, p, "VALOR A PAGAR")
    + KeywordEnd(s, p, "VALOR A PAGAR R$")
    + KeywordEnd(s, p, "VALOR A PAGAR R$")
    + KeywordEnd(s, p, "VALOR A PAGAR R")
    + KeywordEnd(s, p, "TOTAL A PAGAR")
    + TotalSignEnd(s, p)
    + KeywordEnd(s, p, "TOTAL")
  }

  /** The group of the first keyword ending in `ends` after which the tail matches. */
  function FirstTail(s: string, ends: seq<nat>): (r: Option<string>)
    ensures r.Some? ==> r.value != []
  {
    if ends == [] then None
    else match TotalTail(s, ends[0])
      case Some(g) => Some(g)
      case None => FirstTail(s, ends[1..])
  }

  /** Group 2 of `totalRegex` when the match starts at `p`. */
  function TotalMatchAt(s: string, p: nat): Option<string> {
    FirstTail(s, TotalKeywordEnds(s, p))
  }

  /** Group 2 of the leftmost match of `totalRegex` at or after `p`. */
  function TotalAmountFrom(s: string, p: nat): (r: Option<string>)
    decreases |s| - p
    ensures r.Some? ==> r.value != []
  {
    if p >= |s| then None
    else match TotalMatchAt(s, p)
      case Some(g) => Some(g)
      case None => TotalAmountFrom(s, p + 1)
  }

  /** `linha.match(totalRegex)?.[2]` */
  function TotalAmountIn(line: string): Option<string> {
    TotalAmountFrom(line, 0)
  }

  /** `CODIGO` or `CÓDIGO` at `i`, ignoring case. */
  predicate CodeAt(l: string, i: nat) {
    OccursAtI(l, "CODIGO", i) || OccursAtI(l, "C\U{00D3}DIGO", i)
  }

  /** `DESCRICAO` or `DESCRIÇÃO` at `j`, ignoring case. */
  predicate DescriptionAt(l: string, j: nat) {
    OccursAtI(l, "DESCRICAO", j) || OccursAtI(l, "DESCRI\U{00C7}\U{00C3}O", j)
  }

  /** `headerRegex.test(l)`: a code word, then a description word with no line terminator between. */
  predicate IsHeaderLine(l: string) {
    exists i, j | 0 <= i && i + 6 <= j <= |l| :: CodeAt(l, i) && DescriptionAt(l, j) && NoLineTerminator(l[i + 6..j])
  }

  /**
   * `\s*TOTAL\s*DE\s*ITENS` from `e`, ignoring case. Each `\s*` is followed
   * by a letter, so it must take all the white space there is.
   */
  predicate ItemCountAt(l: string, e: nat) {
    e <= |l| &&
    var a := e + LeadingSpaces(l[e..]);
    OccursAtI(l, "TOTAL", a) &&
    var b := a + 5 + LeadingSpaces(l[a + 5..]);
    OccursAtI(l, "DE", b) &&
    var c := b + 2 + LeadingSpaces(l[b + 2..]);
    OccursAtI(l, "ITENS", c)
  }

  /** `(QTDE\.?|QTD\.?)` then the rest of `footerRegex` at `p`, over every way the group can end. */
  predicate FooterAt(l: string, p: nat) {
    || (OccursAtI(l, "QTDE.", p) && ItemCountAt(l, p + 5))
    || (OccursAtI(l, "QTDE", p) && ItemCountAt(l, p + 4))
    || (OccursAtI(l, "QTD.", p) && ItemCountAt(l, p + 4))
    || (OccursAtI(l, "QTD", p) && ItemCountAt(l, p + 3))
  }

  /** `footerRegex.test(l)` */
  predicate IsFooterLine(l: string) {
    exists p | 0 <= p < |l| :: FooterAt(l, p)
  }

  /** The length of the longest suffix of `s` made of digits. */
  function TrailingDigitRun(s: string): (n: nat)
    ensures n <= |s|
  {
    if s != [] && IsDigit(s[|s| - 1]) then 1 + TrailingDigitRun(s[..|s| - 1]) else 0
  }

  lemma {:induction false} TrailingDigitRunSpec(s: string)
    ensures forall i | |s| - TrailingDigitRun(s) <= i < |s| :: IsDigit(s[i])
    ensures TrailingDigitRun(s) == |s| || !IsDigit(s[|s| - TrailingDigitRun(s) - 1])
  {
    if s != [] && IsDigit(s[|s| - 1]) {
      TrailingDigitRunSpec(s[..|s| - 1]);
    }
  }

  /**
   * `match.index` for `priceAtEndRegex`, `(\d+[.,]\d{2})\s*$`. Before its
   * trailing white space the line must end with a separator and two digits
   * after at least one digit; the leftmost match starts where the run of
   * digits before the separator starts.
   */
  function PriceAtEnd(line: string): (r: Option<nat>)
    ensures r.Some? ==> r.value + 4 <= |TrimEnd(line)| <= |line|
  {
    var t := TrimEnd(line);
    if |t| >= 4 && IsDigit(t[|t| - 4]) && LineParser.IsSeparator(t[|t| - 3])
       && IsDigit(t[|t| - 2]) && IsDigit(t[|t| - 1]) then
      Some(|t| - 3 - TrailingDigitRun(t[..|t| - 3]))
    else None
  }

  /** `\b` at `i`: a word character on exactly one side. */
  predicate WordBoundary(s: string, i: nat)
    requires i <= |s|
  {
    (i > 0 && IsWordChar(s[i - 1])) != (i < |s| && IsWordChar(s[i]))
  }

  /** The unit `u` at `f`, then `\b.*$`: a word boundary, and no line terminator up to the end. */
  predicate UnitAt(s: string, f: nat, u: string) {
    OccursAtI(s, u, f) && WordBoundary(s, f + |u|) && NoLineTerminator(s[f + |u|..])
  }

  /** `\s*(UN|UNID|KG|G|L)\b.*$` from `e`, ignoring case. */
  predicate UnitRestAt(s: string, e: nat)
    requires e <= |s|
  {
    var f := e + LeadingSpaces(s[e..]);
    UnitAt(s, f, "UN") || UnitAt(s, f, "UNID") || UnitAt(s, f, "KG") || UnitAt(s, f, "G") || UnitAt(s, f, "L")
  }

  /**
   * `\b\d+[.,]?\d*\s*(UN|UNID|KG|G|L)\b.*$` matches at `p`. The number can
   * end in only two places from which a unit can follow: after the digits
   * and a separator and the digits after it, or after the first run of
   * digits alone; anywhere else the next character is a digit.
   */
  predicate UnitTailAt(s: string, p: nat) {
    p < |s| && WordBoundary(s, p) &&
    var n := DigitRun(s[p..]);
    n >= 1 &&
    var e := p + n;
    (e < |s| && LineParser.IsSeparator(s[e]) && UnitRestAt(s, e + 1 + DigitRun(s[e + 1..])))
    || UnitRestAt(s, e)
  }

  /** The first position from `p` on, below `n`, where `at` holds. */
  function FirstAt(n: nat, at: nat -> bool, p: nat): (r: Option<nat>)
    decreases n - p
    ensures r.Some? ==> p <= r.value < n && at(r.value)
  {
    if p >= n then None
    else if at(p) then Some(p)
    else FirstAt(n, at, p + 1)
  }

  lemma {:induction false} FirstAtSpec(n: nat, at: nat -> bool, p: nat)
    decreases n - p
    ensures FirstAt(n, at, p).Some? ==> forall j | p <= j < FirstAt(n, at, p).value :: !at(j)
    ensures FirstAt(n, at, p).None? ==> forall j | p <= j < n :: !at(j)
  {
    if p < n && !at(p) {
      FirstAtSpec(n, at, p + 1);
    }
  }

  function UnitTailTest(s: string): nat -> bool {
    (j: nat) => UnitTailAt(s, j)
  }

  /** Where the unit regular expression first matches, from `p` on. */
  function FirstUnitTailFrom(s: string, p: nat): (r: Option<nat>)
    ensures r.Some? ==> p <= r.value < |s| && UnitTailAt(s, r.value)
  {
    FirstAt(|s|, UnitTailTest(s), p)
  }

  lemma FirstUnitTailFromSpec(s: string, p: nat)
    ensures FirstUnitTailFrom(s, p).Some? ==> forall j | p <= j < FirstUnitTailFrom(s, p).value :: !UnitTailAt(s, j)
    ensures FirstUnitTailFrom(s, p).None? ==> forall j | p <= j < |s| :: !UnitTailAt(s, j)
  {
    FirstAtSpec(|s|, UnitTailTest(s), p);
    assert forall j: nat :: UnitTailTest(s)(j) == UnitTailAt(s, j);
  }

  /** `s.replace(unitRegex, "")`: the match runs to the end of `s`, so what is left is what comes before it. */
  function StripUnitTail(s: string): string {
    match FirstUnitTailFrom(s, 0)
    case None => s
    case Some(p) => s[..p]
  }

  /**
   * Stripping keeps a prefix: all of `s` when no quantity and unit token
   * occurs, otherwise everything before the leftmost one.
   */
  lemma StripUnitTailSpec(s: string)
    ensures var r := StripUnitTail(s);
      |r| <= |s| && r == s[..|r|]
      && ((forall j | 0 <= j < |s| :: !UnitTailAt(s, j)) ==> r == s)
      && (|r| < |s| ==> UnitTailAt(s, |r|) && forall j | 0 <= j < |r| :: !UnitTailAt(s, j))
  {
    FirstUnitTailFromSpec(s, 0);
  }

  // ---------------------------------------------------------------------------
  // parseReceiptText
  // ---------------------------------------------------------------------------

  /** A parsed item; `suspeito` false stands for the absent field. */
  datatype WItem = WItem(
    id: string,
    descricao: string,
    valor: real,
    rawLinha: string,
    suspeito: bool,
    categoriaSugerida: Option<string>)

  function Valor(it: WItem): real {
    it.valor
  }

  datatype WParsed = WParsed(
    loja: string,
    data: Option<string>,
    totalCupom: Option<real>,
    itens: seq<WItem>,
    somaItens: real,
    diferenca: real)

  const UnknownStore: string := "Loja n\U{00E3}o identificada"

  /** A line that can name the store: no `CNPJ` and at least ten word characters, once normalised. */
  predicate IsStoreLine(linha: string) {
    var upper := NormalizeDescription(linha);
    !Contains(upper, "CNPJ") && |Filter(upper, IsWordChar)| >= 10
  }

  // The first loop updates three independent variables. Each is the fold of
  // its step over the lines visited so far. The folds are written once over
  // the line test or reading they use, so that what is proved about them
  // does not depend on the scanners behind the test.

  /** `if (!loja && test(linha)) loja = linha`, over `lines`. */
  function FirstLineFold(lines: seq<string>, test: string -> bool): string {
    if lines == [] then []
    else
      var loja := FirstLineFold(lines[..|lines| - 1], test);
      if loja == [] && test(lines[|lines| - 1]) then lines[|lines| - 1] else loja
  }

  /** `if (!data && m) data = m`, with `m` the reading of `linha`, over `lines`. */
  function FirstReadingFold(lines: seq<string>, read: string -> Option<string>): Option<string> {
    if lines == [] then None
    else
      var data := FirstReadingFold(lines[..|lines| - 1], read);
      var m := read(lines[|lines| - 1]);
      if (data.None? || data.value == []) && m.Some? then m else data
  }

  /** `if (m) total = m`, with `m` the reading of `linha`, over `lines`. */
  function LastReadingFold<T>(lines: seq<string>, read: string -> Option<T>): Option<T> {
    if lines == [] then None
    else
      var total := LastReadingFold(lines[..|lines| - 1], read);
      var m := read(lines[|lines| - 1]);
      if m.Some? then m else total
  }

  /** `parseBRL(matchTotal[2])` when `totalRegex` matches `linha`. */
  function TotalReading(linha: string): Option<real> {
    match TotalAmountIn(linha)
    case Some(g) => Some(ParseBRL(g))
    case None => None
  }

  function StoreStep(loja: string, linha: string): string {
    if loja == [] && IsStoreLine(linha) then linha else loja
  }

  function DateStep(data: Option<string>, linha: string): Option<string> {
    if (data.None? || data.value == []) && ShortDateIn(linha).Some? then ShortDateIn(linha) else data
  }

  function TotalStep(total: Option<real>, linha: string): Option<real> {
    if TotalReading(linha).Some? then TotalReading(linha) else total
  }

  function StoreAfter(lines: seq<string>): string {
    FirstLineFold(lines, IsStoreLine)
  }

  function DateAfterW(lines: seq<string>): Option<string> {
    FirstReadingFold(lines, ShortDateIn)
  }

  function TotalAfterW(lines: seq<string>): Option<real> {
    LastReadingFold(lines, TotalReading)
  }

  /** The first line that passes `test` is the one kept, when it is not empty. */
  lemma {:induction false} FirstLineWins(lines: seq<string>, test: string -> bool, k: nat)
    requires k < |lines| && test(lines[k]) && lines[k] != []
    requires forall j | 0 <= j < k :: !test(lines[j])
    ensures FirstLineFold(lines, test) == lines[k]
  {
    var init := lines[..|lines| - 1];
    if k < |lines| - 1 {
      FirstLineWins(init, test, k);
    } else {
      NoFirstLine(init, test);
    }
  }

  lemma {:induction false} NoFirstLine(lines: seq<string>, test: string -> bool)
    requires forall j | 0 <= j < |lines| :: !test(lines[j])
    ensures FirstLineFold(lines, test) == []
  {
    if lines != [] {
      NoFirstLine(lines[..|lines| - 1], test);
    }
  }

  /** The first non-empty reading is the one kept. */
  lemma {:induction false} FirstReadingWins(lines: seq<string>, read: string -> Option<string>, k: nat)
    requires k < |lines| && read(lines[k]).Some? && read(lines[k]).value != []
    requires forall j | 0 <= j < k :: read(lines[j]).None?
    ensures FirstReadingFold(lines, read) == read(lines[k])
  {
    var init := lines[..|lines| - 1];
    if k < |lines| - 1 {
      FirstReadingWins(init, read, k);
    } else {
      NoFirstReading(init, read);
    }
  }

  lemma {:induction false} NoFirstReading(lines: seq<string>, read: string -> Option<string>)
    requires forall j | 0 <= j < |lines| :: read(lines[j]).None?
    ensures FirstReadingFold(lines, read).None?
  {
    if lines != [] {
      NoFirstReading(lines[..|lines| - 1], read);
    }
  }

  /** The last reading is the one kept. */
  lemma {:induction false} LastReadingWins<T>(lines: seq<string>, read: string -> Option<T>, k: nat)
    requires k < |lines| && read(lines[k]).Some?
    requires forall j | k < j < |lines| :: read(lines[j]).None?
    ensures LastReadingFold(lines, read) == read(lines[k])
  {
    if k < |lines| - 1 {
      LastReadingWins(lines[..|lines| - 1], read, k);
    }
  }

  lemma {:induction false} NoLastReading<T>(lines: seq<string>, read: string -> Option<T>)
    requires forall j | 0 <= j < |lines| :: read(lines[j]).None?
    ensures LastReadingFold(lines, read).None?
  {
    if lines != [] {
      NoLastReading(lines[..|lines| - 1], read);
    }
  }

  /** What is kept is the reading of some line. */
  lemma {:induction false} LastReadingOfALine<T>(lines: seq<string>, read: string -> Option<T>)
    ensures LastReadingFold(lines, read).Some? ==>
      exists j | 0 <= j < |lines| :: read(lines[j]) == LastReadingFold(lines, read)
  {
    if lines != [] && read(lines[|lines| - 1]).None? {
      var init := lines[..|lines| - 1];
      LastReadingOfALine(init, read);
      if LastReadingFold(init, read).Some? {
        var j :| 0 <= j < |init| && read(init[j]) == LastReadingFold(init, read);
        assert lines[j] == init[j];
      }
    }
  }

  /** `findIndex`: the first index, from `k` on, of a line that passes `test`. */
  function FindIndexFrom(lines: seq<string>, test: string -> bool, k: nat): (r: Option<nat>)
    decreases |lines| - k
    ensures r.Some? ==> k <= r.value < |lines| && test(lines[r.value])
  {
    if k >= |lines| then None
    else if test(lines[k]) then Some(k)
    else FindIndexFrom(lines, test, k + 1)
  }

  /** `findIndex` finds the first line that passes. */
  lemma {:induction false} FindIndexFromFirst(lines: seq<string>, test: string -> bool, k: nat, h: nat)
    requires k <= h < |lines| && test(lines[h])
    requires forall j | k <= j < h :: !test(lines[j])
    decreases h - k
    ensures FindIndexFrom(lines, test, k) == Some(h)
  {
    if k < h {
      FindIndexFromFirst(lines, test, k + 1, h);
    }
  }

  /** `findIndex` gives -1 when no line passes. */
  lemma {:induction false} FindIndexFromNone(lines: seq<string>, test: string -> bool, k: nat)
    requires forall j | k <= j < |lines| :: !test(lines[j])
    decreases |lines| - k
    ensures FindIndexFrom(lines, test, k).None?
  {
    if k < |lines| {
      FindIndexFromNone(lines, test, k + 1);
    }
  }

  /** `linhas.slice(start, end)`: after the first header, before the first footer. */
  function ItemWindow(lines: seq<string>): seq<string> {
    var start := match FindIndexFrom(lines, IsHeaderLine, 0) case Some(h) => h + 1 case None => 0;
    var end := match FindIndexFrom(lines, IsFooterLine, 0) case Some(f) => f case None => |lines|;
    if start <= end then lines[start..end] else []
  }

  /** The item list and `descricaoAcumulada`, the buffer of unpriced lines. */
  datatype ItemPass = ItemPass(itens: seq<WItem>, buffer: string)

  /** The description a priced line contributes: before the price, quantity and unit stripped. */
  function DescriptionPart(linha: string, p: nat): string
    requires p <= |linha|
  {
    Trim(StripUnitTail(Trim(linha[..p])))
  }

  /** The value a priced line carries: `parseBRL` of `match[1]`. */
  function PriceValue(linha: string, p: nat): real
    requires p <= |TrimEnd(linha)|
  {
    ParseBRL(linha[p..|TrimEnd(linha)|])
  }

  /** One pass of the second loop over `linha`. */
  function ItemLineStep(st: ItemPass, linha: string, freshId: nat -> string, suggest: string -> Option<string>): ItemPass {
    match PriceAtEnd(linha)
    case None => ItemPass(st.itens, Trim(st.buffer + " " + linha))
    case Some(p) =>
      var descricao := Trim(st.buffer + " " + DescriptionPart(linha, p));
      if descricao == [] then ItemPass(st.itens, [])
      else
        var item := WItem(freshId(|st.itens|), descricao, PriceValue(linha, p), linha, false,
                          suggest(descricao));
        ItemPass(st.itens + [item], [])
  }

  function ItemsAfterW(lines: seq<string>, freshId: nat -> string, suggest: string -> Option<string>): ItemPass {
    if lines == [] then ItemPass([], [])
    else ItemLineStep(ItemsAfterW(lines[..|lines| - 1], freshId, suggest), lines[|lines| - 1], freshId, suggest)
  }

  /** An item is suspect above 1.2 times the total, when there is one, or above 500. */
  predicate IsSuspect(valor: real, total: Option<real>) {
    (total.Some? && valor > total.value * 1.2) || valor > 500.0
  }

  function Flag(it: WItem, total: Option<real>): WItem {
    if IsSuspect(it.valor, total) then it.(suspeito := true) else it
  }

  /** The items after the third loop has marked the suspect ones. */
  function Flagged(itens: seq<WItem>, total: Option<real>): (r: seq<WItem>) {
    seq(|itens|, k requires 0 <= k < |itens| => Flag(itens[k], total))
  }

  /** The result assembled after the loops: the item sum, the difference and the flags. */
  function Assemble(loja: string, data: Option<string>, total: Option<real>, itens: seq<WItem>): WParsed {
    var soma := SumOf(itens, Valor);
    WParsed(if loja == [] then UnknownStore else loja, data, total, Flagged(itens, total),
            Round2(soma), if total.Some? then Round2(soma - total.value) else 0.0)
  }

  /** What `parseReceiptText` computes, in functional form. */
  function WindowedParse(rawText: string, freshId: nat -> string): WParsed {
    var linhas := ReceiptLines(rawText);
    Assemble(StoreAfter(linhas), DateAfterW(linhas), TotalAfterW(linhas),
             ItemsAfterW(ItemWindow(linhas), freshId, SuggestedCategory).itens)
  }

  /** One pass of the first loop over `linha`. */
  method ScanLine(linha: string, loja: string, data: Option<string>, totalCupom: Option<real>)
    returns (loja': string, data': Option<string>, totalCupom': Option<real>)
    ensures loja' == StoreStep(loja, linha)
    ensures data' == DateStep(data, linha)
    ensures totalCupom' == TotalStep(totalCupom, linha)
  {
    loja', data', totalCupom' := loja, data, totalCupom;
    var upper := NormalizeDescription(linha);
    if loja == [] && !Contains(upper, "CNPJ") && |Filter(upper, IsWordChar)| >= 10 {
      loja' := linha;
    }

    var dMatch := ShortDateIn(linha);
    if (data.None? || data.value == []) && dMatch.Some? {
      data' := dMatch;
    }

    var tMatch := TotalAmountIn(linha);
    if tMatch.Some? {
      totalCupom' := Some(ParseBRL(tMatch.value));
    }
  }

  /** The first loop, over all lines: the store, the date and the total. */
  method ScanLines(linhas: seq<string>) returns (loja: string, data: Option<string>, totalCupom: Option<real>)
    ensures loja == StoreAfter(linhas)
    ensures data == DateAfterW(linhas)
    ensures totalCupom == TotalAfterW(linhas)
  {
    loja, data, totalCupom := [], None, None;
    for k := 0 to |linhas|
      invariant loja == StoreAfter(linhas[..k])
      invariant data == DateAfterW(linhas[..k])
      invariant totalCupom == TotalAfterW(linhas[..k])
    {
      ScanStep(linhas, k);
      loja, data, totalCupom := ScanLine(linhas[k], loja, data, totalCupom);
    }
    assert linhas[..|linhas|] == linhas;
  }

  lemma ScanStep(lines: seq<string>, k: nat)
    requires k < |lines|
    ensures StoreAfter(lines[..k + 1]) == StoreStep(StoreAfter(lines[..k]), lines[k])
    ensures DateAfterW(lines[..k + 1]) == DateStep(DateAfterW(lines[..k]), lines[k])
    ensures TotalAfterW(lines[..k + 1]) == TotalStep(TotalAfterW(lines[..k]), lines[k])
  {
    assert lines[..k + 1][..k] == lines[..k];
  }

  /** One pass of the second loop over `linha`. */
  method ReadItemLine(linha: string, itens: seq<WItem>, buffer: string, freshId: nat -> string)
    returns (itens': seq<WItem>, buffer': string)
    ensures ItemPass(itens', buffer') == ItemLineStep(ItemPass(itens, buffer), linha, freshId, SuggestedCategory)
  {
    itens' := itens;
    var matchIndex := PriceAtEnd(linha);
    if matchIndex.None? {
      buffer' := Trim(buffer + " " + linha);
      return;
    }
    var p := matchIndex.value;
    var valor := ParseBRL(linha[p..|TrimEnd(linha)|]);
    var descParte := Trim(linha[..p]);
    descParte := Trim(StripUnitTail(descParte));
    var descricaoFinal := Trim(buffer + " " + descParte);
    buffer' := [];
    if descricaoFinal == [] {
      return;
    }
    var categoriaSugerida := SuggestCategory(descricaoFinal);
    itens' := itens + [WItem(freshId(|itens|), descricaoFinal, valor, linha, false, categoriaSugerida)];
  }

  /** The second loop, over the item window. */
  method ReadItems(linhasItens: seq<string>, freshId: nat -> string) returns (itens: seq<WItem>)
    ensures itens == ItemsAfterW(linhasItens, freshId, SuggestedCategory).itens
  {
    itens := [];
    var descricaoAcumulada := [];
    for k := 0 to |linhasItens|
      invariant ItemPass(itens, descricaoAcumulada) == ItemsAfterW(linhasItens[..k], freshId, SuggestedCategory)
    {
      assert linhasItens[..k + 1][..k] == linhasItens[..k];
      itens, descricaoAcumulada := ReadItemLine(linhasItens[k], itens, descricaoAcumulada, freshId);
    }
    assert linhasItens[..|linhasItens|] == linhasItens;
  }

  /** The third loop: `somaItens += item.valor`. */
  method SumValues(itens: seq<WItem>) returns (soma: real)
    ensures soma == SumOf(itens, Valor)
  {
    soma := 0.0;
    for k := 0 to |itens|
      invariant soma == SumOf(itens[..k], Valor)
    {
      assert itens[..k + 1][..k] == itens[..k];
      soma := soma + itens[k].valor;
    }
    assert itens[..|itens|] == itens;
  }

  /** The last loop: `item.suspeito = true` for every suspect item, in place. */
  method MarkSuspects(itens: seq<WItem>, totalCupom: Option<real>) returns (marked: seq<WItem>)
    ensures marked == Flagged(itens, totalCupom)
  {
    marked := itens;
    for k := 0 to |itens|
      invariant |marked| == |itens|
      invariant forall j | 0 <= j < |itens| :: marked[j] == if j < k then Flag(itens[j], totalCupom) else itens[j]
    {
      if (totalCupom.Some? && marked[k].valor > totalCupom.value * 1.2) || marked[k].valor > 500.0 {
        marked := marked[k := marked[k].(suspeito := true)];
      }
    }
  }

  /** The item window: after the first header line, before the first footer line. */
  method SelectItemLines(linhas: seq<string>) returns (linhasItens: seq<string>)
    ensures linhasItens == ItemWindow(linhas)
  {
    var start, end := 0, |linhas|;
    var headerIndex := FindIndexFrom(linhas, IsHeaderLine, 0);
    if headerIndex.Some? {
      start := headerIndex.value + 1;
    }
    var footerIndex := FindIndexFrom(linhas, IsFooterLine, 0);
    if footerIndex.Some? {
      end := footerIndex.value;
    }
    linhasItens := if start <= end then linhas[start..end] else [];
  }

  /** The end of `parseReceiptText`: the item sum, the difference, the suspect flags, the result. */
  method FinishParse(loja: string, data: Option<string>, totalCupom: Option<real>, itens: seq<WItem>)
    returns (r: WParsed)
    ensures r == Assemble(loja, data, totalCupom, itens)
  {
    var somaItens := SumValues(itens);
    var diferenca := 0.0;
    if totalCupom.Some? {
      diferenca := Round2(somaItens - totalCupom.value);
    }
    var marked := MarkSuspects(itens, totalCupom);
    r := WParsed(if loja == [] then UnknownStore else loja, data, totalCupom, marked, Round2(somaItens), diferenca);
  }

  /** `parseReceiptText(rawText)` */
  method ParseReceiptText(rawText: string, freshId: nat -> string) returns (r: WParsed)
    ensures r == WindowedParse(rawText, freshId)
  {
    var linhas := ReceiptLines(rawText);
    var loja, data, totalCupom := ScanLines(linhas);

    var linhasItens := SelectItemLines(linhas);
    var itens := ReadItems(linhasItens, freshId);
    r := FinishParse(loja, data, totalCupom, itens);
  }

  // ---------------------------------------------------------------------------
  // What the windowed parse promises
  // ---------------------------------------------------------------------------

  /** A store line is never empty, so the first one stays. */
  lemma StoreLineNotEmpty(linha: string)
    requires IsStoreLine(linha)
    ensures linha != []
  {
  }

  /** `loja` is the first store line. */
  lemma StoreIsFirstStoreLine(lines: seq<string>, k: nat)
    requires k < |lines| && IsStoreLine(lines[k])
    requires forall j | 0 <= j < k :: !IsStoreLine(lines[j])
    ensures StoreAfter(lines) == lines[k]
  {
    StoreLineNotEmpty(lines[k]);
    FirstLineWins(lines, IsStoreLine, k);
  }

  /** Without a store line `loja` stays empty, and the parse reports the unknown store. */
  lemma NoStoreLine(lines: seq<string>)
    requires forall j | 0 <= j < |lines| :: !IsStoreLine(lines[j])
    ensures StoreAfter(lines) == []
  {
    NoFirstLine(lines, IsStoreLine);
  }

  /** A short date is at least eight characters long. */
  lemma ShortDateNotEmpty(linha: string)
    requires ShortDateIn(linha).Some?
    ensures |ShortDateIn(linha).value| >= 8
  {
  }

  /** `data` is the leftmost short date of the first line that has one. */
  lemma DateIsFirstShortDate(lines: seq<string>, k: nat)
    requires k < |lines| && ShortDateIn(lines[k]).Some?
    requires forall j | 0 <= j < k :: ShortDateIn(lines[j]).None?
    ensures DateAfterW(lines) == ShortDateIn(lines[k])
    ensures |DateAfterW(lines).value| >= 8
  {
    ShortDateNotEmpty(lines[k]);
    FirstReadingWins(lines, ShortDateIn, k);
  }

  /** Without a short date there is no `data`. */
  lemma NoShortDate(lines: seq<string>)
    requires forall j | 0 <= j < |lines| :: ShortDateIn(lines[j]).None?
    ensures DateAfterW(lines).None?
  {
    NoFirstReading(lines, ShortDateIn);
  }

  /** The first reading kept is the reading of some line. */
  lemma {:induction false} FirstReadingOfALine(lines: seq<string>, read: string -> Option<string>)
    ensures FirstReadingFold(lines, read).Some? ==>
      exists j | 0 <= j < |lines| :: read(lines[j]) == FirstReadingFold(lines, read)
  {
    if lines != [] {
      var init := lines[..|lines| - 1];
      var data := FirstReadingFold(init, read);
      if !((data.None? || data.value == []) && read(lines[|lines| - 1]).Some?) {
        FirstReadingOfALine(init, read);
        if data.Some? {
          var j :| 0 <= j < |init| && read(init[j]) == data;
          assert lines[j] == init[j];
        }
      }
    }
  }

  /** `dd/dd/dd` followed by at most two more year digits: the text a date match captures. */
  predicate IsShortDateText(d: string) {
    8 <= |d| <= 10 && ShortDateAt(d, 0) && AllDigits(d[8..])
  }

  /** What `dateRegex` captures has the shape `dd/dd/dd(dd)`. */
  lemma ShortDateInShape(linha: string)
    requires ShortDateIn(linha).Some?
    ensures IsShortDateText(ShortDateIn(linha).value)
  {
    var p := FirstShortDateFrom(linha, 0).value;
    var n := ShortDateLength(linha, p);
    var d := linha[p..p + n];
    var extra := DigitRun(linha[p + 8..]);
    assert d[8..] == linha[p + 8..][..n - 8];
    assert AllDigits(linha[p + 8..][..extra]);
    assert AllDigits(d[8..]) by {
      forall i | 0 <= i < |d[8..]| ensures IsDigit(d[8..][i]) {
        assert d[8..][i] == linha[p + 8..][..extra][i];
      }
    }
  }

  /** The purchase date, when one was found, is a `dd/dd/dd(dd)` text. */
  lemma ParsedDateShape(rawText: string, freshId: nat -> string)
    ensures var d := WindowedParse(rawText, freshId).data;
      d.Some? ==> IsShortDateText(d.value)
  {
    var linhas := ReceiptLines(rawText);
    FirstReadingOfALine(linhas, ShortDateIn);
    if DateAfterW(linhas).Some? {
      var j :| 0 <= j < |linhas| && ShortDateIn(linhas[j]) == DateAfterW(linhas);
      ShortDateInShape(linhas[j]);
    }
  }

  /** The store name is never empty: the first store line or the unknown-store text. */
  lemma ParsedStoreNotEmpty(rawText: string, freshId: nat -> string)
    ensures var p := WindowedParse(rawText, freshId);
      p.loja != [] && (StoreAfter(ReceiptLines(rawText)) == [] ==> p.loja == UnknownStore)
  {
  }

  /** `totalCupom` is `parseBRL` of the amount on the last total line. */
  lemma LastTotalWinsW(lines: seq<string>, k: nat)
    requires k < |lines| && TotalAmountIn(lines[k]).Some?
    requires forall j | k < j < |lines| :: TotalAmountIn(lines[j]).None?
    ensures TotalAfterW(lines) == Some(ParseBRL(TotalAmountIn(lines[k]).value))
  {
    LastReadingWins(lines, TotalReading, k);
  }

  /** Without a total line there is no `totalCupom`. */
  lemma NoTotalW(lines: seq<string>)
    requires forall j | 0 <= j < |lines| :: TotalAmountIn(lines[j]).None?
    ensures TotalAfterW(lines).None?
  {
    NoLastReading(lines, TotalReading);
  }

  /** A printed total, when there is one, is never negative. */
  lemma TotalNonNegative(lines: seq<string>)
    ensures TotalAfterW(lines).Some? ==> TotalAfterW(lines).value >= 0.0
  {
    LastReadingOfALine(lines, TotalReading);
    if TotalAfterW(lines).Some? {
      var j :| 0 <= j < |lines| && TotalReading(lines[j]) == TotalAfterW(lines);
      ParseBRLNonNegative(TotalAmountIn(lines[j]).value);
    }
  }

  /** With a header at `h` and no footer: every line after the header. */
  lemma WindowAfterHeader(lines: seq<string>, h: nat)
    requires h < |lines| && IsHeaderLine(lines[h])
    requires forall j | 0 <= j < h :: !IsHeaderLine(lines[j])
    requires forall j | 0 <= j < |lines| :: !IsFooterLine(lines[j])
    ensures ItemWindow(lines) == lines[h + 1..]
  {
    FindIndexFromFirst(lines, IsHeaderLine, 0, h);
    FindIndexFromNone(lines, IsFooterLine, 0);
  }

  /** With a header at `h` and the first footer at `f`: the lines between them, none if the footer comes first. */
  lemma WindowBetween(lines: seq<string>, h: nat, f: nat)
    requires h < |lines| && IsHeaderLine(lines[h])
    requires forall j | 0 <= j < h :: !IsHeaderLine(lines[j])
    requires f < |lines| && IsFooterLine(lines[f])
    requires forall j | 0 <= j < f :: !IsFooterLine(lines[j])
    ensures ItemWindow(lines) == if h < f then lines[h + 1..f] else []
  {
    FindIndexFromFirst(lines, IsHeaderLine, 0, h);
    FindIndexFromFirst(lines, IsFooterLine, 0, f);
  }

  /** Without a header and with the first footer at `f`: every line before the footer. */
  lemma WindowBeforeFooter(lines: seq<string>, f: nat)
    requires forall j | 0 <= j < |lines| :: !IsHeaderLine(lines[j])
    requires f < |lines| && IsFooterLine(lines[f])
    requires forall j | 0 <= j < f :: !IsFooterLine(lines[j])
    ensures ItemWindow(lines) == lines[..f]
  {
    FindIndexFromNone(lines, IsHeaderLine, 0);
    FindIndexFromFirst(lines, IsFooterLine, 0, f);
  }

  /** Without either marker every line is an item line. */
  lemma WindowWithoutMarkers(lines: seq<string>)
    requires forall j | 0 <= j < |lines| :: !IsHeaderLine(lines[j]) && !IsFooterLine(lines[j])
    ensures ItemWindow(lines) == lines
  {
    FindIndexFromNone(lines, IsHeaderLine, 0);
    FindIndexFromNone(lines, IsFooterLine, 0);
  }

  /**
   * The `k`-th item read: its id is the `k`-th fresh id, its description is
   * not empty, it is not yet suspect, it comes from a priced line whose
   * price is its value, and it carries the category its description suggests.
   */
  predicate ReadFromLine(it: WItem, k: nat, freshId: nat -> string, suggest: string -> Option<string>) {
    it.id == freshId(k) && it.descricao != [] && !it.suspeito
    && PriceAtEnd(it.rawLinha).Some?
    && it.valor == PriceValue(it.rawLinha, PriceAtEnd(it.rawLinha).value)
    && it.categoriaSugerida == suggest(it.descricao)
  }

  /** At most one item per line. */
  lemma {:induction false} ItemsAtMostLines(lines: seq<string>, freshId: nat -> string, suggest: string -> Option<string>)
    ensures |ItemsAfterW(lines, freshId, suggest).itens| <= |lines|
  {
    if lines != [] {
      var init := lines[..|lines| - 1];
      ItemsAtMostLines(init, freshId, suggest);
      ItemStepSpec(ItemsAfterW(init, freshId, suggest), lines[|lines| - 1], freshId, suggest);
    }
  }

  /** Every item is read from its line, in turn. */
  predicate AllRead(itens: seq<WItem>, freshId: nat -> string, suggest: string -> Option<string>) {
    forall k | 0 <= k < |itens| :: ReadFromLine(itens[k], k, freshId, suggest)
  }

  /** The `k`-th item is read from a priced line with the `k`-th fresh id. */
  lemma {:induction false} ItemsAreRead(lines: seq<string>, freshId: nat -> string, suggest: string -> Option<string>)
    ensures AllRead(ItemsAfterW(lines, freshId, suggest).itens, freshId, suggest)
  {
    if lines != [] {
      var init := lines[..|lines| - 1];
      ItemsAreRead(init, freshId, suggest);
      AllReadStep(ItemsAfterW(init, freshId, suggest), lines[|lines| - 1], freshId, suggest);
    }
  }

  lemma AllReadStep(st: ItemPass, linha: string, freshId: nat -> string, suggest: string -> Option<string>)
    requires AllRead(st.itens, freshId, suggest)
    ensures AllRead(ItemLineStep(st, linha, freshId, suggest).itens, freshId, suggest)
  {
    var n := ItemLineStep(st, linha, freshId, suggest).itens;
    ItemStepSpec(st, linha, freshId, suggest);
    if |n| > |st.itens| {
      assert n == st.itens + [n[|st.itens|]];
      AllReadAppend(st.itens, n[|st.itens|], freshId, suggest);
    } else {
      assert n == st.itens;
    }
  }

  lemma AllReadAppend(itens: seq<WItem>, it: WItem, freshId: nat -> string, suggest: string -> Option<string>)
    requires AllRead(itens, freshId, suggest) && ReadFromLine(it, |itens|, freshId, suggest)
    ensures AllRead(itens + [it], freshId, suggest)
  {
    assert forall k | 0 <= k < |itens| :: (itens + [it])[k] == itens[k];
  }

  /** Every item comes from one of the lines. */
  predicate AllFrom(itens: seq<WItem>, lines: seq<string>) {
    forall k | 0 <= k < |itens| :: itens[k].rawLinha in lines
  }

  lemma {:induction false} ItemsFromLines(lines: seq<string>, freshId: nat -> string, suggest: string -> Option<string>)
    ensures AllFrom(ItemsAfterW(lines, freshId, suggest).itens, lines)
  {
    if lines != [] {
      var init := lines[..|lines| - 1];
      ItemsFromLines(init, freshId, suggest);
      AllFromStep(ItemsAfterW(init, freshId, suggest), init, lines[|lines| - 1], freshId, suggest);
      assert init + [lines[|lines| - 1]] == lines;
    }
  }

  lemma AllFromStep(st: ItemPass, init: seq<string>, linha: string, freshId: nat -> string, suggest: string -> Option<string>)
    requires AllFrom(st.itens, init)
    ensures AllFrom(ItemLineStep(st, linha, freshId, suggest).itens, init + [linha])
  {
    ItemStepSpec(st, linha, freshId, suggest);
    assert forall l | l in init :: l in init + [linha];
  }

  /** One line adds at most one item, read from that line. */
  lemma ItemStepSpec(st: ItemPass, linha: string, freshId: nat -> string, suggest: string -> Option<string>)
    ensures var n := ItemLineStep(st, linha, freshId, suggest).itens;
      n[..|st.itens|] == st.itens && |st.itens| <= |n| <= |st.itens| + 1
      && (|n| > |st.itens| ==> ReadFromLine(n[|st.itens|], |st.itens|, freshId, suggest) && n[|st.itens|].rawLinha == linha)
  {
  }

  /** Reading more lines only adds items at the end: items come in line order. */
  lemma {:induction false} ItemsGrow(lines: seq<string>, m: nat, freshId: nat -> string, suggest: string -> Option<string>)
    requires m <= |lines|
    ensures ItemsAfterW(lines[..m], freshId, suggest).itens <= ItemsAfterW(lines, freshId, suggest).itens
  {
    if m < |lines| {
      var init := lines[..|lines| - 1];
      ItemsGrow(init, m, freshId, suggest);
      assert init[..m] == lines[..m];
    } else {
      assert lines[..m] == lines;
    }
  }

  /**
   * An unpriced line is held back and joined, with a space, in front of the
   * description of the next priced line, which then starts a fresh buffer.
   */
  lemma WrappedDescription(st: ItemPass, a: string, b: string, p: nat, freshId: nat -> string, suggest: string -> Option<string>)
    requires PriceAtEnd(a).None? && PriceAtEnd(b) == Some(p)
    ensures var held := ItemLineStep(st, a, freshId, suggest);
      var descricao := Trim(held.buffer + " " + DescriptionPart(b, p));
      held == ItemPass(st.itens, Trim(st.buffer + " " + a))
      && ItemLineStep(held, b, freshId, suggest).buffer == []
      && ItemLineStep(held, b, freshId, suggest).itens
         == st.itens + (if descricao == [] then [] else [WItem(freshId(|st.itens|), descricao, PriceValue(b, p), b, false, suggest(descricao))])
  {
  }

  /** The figures of the result: the sum of the items, the difference, and which items are suspect. */
  lemma AssembledFigures(loja: string, data: Option<string>, total: Option<real>, itens: seq<WItem>)
    ensures var r := Assemble(loja, data, total, itens);
      r.loja != [] && r.data == data && r.totalCupom == total
      && |r.itens| == |itens|
      && (forall k | 0 <= k < |itens| :: r.itens[k] == itens[k].(suspeito := itens[k].suspeito || IsSuspect(itens[k].valor, total)))
      && r.somaItens == Round2(SumOf(r.itens, Valor))
      && r.diferenca == (if total.Some? then Round2(SumOf(r.itens, Valor) - total.value) else 0.0)
  {
    var r := Assemble(loja, data, total, itens);
    SumOfPointwise(r.itens, Valor, itens, Valor);
  }

  /** Every item the parser returns has a non-negative value, as `parseBRL` has. */
  lemma ParsedValuesNonNegative(rawText: string, freshId: nat -> string)
    ensures var r := WindowedParse(rawText, freshId);
      forall k | 0 <= k < |r.itens| :: r.itens[k].valor >= 0.0
  {
    var linhas := ReceiptLines(rawText);
    var itens := ItemsAfterW(ItemWindow(linhas), freshId, SuggestedCategory).itens;
    ItemsAreRead(ItemWindow(linhas), freshId, SuggestedCategory);
    AssembledFigures(StoreAfter(linhas), DateAfterW(linhas), TotalAfterW(linhas), itens);
    forall k | 0 <= k < |itens| ensures itens[k].valor >= 0.0 {
      assert ReadFromLine(itens[k], k, freshId, SuggestedCategory);
      var l := itens[k].rawLinha;
      ParseBRLNonNegative(l[PriceAtEnd(l).value..|TrimEnd(l)|]);
    }
  }
}

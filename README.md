# Sirius Finance: a verified model of the receipt pipeline, the record stores and the aggregations

Sirius Finance is a personal-finance web application. You record expenses
(`saídas`), incomes (`entradas`), bank balances, payment methods and price
samples. You can also import a shop receipt (`cupom fiscal`) and turn it
into expenses. This project models in Dafny the parts of the application
that decide what gets stored and what numbers are shown:

- **The receipt pipeline.**
  - Two text parsers for OCR output:
    - the line classifier `src/lib/receiptParser.ts`;
    - the header/footer-windowed parser `src/utils/receiptParser.ts`.
  - The OCR service `src/services/receiptOcr.ts`, which turns the windowed parser's result into a `Receipt`.
  - The Veryfi backend's summary builder `veryfi-backend/veryfiClient.js`.
  - The frontend mapping of that summary, `src/services/veryfiApi.ts`.
  - The import dialog's `buildReceiptFromVeryfi` and the totals it saves (`src/components/receipts/ReceiptImportModal.tsx`).
- **The record stores.**
  - `FinanceContext`: expenses, receipts, the expenses created from a receipt, incomes, bank accounts and balances, payment methods, and tracked price samples.
  - `SupplyPricesContext`, `CategoriesContext` and `IncomeSourcesContext`.
  - Each store is a `class` whose fields are the lists the React state holds. Each `set…(prev => …)` becomes a method that reassigns a field. Its `ensures` gives the new lists in terms of the old ones, through functions whose properties are proved as lemmas.
- **The aggregations.**
  - `getMonthlySummary` (`src/utils/finance.ts`): twelve month totals, balances and shares.
  - `useProductAnalytics`: per-product purchase statistics, month by month.
  - The way `getMonthlyExpensesByPaymentMethod` and `getVariantMonthlyAverages` group records.
  - The variant tables of `src/types/finance.ts` and their lookups.

Modules follow the source files, plus a few modules that model the
JavaScript built-ins the code relies on:

| module | file | models |
|---|---|---|
| `Wrappers` | `wrappers.dfy` | `Option` |
| `JsText` | `js_text.dfy` | `trim`, `toLowerCase`, `toUpperCase`, the NFD accent strip, `includes`/`indexOf`, `slice`, `split`, character-class `replace` |
| `JsNumber` | `js_number.dfy` | `Number(text)` (StringToNumber), `String(n)`, `??`, `\|\|` |
| `Money` | `money.dfy` | `Number(x.toFixed(2))`, sums of money |
| `Lists` | `lists.dfy` | `filter`, `find`, `findIndex`, `map` |
| `Sorting` | `sorting.dfy` | `sort` with `localeCompare`, taken as code-point order |
| `Grouping` | `grouping.dfy` | the "bucket per key" loops |
| `FinanceTypes` | `finance_types.dfy` | the record types and variant tables |
| `LineParser` | `line_parser.dfy` | the line classifier |
| `WindowedParser` | `windowed_parser.dfy` | the windowed parser |
| `ReceiptOcr` | `receipt_ocr.dfy` | the OCR service |
| `VeryfiClient` | `veryfi_client.dfy` | the Veryfi backend |
| `VeryfiApi` | `veryfi_api.dfy` | the frontend Veryfi mapping |
| `ReceiptImport` | `receipt_import.dfy` | the import dialog |
| `FinanceRecords` | `finance_records.dfy` | the list operations of `FinanceContext` as functions |
| `FinanceStore` | `finance_store.dfy` | the `FinanceContext` store class |
| `SupplyPrices` | `supply_prices.dfy` | the supply-price store |
| `Categories` | `categories.dfy` | the category store |
| `IncomeSources` | `income_sources.dfy` | the income-source store |
| `MonthlySummaries` | `monthly_summary.dfy` | `getMonthlySummary` |
| `ProductAnalytics` | `product_analytics.dfy` | `useProductAnalytics` |

Amounts are exact `real`s.
- `Number(x.toFixed(2))` is `Round2`: it rounds half away from zero to whole cents.
- JavaScript's `Number(text)` is `StringToNumber`. It follows the JavaScript string-to-number grammar: white space is trimmed and `""` is 0. It accepts a sign, `Infinity`, decimals with a fraction and an exponent, and `0x`/`0o`/`0b` integers. Its result is an `Option<real>`, and `None` stands for NaN or an infinite value.

Whatever the code gets from the outside world is a parameter of the model:
- fresh ids (`crypto.randomUUID()`, `uuid()`);
- the current time (`new Date().toISOString()`);
- how a date string is read (`new Date(s).getMonth()`, `Date.parse`);
- how a month is printed (`toLocaleDateString`).

Where this model follows the code rather than the documented intent, the
code wins. Points that differ from a reading of the documentation alone:
- **The line classifier's money parser** reads a text with no digit, comma, dot or minus sign (for example `"abc"`) as 0 and not as "unreadable". It cleans such a text to `""`, and `Number("")` is 0 (`LineParser.NoNumeralCharsIsZero`).
- **The windowed parser's `parseBRL`** takes the first `\d+[.,]\d{2}` fragment and then drops every dot. So `"1.234,56"` reads as 123, not 1234.56 (`WindowedParser.ParseBRLDotFragment`). It also never returns a negative value (`WindowedParser.ParseBRLNonNegative`).
- **The frontend Veryfi mapping** drops only the first dot of a text amount. So `"12.50"` reads as 1250 (`VeryfiApi.NormalizeSingleDot`).
- **The backend** keeps a quantity of 0 or below as it is (`VeryfiClient.QuantityMayBeNonPositive`). Only the frontend replaces it with 1.

## Model

| member | source | states |
|---|---|---|
| JsText.LeadingSpacesSpec | src/lib/receiptParser.ts:121 | what `trim` removes at the front is exactly the run of white space before the first other character |
| JsText.TrailingSpacesSpec | src/lib/receiptParser.ts:121 | what `trim` removes at the end is exactly the run of white space after the last other character |
| JsText.TrimSegment | src/lib/receiptParser.ts:121 | `trim` keeps one contiguous segment of the text |
| JsText.TrimEnds | src/lib/receiptParser.ts:121 | a trimmed text neither starts nor ends with white space |
| JsText.TrimRemovesSpaces | src/lib/receiptParser.ts:121 | every character `trim` removes is white space |
| JsText.TrimEmpty | src/contexts/IncomeSourcesContext.tsx:63-64 | `trim` gives the empty text exactly when every character is white space |
| JsText.TrimNoSpace | src/lib/receiptParser.ts:121 | a text that starts and ends with a non-space character is its own trim |
| JsText.TrimIdempotent | src/utils/receiptParser.ts:81 | trimming twice is trimming once |
| JsText.ToLower | src/lib/receiptParser.ts:45 | lower-casing replaces each character by its own lower case (ASCII and Latin-1 capitals, and the Kelvin sign to `k`), so the length is kept |
| JsText.StripAccents | src/utils/receiptParser.ts:47 | the NFD accent strip never lengthens the text |
| JsText.IndexOfFromSpec | src/lib/receiptParser.ts:51 | the search finds the first occurrence at or after the start position, and finds nothing exactly when there is none |
| JsText.IndexOfFromFirst | src/lib/receiptParser.ts:51 | an occurrence with none before it is the one found |
| JsText.ContainsSpec | src/lib/receiptParser.ts:51-56 | `includes` holds exactly when the pattern occurs at some position |
| JsText.ContainsInTail | veryfi-backend/veryfiClient.js:44-46 | a text contains whatever its tail contains |
| JsText.ContainsHead | veryfi-backend/veryfiClient.js:44-46 | a text contains its own head |
| JsText.ContainsWithin | veryfi-backend/veryfiClient.js:44-49 | what a contained text contains, the text contains too |
| JsText.ToLowerContains | veryfi-backend/veryfiClient.js:44-49 | lower-casing a text and a pattern it contains keeps the occurrence |
| JsText.JoinContains | veryfi-backend/veryfiClient.js:44-45 | every part is contained in the joined text |
| JsText.Slice | src/hooks/useProductAnalytics.ts:85 | `slice(0, n)` is the first `n` characters, or the whole text when it is shorter |
| JsText.FilterKeeps | src/lib/receiptParser.ts:34 | a character-class `replace` keeps only admitted characters, all taken from the text |
| JsText.FilterNone | src/utils/receiptParser.ts:61-62 | nothing is kept when no character is admitted |
| JsText.ReplaceFirstCharChars | src/lib/receiptParser.ts:36 | after replacing the first `a` by `b`, every character is `b` or one of the text's |
| JsText.ReplaceFirstCharAt | src/lib/receiptParser.ts:36 | only the first occurrence is replaced, and what follows it is kept |
| JsText.RemoveFirstCharAt | src/services/veryfiApi.ts:35 | `replace(".", "")` deletes only the first dot |
| JsText.ReplaceFirstAbsent | src/lib/receiptParser.ts:165 | replacing a text that does not occur changes nothing |
| JsText.ReplaceFirstCharAbsent | src/services/veryfiApi.ts:35 | replacing a character that does not occur changes nothing |
| JsText.SplitOn | src/services/receiptOcr.ts:16 | `split` with a one-character separator gives at least one piece, none containing the separator |
| JsText.SplitJoin | src/services/receiptOcr.ts:16 | joining the pieces with the separator gives back the text |
| JsText.SplitOnNoSep | src/services/receiptOcr.ts:16-17 | a text without the separator splits into itself alone |
| JsText.SplitOnSep | src/services/receiptOcr.ts:16 | the first piece is the text before the first separator |
| JsText.SplitLines | src/lib/receiptParser.ts:120 | splitting at `\r?\n` gives pieces with no line break in them |
| JsText.NonEmpty | src/lib/receiptParser.ts:122 | the filter never lengthens the list and keeps only non-empty lines |
| JsText.NonEmptyMembers | src/lib/receiptParser.ts:122 | a line is kept exactly when it is in the list and non-empty |
| JsText.NonEmptyAppend | src/lib/receiptParser.ts:122 | the filter distributes over concatenation, so the kept lines stay in order |
| JsText.NonEmptyFirst | src/lib/receiptParser.ts:122 | the first kept line is the first non-empty one |
| JsText.NonEmptyNone | src/lib/receiptParser.ts:122 | nothing is kept exactly when every line is empty |
| JsText.ReceiptLinesTrimmed | src/lib/receiptParser.ts:119-122 | every receipt line is non-empty and has no surrounding white space |
| JsNumber.DigitsValue | src/utils/receiptParser.ts:63 | the value of a digit string is a natural number below ten to its length |
| JsNumber.DigitsValueAppend | src/utils/receiptParser.ts:65 | writing digits after a digit string shifts its value by a power of ten |
| JsNumber.DigitRunOf | src/lib/receiptParser.ts:37 | the digit run of digits followed by a non-digit is exactly those digits |
| JsNumber.Cents | src/utils/receiptParser.ts:65-66 | two digits after the decimal point are that many hundredths |
| JsNumber.UnsignedDecimal | src/lib/receiptParser.ts:37 | the unsigned decimal literal reader consumes a non-empty prefix and returns a non-negative value |
| JsNumber.BlankIsZero | src/lib/receiptParser.ts:37 | `Number` of a blank text is 0 |
| JsNumber.UnsignedNumeral | src/lib/receiptParser.ts:37 | digits with an optional `.` fraction read as their decimal value |
| JsNumber.NumeralAgrees | src/lib/receiptParser.ts:37 | on numeral characters the direct decimal reading agrees with `Number` |
| JsNumber.DecimalNumeral | src/lib/receiptParser.ts:36-37 | `Number("i.f")` is the decimal value `i.f` |
| JsNumber.NegativeDecimalNumeral | src/lib/receiptParser.ts:36-37 | `Number("-i.f")` is minus the decimal value `i.f` |
| JsNumber.IntegerNumeral | src/utils/receiptParser.ts:63 | `Number(digits)` is the value of the digits |
| JsNumber.TrailingMinusNumeral | src/lib/receiptParser.ts:37-38 | a decimal followed by a `-` is not a number |
| JsNumber.CommaNumeral | src/lib/receiptParser.ts:37-38 | no text with a comma is a number |
| JsNumber.NatToString | src/services/receiptOcr.ts:30-32 | `String(n)` of a natural number is a non-empty digit string whose value is `n` |
| JsNumber.NatToStringInjective | src/services/receiptOcr.ts:30-32 | different numbers print differently |
| Money.Round2Spec | src/lib/receiptParser.ts:200-202 | `Number(x.toFixed(2))` is a whole number of cents at most half a cent from `x` |
| Money.Round2Negate | src/utils/receiptParser.ts:156 | rounding to cents is symmetric around zero |
| Money.Round2Cents | src/lib/receiptParser.ts:181 | an amount already in whole cents is left unchanged |
| Money.Round2Idempotent | src/services/receiptOcr.ts:48-50 | rounding twice is rounding once |
| Money.Round2Monotone | src/lib/receiptParser.ts:200-202 | rounding to cents keeps the order of amounts |
| Money.SumOfAppend | src/lib/receiptParser.ts:201 | the `reduce` sum of a concatenation is the sum of the two sums |
| Money.SumOfLast | src/lib/receiptParser.ts:201 | one more term adds its value to the sum |
| Money.SumOfPointwise | src/utils/finance.ts:47-54 | sums of lists that agree term by term are equal |
| Money.SumOfPermutation | src/hooks/useProductAnalytics.ts:114-115 | rearranging the terms does not change the sum |
| Money.RemoveAtMultiset | src/hooks/useProductAnalytics.ts:114-115 | taking out the term at `k` removes one copy of it |
| Money.RemoveAtSum | src/hooks/useProductAnalytics.ts:114-115 | taking out the term at `k` removes its value from the sum |
| Money.SumOfNonNegative | src/utils/finance.ts:36 | a sum of non-negative terms is non-negative |
| Money.SumOfPositive | src/hooks/useProductAnalytics.ts:134-135 | a sum of positive terms is non-negative, and positive exactly when there is a term |
| Money.SumOfScale | src/utils/finance.ts:59-62 | scaling every term scales the sum |
| Money.SumOfBounds | src/contexts/SupplyPricesContext.tsx:100-101 | a sum of `n` terms between `lo` and `hi` lies between `n * lo` and `n * hi` |
| Money.MeanBetween | src/contexts/SupplyPricesContext.tsx:100-101 | a mean of terms between `lo` and `hi` lies between them |
| Money.Abs | src/utils/finance.ts:36 | `Math.abs` is non-negative and equals `x` or `-x` |
| Lists.Keep | src/contexts/FinanceContext.tsx:345 | `filter` never lengthens a list |
| Lists.KeepMembers | src/contexts/FinanceContext.tsx:345 | `filter` keeps exactly the entries that pass the test |
| Lists.KeepAppend | src/contexts/FinanceContext.tsx:716 | `filter` distributes over concatenation, so kept entries stay in order |
| Lists.KeepAll | src/contexts/FinanceContext.tsx:345 | when every entry passes, nothing is removed |
| Lists.KeepNone | src/contexts/FinanceContext.tsx:345 | when no entry passes, everything is removed |
| Lists.MapWhere | src/contexts/FinanceContext.tsx:353 | a conditional `map` keeps the length |
| Lists.FirstIndex | src/contexts/FinanceContext.tsx:521-526 | `findIndex` gives an in-range index or -1 |
| Lists.FirstIndexSpec | src/contexts/FinanceContext.tsx:521-527 | `findIndex` gives the first passing index, and -1 exactly when no entry passes |
| Lists.FindSpec | src/contexts/FinanceContext.tsx:371 | `find` gives the first passing entry, and `undefined` exactly when no entry passes |
| Lists.WithoutIdSpec | src/contexts/FinanceContext.tsx:344-346 | deleting by id keeps exactly the records of another id, and with no record of that id nothing changes; the deletion is a `filter` (`Keep`), whose order `Lists.KeepAppend` states |
| Lists.UpdateId | src/contexts/FinanceContext.tsx:352-354 | updating by id keeps the length |
| Lists.UpdateIdSpec | src/contexts/FinanceContext.tsx:352-354 | updating by id keeps every id and position, changes only the records of that id, and is idempotent for an idempotent change |
| Sorting.LexLeAntisymmetric | src/contexts/FinanceContext.tsx:717 | two texts that each sort no later than the other are equal |
| Sorting.InsertBy | src/contexts/FinanceContext.tsx:717 | inserting one entry adds one to the length |
| Sorting.SortBy | src/contexts/FinanceContext.tsx:717 | the sort keeps the length |
| Sorting.SortBySpec | src/contexts/FinanceContext.tsx:715-717 | the sort orders by key in code-point order, the stand-in for `localeCompare`, and is a permutation of its input |
| Sorting.SortByOfSorted | src/contexts/SupplyPricesContext.tsx:78-80 | a list already in order is left as it is, so sorting is idempotent |
| Sorting.InsertLast | src/contexts/FinanceContext.tsx:717 | an entry whose key sorts no earlier than every other goes at the end |
| Sorting.SortedDistinctSpec | src/contexts/FinanceContext.tsx:575-579 | `Array.from(new Set(years)).sort((a, b) => a - b)` lists every year exactly once, in strictly ascending order |
| Grouping.GroupBySpec | src/contexts/FinanceContext.tsx:654-663 | each bucket key is listed once; a key is listed exactly when some entry has it; its total is the sum of its entries' values and its count is how many entries it has |
| Grouping.GroupKeys | src/contexts/FinanceContext.tsx:725-734 | the listed keys are distinct, and they are exactly the keys some entry has |
| Grouping.GroupTotals | src/contexts/FinanceContext.tsx:730-733 | each listed key's total and count are over its own entries, and it has at least one |
| Grouping.SumOfBuckets | src/hooks/useProductAnalytics.ts:95-104 | when every entry's key is among the distinct keys, the bucket totals add up to the total over all entries |
| Grouping.GroupByUnkeyed | src/contexts/FinanceContext.tsx:728 | entries without a key (undated samples) change nothing |
| FinanceTypes.FindVariantSpec | src/types/finance.ts:205-207 | `getVariantById` gives the first entry with the id, and nothing only when no entry has it |
| FinanceTypes.VariantsOfMembers | src/types/finance.ts:209-211 | `getVariantsByCategory` keeps exactly the entries of the category |
| FinanceTypes.VariantsOfAppend | src/types/finance.ts:209-211 | `getVariantsByCategory` keeps table order |
| FinanceTypes.VariantsOfPrefix | src/types/finance.ts:209-211 | entries of the category that precede a given entry in the table precede it in the result |
| FinanceTypes.VariantIndex | src/types/finance.ts:188-203 | each listed variant has its position in `SUPPLY_VARIANTS` |
| FinanceTypes.NoCustomVariant | src/types/finance.ts:188-203 | no table entry has a `custom_` id |
| FinanceTypes.VariantIdsDistinct | src/types/finance.ts:188-203 | no two table entries share an id |
| FinanceTypes.FindVariantFirst | src/types/finance.ts:205-207 | the lookup stops at the first entry with the id |
| FinanceTypes.FindVariantNone | src/types/finance.ts:205-207 | the lookup gives nothing when no entry has the id |
| FinanceTypes.GetVariantByIdListed | src/types/finance.ts:188-207 | every id but the custom ones is listed, and the lookup finds its entry |
| FinanceTypes.TrackedMetaKeys | src/types/finance.ts:278-379 | every tracked entry names the key it is filed under |
| FinanceTypes.MetaByKeyText | src/types/finance.ts:278-379 | looking a key up by its text finds that key's entry |
| FinanceTypes.ReferenceQuantities | src/types/finance.ts:335-350 | only the 20-egg and 30-egg cartons carry a reference quantity, 20 and 30 |
| LineParser.CleanMoneyNumeral | src/lib/receiptParser.ts:33-36 | the cleaned text holds only digits, minus signs and dots |
| LineParser.ParseIsNumber | src/lib/receiptParser.ts:32-39 | `parseBrazilianMoney` is `Number` of the cleaned text, and `null` exactly when that is not finite |
| LineParser.Unwrap | src/lib/receiptParser.ts:34 | of `prefix body suffix`, only `body` survives the first clean-up when only it holds numeral characters |
| LineParser.DropDots | src/lib/receiptParser.ts:35 | dropping the dots of a grouped integer part leaves its digits |
| LineParser.ParseSurrounded | src/lib/receiptParser.ts:32-39 | text around an amount with no digit, comma, dot or minus sign (`R$ `, a label) does not change the value |
| LineParser.CleanGrouped | src/lib/receiptParser.ts:33-36 | cleaning `sign w,tail` gives the sign, the digits of `w`, a dot and the tail |
| LineParser.ParseAmount | src/lib/receiptParser.ts:28-39 | a Brazilian amount `1.234,56` reads as its value, with thousands dots dropped and the decimal comma read as a point |
| LineParser.ParseNegativeAmount | src/lib/receiptParser.ts:32-39 | with a minus sign in front (`-5,00`) the value is negative |
| LineParser.TrailingMinusAmount | src/lib/receiptParser.ts:32-39 | a minus sign after the amount (`5,00-`) makes it unreadable |
| LineParser.FilterKeepsChar | src/lib/receiptParser.ts:34-35 | a character that survives the clean-up stays in the cleaned text |
| LineParser.TwoCommasAreNaN | src/lib/receiptParser.ts:36-38 | with two commas (`1,2,3`) only the first becomes a dot, and the result is unreadable |
| LineParser.TwoCommasKept | src/lib/receiptParser.ts:34-35 | dropping the other characters and the dots keeps both commas |
| LineParser.SecondCommaRemains | src/lib/receiptParser.ts:36 | only the first comma becomes a point, so a second one remains |
| LineParser.NoNumeralCharsIsZero | src/lib/receiptParser.ts:32-39 | a text with no digit, comma, dot or minus sign (`abc`) reads as 0 rather than `null` |
| LineParser.KindOfFirstMatch | src/lib/receiptParser.ts:49-111 | the classifier returns the `k`-th kind of its precedence list (header, total, paid, change, payment method, discount, item) exactly when that test passes and no earlier one does |
| LineParser.KindOfUnknown | src/lib/receiptParser.ts:102-111 | it returns `unknown` exactly when no test passes, and it never returns `footer` |
| LineParser.LowerCharClass | src/lib/receiptParser.ts:45-47 | lower-casing neither creates nor removes white space or digits |
| LineParser.BlankLower | src/lib/receiptParser.ts:45-47 | a line is blank exactly when its lower-cased text is |
| LineParser.ClassifyByTests | src/lib/receiptParser.ts:44-112 | a blank line is `unknown`, and any other line gets the kind of the first test it passes |
| LineParser.NotBlank | src/lib/receiptParser.ts:47 | a text containing a non-space character is not blank |
| LineParser.ContainsNotBlank | src/lib/receiptParser.ts:47-56 | a text containing a pattern that starts with a non-space character is not blank |
| LineParser.HeaderWins | src/lib/receiptParser.ts:49-59 | a line mentioning the CNPJ, a phone number or the consumer is a header whatever price it shows |
| LineParser.ItemNeedsPrice | src/lib/receiptParser.ts:102-109 | `item` needs a digit and a price pattern: `$` then an amount with two decimals, or such an amount at the end |
| LineParser.CurrencyAmountSpec | src/lib/receiptParser.ts:158 | the `$`-prefixed capture is a non-empty run of amount characters standing in the line |
| LineParser.PriceTextSpec | src/lib/receiptParser.ts:157-159 | the price text, when there is one, is a non-empty run of amount characters standing in the line |
| LineParser.ItemOf | src/lib/receiptParser.ts:155-174 | an item line yields an item exactly when its price text reads as money, with that value |
| LineParser.FirstDateFromSpec | src/lib/receiptParser.ts:141-143 | the date match is the leftmost `dd/dd/dddd`, and there is none exactly when no position matches |
| LineParser.VisitLine | src/lib/receiptParser.ts:132-197 | one `forEach` callback updates the store name, the date, the total, the items and the last item as one step of the fold over the lines |
| LineParser.VisitKind | src/lib/receiptParser.ts:146-196 | the `switch` on the line's kind: totals, items and discounts are read, every other kind is ignored |
| LineParser.VisitLines | src/lib/receiptParser.ts:132-197 | the loop over the lines ends in the state of the fold over all of them |
| LineParser.VisitNext | src/lib/receiptParser.ts:132-197 | one more turn extends each fold by one line |
| LineParser.ParseReceiptText | src/lib/receiptParser.ts:118-224 | `parseReceiptText` returns the fold over the receipt lines, finished with the item sum and the warning |
| LineParser.FinishReceipt | src/lib/receiptParser.ts:199-223 | the end of the parse: rounded item sum, at most one warning, the raw text kept |
| LineParser.LineStep | src/lib/receiptParser.ts:136-144 | one more line sets the store name only when none is set and the date only when none is found |
| LineParser.ReadingStep | src/lib/receiptParser.ts:146-185 | one more reading sets the total, appends an item, or folds a discount into the last item |
| LineParser.LastItemIsLast | src/lib/receiptParser.ts:172-173 | `lastItem` is always the item pushed last |
| LineParser.StoreNameIsFirstLine | src/lib/receiptParser.ts:136-138 | the store name is the first line, since every line is non-empty |
| LineParser.DateIsFirstMatch | src/lib/receiptParser.ts:141-144 | the date is the leftmost date of the first line that has one |
| LineParser.NoDateYet | src/lib/receiptParser.ts:141-144 | with no line holding a date there is no date |
| LineParser.LastTotalWins | src/lib/receiptParser.ts:147-153 | of several readable total lines, the last one wins |
| LineParser.NoTotal | src/lib/receiptParser.ts:147-153 | without a readable total line there is no total |
| LineParser.ItemsFollowLines | src/lib/receiptParser.ts:155-185 | one item per readable item line, in line order, each with its line's description; discounts change only values and marks |
| LineParser.ItemsWithoutDiscounts | src/lib/receiptParser.ts:155-175 | without discount lines the items are exactly the priced items |
| LineParser.DiscountFolds | src/lib/receiptParser.ts:177-185 | a discount adds its amount, rounded to cents, to the most recent item and marks it, leaving every other item alone; with no earlier item or an unreadable amount it changes nothing |
| LineParser.ReadLinesSpec | src/lib/receiptParser.ts:132-197 | the readings of the lines are the lines read one by one |
| LineParser.WarningIffMismatch | src/lib/receiptParser.ts:199-213 | the item total is the rounded sum of the item values, and there is one warning (carrying both figures) exactly when a total was read and differs from it by more than 0.05 |
| LineParser.ParsedStoreName | src/lib/receiptParser.ts:119-138 | the store name is the first receipt line; that is the first raw line that is not blank once trimmed, trimmed, and there is no store name exactly when every line is blank |
| WindowedParser.SuggestCategory | src/utils/receiptParser.ts:70-76 | the loop over the keyword table returns at the first keyword found in the normalised description |
| WindowedParser.FirstCategorySpec | src/utils/receiptParser.ts:72-75 | the first matching table entry is the one returned, and nothing is returned exactly when no keyword occurs |
| WindowedParser.SuggestedCategorySpec | src/utils/receiptParser.ts:28-76 | the suggestion is the category of the first keyword, in table order, that occurs in the description; there is none exactly when no keyword occurs; it is always one of the four categories |
| WindowedParser.FirstFragmentFromSpec | src/utils/receiptParser.ts:54 | the match of `\d+[.,]\d{2}` is the leftmost one, and there is none exactly when no position matches |
| WindowedParser.BrlCleanIsFilter | src/utils/receiptParser.ts:51 | the `trim` after the clean-up removes nothing |
| WindowedParser.FragmentValue | src/utils/receiptParser.ts:56-58 | a fragment with a comma reads as the decimal `w,cc`, and one with a dot as the integer `wcc` |
| WindowedParser.CommaFragmentValue | src/utils/receiptParser.ts:56-57 | with a comma the fragment `w,cc` becomes the decimal `w.cc` |
| WindowedParser.DotFragmentValue | src/utils/receiptParser.ts:56-57 | with a dot, which is dropped, the fragment becomes the integer `wcc` |
| WindowedParser.FragmentValueOf | src/utils/receiptParser.ts:54-58 | the value a fragment at `p` stands for is non-negative |
| WindowedParser.FragmentAtValue | src/utils/receiptParser.ts:54-58 | the fragment at `p` reads as the value it stands for |
| WindowedParser.LeftmostFragment | src/utils/receiptParser.ts:54-59 | with a fragment leftmost at `p`, `parseBRL` gives that fragment's reading |
| WindowedParser.ParseBRLFragment | src/utils/receiptParser.ts:50-59 | with a fragment leftmost at `p` of the cleaned text, the value is the fragment's reading, and a minus sign is never part of it |
| WindowedParser.DigitsAsCentsValue | src/utils/receiptParser.ts:61-67 | the fallback reads the digits as a count of cents |
| WindowedParser.ShortDigitsAsCents | src/utils/receiptParser.ts:63 | one or two digits are read whole and divided by 100 |
| WindowedParser.SplitDigitsAsCents | src/utils/receiptParser.ts:65-67 | more digits are split before the last two |
| WindowedParser.LongDigitsAsCents | src/utils/receiptParser.ts:65-67 | with more than two digits, the last two after a decimal point are the cents |
| WindowedParser.ParseBRLDigits | src/utils/receiptParser.ts:50-68 | with no fragment, the value is the digits' integer value divided by 100 (`1234` gives 12.34), and 0 with no digit |
| WindowedParser.ParseBRLNonNegative | src/utils/receiptParser.ts:50-68 | `parseBRL` is never negative |
| WindowedParser.ParseBRLNoDigits | src/utils/receiptParser.ts:51-62 | a text without digits reads as 0 |
| WindowedParser.LeadingClean | src/utils/receiptParser.ts:51 | cleaning a value keeps its leading fragment and cleans what follows |
| WindowedParser.LeadingFragmentAt | src/utils/receiptParser.ts:54 | a text that starts with `w` `sep` `cc` has its fragment at 0 |
| WindowedParser.ParseBRLLeadingFragment | src/utils/receiptParser.ts:50-59 | a value starting with digits, a separator and two digits reads as that fragment whatever follows |
| WindowedParser.ParseBRLCommaFragment | src/utils/receiptParser.ts:50-59 | `"34,90"` reads as 34.9 |
| WindowedParser.ParseBRLDotFragment | src/utils/receiptParser.ts:50-59 | `"1.234,56"` matches `1.23`, whose dot is dropped, so it reads as 123 |
| WindowedParser.ParseBRLOnlyDigits | src/utils/receiptParser.ts:61-67 | a value of digits alone has no fragment and is read as a count of cents |
| WindowedParser.ParseBRLFourDigits | src/utils/receiptParser.ts:65-67 | `"1234"` reads as 12.34 |
| WindowedParser.ParseBRLOneDigit | src/utils/receiptParser.ts:63 | `"7"` reads as 0.07 |
| WindowedParser.ShortDateLength | src/utils/receiptParser.ts:21 | the greedy `\d{2,4}` year makes a date 8 to 10 characters long |
| WindowedParser.FirstShortDateFromSpec | src/utils/receiptParser.ts:94-97 | the date match is the leftmost `dd/dd/dd(dd)`, and there is none exactly when no position matches |
| WindowedParser.TotalTail | src/utils/receiptParser.ts:22-23 | group 2 of `totalRegex` after its keyword is a non-empty run of amount characters |
| WindowedParser.TotalAmountFrom | src/utils/receiptParser.ts:99-101 | the captured total amount, when there is one, is non-empty |
| WindowedParser.TrailingDigitRunSpec | src/utils/receiptParser.ts:26 | the trailing digit run is all digits and is preceded by a non-digit or the start |
| WindowedParser.PriceAtEnd | src/utils/receiptParser.ts:26 | `match.index` of `priceAtEndRegex` leaves at least a digit, a separator and two digits before the trailing white space |
| WindowedParser.FirstAtSpec | src/utils/receiptParser.ts:131 | the leftmost-match search finds the first position that matches, and nothing only when none does |
| WindowedParser.FirstUnitTailFromSpec | src/utils/receiptParser.ts:131 | the quantity-and-unit token found is the leftmost one |
| WindowedParser.StripUnitTailSpec | src/utils/receiptParser.ts:131 | stripping the unit tail keeps a prefix: all of the text when no quantity-and-unit token occurs, else everything before the leftmost one |
| WindowedParser.FirstLineWins | src/utils/receiptParser.ts:90-92 | the first line that passes the store test is kept |
| WindowedParser.FirstReadingWins | src/utils/receiptParser.ts:94-97 | the first non-empty reading is kept |
| WindowedParser.LastReadingWins | src/utils/receiptParser.ts:99-102 | the last reading is kept |
| WindowedParser.LastReadingOfALine | src/utils/receiptParser.ts:99-102 | what is kept is the reading of some line |
| WindowedParser.FindIndexFromFirst | src/utils/receiptParser.ts:108-111 | `findIndex` finds the first line that passes |
| WindowedParser.FindIndexFromNone | src/utils/receiptParser.ts:108-111 | `findIndex` gives -1 when no line passes |
| WindowedParser.ScanLine | src/utils/receiptParser.ts:88-103 | one pass of the first loop updates the store, the date and the total as one step of the fold |
| WindowedParser.ScanLines | src/utils/receiptParser.ts:84-103 | the first loop ends with the store, date and total of the fold over all lines |
| WindowedParser.ReadItemLine | src/utils/receiptParser.ts:119-147 | one pass of the item loop is one step of the item fold |
| WindowedParser.ReadItems | src/utils/receiptParser.ts:116-147 | the item loop ends with the items of the fold over the window |
| WindowedParser.SumValues | src/utils/receiptParser.ts:149-152 | the sum loop gives the sum of the item values |
| WindowedParser.MarkSuspects | src/utils/receiptParser.ts:159-163 | the flag loop marks an item exactly when it exceeds 1.2 times the total or 500 |
| WindowedParser.SelectItemLines | src/utils/receiptParser.ts:105-114 | the item window is computed by the header and footer searches |
| WindowedParser.FinishParse | src/utils/receiptParser.ts:149-172 | the end of the parse: the item sum, the difference, the suspect flags, the unknown-store default |
| WindowedParser.ParseReceiptText | src/utils/receiptParser.ts:78-173 | `parseReceiptText` returns the windowed parse of the text |
| WindowedParser.StoreLineNotEmpty | src/utils/receiptParser.ts:90 | a store line is never empty, so the first one stays |
| WindowedParser.StoreIsFirstStoreLine | src/utils/receiptParser.ts:88-92 | `loja` is the first line with ten or more word characters and no CNPJ |
| WindowedParser.NoStoreLine | src/utils/receiptParser.ts:84-92 | without a store line `loja` stays empty, so the result reports the unknown store (line 166) |
| WindowedParser.ShortDateNotEmpty | src/utils/receiptParser.ts:21 | a date match is at least eight characters long |
| WindowedParser.DateIsFirstShortDate | src/utils/receiptParser.ts:94-97 | `data` is the leftmost date of the first line that has one |
| WindowedParser.NoShortDate | src/utils/receiptParser.ts:85-97 | without a date there is no `data` |
| WindowedParser.FirstReadingOfALine | src/utils/receiptParser.ts:94-97 | the first reading kept is the reading of some line |
| WindowedParser.ShortDateInShape | src/utils/receiptParser.ts:21 | what `dateRegex` captures has the shape `dd/dd/dd` with at most two more digits |
| WindowedParser.ParsedDateShape | src/utils/receiptParser.ts:84-97 | the parsed `data`, when there is one, has that shape |
| WindowedParser.ParsedStoreNotEmpty | src/utils/receiptParser.ts:84-92 | the parsed store is never empty; it is the unknown-store text when no line qualifies |
| WindowedParser.LastTotalWinsW | src/utils/receiptParser.ts:99-102 | `totalCupom` is `parseBRL` of the amount on the last total line |
| WindowedParser.NoTotalW | src/utils/receiptParser.ts:86-102 | without a total line there is no `totalCupom` |
| WindowedParser.TotalNonNegative | src/utils/receiptParser.ts:99-102 | a printed total is never negative |
| WindowedParser.WindowAfterHeader | src/utils/receiptParser.ts:105-114 | with a header at `h` and no footer, the window is every line after the header |
| WindowedParser.WindowBetween | src/utils/receiptParser.ts:105-114 | with a header at `h` and the first footer at `f`, the window is the lines between them, and none when the footer comes first |
| WindowedParser.WindowBeforeFooter | src/utils/receiptParser.ts:105-114 | without a header and with the first footer at `f`, the window is every line before the footer |
| WindowedParser.WindowWithoutMarkers | src/utils/receiptParser.ts:105-114 | without either marker every line is in the window |
| WindowedParser.ItemsAtMostLines | src/utils/receiptParser.ts:119-147 | there is at most one item per line |
| WindowedParser.ItemsAreRead | src/utils/receiptParser.ts:119-147 | the `k`-th item is read from a priced line and gets the `k`-th fresh id |
| WindowedParser.ItemStepSpec | src/utils/receiptParser.ts:119-147 | one line adds at most one item, read from that line |
| WindowedParser.ItemsGrow | src/utils/receiptParser.ts:140-146 | reading more lines only appends items, so items come in line order |
| WindowedParser.WrappedDescription | src/utils/receiptParser.ts:122-134 | an unpriced line is held back and joined, with a space, before the description of the next priced line, which then starts a fresh buffer |
| WindowedParser.AssembledFigures | src/utils/receiptParser.ts:149-172 | the result carries the rounded item sum, the rounded difference when a total is known (else 0), and which items are suspect |
| WindowedParser.ParsedValuesNonNegative | src/utils/receiptParser.ts:127-128 | every item the parser returns has a non-negative value |
| ReceiptOcr.ToISODateOfDate | src/services/receiptOcr.ts:14-20 | a date `day/month/year` is rewritten as `year-month-day` |
| ReceiptOcr.ShortDateToISO | src/services/receiptOcr.ts:14-20 | a `dd/mm/yy(yy)` text becomes year-month-day, a two-digit year taken in the 2000s |
| ReceiptOcr.ToISODateIgnoresRest | src/services/receiptOcr.ts:16 | parts after the year are ignored |
| ReceiptOcr.ToISODateFallsBack | src/services/receiptOcr.ts:15-17 | a missing date, fewer than two slashes, or an empty part among the first three gives today's date |
| ReceiptOcr.NoSlashIsToday | src/services/receiptOcr.ts:16-17 | a date with no slash gives today's date |
| ReceiptOcr.Suspects | src/services/receiptOcr.ts:62-67 | the suspect list never lengthens the item list |
| ReceiptOcr.ItemsMirrorParse | src/services/receiptOcr.ts:23-46 | one receipt item per parsed item, in order, with quantity 1, the parsed value as total and unit price, the description, the suggested category name and the raw line kept |
| ReceiptOcr.TotalsOfReceipt | src/services/receiptOcr.ts:48-51 | `itemsTotal` is the rounded sum of the parsed values, and the total falls back to it only when no total was printed |
| ReceiptOcr.StoreAndDate | src/services/receiptOcr.ts:14-75 | on a receipt read from an image the store is the parsed one, never empty, so the `Cupom` default is never used; the date is the first printed `dd/mm/yy(yy)` rewritten as year-month-day with a two-digit year in the 2000s, and today only when no date was printed |
| ReceiptOcr.SuspectsSpec | src/services/receiptOcr.ts:62 | the suspect list holds exactly the suspect items, in order |
| ReceiptOcr.SuspectsComplete | src/services/receiptOcr.ts:62 | every suspect item is listed |
| ReceiptOcr.SuspectsSound | src/services/receiptOcr.ts:62 | only suspect items are listed |
| ReceiptOcr.WarningsOfReceipt | src/services/receiptOcr.ts:53-69 | the mismatch warning comes first and appears exactly when a total was printed and differs by more than 0.05; the suspect warning comes next and appears exactly when some item is suspect; nothing else is warned |
| ReceiptOcr.NoDiscountsFromOcr | src/services/receiptOcr.ts:40 | windowed-parser items are never negative, so none is marked as a discount |
| VeryfiClient.TrimKeepsNumerals | veryfi-backend/veryfiClient.js:22-24 | the white space `trim` removes holds no numeral character, so trimming before filtering changes nothing |
| VeryfiClient.SpaceNotNumeral | veryfi-backend/veryfiClient.js:23-24 | no white-space character is kept by the numeral filter |
| VeryfiClient.ToNumberIsBrazilianMoney | veryfi-backend/veryfiClient.js:18-33 | on texts `toNumber` reads amounts as the line classifier's money parser does, with 0 for its `null` |
| VeryfiClient.ToNumberOfAmount | veryfi-backend/veryfiClient.js:18-33 | an amount printed `1.234,56` with non-numeral text around it (`R$ 1.234,56`) reads as its value: every dot is a thousands separator, the comma the decimal point |
| VeryfiClient.SuggestionFromField | veryfi-backend/veryfiClient.js:35-51 | a vendor text naming a pharmacy, in any case, gives `farmacia` whatever the other texts say; a market word in any text gives a suggestion, `mercado` only when no text names a pharmacy; the suggestion is one of `farmacia`, `mercado` or none |
| VeryfiClient.BucketSkipsFalsy | veryfi-backend/veryfiClient.js:36-45 | falsy fields leave no text to join and an empty bucket |
| VeryfiClient.TruthyTextsSpec | veryfi-backend/veryfiClient.js:36-44 | a text is joined exactly when some truthy field prints as it |
| VeryfiClient.TruthyTextsAppend | veryfi-backend/veryfiClient.js:36-44 | the filter distributes over concatenation, so the joined texts keep the fields' order |
| VeryfiClient.BucketHoldsTexts | veryfi-backend/veryfiClient.js:36-46 | each truthy field's text is in the bucket; with `VeryfiClient.TruthyTextsSpec`, the bucket is the join of exactly the truthy fields' texts |
| VeryfiClient.BuildItems | veryfi-backend/veryfiClient.js:55-92 | one summary item per line item |
| VeryfiClient.QuantitySpec | veryfi-backend/veryfiClient.js:57-61 | neither `quantity` nor `qty` gives 1; a given `quantity` hides `qty`; a number is kept, a digit text read as its value, and a text with a decimal comma (`"2,5"`) is not a number to `Number`, so it counts as 1 |
| VeryfiClient.QuantityMayBeNonPositive | veryfi-backend/veryfiClient.js:57-61 | a quantity given as 0 or a negative number is kept |
| VeryfiClient.BuildItemSpec | veryfi-backend/veryfiClient.js:70-88 | the unit price is total over quantity only when the quantity is positive, else the item's own price fields; unit price and total are whole cents; the description and id fall back to `Item` and the position |
| VeryfiClient.ItemTotalSpec | veryfi-backend/veryfiClient.js:63-68 | the item total is the first given total field, and price times quantity only when none is |
| VeryfiClient.SummarySpec | veryfi-backend/veryfiClient.js:54-119 | one summary item per line item, in order (none when `line_items` is not an array); `total_itens` is the rounded sum of their totals and `total_cupom` the rounded first given document total |
| VeryfiClient.TotalCupomFallback | veryfi-backend/veryfiClient.js:94-100 | `total_cupom` is whole cents; the first given document total decides it and hides every later field; a text total is read as the line classifier reads money, 0 when unreadable; no total at all gives 0 |
| VeryfiClient.SummaryDefaults | veryfi-backend/veryfiClient.js:104-118 | a currency is always named, BRL by default; the store is one of the four name fields or empty, empty exactly when all four are falsy; the date is the document or creation date, and `null` exactly when neither is given |
| VeryfiApi.SafeQuantity | src/services/veryfiApi.ts:46 | the quantity used is always positive |
| VeryfiApi.MapItems | src/services/veryfiApi.ts:43-61 | one mapped item per Veryfi item |
| VeryfiApi.NormalizeBrazilian | src/services/veryfiApi.ts:32-40 | `"1.234,56"` reads as 1234.56 |
| VeryfiApi.NormalizeDecimalComma | src/services/veryfiApi.ts:32-40 | `"34,90"` reads as 34.9 |
| VeryfiApi.NormalizeSingleDot | src/services/veryfiApi.ts:35 | a single dot is taken for a thousands separator, so `"12.50"` reads as 1250 |
| VeryfiApi.NormalDigits | src/services/veryfiApi.ts:36 | `Number("i.f")` is the decimal value `i.f` |
| VeryfiApi.MapItemSpec | src/services/veryfiApi.ts:43-60 | the quantity is the parsed one when positive and 1 otherwise; the unit price is the parsed unit field, else total over quantity; the total is the parsed total unless it is 0 or missing, else unit price times quantity |
| VeryfiApi.MapSummaryItems | src/services/veryfiApi.ts:43-61 | the items keep their count and order, and each has a positive quantity |
| VeryfiApi.TotalAmountFallback | src/services/veryfiApi.ts:63-65 | `total_amount` is always set; a given receipt total decides it whatever the items total; one printed `1.234,56` reads as 1234.56; with neither total it is the sum of the item totals |
| ReceiptImport.ImportItems | src/components/receipts/ReceiptImportModal.tsx:140-157 | one receipt item per summary item |
| ReceiptImport.ImportItemSpec | src/components/receipts/ReceiptImportModal.tsx:140-156 | the quantity is positive, the given one when positive and 1 otherwise; the unit price is the given one when present, else total over quantity; the total is the given one or 0 |
| ReceiptImport.ImportedIdSpec | src/components/receipts/ReceiptImportModal.tsx:150 | every imported item gets a text id; a non-empty text id is kept; given non-empty printed numbers and fresh ids, no id is empty, so category choices can be keyed by it |
| ReceiptImport.ImportedTotals | src/components/receipts/ReceiptImportModal.tsx:159-169 | one item per summary item, in order; `itemsTotal` is the rounded sum of item totals; `total` and `rawTotalFromReceipt` are `total_amount`, or `itemsTotal` when it is missing |
| ReceiptImport.ImportedWarnings | src/components/receipts/ReceiptImportModal.tsx:171-174 | there is one warning exactly when the items total and the total differ by more than 0.05, so none without a total |
| ReceiptImport.ImportedDateAndStore | src/components/receipts/ReceiptImportModal.tsx:163-164 | the date is the first ten characters of the purchase date, or today without one; the store defaults to `Cupom` |
| ReceiptImport.CupomTotalSpec | src/components/receipts/ReceiptImportModal.tsx:36-46 | for a receipt read from an image the dialog shows its stored total and item total; the shown total is the printed total when one was found and the items total otherwise, always a number |
| ReceiptImport.CupomOfImported | src/components/receipts/ReceiptImportModal.tsx:43-46 | for an imported receipt the dialog shows `total_amount ?? itemsTotal` |
| ReceiptImport.OverridePrecedence | src/components/receipts/ReceiptImportModal.tsx:254-265 | on a per-item save every item keeps everything but its category id, which is the user's choice for its id when there is one and the suggested one otherwise; no other receipt field but the totals changes |
| ReceiptImport.EnrichedTotals | src/components/receipts/ReceiptImportModal.tsx:237-265 | the saved total is the shown receipt total unless that is 0 or not a number, and then the items total; the raw total is kept when there is one |
| ReceiptImport.ServiceStoreAndDate | src/services/veryfiApi.ts:67-74 | a receipt imported from the service always names a store, the service's when non-empty, else `Cupom`; its date is the first ten characters of the service date, else of the current time's ISO text, and today only for an empty service date |
| FinanceRecords.PatchInfoSpec | src/contexts/FinanceContext.tsx:348-355 | a patch sets the fields it carries and keeps the others; applying it twice is applying it once; the empty patch changes nothing |
| FinanceRecords.UpdateExpenseSpec | src/contexts/FinanceContext.tsx:348-355 | `updateExpense` changes only the records of that id and keeps every id, creation time, the length and the order; it is idempotent |
| FinanceRecords.UpdateStatusSpec | src/contexts/FinanceContext.tsx:357-363 | `updateExpenseStatus` sets the status of the records of that id and touches nothing else |
| FinanceRecords.UpsertReceiptSpec | src/contexts/FinanceContext.tsx:369-377 | an existing receipt is replaced in place and a new one appended; the receipt is then stored; distinct ids stay distinct |
| FinanceRecords.UpsertReceiptIdempotent | src/contexts/FinanceContext.tsx:369-377 | adding the same receipt twice leaves the list as adding it once |
| FinanceRecords.ResolveCategoryName | src/contexts/FinanceContext.tsx:379-389 | the resolved name is never empty |
| FinanceRecords.ResolveOrder | src/contexts/FinanceContext.tsx:379-438 | the default name is the default category's table name, else `Outros`; an item's expense takes its category's table name, else the default name; the aggregate expense takes the default name; a bare category id is never used as a name |
| FinanceRecords.ReceiptExpensesSpec | src/contexts/FinanceContext.tsx:391-454 | aggregate mode adds exactly one paid expense for the receipt total (the rounded item sum when that is not finite); per-item mode adds one paid expense per item, for its total, filed under its category or the default |
| FinanceRecords.ReceiptAmountSpec | src/contexts/FinanceContext.tsx:400-404 | the amount is the receipt total when finite, else the rounded item sum |
| FinanceRecords.PerItemAmountsAddUp | src/contexts/FinanceContext.tsx:433-453 | the per-item expenses add up to the receipt's item sum |
| FinanceRecords.ItemCategoryFallback | src/contexts/FinanceContext.tsx:406-438 | a category without a name falls back to the default one's name, and that falls back to `Outros` |
| FinanceRecords.UpsertBalanceSpec | src/contexts/FinanceContext.tsx:517-545 | with an entry for the bank and month only its balance and update time change; without one, one entry is appended, created and updated now; unique keys stay unique; the key's entry then holds the new balance |
| FinanceRecords.BalancesByYear | src/contexts/FinanceContext.tsx:547-551 | the result is the year's balances, of the given banks unless none is given |
| FinanceRecords.DeleteMonthSpec | src/contexts/FinanceContext.tsx:558-573 | the `filter` (`Keep`) drops exactly the balances of that year and month, and only the given bank's one when a bank is given; `Lists.KeepAppend` states that the rest keep their order |
| FinanceRecords.AvailableYears | src/contexts/FinanceContext.tsx:575-580 | every year of some balance, exactly once, in ascending order |
| FinanceRecords.MethodById | src/contexts/FinanceContext.tsx:643-646 | nothing for a missing or empty id, else the first method with that id |
| FinanceRecords.MethodTotals | src/contexts/FinanceContext.tsx:665-669 | one row per bucket, in the order the keys first appeared |
| FinanceRecords.ExpensesByMethodSpec | src/contexts/FinanceContext.tsx:648-670 | one row per payment method used that month (`unknown` for none), each once; a row's total is the sum of that month's amounts paid that way, and its count is how many there are |
| FinanceRecords.MethodRowsListed | src/contexts/FinanceContext.tsx:654-669 | the rows list each payment-method key exactly once |
| FinanceRecords.MethodRowsTotals | src/contexts/FinanceContext.tsx:654-669 | each row carries its key's total and count |
| FinanceRecords.TrackedSampleSpec | src/contexts/FinanceContext.tsx:690-707 | a tracked key is described by the table whatever the caller passes |
| FinanceRecords.CustomSampleSpec | src/contexts/FinanceContext.tsx:690-707 | an unknown key needs the caller's description, and its sample has no reference quantity |
| FinanceRecords.PriceHistorySpec | src/contexts/FinanceContext.tsx:712-718 | the history holds exactly the variant's samples, each as often as stored, by ascending date |
| FinanceRecords.CurrentAndPreviousSpec | src/contexts/FinanceContext.tsx:756-794 | nothing for an empty history; only the last price and date for one sample; otherwise the last two prices, their difference and, unless the previous price is 0, the difference as a percentage |
| FinanceRecords.Averages | src/contexts/FinanceContext.tsx:738-751 | one row per month key |
| FinanceRecords.MonthlyAveragesSpec | src/contexts/FinanceContext.tsx:720-754 | one row per month with a dated sample, months ascending; a row's price is the mean of that month's values |
| FinanceStore.Stamped | src/contexts/FinanceContext.tsx:335-342 | each added expense gets the `k`-th id and time and keeps its data |
| FinanceStore.Store.constructor | src/contexts/FinanceContext.tsx:163-169 | the store holds the lists it was loaded with |
| FinanceStore.Store.AddExpense | src/contexts/FinanceContext.tsx:335-342 | exactly one record more, at the end, with the new id and time; nothing else changes |
| FinanceStore.Store.DeleteExpense | src/contexts/FinanceContext.tsx:344-346 | the expenses become those of another id, in order; nothing else changes |
| FinanceStore.Store.UpdateExpense | src/contexts/FinanceContext.tsx:348-355 | the expenses of that id are patched; nothing else changes |
| FinanceStore.Store.UpdateExpenseStatus | src/contexts/FinanceContext.tsx:357-363 | the expenses of that id get the status; nothing else changes |
| FinanceStore.Store.AddReceipt | src/contexts/FinanceContext.tsx:369-377 | the receipt list becomes the upsert of the receipt; nothing else changes |
| FinanceStore.Store.CreateExpensesFromReceipt | src/contexts/FinanceContext.tsx:391-454 | the receipt is stored, then its expenses are appended one by one with fresh ids and times |
| FinanceStore.Store.AddIncome | src/contexts/FinanceContext.tsx:460-467 | exactly one income more, at the end |
| FinanceStore.Store.DeleteIncome | src/contexts/FinanceContext.tsx:469-471 | the incomes become those of another id |
| FinanceStore.Store.UpdateIncome | src/contexts/FinanceContext.tsx:473-480 | the incomes of that id are patched |
| FinanceStore.Store.AddBankAccount | src/contexts/FinanceContext.tsx:486-494 | the new account is appended and returned |
| FinanceStore.Store.UpdateBankAccount | src/contexts/FinanceContext.tsx:496-503 | the accounts of that id are patched |
| FinanceStore.Store.DeleteBankAccount | src/contexts/FinanceContext.tsx:505-515 | it is refused, changing nothing, exactly while a balance refers to the bank; otherwise the accounts of another id are kept |
| FinanceStore.Store.UpsertBankBalance | src/contexts/FinanceContext.tsx:517-545 | the balances become the upsert for that bank and month |
| FinanceStore.Store.DeleteBankAndBalances | src/contexts/FinanceContext.tsx:553-556 | the bank and every balance of it go |
| FinanceStore.Store.DeleteMonthBalances | src/contexts/FinanceContext.tsx:558-573 | the month's balances (of the bank, when given) go |
| FinanceStore.Store.BankBalancesOfYear | src/contexts/FinanceContext.tsx:547-551 | the year's balances, of the given banks unless none is given |
| FinanceStore.Store.AvailableBalanceYears | src/contexts/FinanceContext.tsx:575-580 | every balance year, once, ascending |
| FinanceStore.Store.AddPaymentMethod | src/contexts/FinanceContext.tsx:586-603 | a new active method is appended and returned |
| FinanceStore.Store.UpdatePaymentMethod | src/contexts/FinanceContext.tsx:605-616 | the methods of that id are patched and stamped as updated now |
| FinanceStore.Store.ArchivePaymentMethod | src/contexts/FinanceContext.tsx:618-620 | the method becomes inactive, and nothing else of it changes but its update time |
| FinanceStore.Store.RestorePaymentMethod | src/contexts/FinanceContext.tsx:622-624 | the method becomes active again |
| FinanceStore.Store.DeletePaymentMethod | src/contexts/FinanceContext.tsx:626-637 | it is refused, changing nothing, exactly while an expense uses the method |
| FinanceStore.Store.ActivePaymentMethods | src/contexts/FinanceContext.tsx:639-641 | exactly the active methods |
| FinanceStore.Store.PaymentMethodById | src/contexts/FinanceContext.tsx:643-646 | nothing for a missing or empty id, else the first method with it |
| FinanceStore.Store.MonthlyExpensesByPaymentMethod | src/contexts/FinanceContext.tsx:648-670 | the grouping loop gives the rows of the month's expenses grouped by payment method |
| FinanceStore.Store.AddPriceSample | src/contexts/FinanceContext.tsx:678-710 | one sample more, or none when the key is neither tracked nor described |
| FinanceStore.Store.VariantPriceHistory | src/contexts/FinanceContext.tsx:712-718 | the variant's samples by ascending date |
| FinanceStore.Store.VariantCurrentAndPrevious | src/contexts/FinanceContext.tsx:756-794 | the summary of the last two prices of the history |
| FinanceStore.Store.VariantMonthlyAverages | src/contexts/FinanceContext.tsx:720-754 | the two loops give the monthly averages of the history |
| FinanceStore.GroupByMonth | src/contexts/FinanceContext.tsx:725-734 | the `forEach` totals and counts the dated samples by `YYYY-MM` |
| FinanceStore.AverageRows | src/contexts/FinanceContext.tsx:738-751 | the sorted months' `forEach` gives one row per key, its total over its count |
| SupplyPrices.Average | src/contexts/SupplyPricesContext.tsx:99-101 | `null` exactly for no samples, else the mean price |
| SupplyPrices.AverageBetween | src/contexts/SupplyPricesContext.tsx:99-101 | the mean of prices between `lo` and `hi` lies between them |
| SupplyPrices.AverageOfEqual | src/contexts/SupplyPricesContext.tsx:99-101 | equal prices average to that price |
| SupplyPrices.SupplyPriceStore.constructor | src/contexts/SupplyPricesContext.tsx:38 | the store holds the samples it was loaded with |
| SupplyPrices.SupplyPriceStore.AddSample | src/contexts/SupplyPricesContext.tsx:65-75 | the sample gets an id and a creation time, is appended and returned |
| SupplyPrices.SupplyPriceStore.History | src/contexts/SupplyPricesContext.tsx:77-80 | the variant's samples, each as often as stored, by ascending date |
| SupplyPrices.SupplyPriceStore.LastTwoPrices | src/contexts/SupplyPricesContext.tsx:82-87 | the last sample of the history and the one before it, when they exist |
| SupplyPrices.SupplyPriceStore.MonthlyAverage | src/contexts/SupplyPricesContext.tsx:89-102 | `null` without a sample of the variant that month, else the mean price of those samples |
| SupplyPrices.HistoryMembers | src/contexts/SupplyPricesContext.tsx:78-80 | sorting keeps the members of the list |
| Categories.UpdateCategorySpec | src/contexts/CategoriesContext.tsx:88-95 | `updateCategory` keeps the length, every id and `isDefault`, leaves other categories alone, gives matching ones the carried name and colour, and is idempotent |
| Categories.DeleteCategorySpec | src/contexts/CategoriesContext.tsx:84-86 | `deleteCategory` keeps exactly the categories of another id, and nothing changes without a match |
| Categories.CategoryStore.constructor | src/contexts/CategoriesContext.tsx:39 | the store holds the categories it was loaded with |
| Categories.CategoryStore.AddCategory | src/contexts/CategoriesContext.tsx:74-82 | one user category more, at the end |
| Categories.CategoryStore.DeleteCategory | src/contexts/CategoriesContext.tsx:84-86 | the categories of another id are kept |
| Categories.CategoryStore.UpdateCategory | src/contexts/CategoriesContext.tsx:88-95 | the categories of that id are patched |
| IncomeSources.WithSourceSpec | src/contexts/IncomeSourcesContext.tsx:62-69 | a name of white space only changes nothing; any other is stored trimmed, as a user source, at the end |
| IncomeSources.IncomeSourceStore.constructor | src/contexts/IncomeSourcesContext.tsx:29 | the store holds the sources it was loaded with |
| IncomeSources.IncomeSourceStore.AddSource | src/contexts/IncomeSourcesContext.tsx:62-69 | the sources become those with the trimmed name added, unless it is blank |
| IncomeSources.IncomeSourceStore.DeleteSource | src/contexts/IncomeSourcesContext.tsx:71-73 | exactly the sources of another id are kept, in order |
| MonthlySummaries.MonthSpend | src/utils/finance.ts:31-37 | twelve month totals of `saidas` |
| MonthlySummaries.MonthIncome | src/utils/finance.ts:39-45 | twelve month totals of `entradas` |
| MonthlySummaries.MonthSpendSpec | src/utils/finance.ts:31-37 | a month's `saidas` is the sum of the absolute amounts of the expenses dated in that month of the year |
| MonthlySummaries.MonthIncomeSpec | src/utils/finance.ts:39-45 | a month's `entradas` is the sum of the amounts of the incomes dated in that month of the year |
| MonthlySummaries.Accumulated | src/utils/finance.ts:15-29 | twelve summaries, months 0 to 11, with their totals filled in and every derived figure still 0 |
| MonthlySummaries.FinishAll | src/utils/finance.ts:56-76 | the final map keeps the length |
| MonthlySummaries.GetMonthlySummary | src/utils/finance.ts:10-77 | the two loops and the map compute the monthly summary |
| MonthlySummaries.AddUpExpenses | src/utils/finance.ts:31-37 | each dated expense of the year adds its absolute amount to its month |
| MonthlySummaries.AddUpIncomes | src/utils/finance.ts:39-45 | each dated income of the year adds its amount to its month |
| MonthlySummaries.SummaryShape | src/utils/finance.ts:15-29 | twelve entries, months 0 to 11 in order, each of the given year and labelled for it |
| MonthlySummaries.SummaryTotals | src/utils/finance.ts:31-57 | a month's `saidas` and `entradas` are the sums of its records, and its `saldo` is the one less the other |
| MonthlySummaries.SummaryIgnoresUndated | src/utils/finance.ts:32-34 | an expense without a date, or of another year, changes nothing |
| MonthlySummaries.MonthSharesSpec | src/utils/finance.ts:58-66 | within a month both shares are 0 unless the month's total is positive, and then they add up to 100 |
| MonthlySummaries.YearSharesSpec | src/utils/finance.ts:47-62 | the yearly shares of `saidas` add up to 100 when the year's `saidas` are positive and are all 0 otherwise; likewise for `entradas` |
| MonthlySummaries.YearShares | src/utils/finance.ts:47-62 | the final map keeps the totals, so the yearly shares are shares of the totals |
| MonthlySummaries.SharesOfTotal | src/utils/finance.ts:59-62 | shares of a positive total add up to 100, and shares of any other total are all 0 |
| ProductAnalytics.CategoryIdByName | src/hooks/useProductAnalytics.ts:39-43 | the name map is built by one `set` per category, in order |
| ProductAnalytics.NameIndexSpec | src/hooks/useProductAnalytics.ts:39-43 | a lower-cased name is a key exactly when some category has it, and it maps to the id of the last such category |
| ProductAnalytics.NameIndexKeys | src/hooks/useProductAnalytics.ts:39-43 | the keys are exactly the lower-cased names |
| ProductAnalytics.NameIndexLast | src/hooks/useProductAnalytics.ts:41 | a later name overwrites an earlier one |
| ProductAnalytics.CategoryFilterSpec | src/hooks/useProductAnalytics.ts:45-53 | an empty category list admits every expense; otherwise an expense is admitted by its own non-empty id, or by its name when the last category with that name has a non-empty id in the list |
| ProductAnalytics.PurchaseOfSpec | src/hooks/useProductAnalytics.ts:85-92 | a purchase is in its expense's month (first seven date characters); a missing or non-positive quantity counts as 1; the amount is the item's total |
| ProductAnalytics.PurchasesSpec | src/hooks/useProductAnalytics.ts:77-107 | the purchases are exactly those of the counted items: items of an admitted expense whose lower-cased description contains the term |
| ProductAnalytics.BuyersSpec | src/hooks/useProductAnalytics.ts:86-111 | an expense is among the buyers exactly when one of its items is counted |
| ProductAnalytics.ItemPurchasesStep | src/hooks/useProductAnalytics.ts:88-107 | counting one more item appends its purchase when it matches and nothing otherwise |
| ProductAnalytics.Entries | src/hooks/useProductAnalytics.ts:114 | one entry per month key |
| ProductAnalytics.BaseStats | src/hooks/useProductAnalytics.ts:116-124 | the first `map` keeps the entries' months and totals |
| ProductAnalytics.MonthlyStats | src/hooks/useProductAnalytics.ts:114-132 | the monthly list has one row per month entry |
| ProductAnalytics.MonthMapMirrors | src/hooks/useProductAnalytics.ts:98-106 | the month map is the grouping of the purchases by month, by quantity and by amount |
| ProductAnalytics.MonthKeysSpec | src/hooks/useProductAnalytics.ts:98-106 | each month is listed once, and exactly the months some purchase falls in are listed |
| ProductAnalytics.MonthStatsSpec | src/hooks/useProductAnalytics.ts:98-106 | a listed month's entry holds the quantities and the amounts of its purchases added up, and it has at least one purchase |
| ProductAnalytics.WithDiffsKeeps | src/hooks/useProductAnalytics.ts:125-132 | the diffs keep each month's key, totals and mean price |
| ProductAnalytics.WithDiffsSpec | src/hooks/useProductAnalytics.ts:125-132 | the first month gets no diff; every later month's `diffValor` is its mean price less the one before, and `diffPercent` is that change as a percentage when the previous mean price is positive |
| ProductAnalytics.MonthlySpec | src/hooks/useProductAnalytics.ts:114-124 | the monthly list is sorted by month and has a row for exactly the months some purchase falls in; a row's totals are those of its purchases and its mean price is their quotient, or 0 for a zero quantity |
| ProductAnalytics.MonthlyDiffsSpec | src/hooks/useProductAnalytics.ts:125-132 | the diffs of the monthly list are taken against the month before in that list |
| ProductAnalytics.MonthlyTotals | src/hooks/useProductAnalytics.ts:95-124 | the monthly quantities add up to the period's quantity, and the monthly amounts to the period's amount |
| ProductAnalytics.BlankTermSpec | src/hooks/useProductAnalytics.ts:37-56 | the normalised term is empty exactly when the term is missing or blank |
| ProductAnalytics.PositivePurchases | src/hooks/useProductAnalytics.ts:91 | every counted purchase has a positive quantity |
| ProductAnalytics.AnalyticsSpec | src/hooks/useProductAnalytics.ts:55-145 | a blank term gives the empty summary and no months; otherwise the summary names the trimmed term, its totals are those of the counted purchases and the sums of the monthly rows, the quantity is positive exactly when something was bought, the mean price is the quotient or 0, and the number of purchases is the number of buying expenses |
| ProductAnalytics.AnalyticsMonthlySpec | src/hooks/useProductAnalytics.ts:77-132 | with a term, the rows are sorted by month; every counted item's month has a row, every row's month is that of a counted item, and a row's totals are those of its month |
| ProductAnalytics.UseProductAnalytics | src/hooks/useProductAnalytics.ts:33-152 | the hook's loops compute the analytics of the stored expenses and categories |
| ProductAnalytics.VisitExpense | src/hooks/useProductAnalytics.ts:77-112 | one pass of the outer loop: the early returns, then the items |
| ProductAnalytics.VisitItems | src/hooks/useProductAnalytics.ts:88-107 | the inner loop counts exactly the matching items of the expense |
| ProductAnalytics.VisitItem | src/hooks/useProductAnalytics.ts:88-107 | a matching item adds to the totals and to its month and marks the expense as a purchase; any other changes nothing |
| ProductAnalytics.CountItem | src/hooks/useProductAnalytics.ts:89-106 | a matching item is counted once, and any other changes nothing |

## Left out

- Persistence is not modelled. That covers loading from and saving to `localStorage` and the seed categories and income sources written on first load. A store's constructor takes the lists it was loaded with.
- React state delivery is not modelled: several `set…` calls in one handler are applied in order, as if each saw the previous result.
- Tesseract OCR, the Veryfi SDK call, the HTTP upload, file handling and error responses are left out. They are foreign I/O. The model starts from the recognised text, or from the Veryfi document as a value.
- Floating point is not modelled: amounts are exact reals. `toFixed(2)` is modelled as rounding half away from zero on the exact value. Binary rounding of values like 1.005 is not modelled.
- Warning texts are not produced as formatted text. A warning is a value carrying the figures it prints.
- Locale-dependent output (`toLocaleDateString` month labels) is a parameter, `labelOf`.
- Date parsing (`new Date(s)`, `Date.parse`), the clock and fresh ids are parameters.
- `Object.entries` ordering is taken to be insertion order. That is exact for the keyword table and for UUID or `unknown` payment-method keys. A payment-method id that is a canonical array index would be listed first instead.
- The `monthsWithProduct` set of the analytics month map is never read by the code, so it is not modelled.
- Lower-casing is modelled for ASCII, the Latin-1 capitals and the Kelvin sign U+212A. The NFD accent strip is modelled for Latin-1 letters. Other scripts are left unchanged. Every keyword the code tests is ASCII.
- JsText.ToLower: keeps `İ` (U+0130) as it is. JavaScript lowers it to two characters, `i` and U+0307, so the promise that lower-casing keeps the length holds only within the characters modelled.
- `localeCompare` is taken as code-point order (`Sorting.LexLe`). That is exact for the keys the code sorts this way: the digit-and-dash `YYYY-MM-DD` dates and `YYYY-MM` months (src/contexts/FinanceContext.tsx:717 and 739, src/contexts/SupplyPricesContext.tsx:80, src/hooks/useProductAnalytics.ts:115). On general text the two orders differ: `B` comes before `a` by code point but after it under `localeCompare`.
- The React components that only display values are not part of this model: pages, charts, insights and formatters.
- Grouping.GroupBySpec: states distinct keys and exact totals but not that keys are kept in first-appearance order.
- Sorting.SortBySpec: states ordered output and a permutation but not stability. `Array.prototype.sort` is stable, and the insertion sort here is too, but that is not proved.
- ProductAnalytics.MonthlySpec: does not state that the rows' month keys are distinct. `ProductAnalytics.MonthKeysSpec` states this for the month map the rows are built from.
- ReceiptImport.EnrichedTotals: an infinite shown total falls back to the items total, as NaN does. The model's `NotFinite` merges NaN with the infinities, while JavaScript keeps `Infinity || itemsTotal` as Infinity.
- JsNumber.ToNumber: reads every object value, arrays included, as NaN. JavaScript gives `Number([]) == 0` and `Number([5]) == 5`, so an array-valued `quantity` or total field is not modelled.
- FinanceRecords.UpsertBalanceSpec: a new balance gets one clock reading `now` for both `createdAt` and `updatedAt`. The code reads `new Date()` separately for each, so the model assumes one handler reads the clock once.
- The fuel fields of an expense (`fuelLiters`, `fuelPricePerLiter`, `fuelStation`, `fuelType`, src/types/finance.ts:31-34) are not modelled. The stores only carry them along inside a record they add or patch, and only display pages read them.
- FinanceRecords.MethodTotals: the row order is the map's key order taken as insertion order (see `Object.entries` above).

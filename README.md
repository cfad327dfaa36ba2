# BillCraft invoice core in Dafny

This project models the computational core of BillCraft, a GST invoice
generator for Indian businesses. The model covers:

- the totals engine: per-line discount, taxable value and GST, the invoice
  aggregates, two-decimal rounding, and the older flat-rate helpers;
- the classification of a supply as intra-State (CGST + SGST) or
  inter-State (IGST);
- the amount column and the tax lines of the GST invoice preview;
- invoice-level and item-level validation;
- the amount in words, with Indian grouping;
- the per-day invoice numbering kept in browser storage;
- the editor state: the item list and the two rates, with add, update and
  remove operations.

Amounts, quantities and rates are exact `real`s. `Math.round(x * 100) / 100`
is `Round(x) = floor(100x + 0.5) / 100`. Strings are `seq<char>`.
JavaScript's `trim`, `padStart`, `String(n)` and `Number(s)` are modelled
in the module `Strings`.

The model follows the form of the code:

- `calculateInvoiceTotals` is a method with a loop over three accumulators.
  It is proved equal to the specification function `InvoiceTotalsOf`.
- The validators are methods that build their error maps one check at a
  time.
- The invoice numbering is a method on a `LocalStorage` class whose
  key-value map it updates.
- The hook's state is a `Calculator` class. Its updaters are pure sequence
  functions, as in the source.
- The rest are functions and lemmas.

Where the code departs from what the application is evidently meant to do,
the model follows the code:

- Required seller and buyer fields are checked with `!value`, without a
  trim. A whitespace-only company name is therefore accepted.
- The GST preview always prints CGST and SGST, even for inter-State
  supplies (see Findings).
- The blank item created by `addItem` has no rates in the source, so the
  totals of a list holding it would not be numbers; see "Left out".

## Model

| member | source | states |
|---|---|---|
| Calculations.Round | frontend/src/utils/calculations.ts:80-82 | The result is a whole number of paise and lies in the half-open window [x − 0.005, x + 0.005): half-up rounding to two decimals |
| Calculations.RoundUnique | frontend/src/utils/calculations.ts:88-90 | The only multiple of 0.01 in that window is `Round(x)`, so `round` and `roundToTwo` are characterised by their contract |
| Calculations.RoundOfCents | frontend/src/utils/calculations.ts:88-90 | Rounding an amount already in paise returns it unchanged |
| Calculations.RoundIdempotent | frontend/src/utils/calculations.ts:80-82 | Rounding twice equals rounding once |
| Calculations.RoundMonotone | frontend/src/utils/calculations.ts:80-82 | x ≤ y implies Round(x) ≤ Round(y) |
| Calculations.CentsClosed | frontend/src/utils/calculations.ts:18-20 | Sums and differences of paise amounts are paise amounts |
| Calculations.ItemTotal | frontend/src/utils/calculations.ts:6-12 | A negative quantity or price gives 0. Otherwise the result is quantity × price to the nearest paisa. It is never negative |
| Calculations.SumItemTotals | frontend/src/utils/calculations.ts:18-20 | The reduce over the item totals is a non-negative whole number of paise and is 0 for no items |
| Calculations.Subtotal | frontend/src/utils/calculations.ts:17-23 | The final rounding of calculateSubtotal never changes the sum of the item totals, and the subtotal is never negative |
| Calculations.Tax | frontend/src/utils/calculations.ts:28-34 | A negative rate gives 0. Otherwise the result is rate % of the subtotal to the nearest paisa |
| Calculations.Discount | frontend/src/utils/calculations.ts:39-45 | A negative rate gives 0. Otherwise the result is rate % of the subtotal to the nearest paisa |
| Calculations.ZeroRate | frontend/src/utils/calculations.ts:28-45 | A zero rate gives zero tax and zero discount |
| Calculations.Base | frontend/src/utils/calculations.ts:60 | The base is not negative when neither quantity nor price is |
| Calculations.DiscountAmount | frontend/src/utils/calculations.ts:61 | The discount is discountRate % of the base: 0 at 0 %, the whole base at 100 % |
| Calculations.Taxable | frontend/src/utils/calculations.ts:62 | The taxable value is what the discount leaves: the whole base at 0 %, nothing at 100 % |
| Calculations.GstAmount | frontend/src/utils/calculations.ts:63 | The GST is gstRate % of the taxable value: 0 at 0 %, and gstRate % of the base when there is no discount |
| Calculations.LineBounds | frontend/src/utils/calculations.ts:60-63 | For a line with non-negative quantity and price and rates within [0, 100]: 0 ≤ discount ≤ base, 0 ≤ taxable ≤ base, and GST ≥ 0 |
| Calculations.Sum | frontend/src/utils/calculations.ts:59-68 | The forEach accumulation: the running sum of one line amount over the items, first to last. It carries no contract; SumNonNegative, SumZero and SumPermutation state its properties |
| Calculations.SumNonNegative | frontend/src/utils/calculations.ts:59-68 | A sum of amounts none of which is negative is not negative |
| Calculations.SumZero | frontend/src/utils/calculations.ts:59-68 | A sum of zero amounts is 0 |
| Calculations.RawSubtotal | frontend/src/utils/calculations.ts:59-68 | The subtotal accumulator after the loop: the sum of the bases. No contract; see RawSubtotalNonNegative and RawBounds |
| Calculations.RawDiscount | frontend/src/utils/calculations.ts:59-68 | The discount accumulator after the loop: the sum of the line discounts. No contract; see RawWithoutRates and RawBounds |
| Calculations.RawGst | frontend/src/utils/calculations.ts:59-68 | The GST accumulator after the loop: the sum of the line GST amounts. No contract; see RawWithoutRates and RawBounds |
| Calculations.RawGrandTotal | frontend/src/utils/calculations.ts:70 | subtotal − discount + GST from the unrounded sums. No contract; see RawWithoutRates, RawBounds and GstInvoicePreview.RowAmountsSum |
| Calculations.RawSubtotalNonNegative | frontend/src/utils/calculations.ts:59-68 | With no quantity or price negative, the unrounded subtotal is not negative |
| Calculations.RawWithoutRates | frontend/src/utils/calculations.ts:59-70 | With every line at 0 % discount and 0 % GST, the unrounded discount and GST are 0 and the unrounded grand total is the subtotal |
| Calculations.InvoiceTotalsOf | frontend/src/utils/calculations.ts:70-77 | Each of the four totals is in paise and within half a paisa of its unrounded sum. The grand total is taken from the unrounded sums |
| Calculations.CalculateInvoiceTotals | frontend/src/utils/calculations.ts:52-78 | The forEach loop with its three accumulators, followed by the rounding, returns exactly `InvoiceTotalsOf(items)` |
| Calculations.EmptyTotals | frontend/src/utils/calculations.ts:55-77 | An empty item list gives subtotal = tax = discount = grand total = 0 |
| Calculations.RawBounds | frontend/src/utils/calculations.ts:59-70 | For well-formed lines: 0 ≤ raw discount ≤ raw subtotal, raw GST ≥ 0, and raw grand total ≥ 0 |
| Calculations.TotalsBounds | frontend/src/utils/calculations.ts:72-77 | The rounded totals keep those bounds |
| Calculations.GrandTotalDrift | frontend/src/utils/calculations.ts:70-76 | The grand total differs from subtotal − discount + tax of the rounded parts by −0.01, 0 or 0.01, never more |
| Calculations.HalfPaisaRounding | frontend/src/utils/calculations.ts:80-82 | Ties round up: Round(0.005) = 0.01 and Round(0.995) = 1 |
| Calculations.GrandTotalNotSumOfRoundedParts | frontend/src/utils/calculations.ts:70-76 | Take one line of 1 × 1.00 with a 0.5% discount and no GST. The totals are (1.00, 0, 0.01, 1.00), and the grand total is not subtotal − discount + tax |
| Calculations.WorkedExample | frontend/src/utils/calculations.ts:52-78 | Take 2 × 100.00 with a 10% discount and 18% GST. The totals are subtotal 200, discount 20, tax 32.40 and grand total 212.40 |
| Calculations.NoGuardInTotals | frontend/src/utils/calculations.ts:10-11 | calculateItemTotal gives 0 for −1 × 10. calculateInvoiceTotals has no such guard and gives a subtotal of −10 for the same line |
| Calculations.SumPermutation | frontend/src/utils/calculations.ts:59-68 | A sum accumulated over the items does not depend on their order (equal multisets give equal sums) |
| Calculations.TotalsPermutation | frontend/src/utils/calculations.ts:52-78 | Reordering the items leaves all four totals unchanged |
| GstType.GetGstType | frontend/src/utils/gstType.ts:1-12 | The result is IGST exactly when both States are non-empty and different. A missing State, or equal States, give CGST_SGST |
| GstType.GstTypeSymmetric | frontend/src/utils/gstType.ts:9-11 | Swapping seller and buyer States does not change the classification |
| GstType.CaseSensitive | frontend/src/utils/gstType.ts:9-11 | The comparison is exact: "gujarat" vs "Gujarat" is IGST, Gujarat vs Gujarat is CGST_SGST, Gujarat vs Maharashtra is IGST |
| GstInvoicePreview.RowAmount | frontend/src/components/InvoicePreview/GstInvoicePreview.tsx:88-92 | A row's amount is its taxable value grossed up by the GST rate: taxable × (100 + gstRate) / 100 |
| GstInvoicePreview.RowAmountAgrees | frontend/src/components/InvoicePreview/GstInvoicePreview.tsx:88-92 | A row's amount is the line's base − discount + GST, computed as the totals engine computes the same line |
| GstInvoicePreview.RowAmounts | frontend/src/components/InvoicePreview/GstInvoicePreview.tsx:87-92 | One amount per item, in item order |
| GstInvoicePreview.RowAmountsSum | frontend/src/components/InvoicePreview/GstInvoicePreview.tsx:87-92 | The amount column adds up to the unrounded grand total of calculateInvoiceTotals |
| GstInvoicePreview.PreviewSplit | frontend/src/components/InvoicePreview/GstInvoicePreview.tsx:13-14 | As written: the tax is always shown as CGST and SGST, two equal halves that add up to the tax |
| GstInvoicePreview.SplitTax | frontend/src/components/InvoicePreview/GstInvoicePreview.tsx:13-14 | Corrected: the result is a CGST/SGST split exactly when the kind is CGST_SGST, with halves summing to the tax. Otherwise it is IGST equal to the whole tax |
| GstInvoicePreview.SplitAccountsForTax | frontend/src/components/InvoicePreview/GstInvoicePreview.tsx:13-14 | Either way of splitting accounts for the whole tax |
| GstInvoicePreview.PreviewAgreesWithinState | frontend/src/components/InvoicePreview/GstInvoicePreview.tsx:13-14 | When the classification is CGST_SGST, the preview equals the corrected split |
| GstInvoicePreview.PreviewIgnoresInterState | frontend/src/components/InvoicePreview/GstInvoicePreview.tsx:13-14 | For a Gujarat seller and a Maharashtra buyer the classification is IGST, yet the preview differs from the IGST split |
| ValidateInvoice.ValidateSeller | frontend/src/utils/validateInvoice.ts:24-32 | Each of companyName, address, gstin and state has an error iff that field is empty. The key set is the set of empty required fields, each with its fixed message |
| ValidateInvoice.ValidateBuyer | frontend/src/utils/validateInvoice.ts:34-38 | name and address have an error iff empty, each with its fixed message. No other buyer key appears |
| ValidateInvoice.Validate | frontend/src/utils/validateInvoice.ts:13-45 | The seller and buyer maps are as above. The items message is present iff the list is empty, and then it reads "At least one item is required" |
| ValidateInvoice.SellerChecksIndependent | frontend/src/utils/validateInvoice.ts:25-32 | Emptying one required seller field adds exactly that key to the error keys and changes no other |
| ValidateInvoice.BuyerChecksIndependent | frontend/src/utils/validateInvoice.ts:35-38 | Emptying one required buyer field adds exactly that key |
| ValidateInvoice.FullyPopulated | frontend/src/utils/validateInvoice.ts:25-38 | Non-empty required fields give no errors, whitespace-only ones included. Buyer GSTIN and State never matter |
| Validators.ValidateItem | frontend/src/utils/validators.ts:7-23 | "name" is set iff the name is blank after trim, "quantity" iff quantity ≤ 0, "price" iff price < 0. No other key appears; the map is empty iff all three checks pass; the messages are fixed |
| Validators.ValidateRates | frontend/src/utils/validators.ts:25-40 | "taxRate" and "discountRate" are each set iff that rate lies outside [0, 100], with their fixed messages. No other key appears |
| NumberToWords.InWords | frontend/src/utils/numberToWords.ts:15-36 | The inner inWords terminates on every natural number, and its words are empty exactly for 0 |
| NumberToWords.NumberToWords | frontend/src/utils/numberToWords.ts:1-39 | The result has no whitespace at either end, and it is empty exactly for amounts strictly between 0 and 1 |
| NumberToWords.TablesAreWords | frontend/src/utils/numberToWords.ts:2-11 | Table entries 1–19 and tens 2–9 are capitalised words; entry 0 is empty |
| NumberToWords.ShapeBelowHundred | frontend/src/utils/numberToWords.ts:16-18 | Below 100, the words are letters and spaces, empty exactly for 0, and capitalised otherwise |
| NumberToWords.ShapeHundreds | frontend/src/utils/numberToWords.ts:19-24 | The hundreds case keeps that shape |
| NumberToWords.ShapeGroup | frontend/src/utils/numberToWords.ts:25-35 | The Thousand and Lakh cases keep that shape |
| NumberToWords.InWordsShape | frontend/src/utils/numberToWords.ts:15-36 | For every n, inWords(n) is letters and spaces, empty exactly for 0, and starts with a capital letter otherwise |
| NumberToWords.TrimOnlyAtEnd | frontend/src/utils/numberToWords.ts:38 | The final trim only removes trailing spaces from those words |
| NumberToWords.TrimTrailingSpace | frontend/src/utils/numberToWords.ts:38 | The trim removes the one space left after a tens word or group word |
| NumberToWords.Zero | frontend/src/utils/numberToWords.ts:13 | 0 reads "Zero" |
| NumberToWords.FractionDiscarded | frontend/src/utils/numberToWords.ts:38 | An amount ≥ 1 reads as its whole part, which starts with a capital letter |
| NumberToWords.BelowOne | frontend/src/utils/numberToWords.ts:38 | An amount strictly between 0 and 1 reads as the empty string |
| NumberToWords.OnesLookup | frontend/src/utils/numberToWords.ts:16 | 1 to 19 read as their table entry |
| NumberToWords.TensLookup | frontend/src/utils/numberToWords.ts:17-18 | Round tens read as the tens word, with the trailing space trimmed |
| NumberToWords.TwentyThousandWords | frontend/src/utils/numberToWords.ts:25-30 | Before trimming, 20000 gives "Twenty  Thousand " |
| NumberToWords.DoubleSpace | frontend/src/utils/numberToWords.ts:15-38 | 20000 reads "Twenty  Thousand": the inner double space survives the trim |
| NumberToWords.TenMillionWords | frontend/src/utils/numberToWords.ts:31-35 | Before trimming, 10000000 gives "One Hundred  Lakh " |
| NumberToWords.NoCrore | frontend/src/utils/numberToWords.ts:31-35 | There is no Crore: ten million reads "One Hundred  Lakh" |
| Strings.Trim | frontend/src/utils/validators.ts:10 | The result is a slice s[i..j] of the input with only whitespace before i and after j. Neither end of it is whitespace, and it is empty exactly when the input is all whitespace |
| Strings.TrimIdentity | frontend/src/utils/numberToWords.ts:38 | A string with no whitespace at either end is its own trim |
| Strings.PadStart | frontend/src/utils/invoiceNumber.ts:5-6 | The result's length is max(length, width), it ends with the input, and the rest is fill characters |
| Strings.NatToString | frontend/src/utils/invoiceNumber.ts:13 | A non-empty string of decimal digits, exactly one digit long iff n < 10, with no leading zero |
| Strings.NatToStringRoundTrip | frontend/src/utils/invoiceNumber.ts:11-13 | Reading back the decimal string gives n |
| Strings.ZeroPaddedRoundTrip | frontend/src/utils/invoiceNumber.ts:15 | Zero-padding a decimal string keeps its digits and its value |
| InvoiceNumber.TwoDigits | frontend/src/utils/invoiceNumber.ts:5-6 | Month and day are exactly two digits whose value is the number |
| InvoiceNumber.TodayKey | frontend/src/utils/invoiceNumber.ts:4-8 | The date key is all digits: the unpadded year, then two digits reading back as the month, then two reading back as the day |
| InvoiceNumber.CounterKey | frontend/src/utils/invoiceNumber.ts:10 | The counter key is "invoice-counter-" followed by the date key |
| InvoiceNumber.Serial | frontend/src/utils/invoiceNumber.ts:15 | The serial has at least three digits and exactly three below 100, is the plain decimal count from 100 up, and reads back as the count |
| InvoiceNumber.ShortDecimal | frontend/src/utils/invoiceNumber.ts:15 | A count has at most two digits exactly below 100, so the padding only acts below 100 |
| InvoiceNumber.FormatInvoiceNumber | frontend/src/utils/invoiceNumber.ts:17 | The number is "INV-", the date key, "-" and the serial, each at its own position |
| InvoiceNumber.SerialPart | frontend/src/utils/invoiceNumber.ts:17 | The part after "INV-", the date key and "-" is the serial |
| InvoiceNumber.InvoiceNumberInjective | frontend/src/utils/invoiceNumber.ts:10-17 | Different counts on the same day give different invoice numbers |
| InvoiceNumber.FirstSerial | frontend/src/utils/invoiceNumber.ts:15 | The first number of a day has serial "001" |
| InvoiceNumber.ThousandthSerial | frontend/src/utils/invoiceNumber.ts:15 | The 1000th number of a day has serial "1000", not truncated |
| InvoiceNumber.CounterReadsBack | frontend/src/utils/invoiceNumber.ts:11-13 | The stored counter string is a non-empty digit string that reads back as the count |
| InvoiceNumber.ReadCounter | frontend/src/utils/invoiceNumber.ts:11 | A missing or empty counter entry reads as 0 |
| InvoiceNumber.ReadAfterWrite | frontend/src/utils/invoiceNumber.ts:11-13 | After the write, reading the day's counter gives the new count, so the next number's count is one higher |
| InvoiceNumber.LocalStorage.GenerateInvoiceNumber | frontend/src/utils/invoiceNumber.ts:1-18 | Only the day's counter entry changes, to the decimal string of the old count + 1. The result is "INV-", the date key, "-" and the serial of that count |
| InvoiceNumber.LocalStorage.Increment | frontend/src/utils/invoiceNumber.ts:11-13 | The count is the stored count + 1, and only the counter entry changes, to that count's decimal string |
| InvoiceCalculator.Set | frontend/src/hooks/useInvoiceCalculator.ts:38 | The updated field holds the new value, and every other field keeps its value |
| InvoiceCalculator.BlankItem | frontend/src/hooks/useInvoiceCalculator.ts:19-25 | The blank row has the given id, is well formed, and has base, discount and GST 0. The model gives it rates of 0, where the source gives it none (see Left out) |
| InvoiceCalculator.AppendItem | frontend/src/hooks/useInvoiceCalculator.ts:16-27 | Exactly one item is appended at the end, earlier items are unchanged, and the new item has the given id, name "", quantity 1 and price 0 |
| InvoiceCalculator.UpdateItems | frontend/src/hooks/useInvoiceCalculator.ts:35-41 | Length and order are kept, and items with another id are unchanged. In matching items only the field changes, to the value |
| InvoiceCalculator.RemoveItems | frontend/src/hooks/useInvoiceCalculator.ts:45-47 | No item with the id remains, and every other item is kept as many times as it occurred |
| InvoiceCalculator.AppendKeepsTotals | frontend/src/hooks/useInvoiceCalculator.ts:16-27 | Adding a blank row leaves all totals unchanged. This holds for the model's zero rates only: in the source the row has no rates, so discount, tax and grand total become NaN (calculations.ts:61-63) |
| InvoiceCalculator.UpdateAbsent | frontend/src/hooks/useInvoiceCalculator.ts:35-41 | Updating an id that is not in the list leaves the list unchanged |
| InvoiceCalculator.RemoveAbsent | frontend/src/hooks/useInvoiceCalculator.ts:45-47 | Removing an id that is not in the list leaves the list unchanged |
| InvoiceCalculator.RemoveDistributes | frontend/src/hooks/useInvoiceCalculator.ts:45-47 | Removal distributes over concatenation, so kept items stay in their relative order |
| InvoiceCalculator.RemoveIdempotent | frontend/src/hooks/useInvoiceCalculator.ts:45-47 | Removing the same id twice equals removing it once |
| InvoiceCalculator.UpdateLabelKeepsTotals | frontend/src/hooks/useInvoiceCalculator.ts:11-13 | Changing an item's name or id leaves all totals unchanged |
| InvoiceCalculator.Calculator.constructor | frontend/src/hooks/useInvoiceCalculator.ts:6-8 | The editor starts with no items and both rates at 0 |
| InvoiceCalculator.Calculator.Totals | frontend/src/hooks/useInvoiceCalculator.ts:11-13 | The totals are those of the current items. The two rates play no part |
| InvoiceCalculator.Calculator.AddItem | frontend/src/hooks/useInvoiceCalculator.ts:16-27 | The items become `AppendItem` of the old items, and the rates are unchanged |
| InvoiceCalculator.Calculator.UpdateItem | frontend/src/hooks/useInvoiceCalculator.ts:30-42 | The items become `UpdateItems` of the old items, and the rates are unchanged |
| InvoiceCalculator.Calculator.RemoveItem | frontend/src/hooks/useInvoiceCalculator.ts:45-47 | The items become `RemoveItems` of the old items, and the rates are unchanged |
| InvoiceCalculator.Calculator.SetTaxRate | frontend/src/hooks/useInvoiceCalculator.ts:7 | Only the tax rate changes, so the items and the totals stay as they were |
| InvoiceCalculator.Calculator.SetDiscountRate | frontend/src/hooks/useInvoiceCalculator.ts:8 | Only the discount rate changes, so the items and the totals stay as they were |
| InvoiceCalculator.AddThenRemove | frontend/src/hooks/useInvoiceCalculator.ts:16-47 | Adding a row under a fresh id and then removing that id restores the item list |

## Left out

- Floating point: all arithmetic is exact. Binary artefacts of `Math.round(x * 100)`, such as 1.005 rounding down, are not reproduced. Neither is the rounding of the CGST/SGST halves for display.
- Rendering: `toFixed`, currency formatting and the rest of the preview markup are not modelled. Nor are the form widgets, the pages, PDF export and the flat-rate preview component.
- Backend calls, authentication and the business-profile and beneficiary stores are not part of this model.
- Browser services are parameters:
  - `crypto.randomUUID()` is the `freshId` argument of `AddItem`;
  - `new Date()` is the `Date` argument of `GenerateInvoiceNumber`;
  - `localStorage` is the `LocalStorage` class's string-to-string map.
- InvoiceCalculator.BlankItem: `addItem` sets no `discountRate` or `gstRate`, so in the source the discount, GST and grand total of a list holding such an item are NaN (frontend/src/utils/calculations.ts:61-63). The model gives both rates 0, so InvoiceCalculator.AppendKeepsTotals holds in the model but not in the source. The source also sets a `total: 0` field that the item type does not declare; it is dropped.
- InvoiceCalculator.UpdateItem: `updateItem` is typed to accept a string or a number for any field. The model requires the value to have the field's declared type (`Fits`). This excludes nothing the item form sends: it passes text only for the name (frontend/src/components/InvoiceForm/ItemRow.tsx:31), wraps every numeric input in `Number(...)` (ItemRow.tsx:47-52, 66-72, 87-92, 128-133) and passes a numeric slab for the GST rate (ItemRow.tsx:110). The one exception is NaN from `Number` on non-numeric text, which falls under floating point above.
- InvoiceNumber.LocalStorage.GenerateInvoiceNumber: requires the stored counter to be a string of decimal digits. A malformed counter, which `Number` turns into NaN, is not modelled.
- NumberToWords.InWords: takes a natural number and always terminates. In the source, a NaN grand total (from a blank row, above) reaches `numberToWords` from the preview (GstInvoicePreview.tsx:127). There every comparison with NaN is false, so `inWords` recurses without end. NaN is outside this model.
- NumberToWords.NumberToWords: requires a non-negative amount. For a negative amount the source indexes its table with a negative number and then fails on `trim`.
- Absent optional fields of SellerDetails and BuyerDetails are modelled as "". Both are falsy in JavaScript, so every check treats them alike.
- InvoiceCalculator.Calculator.Totals: `useMemo` caching and React re-rendering are not modelled. The totals are recomputed on demand from the current items.

## Findings

| source | as written | input that shows it | evidently intended | confidence | as-written member | corrected member |
|---|---|---|---|---|---|---|
| frontend/src/components/InvoicePreview/GstInvoicePreview.tsx:13-14 | The tax is always printed as CGST = SGST = tax / 2, and the seller and buyer States are never consulted | A seller in "Gujarat" and a buyer in "Maharashtra": getGstType gives IGST, but the preview prints CGST and SGST halves | For an inter-State supply the whole tax is printed as IGST, and the halves are printed only for an intra-State supply | medium, not executed | GstInvoicePreview.PreviewIgnoresInterState | GstInvoicePreview.SplitTax |

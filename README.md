# BMW offer pilot — verified model of the order-capture logic

This project models, in Dafny, the sequential logic of a small vehicle-offer
tool:

- **The priced-line parser and vehicle normaliser of the back end**
  (`backend/vehicle_parser.py`).
  - `parse_priced_lines` reads lines such as `3AB Sitzheizung 100`: a
    three-character option code, a description and a trailing decimal price.
    It fails as a whole on the first malformed line; otherwise it builds a
    code→price map.
  - `normalize_vehicle_input` sorts the ordered option codes of a vehicle
    into base, standard, optional and security entries by their `category`
    metadata. It picks a display text through a fallback chain, prices the
    non-base codes from the priced lines and sums a total.
- **Date-based option pricing** (`pricing.py`).
  - `parse_date` is a partial `%Y-%m-%d` date parser.
  - `get_price_for_date` returns the price of the last listed rule whose
    `from` date has started by the target date, or 0.
  - `resolve_option` and `resolve_multiple_options` look option codes up
    and fail on unknown ones.
- **The front-end calculation and export** (`frontend/src/App.jsx`).
  - `getPriceByDate`: the first rule whose inclusive `[start, end]`
    interval contains the date, else the first rule, else 0.
  - The `calculation` memo: whitespace tokenisation of the bulk option-code
    text, per-item name defaulting, and the total.
  - `handleExport`: the line-by-line text report, the MIME type and the
    download filename.
  - The form state, whose ident number is stored upper-cased.

Modules, one per file:

| file | module | models |
|---|---|---|
| `common.dfy` | `Common` | `Option`/`Result`, ASCII digits, generic sequence facts |
| `dates.dfy` | `Dates` | calendar dates as (year, month, day), ordered lexicographically |
| `price_lines.dfy` | `PriceLines` | `PRICE_LINE_REGEX` as a recogniser, `parse_priced_lines` as a loop method and a fold |
| `vehicle_normalizer.dfy` | `VehicleNormalizer` | `normalize_vehicle_input`: three loops as methods, proved against fold functions |
| `pricing.dfy` | `Pricing` | `parse_date`, `get_price_for_date` (loop method plus fold), `resolve_option`, `resolve_multiple_options` |
| `app_calculation.dfy` | `AppCalculation` | `getPriceByDate` and the `calculation` memo, as pure functions |
| `app_form.dfy` | `AppForm` | the form state as class `OrderForm` with its setters; `handleExport` as a method building the report |

How the code is represented:

- **Prices** are exact `real`s.
- **Python dates** are checked (year, month, day) triples.
- **JavaScript dates** are an `Instant` (a time value, or *Invalid Date*).
  - Every comparison with an *Invalid Date* is false.
  - The string → `Instant` conversion of `new Date(...)` is a function
    parameter.
- **Currency formatting** (`Intl.NumberFormat`) is a function parameter.
- **Current date:** the form constructor takes the current date as an
  argument.
- **Lookup tables:** `PRICING_DATABASE` and `OPTION_DESCRIPTIONS` are
  parameters of the calculation.
  - The form passes the source's two empty tables.
  - `ShippedTablesCostNothing` states what follows from that.

An item without a description is named `'Zusatzausstattung'`
(`frontend/src/App.jsx:69`).

## Model

| member | source | states |
|---|---|---|
| PriceLines.MatchPriceLine | backend/vehicle_parser.py:7-9 | models `PRICE_LINE_REGEX.match` on a stripped line, returning the `code` and `price` groups; what it accepts is stated by `MatchPriceLineCorrect` |
| PriceLines.ParseLine | backend/vehicle_parser.py:21-27 | models one iteration of the loop: strip, match, raise `Invalid priced line format` with the stripped line, or extract code and price; stated by `ParseLineMeaning` |
| PriceLines.Collect | backend/vehicle_parser.py:18-31 | models the loop over the line outcomes: the first error, or the dict filled with overwrites; stated by `CollectFailure` and `CollectContents` |
| PriceLines.PricedLines | backend/vehicle_parser.py:12-31 | models `parse_priced_lines` as a function; stated by `PricedLinesFailure`, `PricedLinesContents` and `PricedLinesEmpty` |
| PriceLines.Strip | backend/vehicle_parser.py:21 | the stripped line is a slice of the input with no leading or trailing whitespace, and everything cut off is whitespace |
| PriceLines.MatchPriceLineCorrect | backend/vehicle_parser.py:7-9 | the recogniser accepts a line iff it has the regex's shape: 3 code chars A–Z/0–9, whitespace, a non-empty description, whitespace, a numeral `\d+([.,]\d+)?` at the end; the code is the first 3 chars and the price group is the text after the last whitespace, whatever split the regex finds |
| PriceLines.LastTokenStartUnique | backend/vehicle_parser.py:8 | every split that satisfies the regex puts the price group at the same position, after the last whitespace |
| PriceLines.NumeralHasNoSpace | backend/vehicle_parser.py:8 | a price numeral contains no whitespace |
| PriceLines.PriceValueWhole | backend/vehicle_parser.py:27 | a numeral of digits only is worth its decimal value |
| PriceLines.PriceValueFraction | backend/vehicle_parser.py:27 | `w.f` is worth w plus f divided by 10 to the number of digits of f |
| PriceLines.CommaSameAsDot | backend/vehicle_parser.py:27 | `w,f` gives the same price as `w.f` |
| PriceLines.ParseLineMeaning | backend/vehicle_parser.py:20-27 | a line fails iff its stripped form does not match, and the error carries the stripped line; otherwise the code is the first three code characters and the price is the value of the last token |
| PriceLines.ParsePricedLines | backend/vehicle_parser.py:12-31 | the loop that fills the dict with overwrites computes exactly the fold `PricedLines` |
| PriceLines.CollectFailure | backend/vehicle_parser.py:20-24 | the fold fails iff some line fails, with the first failing line's error |
| PriceLines.CollectContents | backend/vehicle_parser.py:26-31 | the fold's keys are exactly the lines' codes, and each code maps to the price of its last line |
| PriceLines.PricedLinesFailure | backend/vehicle_parser.py:22-24 | `parse_priced_lines` fails iff some line is malformed; no line is skipped, no partial map is returned, and the error names the first bad line |
| PriceLines.PricedLinesContents | backend/vehicle_parser.py:26-31 | on success the key set is the set of codes in the lines, and a repeated code takes the later line's price |
| PriceLines.PricedLinesEmpty | backend/vehicle_parser.py:18 | no lines give the empty map |
| VehicleNormalizer.NormalizedVehicle | backend/vehicle_parser.py:37-123 | models `normalize_vehicle_input` as a function: the priced-line error, or the vehicle assembled from the folds below; stated by `NormalizedVehicleOutcome` |
| VehicleNormalizer.DisplayText | backend/vehicle_parser.py:99-104 | models the `text or label or description or code` chain; stated by `DisplayTextFallback` |
| VehicleNormalizer.BaseCodes | backend/vehicle_parser.py:63-68 | models `base_codes` after the first loop; stated by `BaseCodesMembers`, `BaseCodesAppend`, `BaseCodesSkip` and `BaseEntries` |
| VehicleNormalizer.BaseItems | backend/vehicle_parser.py:70-84 | models `result["base"]` after the second loop; stated by `BaseEntries` and `BaseItemsAppend` |
| VehicleNormalizer.CategoryItems | backend/vehicle_parser.py:89-119 | models each category list after the third loop; stated by `CategoryEntries`, `CategoryItemsAppend` and `CategoryItemsSkip` |
| VehicleNormalizer.TotalPrice | backend/vehicle_parser.py:89-121 | models `result["total_price"]` after the third loop; stated by `TotalSplit`, `TotalPriceAppend` and `TotalPriceInsert` |
| VehicleNormalizer.FirstFilled | backend/vehicle_parser.py:73-78 | an `or` chain of `meta.get` calls: the first key with a non-empty value, else the fallback |
| VehicleNormalizer.DisplayTextFallback | backend/vehicle_parser.py:99-104 | display text is text, else label, else description, else the code, with empty strings counting as missing |
| VehicleNormalizer.BaseCodesMembers | backend/vehicle_parser.py:63-68 | a code is in `base_codes` iff it is among the codes and its metadata has category `base` |
| VehicleNormalizer.NormalizeVehicleInput | backend/vehicle_parser.py:37-123 | the function with its three loops returns exactly `NormalizedVehicle`: the parse error, or the base/standard/optional/security lists and total of the folds |
| VehicleNormalizer.CollectBaseCodes | backend/vehicle_parser.py:63-68 | the first loop builds `BaseCodes` |
| VehicleNormalizer.BuildBaseEntries | backend/vehicle_parser.py:70-84 | the second loop builds one base entry per base code |
| VehicleNormalizer.PriceOtherCodes | backend/vehicle_parser.py:89-121 | the third loop builds each category list and the total exactly as the folds define them |
| VehicleNormalizer.BaseEntries | backend/vehicle_parser.py:63-84 | base entries follow the codes' order, every base entry has price 0 even when a priced line exists, and each base code occurs as often as in `all_codes` |
| VehicleNormalizer.CategoryEntries | backend/vehicle_parser.py:89-119 | every entry of a category list has that category, its display text and its priced-line price (default 0); a code selected for the category occurs there as often as in the codes, any other code not at all |
| VehicleNormalizer.BaseCodesAppend | backend/vehicle_parser.py:63-68 | collecting base codes distributes over concatenation, so order is kept |
| VehicleNormalizer.BaseItemsAppend | backend/vehicle_parser.py:70-84 | base entries distribute over concatenation |
| VehicleNormalizer.CategoryItemsAppend | backend/vehicle_parser.py:114-119 | a category list distributes over concatenation, so it keeps input order |
| VehicleNormalizer.TotalPriceAppend | backend/vehicle_parser.py:121 | the total is additive over concatenation |
| VehicleNormalizer.BaseCodesSkip | backend/vehicle_parser.py:65-68 | inserting a non-base code anywhere leaves `base_codes` unchanged |
| VehicleNormalizer.CategoryItemsSkip | backend/vehicle_parser.py:114-119 | inserting a code not selected for a category leaves that list unchanged |
| VehicleNormalizer.TotalPriceInsert | backend/vehicle_parser.py:106-121 | inserting a code adds its price to the total iff it is counted (known, non-empty metadata, not base) |
| VehicleNormalizer.UnknownCodeIgnored | backend/vehicle_parser.py:93-95 | a code without metadata changes no list and not the total |
| VehicleNormalizer.UncategorisedCodeOnlyPriced | backend/vehicle_parser.py:114-121 | a counted code whose category is none of standard/optional/security changes no list but adds its price to the total |
| VehicleNormalizer.TotalSplit | backend/vehicle_parser.py:97-121 | the total is the sum over the three lists plus the prices of counted codes in no list |
| VehicleNormalizer.TotalIsListSum | backend/vehicle_parser.py:114-121 | when every counted code has one of the three categories, the total is the sum of the three lists' prices |
| VehicleNormalizer.NoUnlistedTotal | backend/vehicle_parser.py:114-121 | without uncategorised counted codes, the unlisted part of the total is 0 |
| VehicleNormalizer.NormalizedVehicleOutcome | backend/vehicle_parser.py:50 | the normaliser fails iff the priced lines fail to parse, and otherwise uses the parsed prices |
| Dates.OnOrBeforeTotal | pricing.py:15 | date comparison is a total order: any two dates compare, and the order is antisymmetric |
| Dates.OnOrBeforeTransitive | pricing.py:15 | date comparison is transitive |
| Dates.DaysInMonth | pricing.py:6 | a month has 28 to 31 days, and 29 exactly for February of a leap year |
| Pricing.MonthField | pricing.py:6 | `%m` reads one or two characters and gives a month in 1..12, taking the first alternative that matches |
| Pricing.MonthFieldValue | pricing.py:6 | the month `%m` reads is the number its one or two digits spell |
| Pricing.DayField | pricing.py:6 | `%d` reads one or two characters and gives a day in 1..31 |
| Pricing.DayFieldValue | pricing.py:6 | the day `%d` reads is the number its one or two digits spell, or the digit after a blank |
| Pricing.ParseDate | pricing.py:5-6 | every parsed date is a valid calendar date |
| Pricing.ParseDateSpelling | pricing.py:5-6 | `parse_date` gives `d` iff `d` is a valid date and the text spells it as four year digits, `-`, the month in two digits or (below 10) one, `-`, the day in two digits or (below 10) one digit or a blank and a digit; every other text is rejected |
| Pricing.Pad | pricing.py:5-6 | zero-padding a number gives all digits of the requested width that read back as the number |
| Pricing.ParseIsoText | pricing.py:5-6 | every valid date written as `YYYY-MM-DD` parses back to itself |
| Pricing.ScanRules | pricing.py:11-18 | models the loop's `valid_price` over the rules seen so far; stated by `ScanRulesFailure`, `ScanRulesLastStarted` and `ScanRulesAscending` |
| Pricing.PriceForDate | pricing.py:9-18 | models `get_price_for_date` as a function; stated by `PriceForDateEdges` and the scan lemmas |
| Pricing.GetPriceForDate | pricing.py:9-18 | the loop that reassigns `valid_price` computes `PriceForDate` |
| Pricing.ScanRulesFailure | pricing.py:13-14 | the scan fails iff some rule's `from` date does not parse, with the first such date as the error |
| Pricing.ScanRulesLastStarted | pricing.py:11-18 | with all dates parsing, the result is the price of the last listed rule started by the target date, or 0.0 when none has started |
| Pricing.ScanRulesAscending | pricing.py:13-16 | for rules in ascending `from` order, the result is the price of a started rule whose date is the greatest started date |
| Pricing.PriceForDateEdges | pricing.py:10-13 | an unparsable target date is an error; no `prices` key or an empty rule list gives 0.0 |
| Pricing.ResolveOption | pricing.py:21-33 | an unknown code fails with that code; a known one succeeds iff its price resolves, and returns the code, the option's `type` and `description`, and the date-resolved price |
| Pricing.ResolveMultipleOptions | pricing.py:36-37 | success iff every code resolves; then exactly one result per code, in order, each that code's `ResolveOption` result; otherwise the first failing code's error |
| Pricing.UnknownCodeFails | pricing.py:36-37 | one unknown code anywhere in the list makes the whole resolution fail |
| AppCalculation.SplitWs | frontend/src/App.jsx:64 | models `split(/\s+/)`: cut at each maximal whitespace run, with empty fields at a leading or trailing run |
| AppCalculation.Tokens | frontend/src/App.jsx:64 | models `split(/\s+/).filter(c => c.trim().length > 0)`; stated by `TokensNoSpace`, `TokensKeepText`, `TokensOfSpaced` and `BlankTextNoTokens` |
| AppCalculation.GetPriceByDate | frontend/src/App.jsx:30-42 | models `getPriceByDate` over the table's own keys; stated by `GetPriceByDateCases` |
| AppCalculation.Calculate | frontend/src/App.jsx:63-75 | models the `calculation` memo; stated by `CalculationItems`, `EmptyTableCostsNothing` and `BlankTextEmptyCalculation` |
| AppCalculation.FirstSpace | frontend/src/App.jsx:64 | the position of the first whitespace character, or the length |
| AppCalculation.SpaceRunEnd | frontend/src/App.jsx:64 | the end of the whitespace run that starts at a given position |
| AppCalculation.TokensNoSpace | frontend/src/App.jsx:64 | every token kept after `split(/\s+/).filter(...)` is non-empty and has no whitespace |
| AppCalculation.TokensKeepText | frontend/src/App.jsx:64 | the tokens, concatenated, are the text with its whitespace removed: nothing but whitespace is lost, and order is kept |
| AppCalculation.TokensOfSpaced | frontend/src/App.jsx:64 | codes laid out with any non-empty whitespace between them and any whitespace or none before the first and after the last (blanks, tabs, line breaks, runs of them) split back into exactly those codes, order and duplicates kept |
| AppCalculation.BlankTextNoTokens | frontend/src/App.jsx:64 | text made only of whitespace has no tokens |
| AppCalculation.RemoveSpaces | frontend/src/App.jsx:64 | the text with every whitespace character removed contains no whitespace |
| AppCalculation.FindCovering | frontend/src/App.jsx:35-39 | `rules.find` finds a rule iff some rule's inclusive interval contains the date, and then the first such rule |
| AppCalculation.GetPriceByDateCases | frontend/src/App.jsx:30-42 | an absent code costs 0; otherwise the price of the first covering rule, else the first rule's price, else 0 for an empty list |
| AppCalculation.NameFor | frontend/src/App.jsx:69 | the item name is the description when it is present and non-empty, else `Zusatzausstattung` |
| AppCalculation.CalculationItems | frontend/src/App.jsx:63-75 | one item per token, in order, with kind `Option`, the token as code, its name and its date price; the total is the sum of the item prices |
| AppCalculation.SumItemsAppend | frontend/src/App.jsx:73 | the reduce sum is additive over concatenation |
| AppCalculation.SumItemsZero | frontend/src/App.jsx:73 | items that all cost 0 sum to 0 |
| AppCalculation.EmptyTableCostsNothing | frontend/src/App.jsx:27-32 | with an empty pricing table and the own-key lookup, every item price and the total are 0, whatever the tokens (the lookup as written throws on inherited names instead, see "## Findings") |
| AppCalculation.GetPriceByDateAsWritten | frontend/src/App.jsx:30-35 | models the lookup as written, with JavaScript property access: an inherited name missing from the table throws a `TypeError`, any other code is priced as by `GetPriceByDate`; stated by `AsWrittenLookup` |
| AppCalculation.AsWrittenLookup | frontend/src/App.jsx:30-35 | the lookup as written throws iff the code is an inherited property name the table does not hold, and otherwise returns the own-key price |
| AppCalculation.EmptyTableAsWritten | frontend/src/App.jsx:63-75 | with the shipped empty table, the calculation as written fails iff some code is an inherited property name |
| AppCalculation.ConstructorCodeThrows | frontend/src/App.jsx:30-35 | the single code `constructor` costs 0 in the own-key model but makes the calculation as written throw |
| AppCalculation.BlankTextEmptyCalculation | frontend/src/App.jsx:64-73 | empty or blank bulk text gives no items and total 0 |
| AppForm.UpperChar | frontend/src/App.jsx:187 | upper-casing one character maps a–z to A–Z and keeps every other character |
| AppForm.AsciiUpper | frontend/src/App.jsx:187 | upper-casing keeps the length |
| AppForm.AsciiUpperMeaning | frontend/src/App.jsx:187 | the upper-cased text has no lowercase letter; each lowercase letter becomes its capital and every other character is kept |
| AppForm.AsciiUpperIdempotent | frontend/src/App.jsx:187 | upper-casing twice is upper-casing once |
| AppForm.OrderForm.constructor | frontend/src/App.jsx:48-57 | the form starts with the given date, the first department, number type, country and price modes, and empty ident, codes and notes |
| AppForm.OrderForm.SetProdDate | frontend/src/App.jsx:149 | only the production date changes, to the given value |
| AppForm.OrderForm.SetDept | frontend/src/App.jsx:155 | only the department changes |
| AppForm.OrderForm.SetCountry | frontend/src/App.jsx:164 | only the country changes |
| AppForm.OrderForm.SetNumType | frontend/src/App.jsx:175 | only the number type changes |
| AppForm.OrderForm.SetNumValue | frontend/src/App.jsx:187 | only the ident number changes, to the upper-cased input, so the stored ident never holds a lowercase letter |
| AppForm.OrderForm.SetBulkCodes | frontend/src/App.jsx:204 | only the bulk code text changes |
| AppForm.OrderForm.SetExtraNotes | frontend/src/App.jsx:222 | only the notes change |
| AppForm.OrderForm.SetPriceTypeNet | frontend/src/App.jsx:238 | only the net price mode changes |
| AppForm.OrderForm.SetPriceTypeTotal | frontend/src/App.jsx:244 | only the total price mode changes |
| AppForm.OrderForm.HandleExport | frontend/src/App.jsx:78-110 | the report built by repeated `+=` is exactly `Export` of the form state and its calculation: the content, the MIME type and the filename |
| AppForm.AppendItemLines | frontend/src/App.jsx:92-94 | the `forEach` appends exactly the item lines, in item order |
| AppForm.PadEnd | frontend/src/App.jsx:93 | `padEnd(35)` keeps the name as a prefix and fills with spaces up to the larger of its length and 35 |
| AppForm.MimeType | frontend/src/App.jsx:101 | the spreadsheet MIME type iff the format is `xlsx`, the PDF type otherwise |
| AppForm.Report | frontend/src/App.jsx:81-99 | models the report text that `handleExport` builds; stated by `ItemLinesInOrder`, `NoOptionsExactlyWhenEmpty` and `ReportEndsWithNotes` |
| AppForm.ExportFilename | frontend/src/App.jsx:106 | models the `a.download` name; stated by `ExportFilenameFields` |
| AppForm.Export | frontend/src/App.jsx:78-106 | models the content, MIME type and filename of the download; `HandleExport` is proved equal to it |
| AppForm.ExportFilenameFields | frontend/src/App.jsx:106 | the filename is exactly `BMW_Export_`, the ident or `Data` when it is empty, `_`, the production date, `.` and the format, with nothing else: its length is the sum of those parts |
| AppForm.ItemLinesAppend | frontend/src/App.jsx:92-94 | the lines of a concatenation are the concatenated lines |
| AppForm.ItemLinesInOrder | frontend/src/App.jsx:92-94 | item i's line (code in brackets, padded name, price) sits in the report after the lines of the items before it |
| AppForm.ItemLinesCount | frontend/src/App.jsx:92-94 | without newlines in the fields, the item lines hold exactly one newline per item |
| AppForm.NoOptionsExactlyWhenEmpty | frontend/src/App.jsx:89-95 | the options section starts with `Keine Optionen eingegeben.` exactly when there are no items; otherwise it starts with the first item's line |
| AppForm.ReportEndsWithNotes | frontend/src/App.jsx:99 | the report ends with the notes heading and the notes, or `Keine` when the notes are empty |
| AppForm.ShippedTablesCostNothing | frontend/src/App.jsx:63-75 | with the source's empty tables and the own-key lookup, every item of the form's calculation is named `Zusatzausstattung` and costs 0, and the total is 0 |

## Findings

| source | as written | input that shows it | evidently intended | confidence | as-written member | corrected member |
|---|---|---|---|---|---|---|
| frontend/src/App.jsx:31-35 | `PRICING_DATABASE[code]` also finds properties inherited from `Object.prototype`; one is truthy, passes `if (!rules)`, and `rules.find` then throws a `TypeError` inside the `calculation` memo | the bulk text `constructor` (or `toString`, `__proto__`, `valueOf`) with the shipped empty table | a code with no rules of its own costs 0, so with the shipped tables every calculation has total 0 | not executed | AppCalculation.ConstructorCodeThrows | AppCalculation.EmptyTableCostsNothing |

## Left out

- Floating point: prices are exact reals. The IEEE rounding of `float()`, of the `+=`/`reduce` sums and of the JSON numbers is not modelled.
- Python `str.strip`, `\s` and `\d` are modelled on ASCII. Python's `\x1c`–`\x1f` are counted as whitespace. Unicode whitespace and Unicode digits are left out.
- `parse_priced_lines`: `float()` of the price group is modelled as its exact decimal value.
- `normalize_vehicle_input` takes `model`, `color` and `interior`, but its body never reads them. `NormalizeVehicleInput` takes them and does not read them either; the function `NormalizedVehicle` leaves them out.
- `options_meta` is a map from codes to string-valued metadata. A value of another JSON type (a number, `null`, a non-empty list) and its truthiness are not modelled, and an empty metadata object counts as absent. Reading `options_meta.json` (`backend/main.py`) is not part of this model: the metadata is an input.
- `get_price_for_date`: a rule without a `from` or `price` key (a `KeyError`), `prices: null`, and non-numeric prices are not modelled. A rule is a record with both fields.
- `ParseDate`: `strptime`'s locale handling is outside the model, and only the `%Y-%m-%d` format is modelled. The time part is dropped (it is always midnight).
- `GetPriceByDate`: JavaScript `new Date` parsing, time zones and time of day are a parameter. Comparisons with an *Invalid Date* are false, as in JavaScript.
- `GetPriceByDate`: looks codes up among the table's own keys, so a code such as `constructor` costs 0. The source reads inherited properties too and then throws; that behaviour is modelled separately by `GetPriceByDateAsWritten` (see "## Findings").
- `CalculateAsWritten`: the name an inherited property gives through `OPTION_DESCRIPTIONS[code]` is not modelled, since the price lookup throws for that code anyway while the pricing table lacks it.
- `AppForm.OrderForm.SetNumValue`: upper-cases ASCII `a`–`z` only. JavaScript's `toUpperCase` also maps letters such as `ä` to `Ä` and `ß` to `SS`.
- `AppForm.PadEnd`: counts characters, not UTF-16 code units.
- `Intl.NumberFormat` currency formatting is a parameter `formatCurrency`.
- `AppForm.NoOptionsExactlyWhenEmpty`: stated on the options section of the report. The whole report can still contain the phrase elsewhere, because the user's notes are free text.
- Browser behaviour is not modelled:
  - the Blob, `URL.createObjectURL` and the link click that download the file;
  - React rendering;
  - the `maxLength` of the ident input;
  - the dropdowns that restrict the selectable values (the setters accept any string).
- The default production date (`new Date().toISOString()`) is an argument of the constructor.
- The spreadsheet and PDF builders (`backend/excel_builder.py`, `excel_builder.py`, `backend/pdf_builder.py`), the HTTP service (`backend/main.py`) and the request schema (`backend/schemas.py`) are not part of this model.

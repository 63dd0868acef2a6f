/** The order-entry page's form state and its export: the fields the page
    keeps, the setters that update them (the ident number is stored
    upper-cased), and the text report with its file name and MIME type. */
module AppForm {
  import opened Common
  import opened AppCalculation

  // ---------------------------------------------------------------------
  // The page's constants
  // ---------------------------------------------------------------------

  const Departments: seq<string> := ["MH", "FR", "CG", "JR"]
  const NumberTypes: seq<string> := ["VIN", "Order NR.", "Proforma Order NR."]
  const PriceTypesNet: seq<string> := ["NET VEHICLE PRICE", "NET VEHICLE PRICE WHS"]
  const PriceTypesTotal: seq<string> := ["TOTAL OFFER PRICE", "TOTAL OFFER PRICE WHS", "TOTAL OFFER PRICE WHS GVT."]
  const Countries: seq<string> :=
    ["Abu Dhabi", "Egypt", "Australia", "Germany", "France", "Great Britain",
     "USA", "China", "Dubai", "Switzerland", "Austria", "Sweden", "Norway"]

  /** The description and pricing tables the page ships with: both empty. */
  const OptionDescriptions: map<string, string> := map[]
  const PricingDatabase: map<string, seq<IntervalRule>> := map[]

  const SalesPersonName: string := "Max Mustermann"

  // ---------------------------------------------------------------------
  // toUpperCase
  // ---------------------------------------------------------------------

  predicate IsLower(c: char) {
    'a' <= c <= 'z'
  }

  function UpperChar(c: char): (u: char)
    ensures !IsLower(u)
    ensures !IsLower(c) ==> u == c
    ensures IsLower(c) ==> u as int == c as int - 32
  {
    if IsLower(c) then (c as int - 32) as char else c
  }

  predicate NoLower(s: string) {
    forall i :: 0 <= i < |s| ==> !IsLower(s[i])
  }

  /** `toUpperCase` on the ASCII letters. */
  function AsciiUpper(s: string): (r: string)
    ensures |r| == |s|
  {
    seq(|s|, i requires 0 <= i < |s| => UpperChar(s[i]))
  }

  /** The result has no lower-case letter, and every character that was not
      one is kept. */
  lemma AsciiUpperMeaning(s: string)
    ensures NoLower(AsciiUpper(s))
    ensures forall i :: 0 <= i < |s| && !IsLower(s[i]) ==> AsciiUpper(s)[i] == s[i]
    ensures forall i :: 0 <= i < |s| && IsLower(s[i]) ==> AsciiUpper(s)[i] as int == s[i] as int - 32
  {
  }

  /** Upper-casing twice is upper-casing once, and text without lower-case
      letters is left alone. */
  lemma AsciiUpperIdempotent(s: string)
    ensures AsciiUpper(AsciiUpper(s)) == AsciiUpper(s)
    ensures NoLower(s) ==> AsciiUpper(s) == s
  {
  }

  // ---------------------------------------------------------------------
  // Form state
  // ---------------------------------------------------------------------

  /** The values of the page's state variables. */
  datatype FormState = FormState(
    prodDate: string, dept: string, numType: string, numValue: string, country: string,
    priceTypeNet: string, priceTypeTotal: string, bulkCodes: string, extraNotes: string)

  /** What a click on an export button produces. */
  datatype ExportFile = ExportFile(content: string, mimeType: string, filename: string)

  /** The state holder of the page; each setter replaces one field. */
  class OrderForm {
    var prodDate: string
    var dept: string
    var numType: string
    var numValue: string
    var country: string
    var priceTypeNet: string
    var priceTypeTotal: string
    var bulkCodes: string
    var extraNotes: string

    function State(): FormState
      reads this
    {
      FormState(prodDate, dept, numType, numValue, country, priceTypeNet, priceTypeTotal, bulkCodes, extraNotes)
    }

    /** The stored ident number never holds a lower-case letter: the
        constructor sets it up, `SetNumValue` re-establishes it and every
        other setter keeps it. */
    predicate Valid()
      reads this
    {
      NoLower(numValue)
    }

    /** The initial state; `today` is the current date as `YYYY-MM-DD`. */
    constructor(today: string)
      ensures State() == FormState(today, Departments[0], NumberTypes[0], "", Countries[0],
                                   PriceTypesNet[0], PriceTypesTotal[0], "", "")
      ensures Valid()
    {
      prodDate := today;
      dept := Departments[0];
      numType := NumberTypes[0];
      numValue := "";
      country := Countries[0];
      priceTypeNet := PriceTypesNet[0];
      priceTypeTotal := PriceTypesTotal[0];
      bulkCodes := "";
      extraNotes := "";
    }

    method SetProdDate(v: string)
      requires Valid()
      modifies this
      ensures State() == old(State()).(prodDate := v)
      ensures Valid()
    {
      prodDate := v;
    }

    method SetDept(v: string)
      requires Valid()
      modifies this
      ensures State() == old(State()).(dept := v)
      ensures Valid()
    {
      dept := v;
    }

    method SetNumType(v: string)
      requires Valid()
      modifies this
      ensures State() == old(State()).(numType := v)
      ensures Valid()
    {
      numType := v;
    }

    /** The ident number input: stored upper-cased. */
    method SetNumValue(v: string)
      modifies this
      ensures State() == old(State()).(numValue := AsciiUpper(v))
      ensures Valid()
    {
      numValue := AsciiUpper(v);
      AsciiUpperMeaning(v);
    }

    method SetCountry(v: string)
      requires Valid()
      modifies this
      ensures State() == old(State()).(country := v)
      ensures Valid()
    {
      country := v;
    }

    method SetPriceTypeNet(v: string)
      requires Valid()
      modifies this
      ensures State() == old(State()).(priceTypeNet := v)
      ensures Valid()
    {
      priceTypeNet := v;
    }

    method SetPriceTypeTotal(v: string)
      requires Valid()
      modifies this
      ensures State() == old(State()).(priceTypeTotal := v)
      ensures Valid()
    {
      priceTypeTotal := v;
    }

    method SetBulkCodes(v: string)
      requires Valid()
      modifies this
      ensures State() == old(State()).(bulkCodes := v)
      ensures Valid()
    {
      bulkCodes := v;
    }

    method SetExtraNotes(v: string)
      requires Valid()
      modifies this
      ensures State() == old(State()).(extraNotes := v)
      ensures Valid()
    {
      extraNotes := v;
    }

    /** The `calculation` memo over the current state and the shipped
        tables. */
    function Calculation(parseDate: string -> Instant): AppCalculation.Calculation
      reads this
    {
      Calculate(bulkCodes, prodDate, PricingDatabase, OptionDescriptions, parseDate)
    }

    /** `handleExport(format)`: the report is built line by line. */
    method HandleExport(format: string, formatCurrency: real -> string, parseDate: string -> Instant)
      returns (file: ExportFile)
      ensures file == Export(State(), Calculation(parseDate), format, formatCurrency)
    {
      var calculation := Calculation(parseDate);
      var items := calculation.allItems;
      var content := "BMW ANGEBOTSPROTOKOLL - DATENAUFNAHME\n";
      content := content + "==========================================\n";
      content := content + ("PROD-DATUM: " + prodDate + " | DEPT: " + dept + "\n");
      content := content + (numType + ": " + (if numValue != "" then numValue else "N/A") + " | LAND: " + country + "\n");
      content := content + ("PREIS-MODUS: " + priceTypeNet + " / " + priceTypeTotal + "\n");
      content := content + ("VERKÄUFER: " + SalesPersonName + "\n\n");
      content := content + "EINGEGEBENE OPTIONEN:\n";

      if |items| == 0 {
        content := content + NoOptionsLine;
      } else {
        content := AppendItemLines(content, items, formatCurrency);
      }

      content := content + "\n------------------------------------------\n";
      content := content + ("GESAMTSUMME: " + formatCurrency(calculation.total) + "\n\n");
      content := content + ("ZUSÄTZLICHE ANMERKUNGEN (XXXL):\n" + (if extraNotes != "" then extraNotes else "Keine") + "\n");

      var mimeType := if format == "xlsx" then SpreadsheetMime else PdfMime;
      var filename := "BMW_Export_" + (if numValue != "" then numValue else "Data") + "_" + prodDate + "." + format;
      file := ExportFile(content, mimeType, filename);
    }
  }

  /** `allItems.forEach(item => { content += ... })` */
  method AppendItemLines(content: string, items: seq<CalcItem>, formatCurrency: real -> string) returns (r: string)
    ensures r == content + ItemLines(items, formatCurrency)
  {
    r := content;
    assert r == content + ItemLines(items[..0], formatCurrency);
    for n := 0 to |items|
      invariant r == content + ItemLines(items[..n], formatCurrency)
    {
      ItemLinesStep(items, n, formatCurrency);
      r := r + ItemLine(items[n], formatCurrency);
    }
    assert items[..|items|] == items;
  }

  // ---------------------------------------------------------------------
  // The report, its file name and its MIME type
  // ---------------------------------------------------------------------

  const NoOptionsLine: string := "Keine Optionen eingegeben.\n"
  const SpreadsheetMime: string := "application/vnd.openxmlformats-officedocument.spreadsheetml.sheet"
  const PdfMime: string := "application/pdf"

  /** `s.padEnd(width)`: blanks appended up to `width` characters. */
  function PadEnd(s: string, width: nat): (r: string)
    ensures |r| == if |s| < width then width else |s|
    ensures r[..|s|] == s
    ensures forall k :: |s| <= k < |r| ==> r[k] == ' '
  {
    if |s| < width then s + seq(width - |s|, _ => ' ') else s
  }

  /** The report's lines up to the options heading; an empty ident number
      reads 'N/A'. */
  function ReportHeader(st: FormState): string {
    "BMW ANGEBOTSPROTOKOLL - DATENAUFNAHME\n"
    + "==========================================\n"
    + ("PROD-DATUM: " + st.prodDate + " | DEPT: " + st.dept + "\n")
    + (st.numType + ": " + (if st.numValue != "" then st.numValue else "N/A") + " | LAND: " + st.country + "\n")
    + ("PREIS-MODUS: " + st.priceTypeNet + " / " + st.priceTypeTotal + "\n")
    + ("VERKÄUFER: " + SalesPersonName + "\n\n")
    + "EINGEGEBENE OPTIONEN:\n"
  }

  /** `[code] name…(35) | price` */
  function ItemLine(item: CalcItem, formatCurrency: real -> string): string {
    "[" + item.code + "] " + PadEnd(item.name, 35) + " | " + formatCurrency(item.price) + "\n"
  }

  /** The lines of `items.forEach`, in order. */
  function ItemLines(items: seq<CalcItem>, formatCurrency: real -> string): string {
    ConcatMap(items, LineOf(formatCurrency))
  }

  function LineOf(formatCurrency: real -> string): CalcItem -> string {
    item => ItemLine(item, formatCurrency)
  }

  function OptionsSection(items: seq<CalcItem>, formatCurrency: real -> string): string {
    if |items| == 0 then NoOptionsLine else ItemLines(items, formatCurrency)
  }

  /** The closing notes block, 'Keine' for empty notes. */
  function NotesBlock(st: FormState): string {
    "ZUSÄTZLICHE ANMERKUNGEN (XXXL):\n" + (if st.extraNotes != "" then st.extraNotes else "Keine") + "\n"
  }

  function Report(st: FormState, calculation: AppCalculation.Calculation, formatCurrency: real -> string): string {
    ReportHeader(st) + OptionsSection(calculation.allItems, formatCurrency)
    + "\n------------------------------------------\n"
    + ("GESAMTSUMME: " + formatCurrency(calculation.total) + "\n\n")
    + NotesBlock(st)
  }

  function MimeType(format: string): (m: string)
    ensures m == SpreadsheetMime <==> format == "xlsx"
    ensures m != SpreadsheetMime ==> m == PdfMime
  {
    if format == "xlsx" then SpreadsheetMime else PdfMime
  }

  function ExportFilename(st: FormState, format: string): string {
    "BMW_Export_" + (if st.numValue != "" then st.numValue else "Data") + "_" + st.prodDate + "." + format
  }

  function Export(st: FormState, calculation: AppCalculation.Calculation, format: string, formatCurrency: real -> string): ExportFile {
    ExportFile(Report(st, calculation, formatCurrency), MimeType(format), ExportFilename(st, format))
  }

  // ---------------------------------------------------------------------
  // Properties of the report
  // ---------------------------------------------------------------------

  lemma ItemLinesAppend(a: seq<CalcItem>, b: seq<CalcItem>, formatCurrency: real -> string)
    ensures ItemLines(a + b, formatCurrency) == ItemLines(a, formatCurrency) + ItemLines(b, formatCurrency)
  {
    ConcatMapAppend(a, b, LineOf(formatCurrency));
  }

  /** One line per item, in the items' order: the lines before item `i`,
      its own line, and the lines after it. */
  lemma ItemLinesInOrder(items: seq<CalcItem>, formatCurrency: real -> string, i: int)
    requires 0 <= i < |items|
    ensures ItemLines(items, formatCurrency) ==
              ItemLines(items[..i], formatCurrency) + ItemLine(items[i], formatCurrency)
              + ItemLines(items[i + 1..], formatCurrency)
  {
    var before, after := items[..i], items[i + 1..];
    SplitAt(items, i);
    ItemLinesAppend(before, items[i..], formatCurrency);
    ItemLinesAppend([items[i]], after, formatCurrency);
    ItemLinesSingle(items[i], formatCurrency);
  }

  lemma ItemLinesStep(items: seq<CalcItem>, n: int, formatCurrency: real -> string)
    requires 0 <= n < |items|
    ensures ItemLines(items[..n + 1], formatCurrency) == ItemLines(items[..n], formatCurrency) + ItemLine(items[n], formatCurrency)
  {
    assert items[..n + 1][..n] == items[..n];
  }

  lemma ItemLinesSingle(item: CalcItem, formatCurrency: real -> string)
    ensures ItemLines([item], formatCurrency) == ItemLine(item, formatCurrency)
  {
    var f := LineOf(formatCurrency);
    assert [item][..0] == [];
    assert ConcatMap([item], f) == ConcatMap([], f) + f(item);
    assert [] + ItemLine(item, formatCurrency) == ItemLine(item, formatCurrency);
  }

  predicate NoNewline(s: string) {
    '\n' !in s
  }

  /** With no line break inside a code, a name or a formatted price, the
      item lines hold exactly one line break per item. */
  lemma {:induction false} ItemLinesCount(items: seq<CalcItem>, formatCurrency: real -> string)
    requires forall i :: 0 <= i < |items| ==>
               NoNewline(items[i].code) && NoNewline(items[i].name) && NoNewline(formatCurrency(items[i].price))
    ensures multiset(ItemLines(items, formatCurrency))['\n'] == |items|
    decreases |items|
  {
    if items != [] {
      var init, last := items[..|items| - 1], items[|items| - 1];
      ItemLinesCount(init, formatCurrency);
      ItemLineCount(last, formatCurrency);
      assert ItemLines(items, formatCurrency) == ItemLines(init, formatCurrency) + ItemLine(last, formatCurrency);
    }
  }

  /** An item line without line breaks in its fields holds one. */
  lemma ItemLineCount(item: CalcItem, formatCurrency: real -> string)
    requires NoNewline(item.code) && NoNewline(item.name) && NoNewline(formatCurrency(item.price))
    ensures multiset(ItemLine(item, formatCurrency))['\n'] == 1
  {
    var pad := PadEnd(item.name, 35);
    assert NoNewline(pad) by {
      forall k | 0 <= k < |pad| ensures pad[k] != '\n' {
        if k < |item.name| {
          assert pad[k] == pad[..|item.name|][k];
        }
      }
    }
  }

  /** The options section, whatever follows it, opens with "Keine Optionen
      eingegeben." exactly when there are no items; otherwise it opens with
      the first item's line. */
  lemma NoOptionsExactlyWhenEmpty(items: seq<CalcItem>, formatCurrency: real -> string, following: string)
    ensures var text := OptionsSection(items, formatCurrency) + following;
            && (NoOptionsLine <= text <==> items == [])
            && (items != [] ==> ItemLine(items[0], formatCurrency) <= text)
  {
    var section := OptionsSection(items, formatCurrency);
    if items == [] {
      PrefixExtend(NoOptionsLine, section, following);
    } else {
      var line := ItemLine(items[0], formatCurrency);
      ItemLinesStart(items, formatCurrency);
      PrefixExtend(line, section, following);
      ItemLineOpensWithBracket(items[0], formatCurrency);
      BracketIsNoNoOptionsLine(section + following);
    }
  }

  /** The first item's line opens the item lines. */
  lemma ItemLinesStart(items: seq<CalcItem>, formatCurrency: real -> string)
    requires items != []
    ensures ItemLine(items[0], formatCurrency) <= ItemLines(items, formatCurrency)
  {
    var line := ItemLine(items[0], formatCurrency);
    assert [items[0]] + items[1..] == items;
    ItemLinesAppend([items[0]], items[1..], formatCurrency);
    ItemLinesSingle(items[0], formatCurrency);
    PrefixExtend(line, line, ItemLines(items[1..], formatCurrency));
  }

  lemma ItemLineOpensWithBracket(item: CalcItem, formatCurrency: real -> string)
    ensures |ItemLine(item, formatCurrency)| > 0 && ItemLine(item, formatCurrency)[0] == '['
  {
  }

  lemma BracketIsNoNoOptionsLine(text: string)
    requires |text| > 0 && text[0] == '['
    ensures !(NoOptionsLine <= text)
  {
    assert NoOptionsLine[0] == 'K';
  }

  lemma PrefixExtend(p: string, q: string, more: string)
    requires p <= q
    ensures p <= q + more
  {
    assert (q + more)[..|p|] == q[..|p|];
  }

  /** The notes close the report, with 'Keine' for empty notes. */
  lemma ReportEndsWithNotes(st: FormState, calculation: AppCalculation.Calculation, formatCurrency: real -> string)
    ensures var notes := if st.extraNotes == "" then "Keine" else st.extraNotes;
            var tail := "ZUSÄTZLICHE ANMERKUNGEN (XXXL):\n" + notes + "\n";
            var r := Report(st, calculation, formatCurrency);
            |tail| <= |r| && r[|r| - |tail|..] == tail
  {
    EndsWith(ReportHeader(st) + OptionsSection(calculation.allItems, formatCurrency)
             + "\n------------------------------------------\n"
             + ("GESAMTSUMME: " + formatCurrency(calculation.total) + "\n\n"), NotesBlock(st));
  }

  /** `BMW_Export_<ident or "Data">_<date>.<format>` */
  lemma ExportFilenameFields(st: FormState, format: string)
    ensures var f, ident := ExportFilename(st, format), if st.numValue == "" then "Data" else st.numValue;
            && f[..11] == "BMW_Export_"
            && f[11..11 + |ident|] == ident
            && f[11 + |ident|] == '_'
            && f[12 + |ident|..12 + |ident| + |st.prodDate|] == st.prodDate
            && f[|f| - |format| - 1..] == "." + format
            && |f| == 13 + |ident| + |st.prodDate| + |format|
  {
  }

  /** With the shipped (empty) tables, every exported item and the total
      cost 0. */
  lemma ShippedTablesCostNothing(form: OrderForm, parseDate: string -> Instant)
    ensures var c := form.Calculation(parseDate);
            && (forall i :: 0 <= i < |c.allItems| ==> c.allItems[i].price == 0.0 && c.allItems[i].name == DefaultName)
            && c.total == 0.0
  {
    EmptyTableCostsNothing(form.bulkCodes, form.prodDate, OptionDescriptions, parseDate);
    CalculationItems(form.bulkCodes, form.prodDate, PricingDatabase, OptionDescriptions, parseDate);
  }
}

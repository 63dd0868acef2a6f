/** The normaliser of the vehicle back end: sorts the ordered option codes of
    a vehicle into base, standard, optional and security entries according to
    each code's metadata, gives each entry a display text, prices the
    non-base entries from the priced lines and sums a total. */
module VehicleNormalizer {
  import opened Common
  import PriceLines

  /** The metadata of one option, a JSON object of string values. */
  type Meta = map<string, string>

  /** `options_meta`: option code to metadata. */
  type OptionsMeta = map<string, Meta>

  datatype Item = Item(code: string, text: string, price: real)

  datatype Vehicle = Vehicle(
    base: seq<Item>,
    standard: seq<Item>,
    optional: seq<Item>,
    security: seq<Item>,
    totalPrice: real)

  // ---------------------------------------------------------------------
  // Metadata lookups
  // ---------------------------------------------------------------------

  /** `options_meta.get(code, {})` */
  function MetaOf(om: OptionsMeta, code: string): Meta {
    if code in om then om[code] else map[]
  }

  /** `meta = options_meta.get(code)` is truthy: present and not `{}`. */
  predicate HasMeta(om: OptionsMeta, code: string) {
    code in om && |om[code]| > 0
  }

  function Category(m: Meta): Option<string> {
    if "category" in m then Some(m["category"]) else None
  }

  predicate IsBase(om: OptionsMeta, code: string) {
    HasMeta(om, code) && Category(om[code]) == Some("base")
  }

  /** A code that reaches the pricing loop: known, non-empty metadata, not base. */
  predicate Counted(om: OptionsMeta, code: string) {
    HasMeta(om, code) && !IsBase(om, code)
  }

  /** A code that lands in the list of category `cat`. */
  predicate Selected(om: OptionsMeta, code: string, cat: string) {
    Counted(om, code) && Category(om[code]) == Some(cat)
  }

  /** A key whose value is a non-empty string (a truthy `meta.get(key)`). */
  predicate Filled(m: Meta, key: string) {
    key in m && m[key] != ""
  }

  /** `m.get(keys[0]) or m.get(keys[1]) or ... or fallback` */
  function FirstFilled(m: Meta, keys: seq<string>, fallback: string): (r: string)
    ensures (forall i :: 0 <= i < |keys| ==> !Filled(m, keys[i])) ==> r == fallback
    ensures forall i :: 0 <= i < |keys| && Filled(m, keys[i]) && (forall j :: 0 <= j < i ==> !Filled(m, keys[j]))
                        ==> r == m[keys[i]]
  {
    if keys == [] then fallback
    else if Filled(m, keys[0]) then m[keys[0]]
    else FirstFilled(m, keys[1..], fallback)
  }

  /** The display text: `text`, else `label`, else `description`, else the
      code itself, empty strings counting as missing. */
  function DisplayText(m: Meta, code: string): string {
    FirstFilled(m, ["text", "label", "description"], code)
  }

  lemma DisplayTextFallback(m: Meta, code: string)
    ensures Filled(m, "text") ==> DisplayText(m, code) == m["text"]
    ensures !Filled(m, "text") && Filled(m, "label") ==> DisplayText(m, code) == m["label"]
    ensures (!Filled(m, "text") && !Filled(m, "label") && Filled(m, "description"))
              ==> DisplayText(m, code) == m["description"]
    ensures (!Filled(m, "text") && !Filled(m, "label") && !Filled(m, "description"))
              ==> DisplayText(m, code) == code
  {
    var keys := ["text", "label", "description"];
    assert keys[0] == "text" && keys[1] == "label" && keys[2] == "description";
  }

  /** `priced_prices.get(code, 0.0)` */
  function PriceOf(prices: map<string, real>, code: string): real {
    if code in prices then prices[code] else 0.0
  }

  // ---------------------------------------------------------------------
  // What the loops build, as functions of the codes seen so far
  // ---------------------------------------------------------------------

  function Last<T>(s: seq<T>): T
    requires |s| > 0
  {
    s[|s| - 1]
  }

  function Init<T>(s: seq<T>): seq<T>
    requires |s| > 0
  {
    s[..|s| - 1]
  }

  /** `base_codes` after the first loop: the base codes in order, repeats kept. */
  function BaseCodes(om: OptionsMeta, codes: seq<string>): seq<string> {
    if codes == [] then []
    else BaseCodes(om, Init(codes)) + (if IsBase(om, Last(codes)) then [Last(codes)] else [])
  }

  function BaseItem(om: OptionsMeta, code: string): Item {
    Item(code, DisplayText(MetaOf(om, code), code), 0.0)
  }

  /** `result["base"]` after the second loop. */
  function BaseItems(om: OptionsMeta, baseCodes: seq<string>): seq<Item> {
    if baseCodes == [] then []
    else BaseItems(om, Init(baseCodes)) + [BaseItem(om, Last(baseCodes))]
  }

  function PricedItem(om: OptionsMeta, prices: map<string, real>, code: string): Item {
    Item(code, DisplayText(MetaOf(om, code), code), PriceOf(prices, code))
  }

  /** The list of category `cat` after the third loop. */
  function CategoryItems(om: OptionsMeta, prices: map<string, real>, codes: seq<string>, cat: string): seq<Item> {
    if codes == [] then []
    else CategoryItems(om, prices, Init(codes), cat)
         + (if Selected(om, Last(codes), cat) then [PricedItem(om, prices, Last(codes))] else [])
  }

  /** `result["total_price"]` after the third loop. */
  function TotalPrice(om: OptionsMeta, prices: map<string, real>, codes: seq<string>): real {
    if codes == [] then 0.0
    else TotalPrice(om, prices, Init(codes)) + (if Counted(om, Last(codes)) then PriceOf(prices, Last(codes)) else 0.0)
  }

  function Assemble(om: OptionsMeta, prices: map<string, real>, codes: seq<string>): Vehicle {
    Vehicle(
      BaseItems(om, BaseCodes(om, codes)),
      CategoryItems(om, prices, codes, "standard"),
      CategoryItems(om, prices, codes, "optional"),
      CategoryItems(om, prices, codes, "security"),
      TotalPrice(om, prices, codes))
  }

  /** `normalize_vehicle_input` as a function: the priced lines must parse;
      the model, colour and interior arguments play no part. */
  function NormalizedVehicle(codes: seq<string>, pricedLines: seq<string>, om: OptionsMeta)
    : Result<Vehicle, PriceLines.LineError>
  {
    match PriceLines.PricedLines(pricedLines)
    case Err(e) => Err(e)
    case Ok(prices) => Ok(Assemble(om, prices, codes))
  }

  // ---------------------------------------------------------------------
  // normalize_vehicle_input
  // ---------------------------------------------------------------------

  method NormalizeVehicleInput(
    model: string, color: string, interior: string,
    allCodes: seq<string>, pricedLines: seq<string>, optionsMeta: OptionsMeta)
    returns (r: Result<Vehicle, PriceLines.LineError>)
    ensures r == NormalizedVehicle(allCodes, pricedLines, optionsMeta)
  {
    var parsed := PriceLines.ParsePricedLines(pricedLines);
    if parsed.Err? {
      return Err(parsed.error);
    }
    var prices := parsed.value;
    var baseCodes := CollectBaseCodes(allCodes, optionsMeta);
    var base := BuildBaseEntries(baseCodes, optionsMeta);
    var standard, optional, security, total := PriceOtherCodes(allCodes, baseCodes, prices, optionsMeta);
    r := Ok(Vehicle(base, standard, optional, security, total));
  }

  /** The first loop: collect the codes whose metadata says `base`. */
  method CollectBaseCodes(allCodes: seq<string>, optionsMeta: OptionsMeta) returns (baseCodes: seq<string>)
    ensures baseCodes == BaseCodes(optionsMeta, allCodes)
  {
    baseCodes := [];
    for n := 0 to |allCodes|
      invariant baseCodes == BaseCodes(optionsMeta, allCodes[..n])
    {
      assert Init(allCodes[..n + 1]) == allCodes[..n];
      var code := allCodes[n];
      if code in optionsMeta && |optionsMeta[code]| > 0 && Category(optionsMeta[code]) == Some("base") {
        baseCodes := baseCodes + [code];
      }
    }
    assert allCodes[..|allCodes|] == allCodes;
  }

  /** The second loop: one entry priced 0 per base code. */
  method BuildBaseEntries(baseCodes: seq<string>, optionsMeta: OptionsMeta) returns (base: seq<Item>)
    ensures base == BaseItems(optionsMeta, baseCodes)
  {
    base := [];
    for n := 0 to |baseCodes|
      invariant base == BaseItems(optionsMeta, baseCodes[..n])
    {
      assert Init(baseCodes[..n + 1]) == baseCodes[..n];
      var code := baseCodes[n];
      base := base + [Item(code, DisplayText(MetaOf(optionsMeta, code), code), 0.0)];
    }
    assert baseCodes[..|baseCodes|] == baseCodes;
  }

  /** The third loop: skip base codes and codes without metadata, file the
      rest by category and add every one of them to the total. */
  method PriceOtherCodes(allCodes: seq<string>, baseCodes: seq<string>, prices: map<string, real>, optionsMeta: OptionsMeta)
    returns (standard: seq<Item>, optional: seq<Item>, security: seq<Item>, total: real)
    requires baseCodes == BaseCodes(optionsMeta, allCodes)
    ensures standard == CategoryItems(optionsMeta, prices, allCodes, "standard")
    ensures optional == CategoryItems(optionsMeta, prices, allCodes, "optional")
    ensures security == CategoryItems(optionsMeta, prices, allCodes, "security")
    ensures total == TotalPrice(optionsMeta, prices, allCodes)
  {
    BaseCodesMembers(optionsMeta, allCodes);
    standard, optional, security, total := [], [], [], 0.0;
    for n := 0 to |allCodes|
      invariant standard == CategoryItems(optionsMeta, prices, allCodes[..n], "standard")
      invariant optional == CategoryItems(optionsMeta, prices, allCodes[..n], "optional")
      invariant security == CategoryItems(optionsMeta, prices, allCodes[..n], "security")
      invariant total == TotalPrice(optionsMeta, prices, allCodes[..n])
    {
      assert Init(allCodes[..n + 1]) == allCodes[..n];
      var code := allCodes[n];
      assert code in allCodes;
      assert (code in baseCodes) == IsBase(optionsMeta, code);
      if code in baseCodes {
        continue;
      }
      if !(code in optionsMeta && |optionsMeta[code]| > 0) {
        continue;
      }
      var category := Category(optionsMeta[code]);
      var item := Item(code, DisplayText(optionsMeta[code], code), PriceOf(prices, code));
      if category == Some("standard") {
        standard := standard + [item];
      } else if category == Some("optional") {
        optional := optional + [item];
      } else if category == Some("security") {
        security := security + [item];
      }
      total := total + item.price;
    }
    assert allCodes[..|allCodes|] == allCodes;
  }

  // ---------------------------------------------------------------------
  // Properties
  // ---------------------------------------------------------------------

  function Codes(items: seq<Item>): (r: seq<string>)
    ensures |r| == |items| && forall i :: 0 <= i < |items| ==> r[i] == items[i].code
  {
    seq(|items|, i requires 0 <= i < |items| => items[i].code)
  }

  function SumPrices(items: seq<Item>): real {
    if items == [] then 0.0 else SumPrices(Init(items)) + Last(items).price
  }

  /** A code is collected as a base code iff it is among the codes and its
      metadata says `base`. */
  lemma {:induction false} BaseCodesMembers(om: OptionsMeta, codes: seq<string>)
    ensures forall c :: c in BaseCodes(om, codes) <==> c in codes && IsBase(om, c)
  {
    if codes != [] {
      BaseCodesMembers(om, Init(codes));
      InitLast(codes);
    }
  }

  lemma {:induction false} BaseCodesAppend(om: OptionsMeta, a: seq<string>, b: seq<string>)
    ensures BaseCodes(om, a + b) == BaseCodes(om, a) + BaseCodes(om, b)
    decreases |b|
  {
    if b != [] {
      InitOfAppend(a, b);
      BaseCodesAppend(om, a, Init(b));
    } else {
      assert a + b == a;
    }
  }

  lemma {:induction false} BaseItemsAppend(om: OptionsMeta, a: seq<string>, b: seq<string>)
    ensures BaseItems(om, a + b) == BaseItems(om, a) + BaseItems(om, b)
    decreases |b|
  {
    if b != [] {
      InitOfAppend(a, b);
      BaseItemsAppend(om, a, Init(b));
    } else {
      assert a + b == a;
    }
  }

  lemma {:induction false} CategoryItemsAppend(om: OptionsMeta, prices: map<string, real>, a: seq<string>, b: seq<string>, cat: string)
    ensures CategoryItems(om, prices, a + b, cat) == CategoryItems(om, prices, a, cat) + CategoryItems(om, prices, b, cat)
    decreases |b|
  {
    if b != [] {
      InitOfAppend(a, b);
      CategoryItemsAppend(om, prices, a, Init(b), cat);
    } else {
      assert a + b == a;
    }
  }

  lemma {:induction false} TotalPriceAppend(om: OptionsMeta, prices: map<string, real>, a: seq<string>, b: seq<string>)
    ensures TotalPrice(om, prices, a + b) == TotalPrice(om, prices, a) + TotalPrice(om, prices, b)
    decreases |b|
  {
    if b != [] {
      InitOfAppend(a, b);
      TotalPriceAppend(om, prices, a, Init(b));
    } else {
      assert a + b == a;
    }
  }

  /** A code that is not base, inserted anywhere, leaves `base_codes` as it was. */
  lemma BaseCodesSkip(om: OptionsMeta, a: seq<string>, b: seq<string>, c: string)
    requires !IsBase(om, c)
    ensures BaseCodes(om, a + [c] + b) == BaseCodes(om, a + b)
  {
    BaseCodesAppend(om, a + [c], b);
    BaseCodesAppend(om, a, b);
    assert Init(a + [c]) == a;
  }

  /** A code not selected for a category, inserted anywhere, leaves that
      category's list as it was. */
  lemma CategoryItemsSkip(om: OptionsMeta, prices: map<string, real>, a: seq<string>, b: seq<string>, c: string, cat: string)
    requires !Selected(om, c, cat)
    ensures CategoryItems(om, prices, a + [c] + b, cat) == CategoryItems(om, prices, a + b, cat)
  {
    CategoryItemsAppend(om, prices, a + [c], b, cat);
    CategoryItemsAppend(om, prices, a, b, cat);
    assert Init(a + [c]) == a;
  }

  /** A code inserted anywhere adds its price to the total exactly when it
      is counted. */
  lemma TotalPriceInsert(om: OptionsMeta, prices: map<string, real>, a: seq<string>, b: seq<string>, c: string)
    ensures TotalPrice(om, prices, a + [c] + b) ==
              TotalPrice(om, prices, a + b) + (if Counted(om, c) then PriceOf(prices, c) else 0.0)
  {
    TotalPriceAppend(om, prices, a + [c], b);
    TotalPriceAppend(om, prices, a, b);
    assert Init(a + [c]) == a;
  }

  /** A code without metadata changes neither a list nor the total. */
  lemma UnknownCodeIgnored(om: OptionsMeta, prices: map<string, real>, a: seq<string>, b: seq<string>, c: string)
    requires !HasMeta(om, c)
    ensures Assemble(om, prices, a + [c] + b) == Assemble(om, prices, a + b)
  {
    BaseCodesSkip(om, a, b, c);
    CategoryItemsSkip(om, prices, a, b, c, "standard");
    CategoryItemsSkip(om, prices, a, b, c, "optional");
    CategoryItemsSkip(om, prices, a, b, c, "security");
    TotalPriceInsert(om, prices, a, b, c);
  }

  /** A counted code of none of the three categories lands in no list but
      still adds its price to the total. */
  lemma UncategorisedCodeOnlyPriced(om: OptionsMeta, prices: map<string, real>, a: seq<string>, b: seq<string>, c: string)
    requires Counted(om, c) && Category(om[c]) !in {Some("standard"), Some("optional"), Some("security")}
    ensures var v, w := Assemble(om, prices, a + [c] + b), Assemble(om, prices, a + b);
            && v.base == w.base && v.standard == w.standard && v.optional == w.optional && v.security == w.security
            && v.totalPrice == w.totalPrice + PriceOf(prices, c)
  {
    BaseCodesSkip(om, a, b, c);
    CategoryItemsSkip(om, prices, a, b, c, "standard");
    CategoryItemsSkip(om, prices, a, b, c, "optional");
    CategoryItemsSkip(om, prices, a, b, c, "security");
    TotalPriceInsert(om, prices, a, b, c);
  }

  /** Every base code gives one base entry, in the order of the codes and with
      repeats kept, priced 0 whatever the priced lines say. */
  lemma {:induction false} BaseEntries(om: OptionsMeta, codes: seq<string>)
    ensures Codes(BaseItems(om, BaseCodes(om, codes))) == BaseCodes(om, codes)
    ensures forall e :: e in BaseItems(om, BaseCodes(om, codes)) ==> e.price == 0.0
    ensures forall c :: IsBase(om, c) ==> multiset(BaseCodes(om, codes))[c] == multiset(codes)[c]
    ensures forall c :: !IsBase(om, c) ==> multiset(BaseCodes(om, codes))[c] == 0
  {
    BaseItemsShape(om, BaseCodes(om, codes));
    BaseCodesCount(om, codes);
  }

  lemma {:induction false} BaseItemsShape(om: OptionsMeta, bs: seq<string>)
    ensures |BaseItems(om, bs)| == |bs|
    ensures forall i :: 0 <= i < |bs| ==> BaseItems(om, bs)[i] == BaseItem(om, bs[i])
  {
    if bs != [] {
      BaseItemsShape(om, Init(bs));
    }
  }

  lemma {:induction false} BaseCodesCount(om: OptionsMeta, codes: seq<string>)
    ensures forall c :: multiset(BaseCodes(om, codes))[c] == if IsBase(om, c) then multiset(codes)[c] else 0
  {
    if codes != [] {
      BaseCodesCount(om, Init(codes));
      InitLast(codes);
      CountSnoc(Init(codes), Last(codes));
      if IsBase(om, Last(codes)) {
        CountSnoc(BaseCodes(om, Init(codes)), Last(codes));
      }
    }
  }

  /** The list of a category holds, in the order of the codes and with
      repeats kept, one entry per code of that category that is not base and
      has metadata; each entry carries the display text and the price from
      the priced lines, 0 when it has none. */
  lemma CategoryEntries(om: OptionsMeta, prices: map<string, real>, codes: seq<string>, cat: string)
    ensures forall e :: e in CategoryItems(om, prices, codes, cat) ==>
              Selected(om, e.code, cat) && e == PricedItem(om, prices, e.code)
    ensures forall c :: multiset(Codes(CategoryItems(om, prices, codes, cat)))[c] ==
              if Selected(om, c, cat) then multiset(codes)[c] else 0
  {
    CategoryEntriesShape(om, prices, codes, cat);
    CategoryEntriesCount(om, prices, codes, cat);
  }

  lemma {:induction false} CategoryEntriesShape(om: OptionsMeta, prices: map<string, real>, codes: seq<string>, cat: string)
    ensures forall e :: e in CategoryItems(om, prices, codes, cat) ==>
              Selected(om, e.code, cat) && e == PricedItem(om, prices, e.code)
  {
    if codes != [] {
      CategoryEntriesShape(om, prices, Init(codes), cat);
    }
  }

  lemma {:induction false} CategoryEntriesCount(om: OptionsMeta, prices: map<string, real>, codes: seq<string>, cat: string)
    ensures forall c :: multiset(Codes(CategoryItems(om, prices, codes, cat)))[c] ==
              if Selected(om, c, cat) then multiset(codes)[c] else 0
  {
    if codes != [] {
      var init := CategoryItems(om, prices, Init(codes), cat);
      CategoryEntriesCount(om, prices, Init(codes), cat);
      InitLast(codes);
      CountSnoc(Init(codes), Last(codes));
      if Selected(om, Last(codes), cat) {
        assert CategoryItems(om, prices, codes, cat) == init + [PricedItem(om, prices, Last(codes))];
        CodesSnoc(init, PricedItem(om, prices, Last(codes)));
        CountSnoc(Codes(init), Last(codes));
      } else {
        assert CategoryItems(om, prices, codes, cat) == init;
      }
    }
  }

  lemma CodesSnoc(items: seq<Item>, it: Item)
    ensures Codes(items + [it]) == Codes(items) + [it.code]
  {
  }

  function UnlistedTotal(om: OptionsMeta, prices: map<string, real>, codes: seq<string>): real {
    if codes == [] then 0.0
    else UnlistedTotal(om, prices, Init(codes))
         + (if Counted(om, Last(codes)) && Category(om[Last(codes)]) !in {Some("standard"), Some("optional"), Some("security")}
            then PriceOf(prices, Last(codes)) else 0.0)
  }

  /** The total is the sum of the standard, optional and security entries
      plus the prices of the non-base codes of any other category. */
  lemma {:induction false} TotalSplit(om: OptionsMeta, prices: map<string, real>, codes: seq<string>)
    ensures TotalPrice(om, prices, codes) ==
              SumPrices(CategoryItems(om, prices, codes, "standard"))
              + SumPrices(CategoryItems(om, prices, codes, "optional"))
              + SumPrices(CategoryItems(om, prices, codes, "security"))
              + UnlistedTotal(om, prices, codes)
  {
    if codes != [] {
      TotalSplit(om, prices, Init(codes));
      CategorySumStep(om, prices, codes, "standard");
      CategorySumStep(om, prices, codes, "optional");
      CategorySumStep(om, prices, codes, "security");
    }
  }

  lemma CategorySumStep(om: OptionsMeta, prices: map<string, real>, codes: seq<string>, cat: string)
    requires codes != []
    ensures SumPrices(CategoryItems(om, prices, codes, cat)) ==
            SumPrices(CategoryItems(om, prices, Init(codes), cat))
            + (if Selected(om, Last(codes), cat) then PriceOf(prices, Last(codes)) else 0.0)
  {
    var init := CategoryItems(om, prices, Init(codes), cat);
    if Selected(om, Last(codes), cat) {
      assert Init(init + [PricedItem(om, prices, Last(codes))]) == init;
    } else {
      assert CategoryItems(om, prices, codes, cat) == init;
    }
  }

  /** When every non-base code with metadata is standard, optional or
      security, the total is exactly the sum of the three lists. */
  lemma TotalIsListSum(om: OptionsMeta, prices: map<string, real>, codes: seq<string>)
    requires forall c :: c in codes && Counted(om, c) ==>
               Category(om[c]) in {Some("standard"), Some("optional"), Some("security")}
    ensures TotalPrice(om, prices, codes) ==
              SumPrices(CategoryItems(om, prices, codes, "standard"))
              + SumPrices(CategoryItems(om, prices, codes, "optional"))
              + SumPrices(CategoryItems(om, prices, codes, "security"))
  {
    TotalSplit(om, prices, codes);
    NoUnlistedTotal(om, prices, codes);
  }

  lemma {:induction false} NoUnlistedTotal(om: OptionsMeta, prices: map<string, real>, codes: seq<string>)
    requires forall c :: c in codes && Counted(om, c) ==>
               Category(om[c]) in {Some("standard"), Some("optional"), Some("security")}
    ensures UnlistedTotal(om, prices, codes) == 0.0
  {
    if codes != [] {
      assert forall c :: c in Init(codes) ==> c in codes;
      NoUnlistedTotal(om, prices, Init(codes));
    }
  }

  /** What the normaliser returns: an error exactly when the priced lines
      fail, and otherwise the assembled vehicle over the parsed prices. */
  lemma NormalizedVehicleOutcome(codes: seq<string>, pricedLines: seq<string>, om: OptionsMeta)
    ensures NormalizedVehicle(codes, pricedLines, om).Err? <==>
              exists i :: 0 <= i < |pricedLines| && PriceLines.ParseLine(pricedLines[i]).Err?
    ensures NormalizedVehicle(codes, pricedLines, om).Ok? ==>
              NormalizedVehicle(codes, pricedLines, om).value ==
                Assemble(om, PriceLines.PricedLines(pricedLines).value, codes)
  {
    PriceLines.PricedLinesFailure(pricedLines);
  }
}

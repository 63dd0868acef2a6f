/** The order-entry page's calculation: the bulk text is split into option
    codes, each code becomes an item priced by an interval table, and the
    item prices are summed. */
module AppCalculation {
  import opened Common

  // ---------------------------------------------------------------------
  // bulkCodes.split(/\s+/).filter(c => c.trim().length > 0)
  // ---------------------------------------------------------------------

  /** The characters of JavaScript's `\s`, which are also the ones `trim`
      removes: WhiteSpace and LineTerminator. */
  predicate IsJsSpace(c: char) {
    var n := c as int;
    || 9 <= n <= 13 || n == 32 || n == 0xA0 || n == 0x1680
    || 0x2000 <= n <= 0x200A || n == 0x2028 || n == 0x2029
    || n == 0x202F || n == 0x205F || n == 0x3000 || n == 0xFEFF
  }

  predicate NoSpace(t: string) {
    forall i :: 0 <= i < |t| ==> !IsJsSpace(t[i])
  }

  /** The first whitespace index, or `|s|`. */
  function FirstSpace(s: string): (i: nat)
    ensures i <= |s|
    ensures i < |s| ==> IsJsSpace(s[i])
    ensures NoSpace(s[..i])
  {
    if s == [] || IsJsSpace(s[0]) then 0
    else
      var i := 1 + FirstSpace(s[1..]);
      assert forall k :: 1 <= k < i ==> s[..i][k] == s[1..][..i - 1][k - 1];
      i
  }

  /** The end of the run of whitespace that `/\s+/` matches at `i`. */
  function SpaceRunEnd(s: string, i: nat): (j: nat)
    requires i < |s| && IsJsSpace(s[i])
    ensures i < j <= |s|
    ensures forall k :: i <= k < j ==> IsJsSpace(s[k])
    ensures j < |s| ==> !IsJsSpace(s[j])
    decreases |s| - i
  {
    if i + 1 < |s| && IsJsSpace(s[i + 1]) then SpaceRunEnd(s, i + 1) else i + 1
  }

  /** `s.split(/\s+/)`: cut at the first whitespace run, go on after it; the
      empty text is one empty field, and leading or trailing whitespace
      gives an empty first or last field. */
  function SplitWs(s: string): seq<string>
    decreases |s|
  {
    var i := FirstSpace(s);
    if i == |s| then [s] else [s[..i]] + SplitWs(s[SpaceRunEnd(s, i)..])
  }

  /** `c.trim().length > 0` */
  predicate KeepToken(t: string) {
    exists k :: 0 <= k < |t| && !IsJsSpace(t[k])
  }

  function FilterTokens(fields: seq<string>): seq<string> {
    if fields == [] then []
    else (if KeepToken(fields[0]) then [fields[0]] else []) + FilterTokens(fields[1..])
  }

  /** The codes of the bulk text. */
  function Tokens(s: string): seq<string> {
    FilterTokens(SplitWs(s))
  }

  /** The characters of `s` that are not whitespace, in order. */
  function RemoveSpaces(s: string): (r: string)
    ensures NoSpace(r)
  {
    if s == [] then [] else (if IsJsSpace(s[0]) then [] else [s[0]]) + RemoveSpaces(s[1..])
  }

  function Flatten(ts: seq<string>): string {
    if ts == [] then [] else ts[0] + Flatten(ts[1..])
  }

  predicate AllSpace(w: string) {
    forall k :: 0 <= k < |w| ==> IsJsSpace(w[k])
  }

  /** The codes `ts` laid out between the whitespace runs `ws`:
      `ws[0] + ts[0] + ws[1] + ... + ts[n - 1] + ws[n]`. */
  function Interleave(ws: seq<string>, ts: seq<string>): string
    requires |ws| == |ts| + 1
  {
    if ts == [] then ws[0] else ws[0] + ts[0] + Interleave(ws[1..], ts[1..])
  }

  /** One step of the split: the first field (kept when non-empty) and the
      tokens after the first whitespace run. */
  lemma TokensStep(s: string)
    requires FirstSpace(s) < |s|
    ensures Tokens(s) == (if FirstSpace(s) == 0 then [] else [s[..FirstSpace(s)]])
                         + Tokens(s[SpaceRunEnd(s, FirstSpace(s))..])
  {
    var i := FirstSpace(s);
    if i > 0 {
      assert s[..i][0] == s[0];
    }
  }

  /** Text without whitespace is one token, or none when empty. */
  lemma TokensOfWord(t: string)
    requires NoSpace(t)
    ensures Tokens(t) == if t == [] then [] else [t]
  {
    NoSpaceFirstSpace(t);
    assert t[..|t|] == t;
    assert SplitWs(t) == [t];
    assert [t][1..] == [];
    assert FilterTokens([t]) == (if KeepToken(t) then [t] else []) + FilterTokens([]);
    if t != [] {
      assert KeepToken(t) by { assert !IsJsSpace(t[0]); }
    }
  }

  lemma FlattenCons(t: string, ts: seq<string>)
    ensures Flatten([t] + ts) == t + Flatten(ts)
  {
    assert ([t] + ts)[1..] == ts;
  }

  /** Every token is non-empty and holds no whitespace. */
  lemma {:induction false} TokensNoSpace(s: string)
    ensures forall k :: 0 <= k < |Tokens(s)| ==> |Tokens(s)[k]| > 0 && NoSpace(Tokens(s)[k])
    decreases |s|
  {
    var i := FirstSpace(s);
    if i == |s| {
      assert s[..i] == s;
      TokensOfWord(s);
    } else {
      TokensStep(s);
      TokensNoSpace(s[SpaceRunEnd(s, i)..]);
    }
  }

  lemma {:induction false} RemoveSpacesAppend(a: string, b: string)
    ensures RemoveSpaces(a + b) == RemoveSpaces(a) + RemoveSpaces(b)
    decreases |a|
  {
    if a == [] {
      assert a + b == b;
    } else {
      assert (a + b)[0] == a[0];
      assert (a + b)[1..] == a[1..] + b;
      RemoveSpacesAppend(a[1..], b);
    }
  }

  lemma {:induction false} RemoveSpacesNone(s: string)
    requires NoSpace(s)
    ensures RemoveSpaces(s) == s
    decreases |s|
  {
    if s != [] {
      RemoveSpacesNone(s[1..]);
    }
  }

  lemma {:induction false} RemoveSpacesAll(s: string)
    requires forall k :: 0 <= k < |s| ==> IsJsSpace(s[k])
    ensures RemoveSpaces(s) == []
    decreases |s|
  {
    if s != [] {
      RemoveSpacesAll(s[1..]);
    }
  }

  /** Splitting loses only whitespace: the tokens, put back together, are
      the text's non-whitespace characters in their order. */
  lemma {:induction false} TokensKeepText(s: string)
    ensures Flatten(Tokens(s)) == RemoveSpaces(s)
    decreases |s|
  {
    var i := FirstSpace(s);
    if i == |s| {
      assert s[..i] == s;
      RemoveSpacesNone(s);
      TokensOfWord(s);
      if s != [] {
        FlattenCons(s, []);
      }
    } else {
      var j := SpaceRunEnd(s, i);
      var head, rest := s[..i], s[j..];
      TokensStep(s);
      TokensKeepText(rest);
      if i > 0 {
        FlattenCons(head, Tokens(rest));
      } else {
        assert [] + Tokens(rest) == Tokens(rest);
        assert head == [];
      }
      assert Flatten(Tokens(s)) == head + RemoveSpaces(rest);
      SplitThree(s, i, j);
      RemoveSpacesAround(head, s[i..j], rest);
    }
  }

  /** A word, a run of whitespace and the rest lose just the whitespace. */
  lemma RemoveSpacesAround(head: string, gap: string, rest: string)
    requires NoSpace(head) && forall k :: 0 <= k < |gap| ==> IsJsSpace(gap[k])
    ensures RemoveSpaces(head + gap + rest) == head + RemoveSpaces(rest)
  {
    calc {
      RemoveSpaces(head + gap + rest);
      { RemoveSpacesAppend(head + gap, rest); }
      RemoveSpaces(head + gap) + RemoveSpaces(rest);
      { RemoveSpacesAppend(head, gap); }
      RemoveSpaces(head) + RemoveSpaces(gap) + RemoveSpaces(rest);
      { RemoveSpacesNone(head); RemoveSpacesAll(gap); }
      head + [] + RemoveSpaces(rest);
      { assert head + [] == head; }
      head + RemoveSpaces(rest);
    }
  }

  /** Codes laid out with any whitespace between them (a blank, a tab, a
      line break, several of them) and any whitespace or none around them
      split back into the same codes: order and duplicates are kept. */
  lemma {:induction false} TokensOfSpaced(ws: seq<string>, ts: seq<string>)
    requires |ws| == |ts| + 1
    requires forall k :: 0 <= k < |ws| ==> AllSpace(ws[k])
    requires forall k :: 0 < k < |ts| ==> |ws[k]| > 0
    requires forall k :: 0 <= k < |ts| ==> |ts[k]| > 0 && NoSpace(ts[k])
    ensures Tokens(Interleave(ws, ts)) == ts
    decreases |ts|
  {
    if ts == [] {
      BlankTextNoTokens(ws[0]);
    } else if |ts| == 1 {
      assert Interleave(ws, ts) == ws[0] + (ts[0] + ws[1]) by {
        assert Interleave(ws[1..], ts[1..]) == ws[1];
      }
      LastSpaced(ws[0], ts[0], ws[1]);
    } else {
      var x := Interleave(ws[2..], ts[2..]);
      assert Interleave(ws[1..], ts[1..]) == ws[1] + (ts[1] + x) by {
        assert ws[1..][1..] == ws[2..] && ts[1..][1..] == ts[2..];
      }
      TokensOfSpaced(ws[1..], ts[1..]);
      ConsSpaced(ws[0], ts[0], ws[1], ts[1] + x);
      assert Interleave(ws, ts) == ws[0] + (ts[0] + (ws[1] + (ts[1] + x)));
      assert [ts[0]] + ts[1..] == ts;
    }
  }

  /** The last code with whitespace, or none, on either side. */
  lemma LastSpaced(w0: string, t: string, w1: string)
    requires AllSpace(w0) && AllSpace(w1) && |t| > 0 && NoSpace(t)
    ensures Tokens(w0 + (t + w1)) == [t]
  {
    LeadingSpace(w0, t + w1);
    if w1 == [] {
      assert t + w1 == t;
      TokensOfWord(t);
    } else {
      assert t + w1 == t + w1 + [];
      WordThenGap(t, w1, []);
      BlankTextNoTokens([]);
    }
  }

  /** A code after some whitespace and before a whitespace run and more codes. */
  lemma ConsSpaced(w0: string, t: string, w1: string, x: string)
    requires AllSpace(w0) && AllSpace(w1) && |w1| > 0 && |t| > 0 && NoSpace(t)
    requires |x| > 0 && !IsJsSpace(x[0])
    ensures Tokens(w0 + (t + (w1 + x))) == [t] + Tokens(w1 + x)
  {
    LeadingSpace(w0, t + (w1 + x));
    assert t + (w1 + x) == t + w1 + x;
    WordThenGap(t, w1, x);
    LeadingSpace(w1, x);
  }

  /** Whitespace before a code is dropped. */
  lemma LeadingSpace(w: string, x: string)
    requires AllSpace(w) && (x == [] || !IsJsSpace(x[0]))
    ensures Tokens(w + x) == Tokens(x)
  {
    if w == [] {
      assert w + x == x;
    } else {
      var s := w + x;
      FirstSpaceAt(s, 0);
      RunEndAt(s, 0, |w|);
      TokensStep(s);
      assert s[|w|..] == x;
    }
  }

  /** A code and the whitespace after it give that code, then the rest. */
  lemma WordThenGap(t: string, w: string, x: string)
    requires |t| > 0 && NoSpace(t) && |w| > 0 && AllSpace(w) && (x == [] || !IsJsSpace(x[0]))
    ensures Tokens(t + w + x) == [t] + Tokens(x)
  {
    var s := t + w + x;
    assert s[..|t|] == t;
    FirstSpaceAt(s, |t|);
    RunEndAt(s, |t|, |t| + |w|);
    TokensStep(s);
    assert s[|t| + |w|..] == x;
  }

  /** A whitespace run from `i` to `j` that is followed by a non-space
      character, or by the end, is the one `/\s+/` matches at `i`. */
  lemma RunEndAt(s: string, i: nat, j: nat)
    requires i < j <= |s| && forall k :: i <= k < j ==> IsJsSpace(s[k])
    requires j < |s| ==> !IsJsSpace(s[j])
    ensures SpaceRunEnd(s, i) == j
  {
  }

  lemma {:induction false} NoSpaceFirstSpace(t: string)
    requires NoSpace(t)
    ensures FirstSpace(t) == |t|
    decreases |t|
  {
    if t != [] {
      NoSpaceFirstSpace(t[1..]);
    }
  }

  lemma {:induction false} FirstSpaceAt(s: string, i: nat)
    requires i < |s| && IsJsSpace(s[i]) && NoSpace(s[..i])
    ensures FirstSpace(s) == i
    decreases i
  {
    if i > 0 {
      assert !IsJsSpace(s[..i][0]);
      assert s[1..][..i - 1] == s[..i][1..];
      FirstSpaceAt(s[1..], i - 1);
    }
  }

  /** Empty or all-whitespace text has no codes. */
  lemma BlankTextNoTokens(s: string)
    requires forall k :: 0 <= k < |s| ==> IsJsSpace(s[k])
    ensures Tokens(s) == []
  {
    TokensKeepText(s);
    RemoveSpacesAll(s);
    TokensNoSpace(s);
  }

  // ---------------------------------------------------------------------
  // getPriceByDate
  // ---------------------------------------------------------------------

  /** A JavaScript `Date`: its time value, or an Invalid Date, which every
      comparison answers with false. */
  datatype Instant = InvalidDate | At(time: int)

  predicate AtOrAfter(a: Instant, b: Instant) {
    a.At? && b.At? && a.time >= b.time
  }

  /** A rule of the pricing table: `{ start, end, price }`. */
  datatype IntervalRule = IntervalRule(start: string, end: string, price: real)

  /** `targetDate >= start && targetDate <= end`, with `new Date` given as
      `parseDate`. */
  predicate Covers(r: IntervalRule, target: Instant, parseDate: string -> Instant) {
    AtOrAfter(target, parseDate(r.start)) && AtOrAfter(parseDate(r.end), target)
  }

  /** `rules.find(...)`, as the index of the rule found. */
  function FindCovering(rules: seq<IntervalRule>, target: Instant, parseDate: string -> Instant): (r: Option<nat>)
    ensures r.Some? <==> exists i :: 0 <= i < |rules| && Covers(rules[i], target, parseDate)
    ensures r.Some? ==> && r.value < |rules| && Covers(rules[r.value], target, parseDate)
                        && forall j :: 0 <= j < r.value ==> !Covers(rules[j], target, parseDate)
  {
    if rules == [] then None
    else if Covers(rules[0], target, parseDate) then Some(0)
    else
      match FindCovering(rules[1..], target, parseDate)
      case None =>
        assert forall i :: 1 <= i < |rules| ==> rules[i] == rules[1..][i - 1];
        None
      case Some(k) =>
        assert forall j :: 1 <= j <= k ==> rules[j] == rules[1..][j - 1];
        Some(k + 1)
  }

  /** The page's price for `code` on `dateStr`. */
  function GetPriceByDate(db: map<string, seq<IntervalRule>>, code: string, dateStr: string, parseDate: string -> Instant): real {
    if code !in db then 0.0
    else
      var rules := db[code];
      match FindCovering(rules, parseDate(dateStr), parseDate)
      case Some(i) => rules[i].price
      case None => if |rules| > 0 then rules[0].price else 0.0
  }

  /** No rule list gives 0; otherwise the first rule whose inclusive
      interval holds the date; if there is none, the first rule; for an
      empty list, 0. */
  lemma GetPriceByDateCases(db: map<string, seq<IntervalRule>>, code: string, dateStr: string, parseDate: string -> Instant)
    ensures code !in db ==> GetPriceByDate(db, code, dateStr, parseDate) == 0.0
    ensures code in db ==>
              var rules, target := db[code], parseDate(dateStr);
              && (forall i :: (0 <= i < |rules| && Covers(rules[i], target, parseDate)
                               && forall j :: 0 <= j < i ==> !Covers(rules[j], target, parseDate))
                               ==> GetPriceByDate(db, code, dateStr, parseDate) == rules[i].price)
              && ((forall i :: 0 <= i < |rules| ==> !Covers(rules[i], target, parseDate)) ==>
                    GetPriceByDate(db, code, dateStr, parseDate) == if |rules| > 0 then rules[0].price else 0.0)
  {
    if code in db {
      var rules, target := db[code], parseDate(dateStr);
      var found := FindCovering(rules, target, parseDate);
      forall i | 0 <= i < |rules| && Covers(rules[i], target, parseDate)
                 && forall j :: 0 <= j < i ==> !Covers(rules[j], target, parseDate)
        ensures GetPriceByDate(db, code, dateStr, parseDate) == rules[i].price
      {
        assert found.Some?;
      }
    }
  }

  // ---------------------------------------------------------------------
  // calculation
  // ---------------------------------------------------------------------

  /** `{ type, code, name, price }` */
  datatype CalcItem = CalcItem(kind: string, code: string, name: string, price: real)

  datatype Calculation = Calculation(allItems: seq<CalcItem>, total: real)

  const DefaultName: string := "Zusatzausstattung"

  /** `OPTION_DESCRIPTIONS[code] || 'Zusatzausstattung'`: a missing or empty
      description gives the default name. */
  function NameFor(descriptions: map<string, string>, code: string): (name: string)
    ensures code in descriptions && descriptions[code] != "" ==> name == descriptions[code]
    ensures code !in descriptions || descriptions[code] == "" ==> name == DefaultName
  {
    if code in descriptions && descriptions[code] != "" then descriptions[code] else DefaultName
  }

  function MakeItem(code: string, prodDate: string, db: map<string, seq<IntervalRule>>,
                    descriptions: map<string, string>, parseDate: string -> Instant): CalcItem
  {
    CalcItem("Option", code, NameFor(descriptions, code), GetPriceByDate(db, code, prodDate, parseDate))
  }

  /** `allItems.reduce((sum, item) => sum + item.price, 0)` */
  function SumItems(items: seq<CalcItem>): real {
    if items == [] then 0.0 else SumItems(items[..|items| - 1]) + items[|items| - 1].price
  }

  function Calculate(bulkCodes: string, prodDate: string, db: map<string, seq<IntervalRule>>,
                     descriptions: map<string, string>, parseDate: string -> Instant): Calculation
  {
    var codes := Tokens(bulkCodes);
    var items := seq(|codes|, i requires 0 <= i < |codes| => MakeItem(codes[i], prodDate, db, descriptions, parseDate));
    Calculation(items, SumItems(items))
  }

  /** One item per code, in the order of the text, duplicates included;
      each item is an option with its description (or the default) and its
      table price; the total is the sum of the item prices. */
  lemma CalculationItems(bulkCodes: string, prodDate: string, db: map<string, seq<IntervalRule>>,
                         descriptions: map<string, string>, parseDate: string -> Instant)
    ensures var c := Calculate(bulkCodes, prodDate, db, descriptions, parseDate);
            && |c.allItems| == |Tokens(bulkCodes)|
            && (forall i :: 0 <= i < |c.allItems| ==>
                  && c.allItems[i].kind == "Option"
                  && c.allItems[i].code == Tokens(bulkCodes)[i]
                  && c.allItems[i].name == NameFor(descriptions, Tokens(bulkCodes)[i])
                  && c.allItems[i].price == GetPriceByDate(db, Tokens(bulkCodes)[i], prodDate, parseDate))
            && c.total == SumItems(c.allItems)
  {
  }

  lemma {:induction false} SumItemsAppend(a: seq<CalcItem>, b: seq<CalcItem>)
    ensures SumItems(a + b) == SumItems(a) + SumItems(b)
    decreases |b|
  {
    if b == [] {
      assert a + b == a;
    } else {
      InitOfAppend(a, b);
      SumItemsAppend(a, b[..|b| - 1]);
    }
  }

  lemma {:induction false} SumItemsZero(items: seq<CalcItem>)
    requires forall i :: 0 <= i < |items| ==> items[i].price == 0.0
    ensures SumItems(items) == 0.0
    decreases |items|
  {
    if items != [] {
      SumItemsZero(items[..|items| - 1]);
    }
  }

  /** With an empty pricing table every item costs 0 and so does the total,
      whatever the codes. */
  lemma EmptyTableCostsNothing(bulkCodes: string, prodDate: string, descriptions: map<string, string>, parseDate: string -> Instant)
    ensures var c := Calculate(bulkCodes, prodDate, map[], descriptions, parseDate);
            && (forall i :: 0 <= i < |c.allItems| ==> c.allItems[i].price == 0.0)
            && c.total == 0.0
  {
    var c := Calculate(bulkCodes, prodDate, map[], descriptions, parseDate);
    SumItemsZero(c.allItems);
  }

  // ---------------------------------------------------------------------
  // The table lookup as written: JavaScript property access
  // ---------------------------------------------------------------------

  /** The properties every plain JavaScript object inherits from
      `Object.prototype`; each is truthy and none has a `find` method. */
  const InheritedNames: set<string> := {
    "constructor", "__proto__", "toString", "toLocaleString", "valueOf",
    "hasOwnProperty", "isPrototypeOf", "propertyIsEnumerable",
    "__defineGetter__", "__defineSetter__", "__lookupGetter__", "__lookupSetter__"}

  /** `getPriceByDate` as written: `PRICING_DATABASE[code]` also finds an
      inherited property, which passes the `!rules` test, and then
      `rules.find` throws a `TypeError`. */
  function GetPriceByDateAsWritten(db: map<string, seq<IntervalRule>>, code: string, dateStr: string,
                                   parseDate: string -> Instant): Result<real, string>
  {
    if code in db then Ok(GetPriceByDate(db, code, dateStr, parseDate))
    else if code in InheritedNames then Err("TypeError: rules.find is not a function")
    else Ok(0.0)
  }

  /** The `calculation` memo as written: it throws as soon as one code's
      price lookup throws. */
  function CalculateAsWritten(bulkCodes: string, prodDate: string, db: map<string, seq<IntervalRule>>,
                              descriptions: map<string, string>, parseDate: string -> Instant): Result<Calculation, string>
  {
    var codes := Tokens(bulkCodes);
    if forall i :: 0 <= i < |codes| ==> GetPriceByDateAsWritten(db, codes[i], prodDate, parseDate).Ok?
    then Ok(Calculate(bulkCodes, prodDate, db, descriptions, parseDate))
    else Err("TypeError: rules.find is not a function")
  }

  /** The lookup as written agrees with the own-key lookup except on an
      inherited name that the table does not hold, where it throws. */
  lemma AsWrittenLookup(db: map<string, seq<IntervalRule>>, code: string, dateStr: string, parseDate: string -> Instant)
    ensures GetPriceByDateAsWritten(db, code, dateStr, parseDate).Err? <==> code !in db && code in InheritedNames
    ensures GetPriceByDateAsWritten(db, code, dateStr, parseDate).Ok? ==>
              GetPriceByDateAsWritten(db, code, dateStr, parseDate).value == GetPriceByDate(db, code, dateStr, parseDate)
  {
  }

  /** With the shipped empty table, the page as written fails exactly when
      some code is an inherited property name. */
  lemma {:induction false} EmptyTableAsWritten(bulkCodes: string, prodDate: string, descriptions: map<string, string>,
                                                parseDate: string -> Instant)
    ensures CalculateAsWritten(bulkCodes, prodDate, map[], descriptions, parseDate).Err? <==>
              exists i :: 0 <= i < |Tokens(bulkCodes)| && Tokens(bulkCodes)[i] in InheritedNames
  {
    var codes := Tokens(bulkCodes);
    forall i | 0 <= i < |codes|
      ensures GetPriceByDateAsWritten(map[], codes[i], prodDate, parseDate).Err? <==> codes[i] in InheritedNames
    {
      AsWrittenLookup(map[], codes[i], prodDate, parseDate);
    }
  }

  /** The code `constructor`: the own-key model prices it at 0, while the
      page as written throws. */
  lemma ConstructorCodeThrows(prodDate: string, descriptions: map<string, string>, parseDate: string -> Instant)
    ensures Calculate("constructor", prodDate, map[], descriptions, parseDate).total == 0.0
    ensures CalculateAsWritten("constructor", prodDate, map[], descriptions, parseDate).Err?
  {
    var t := "constructor";
    assert NoSpace(t) by {
      forall k | 0 <= k < |t| ensures !IsJsSpace(t[k]) {
        assert 97 <= t[k] as int <= 117;
      }
    }
    TokensOfWord(t);
    EmptyTableCostsNothing(t, prodDate, descriptions, parseDate);
    EmptyTableAsWritten(t, prodDate, descriptions, parseDate);
    assert Tokens(t)[0] in InheritedNames;
  }

  /** Blank bulk text gives no items and a total of 0. */
  lemma BlankTextEmptyCalculation(bulkCodes: string, prodDate: string, db: map<string, seq<IntervalRule>>,
                                  descriptions: map<string, string>, parseDate: string -> Instant)
    requires forall k :: 0 <= k < |bulkCodes| ==> IsJsSpace(bulkCodes[k])
    ensures Calculate(bulkCodes, prodDate, db, descriptions, parseDate) == Calculation([], 0.0)
  {
    BlankTextNoTokens(bulkCodes);
  }
}

/** Date-based option prices: an option lists price rules, each valid from a
    date on; the price on a date is that of the last listed rule that has
    started by then. Dates are read as `%Y-%m-%d` the way Python's
    `datetime.strptime` reads them. */
module Pricing {
  import opened Common
  import opened Dates

  datatype PricingError =
    | InvalidDate(text: string)   // strptime's ValueError
    | UnknownCode(code: string)   // "Unbekannter Options-Code: <code>"

  // ---------------------------------------------------------------------
  // parse_date: datetime.strptime(date_str, "%Y-%m-%d")
  // ---------------------------------------------------------------------

  /** The directive `%m`, the regex `1[0-2]|0[1-9]|[1-9]` at `at`: the month
      and the index after it. */
  function MonthField(s: string, at: nat): (r: Option<(int, nat)>)
    ensures r.Some? ==> 1 <= r.value.0 <= 12 && at < r.value.1 <= |s| && r.value.1 <= at + 2
  {
    if at + 1 < |s| && s[at] == '1' && '0' <= s[at + 1] <= '2' then Some((10 + DigitValue(s[at + 1]), at + 2))
    else if at + 1 < |s| && s[at] == '0' && '1' <= s[at + 1] <= '9' then Some((DigitValue(s[at + 1]), at + 2))
    else if at < |s| && '1' <= s[at] <= '9' then Some((DigitValue(s[at]), at + 1))
    else None
  }

  /** The month `%m` reads is the number its digits spell. */
  lemma MonthFieldValue(s: string, at: nat)
    ensures var r := MonthField(s, at);
            r.Some? ==> AllDigits(s[at..r.value.1]) && DigitsValue(s[at..r.value.1]) == r.value.0
  {
    var r := MonthField(s, at);
    if r.Some? {
      if r.value.1 == at + 2 {
        TwoDigits(s[at..at + 2]);
      } else {
        OneDigit(s[at..at + 1]);
      }
    }
  }

  /** The directive `%d`, the regex `3[01]|[12]\d|0[1-9]|[1-9]| [1-9]` at
      `at`: the day and the index after it. */
  function DayField(s: string, at: nat): (r: Option<(int, nat)>)
    ensures r.Some? ==> 1 <= r.value.0 <= 31 && at < r.value.1 <= |s| && r.value.1 <= at + 2
  {
    if at + 1 < |s| && s[at] == '3' && '0' <= s[at + 1] <= '1' then Some((30 + DigitValue(s[at + 1]), at + 2))
    else if at + 1 < |s| && '1' <= s[at] <= '2' && IsDigit(s[at + 1]) then Some((10 * DigitValue(s[at]) + DigitValue(s[at + 1]), at + 2))
    else if at + 1 < |s| && s[at] == '0' && '1' <= s[at + 1] <= '9' then Some((DigitValue(s[at + 1]), at + 2))
    else if at < |s| && '1' <= s[at] <= '9' then Some((DigitValue(s[at]), at + 1))
    else if at + 1 < |s| && s[at] == ' ' && '1' <= s[at + 1] <= '9' then Some((DigitValue(s[at + 1]), at + 2))
    else None
  }

  /** The day `%d` reads is the number its digits spell, after a blank when
      it is one digit written with a blank before it. */
  lemma DayFieldValue(s: string, at: nat)
    ensures var r := DayField(s, at);
            r.Some? ==> var t := s[at..r.value.1];
              || (AllDigits(t) && DigitsValue(t) == r.value.0)
              || (|t| == 2 && t[0] == ' ' && IsDigit(t[1]) && DigitValue(t[1]) == r.value.0)
  {
    var r := DayField(s, at);
    if r.Some? {
      if r.value.1 == at + 1 {
        OneDigit(s[at..at + 1]);
      } else if s[at] != ' ' {
        TwoDigits(s[at..at + 2]);
      }
    }
  }

  /** `%Y` is exactly four digits; the whole string must be consumed; the
      date must exist (a year from 1, a day within its month). */
  function ParseDate(s: string): (r: Option<Date>)
    ensures r.Some? ==> ValidDate(r.value)
  {
    if |s| < 5 || !AllDigits(s[..4]) || s[4] != '-' then None
    else
      match MonthField(s, 5)
      case None => None
      case Some(mf) =>
        if mf.1 >= |s| || s[mf.1] != '-' then None
        else
          match DayField(s, mf.1 + 1)
          case None => None
          case Some(df) =>
            var year := DigitsValue(s[..4]);
            if df.1 != |s| then None
            else if year < 1 || df.0 > DaysInMonth(year, mf.0) then None
            else Some(Date(year, mf.0, df.0))
  }

  /** The zero-padded `YYYY-MM-DD` text of a date. */
  function IsoText(d: Date): string
    requires ValidDate(d)
  {
    Pad(d.year, 4) + "-" + Pad(d.month, 2) + "-" + Pad(d.day, 2)
  }

  /** `n` in exactly `width` decimal digits. */
  function Pad(n: nat, width: nat): (r: string)
    requires n < Pow10(width)
    ensures |r| == width && AllDigits(r) && DigitsValue(r) == n
  {
    if width == 0 then ""
    else
      var r := Pad(n / 10, width - 1) + [DigitChar(n % 10)];
      assert r[..|r| - 1] == Pad(n / 10, width - 1);
      r
  }

  /** Every valid date written as `YYYY-MM-DD` parses back to itself. */
  lemma ParseIsoText(d: Date)
    requires ValidDate(d)
    ensures ParseDate(IsoText(d)) == Some(d)
  {
    var s := IsoText(d);
    IsoTextFields(d);
    MonthOfPad(s, d.month);
    DayOfPad(s, d.day);
  }

  lemma IsoTextFields(d: Date)
    requires ValidDate(d)
    ensures var s := IsoText(d);
            && |s| == 10 && s[..4] == Pad(d.year, 4) && s[4] == '-' && s[7] == '-'
            && s[5] == Pad(d.month, 2)[0] && s[6] == Pad(d.month, 2)[1]
            && s[8] == Pad(d.day, 2)[0] && s[9] == Pad(d.day, 2)[1]
  {
  }

  lemma MonthOfPad(s: string, m: int)
    requires 1 <= m <= 12 && |s| >= 7 && s[5] == Pad(m, 2)[0] && s[6] == Pad(m, 2)[1]
    ensures MonthField(s, 5) == Some((m, 7))
  {
    TwoDigits(Pad(m, 2));
  }

  lemma DayOfPad(s: string, d: int)
    requires 1 <= d <= 31 && |s| == 10 && s[8] == Pad(d, 2)[0] && s[9] == Pad(d, 2)[1]
    ensures DayField(s, 8) == Some((d, 10))
  {
    TwoDigits(Pad(d, 2));
  }

  lemma TwoDigits(t: string)
    requires |t| == 2 && AllDigits(t)
    ensures DigitsValue(t) == 10 * DigitValue(t[0]) + DigitValue(t[1])
  {
    assert t[..1][..0] == [];
  }

  lemma OneDigit(t: string)
    requires |t| == 1 && IsDigit(t[0])
    ensures AllDigits(t) && DigitsValue(t) == DigitValue(t[0])
  {
    assert t[..0] == [];
  }

  /** `n < 100` in two digits. */
  lemma PadTwo(n: nat)
    requires n < 100
    ensures Pad(n, 2) == [DigitChar(n / 10), DigitChar(n % 10)]
  {
    assert Pad(n / 10, 1) == Pad(n / 10 / 10, 0) + [DigitChar(n / 10 % 10)];
  }

  /** Digits read back by `Pad` at their own width are the digits themselves. */
  lemma {:induction false} PadOfDigits(t: string)
    requires AllDigits(t)
    ensures Pad(DigitsValue(t), |t|) == t
    decreases |t|
  {
    if t != [] {
      var init, v := t[..|t| - 1], DigitsValue(t);
      PadOfDigits(init);
      assert v / 10 == DigitsValue(init) && v % 10 == DigitValue(t[|t| - 1]);
      assert t == init + [t[|t| - 1]];
    }
  }

  // ---------------------------------------------------------------------
  // The texts strptime accepts for a date
  // ---------------------------------------------------------------------

  /** The spellings `%m` accepts for month `m`: two digits, or one digit
      below 10. */
  ghost function MonthTexts(m: int): set<string>
    requires 1 <= m <= 12
  {
    {Pad(m, 2)} + (if m < 10 then {[DigitChar(m)]} else {})
  }

  /** The spellings `%d` accepts for day `d`: two digits, or below 10 one
      digit or a blank and a digit. */
  ghost function DayTexts(d: int): set<string>
    requires 1 <= d <= 31
  {
    {Pad(d, 2)} + (if d < 10 then {[DigitChar(d)], [' ', DigitChar(d)]} else {})
  }

  /** `s` spells the date `d` in the format `%Y-%m-%d`. */
  ghost predicate DateText(s: string, d: Date)
    requires ValidDate(d)
  {
    exists mt, dt :: mt in MonthTexts(d.month) && dt in DayTexts(d.day)
                     && s == Pad(d.year, 4) + "-" + mt + "-" + dt
  }

  /** `parse_date` succeeds with `d` exactly on the texts that spell the
      valid date `d`; any other text is rejected. */
  lemma ParseDateSpelling(s: string, d: Date)
    ensures ParseDate(s) == Some(d) <==> ValidDate(d) && DateText(s, d)
  {
    if ParseDate(s) == Some(d) {
      ParsedIsSpelled(s);
    }
    if ValidDate(d) && DateText(s, d) {
      var mt, dt :| mt in MonthTexts(d.month) && dt in DayTexts(d.day)
                    && s == Pad(d.year, 4) + "-" + mt + "-" + dt;
      ParseSpelled(d, mt, dt);
    }
  }

  lemma ParsedIsSpelled(s: string)
    requires ParseDate(s).Some?
    ensures DateText(s, ParseDate(s).value)
  {
    var d := ParseDate(s).value;
    var k := ParsedFields(s, d);
    var mt, dt := s[5..k], s[k + 1..];
    PadOfDigits(s[..4]);
    MonthTextOf(mt, d.month);
    DayTextOf(dt, d.day);
    CutAtDashes(s, k);
    SpelledBy(s, d, mt, dt);
  }

  /** What a successful parse has read: four year digits, the month's
      digits up to the second `-` at `k`, and the day's text up to the end. */
  lemma ParsedFields(s: string, d: Date) returns (k: nat)
    requires ParseDate(s) == Some(d)
    ensures ValidDate(d)
    ensures 5 < k <= 7 && k < |s| && |s| <= k + 3 && s[4] == '-' && s[k] == '-'
    ensures AllDigits(s[..4]) && |s[..4]| == 4 && d.year == DigitsValue(s[..4])
    ensures AllDigits(s[5..k]) && DigitsValue(s[5..k]) == d.month
    ensures var t := s[k + 1..];
            || (AllDigits(t) && DigitsValue(t) == d.day)
            || (|t| == 2 && t[0] == ' ' && IsDigit(t[1]) && DigitValue(t[1]) == d.day)
  {
    k := MonthField(s, 5).value.1;
    MonthFieldValue(s, 5);
    DayFieldValue(s, k + 1);
  }

  lemma CutAtDashes(s: string, k: nat)
    requires 5 < k < |s| && s[4] == '-' && s[k] == '-'
    ensures s == s[..4] + "-" + s[5..k] + "-" + s[k + 1..]
  {
  }

  lemma SpelledBy(s: string, d: Date, mt: string, dt: string)
    requires ValidDate(d) && mt in MonthTexts(d.month) && dt in DayTexts(d.day)
    requires s == Pad(d.year, 4) + "-" + mt + "-" + dt
    ensures DateText(s, d)
  {
  }

  lemma MonthTextOf(t: string, m: int)
    requires 1 <= m <= 12 && 1 <= |t| <= 2 && AllDigits(t) && DigitsValue(t) == m
    ensures t in MonthTexts(m)
  {
    PadOfDigits(t);
    if |t| == 1 {
      OneDigit(t);
      assert t == [DigitChar(m)];
    }
  }

  lemma DayTextOf(t: string, d: int)
    requires 1 <= d <= 31 && 1 <= |t| <= 2
    requires || (AllDigits(t) && DigitsValue(t) == d)
             || (|t| == 2 && t[0] == ' ' && IsDigit(t[1]) && DigitValue(t[1]) == d)
    ensures t in DayTexts(d)
  {
    if AllDigits(t) && DigitsValue(t) == d {
      DayDigitsText(t, d);
    } else {
      assert t == [' ', DigitChar(d)];
      assert d < 10;
    }
  }

  lemma DayDigitsText(t: string, d: int)
    requires 1 <= d <= 31 && 1 <= |t| <= 2 && AllDigits(t) && DigitsValue(t) == d
    ensures t in DayTexts(d)
  {
    PadOfDigits(t);
    if |t| == 1 {
      OneDigit(t);
      assert t == [DigitChar(d)];
    }
  }

  lemma ParseSpelled(d: Date, mt: string, dt: string)
    requires ValidDate(d) && mt in MonthTexts(d.month) && dt in DayTexts(d.day)
    ensures ParseDate(Pad(d.year, 4) + "-" + mt + "-" + dt) == Some(d)
  {
    var s := Pad(d.year, 4) + "-" + mt + "-" + dt;
    var k := 5 + |mt|;
    PadTwo(d.month);
    PadTwo(d.day);
    assert s[..4] == Pad(d.year, 4);
    assert s[4] == '-' && s[k] == '-';
    assert s[5..k] == mt && s[k + 1..] == dt;
    MonthFieldOf(s, 5, d.month, mt);
    DayFieldOf(s, k + 1, d.day, dt);
  }

  lemma MonthFieldOf(s: string, at: nat, m: int, mt: string)
    requires 1 <= m <= 12 && mt in MonthTexts(m)
    requires at + |mt| < |s| && s[at..at + |mt|] == mt && s[at + |mt|] == '-'
    ensures MonthField(s, at) == Some((m, at + |mt|))
  {
    PadTwo(m);
    if mt == Pad(m, 2) {
      assert s[at] == DigitChar(m / 10) && s[at + 1] == DigitChar(m % 10);
    } else {
      assert s[at] == DigitChar(m) && s[at + 1] == '-';
    }
  }

  lemma DayFieldOf(s: string, at: nat, d: int, dt: string)
    requires 1 <= d <= 31 && dt in DayTexts(d)
    requires at + |dt| == |s| && s[at..] == dt
    ensures DayField(s, at) == Some((d, |s|))
  {
    PadTwo(d);
    if dt == Pad(d, 2) {
      assert s[at] == DigitChar(d / 10) && s[at + 1] == DigitChar(d % 10);
    } else if dt == [DigitChar(d)] {
      assert s[at] == DigitChar(d);
    } else {
      assert s[at] == ' ' && s[at + 1] == DigitChar(d);
    }
  }

  // ---------------------------------------------------------------------
  // get_price_for_date
  // ---------------------------------------------------------------------

  datatype PriceRule = PriceRule(from: string, price: real)

  /** The fields of an entry of `options_data` that the resolver reads; a
      missing key is `None`. */
  datatype OptionData = OptionData(kind: Option<string>, description: Option<string>, prices: Option<seq<PriceRule>>)

  /** `option.get("prices", [])` */
  function RulesOf(o: OptionData): seq<PriceRule> {
    o.prices.GetOr([])
  }

  /** `valid_price` after the loop has seen `rules`: every `from` is parsed,
      and a rule that has started by `target` replaces the price so far. */
  function ScanRules(rules: seq<PriceRule>, target: Date): Result<real, PricingError>
  {
    if rules == [] then Ok(0.0)
    else
      match ScanRules(rules[..|rules| - 1], target)
      case Err(e) => Err(e)
      case Ok(v) =>
        var rule := rules[|rules| - 1];
        match ParseDate(rule.from)
        case None => Err(InvalidDate(rule.from))
        case Some(d) => Ok(if OnOrBefore(d, target) then rule.price else v)
  }

  function PriceForDate(o: OptionData, dateStr: string): Result<real, PricingError>
  {
    match ParseDate(dateStr)
    case None => Err(InvalidDate(dateStr))
    case Some(target) => ScanRules(RulesOf(o), target)
  }

  method GetPriceForDate(o: OptionData, dateStr: string) returns (r: Result<real, PricingError>)
    ensures r == PriceForDate(o, dateStr)
  {
    var parsedTarget := ParseDate(dateStr);
    if parsedTarget.None? {
      return Err(InvalidDate(dateStr));
    }
    var target := parsedTarget.value;
    var validPrice := 0.0;
    var rules := RulesOf(o);
    for n := 0 to |rules|
      invariant ScanRules(rules[..n], target) == Ok(validPrice)
    {
      assert rules[..n + 1][..n] == rules[..n];
      var rule := rules[n];
      var ruleDate := ParseDate(rule.from);
      if ruleDate.None? {
        ScanErrorPersists(rules, target, n + 1);
        return Err(InvalidDate(rule.from));
      }
      if OnOrBefore(ruleDate.value, target) {
        validPrice := rule.price;
      }
    }
    assert rules[..|rules|] == rules;
    r := Ok(validPrice);
  }

  lemma {:induction false} ScanErrorPersists(rules: seq<PriceRule>, target: Date, n: nat)
    requires n <= |rules|
    requires ScanRules(rules[..n], target).Err?
    ensures ScanRules(rules, target) == ScanRules(rules[..n], target)
    decreases |rules| - n
  {
    if n < |rules| {
      assert rules[..n + 1][..n] == rules[..n];
      ScanErrorPersists(rules, target, n + 1);
    } else {
      assert rules[..n] == rules;
    }
  }

  /** Rule `i` has a parsable `from` on or before `target`. */
  ghost predicate Started(rules: seq<PriceRule>, target: Date, i: int)
    requires 0 <= i < |rules|
  {
    ParseDate(rules[i].from).Some? && OnOrBefore(ParseDate(rules[i].from).value, target)
  }

  ghost predicate AllDatesParse(rules: seq<PriceRule>) {
    forall i :: 0 <= i < |rules| ==> ParseDate(rules[i].from).Some?
  }

  /** The scan fails exactly when some `from` does not parse, and then on the
      first such rule. */
  lemma ScanRulesFailure(rules: seq<PriceRule>, target: Date)
    ensures ScanRules(rules, target).Err? <==> !AllDatesParse(rules)
    ensures ScanRules(rules, target).Err? ==>
              exists i :: && 0 <= i < |rules| && ParseDate(rules[i].from).None?
                          && ScanRules(rules, target).error == InvalidDate(rules[i].from)
                          && forall j :: 0 <= j < i ==> ParseDate(rules[j].from).Some?
  {
    ScanRulesOkIff(rules, target);
    if ScanRules(rules, target).Err? {
      ScanRulesFirstError(rules, target);
    }
  }

  lemma {:induction false} ScanRulesOkIff(rules: seq<PriceRule>, target: Date)
    ensures ScanRules(rules, target).Ok? <==> AllDatesParse(rules)
  {
    if rules != [] {
      var n := |rules| - 1;
      ScanRulesOkIff(rules[..n], target);
      assert forall j :: 0 <= j < n ==> rules[..n][j] == rules[j];
    }
  }

  lemma {:induction false} ScanRulesFirstError(rules: seq<PriceRule>, target: Date)
    requires ScanRules(rules, target).Err?
    ensures exists i :: && 0 <= i < |rules| && ParseDate(rules[i].from).None?
                        && ScanRules(rules, target).error == InvalidDate(rules[i].from)
                        && forall j :: 0 <= j < i ==> ParseDate(rules[j].from).Some?
  {
    var n := |rules| - 1;
    var init := rules[..n];
    assert forall j :: 0 <= j < n ==> init[j] == rules[j];
    if ScanRules(init, target).Err? {
      ScanRulesFirstError(init, target);
      var i :| && 0 <= i < n && ParseDate(init[i].from).None?
               && ScanRules(init, target).error == InvalidDate(init[i].from)
               && forall j :: 0 <= j < i ==> ParseDate(init[j].from).Some?;
      assert ParseDate(rules[i].from).None?;
    } else {
      ScanRulesOkIff(init, target);
      assert ParseDate(rules[n].from).None?;
    }
  }

  /** With every date readable, the price is that of the last listed rule
      that has started by `target`, or 0 when none has. */
  lemma {:induction false} ScanRulesLastStarted(rules: seq<PriceRule>, target: Date)
    requires AllDatesParse(rules)
    ensures ScanRules(rules, target).Ok?
    ensures (forall i :: 0 <= i < |rules| ==> !Started(rules, target, i)) ==> ScanRules(rules, target).value == 0.0
    ensures forall i :: 0 <= i < |rules| && Started(rules, target, i) &&
                        (forall j :: i < j < |rules| ==> !Started(rules, target, j))
                        ==> ScanRules(rules, target).value == rules[i].price
  {
    if rules != [] {
      var n := |rules| - 1;
      var init := rules[..n];
      ScanRulesLastStep(rules, target);
      ScanRulesLastStarted(init, target);
      var v := ScanRules(init, target).value;
      forall i | 0 <= i < n ensures Started(rules, target, i) == Started(init, target, i) {
        assert init[i] == rules[i];
      }
      forall i | 0 <= i < |rules| && Started(rules, target, i) &&
                 (forall j :: i < j < |rules| ==> !Started(rules, target, j))
        ensures ScanRules(rules, target).value == rules[i].price
      {
        if i < n {
          assert !Started(rules, target, n);
          assert forall j :: i < j < n ==> !Started(init, target, j);
          assert v == init[i].price;
        }
      }
    }
  }

  /** The scan over all rules is the scan over all but the last, updated by
      the last one. */
  lemma ScanRulesLastStep(rules: seq<PriceRule>, target: Date)
    requires rules != [] && AllDatesParse(rules)
    ensures AllDatesParse(rules[..|rules| - 1])
    ensures var n := |rules| - 1;
            ScanRules(rules[..n], target).Ok? ==>
              ScanRules(rules, target) ==
                Ok(if Started(rules, target, n) then rules[n].price else ScanRules(rules[..n], target).value)
  {
    var n := |rules| - 1;
    assert forall j :: 0 <= j < n ==> rules[..n][j] == rules[j];
    assert ParseDate(rules[n].from).Some?;
  }

  /** With the rules in ascending `from` order, the price is that of a rule
      with the greatest `from` on or before `target`. */
  lemma ScanRulesAscending(rules: seq<PriceRule>, target: Date)
    requires AllDatesParse(rules)
    requires forall i, j :: 0 <= i < j < |rules| ==>
               OnOrBefore(ParseDate(rules[i].from).value, ParseDate(rules[j].from).value)
    ensures ScanRules(rules, target).Ok?
    ensures (exists i :: 0 <= i < |rules| && Started(rules, target, i)) ==>
              exists k :: && 0 <= k < |rules| && Started(rules, target, k)
                          && ScanRules(rules, target).value == rules[k].price
                          && forall j :: 0 <= j < |rules| && Started(rules, target, j) ==>
                               OnOrBefore(ParseDate(rules[j].from).value, ParseDate(rules[k].from).value)
  {
    ScanRulesLastStarted(rules, target);
    if exists i :: 0 <= i < |rules| && Started(rules, target, i) {
      var k := LastStartedIndex(rules, target);
      forall j | 0 <= j < |rules| && Started(rules, target, j)
        ensures OnOrBefore(ParseDate(rules[j].from).value, ParseDate(rules[k].from).value)
      {
        if j > k {
          assert false;
        } else if j == k {
          OnOrBeforeTotal(ParseDate(rules[j].from).value, ParseDate(rules[k].from).value);
        }
      }
    }
  }

  /** The index of the last rule that has started. */
  lemma {:induction false} LastStartedIndexExists(rules: seq<PriceRule>, target: Date, i: int)
    requires 0 <= i < |rules| && Started(rules, target, i)
    ensures exists k :: && i <= k < |rules| && Started(rules, target, k)
                        && forall j :: k < j < |rules| ==> !Started(rules, target, j)
    decreases |rules| - i
  {
    if exists j :: i < j < |rules| && Started(rules, target, j) {
      var j :| i < j < |rules| && Started(rules, target, j);
      LastStartedIndexExists(rules, target, j);
    }
  }

  ghost function LastStartedIndex(rules: seq<PriceRule>, target: Date): (k: int)
    requires exists i :: 0 <= i < |rules| && Started(rules, target, i)
    ensures 0 <= k < |rules| && Started(rules, target, k)
    ensures forall j :: k < j < |rules| ==> !Started(rules, target, j)
  {
    var i :| 0 <= i < |rules| && Started(rules, target, i);
    LastStartedIndexExists(rules, target, i);
    var k :| && i <= k < |rules| && Started(rules, target, k)
             && forall j :: k < j < |rules| ==> !Started(rules, target, j);
    k
  }

  /** An unreadable target date is an error; a readable one with no
      `prices` key, or an empty list, gives 0.0. */
  lemma PriceForDateEdges(o: OptionData, dateStr: string)
    ensures ParseDate(dateStr).None? ==> PriceForDate(o, dateStr) == Err(InvalidDate(dateStr))
    ensures ParseDate(dateStr).Some? && (o.prices.None? || o.prices == Some([])) ==> PriceForDate(o, dateStr) == Ok(0.0)
  {
  }

  // ---------------------------------------------------------------------
  // resolve_option, resolve_multiple_options
  // ---------------------------------------------------------------------

  datatype ResolvedOption = ResolvedOption(code: string, kind: Option<string>, description: Option<string>, price: real)

  function ResolveOption(code: string, options: map<string, OptionData>, dateStr: string): (r: Result<ResolvedOption, PricingError>)
    ensures code !in options ==> r == Err(UnknownCode(code))
    ensures code in options ==> (r.Ok? <==> PriceForDate(options[code], dateStr).Ok?)
    ensures r.Ok? ==> && code in options
                      && r.value.code == code
                      && r.value.kind == options[code].kind
                      && r.value.description == options[code].description
                      && r.value.price == PriceForDate(options[code], dateStr).value
  {
    if code !in options then Err(UnknownCode(code))
    else
      var option := options[code];
      match PriceForDate(option, dateStr)
      case Err(e) => Err(e)
      case Ok(price) => Ok(ResolvedOption(code, option.kind, option.description, price))
  }

  /** The list comprehension: every code resolved in order; the first
      failure is raised. */
  function ResolveMultipleOptions(codes: seq<string>, options: map<string, OptionData>, dateStr: string)
    : (r: Result<seq<ResolvedOption>, PricingError>)
    ensures r.Ok? <==> forall i :: 0 <= i < |codes| ==> ResolveOption(codes[i], options, dateStr).Ok?
    ensures r.Ok? ==> && |r.value| == |codes|
                      && forall i :: 0 <= i < |codes| ==> r.value[i] == ResolveOption(codes[i], options, dateStr).value
    ensures r.Err? ==> exists i :: && 0 <= i < |codes| && ResolveOption(codes[i], options, dateStr).Err?
                                   && r.error == ResolveOption(codes[i], options, dateStr).error
                                   && forall j :: 0 <= j < i ==> ResolveOption(codes[j], options, dateStr).Ok?
  {
    if codes == [] then Ok([])
    else
      match ResolveOption(codes[0], options, dateStr)
      case Err(e) => Err(e)
      case Ok(first) =>
        match ResolveMultipleOptions(codes[1..], options, dateStr)
        case Err(e) =>
          assert forall i :: 1 <= i < |codes| ==> codes[1..][i - 1] == codes[i];
          Err(e)
        case Ok(rest) => Ok([first] + rest)
  }

  /** One unknown code makes the whole batch fail. */
  lemma UnknownCodeFails(codes: seq<string>, options: map<string, OptionData>, dateStr: string, i: int)
    requires 0 <= i < |codes| && codes[i] !in options
    ensures ResolveMultipleOptions(codes, options, dateStr).Err?
  {
  }
}

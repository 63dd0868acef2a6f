/** The priced-line parser of the vehicle back end: each line, once stripped
    of surrounding whitespace, must read
        <3 characters from A-Z/0-9> <whitespace> <description> <whitespace> <price>
    where the price is digits, optionally followed by one `.` or `,` and
    more digits. A batch of lines becomes a map from code to price; one bad
    line rejects the whole batch. */
module PriceLines {
  import opened Common

  // ---------------------------------------------------------------------
  // Characters
  // ---------------------------------------------------------------------

  /** Python's `str.isspace()`, which is also what `\s` matches in a `re`
      pattern, on ASCII: tab, line feed, vertical tab, form feed, carriage
      return, the four separators 0x1C-0x1F, and space. */
  predicate IsSpace(c: char) {
    c == ' ' || 9 <= c as int <= 13 || 28 <= c as int <= 31
  }

  /** `[A-Z0-9]` */
  predicate IsCodeChar(c: char) {
    'A' <= c <= 'Z' || '0' <= c <= '9'
  }

  predicate IsSeparator(c: char) {
    c == '.' || c == ','
  }

  // ---------------------------------------------------------------------
  // str.strip()
  // ---------------------------------------------------------------------

  /** `line.strip()`: the line without its leading and trailing whitespace. */
  function Strip(s: string): (r: string)
    ensures |r| <= |s|
    ensures var p := SkipSpaces(s, 0, |s|);
            && p + |r| <= |s| && r == s[p..p + |r|]
            && (forall i :: 0 <= i < p ==> IsSpace(s[i]))
            && (forall i :: p + |r| <= i < |s| ==> IsSpace(s[i]))
    ensures r == [] || (!IsSpace(r[0]) && !IsSpace(r[|r| - 1]))
  {
    var p := SkipSpaces(s, 0, |s|);
    var q := SkipSpacesBack(s, p, |s|);
    s[p..q]
  }

  // ---------------------------------------------------------------------
  // PRICE_LINE_REGEX = ^(?P<code>[A-Z0-9]{3})\s+.+?\s+(?P<price>\d+(?:[.,]\d+)?)$
  // ---------------------------------------------------------------------

  /** `\d+(?:[.,]\d+)?` matching the whole of `t`. */
  predicate IsNumeral(t: string) {
    || (|t| > 0 && AllDigits(t))
    || (exists d | 0 < d < |t| - 1 :: IsSeparator(t[d]) && AllDigits(t[..d]) && AllDigits(t[d + 1..]))
  }

  /** The ways the regex can match the whole of `s`: the first three
      characters are the code, `s[3..i]` is the first `\s+`, `s[i..j]` is
      the description `.+?` (any characters but a line feed), `s[j..k]` is
      the second `\s+` and `s[k..]` is the price. */
  ghost predicate LineSplit(s: string, i: int, j: int, k: int) {
    && 3 < i < j < k < |s|
    && (forall t :: 3 <= t < i ==> IsSpace(s[t]))
    && (forall t :: i <= t < j ==> s[t] != '\n')
    && (forall t :: j <= t < k ==> IsSpace(s[t]))
    && IsNumeral(s[k..])
  }

  predicate HasCode(s: string) {
    |s| >= 3 && forall t | 0 <= t < 3 :: IsCodeChar(s[t])
  }

  /** What the regex accepts, read as a language. */
  ghost predicate MatchesPriceLine(s: string) {
    HasCode(s) && exists i, j, k :: LineSplit(s, i, j, k)
  }

  /** The start of the last run of non-whitespace characters. */
  function LastTokenStart(s: string): (k: nat)
    ensures k <= |s|
    ensures forall t :: k <= t < |s| ==> !IsSpace(s[t])
    ensures k == 0 || IsSpace(s[k - 1])
  {
    if |s| == 0 || IsSpace(s[|s| - 1]) then |s| else LastTokenStart(s[..|s| - 1])
  }

  lemma LastTokenStartUnique(s: string, k: nat)
    requires k <= |s|
    requires forall t :: k <= t < |s| ==> !IsSpace(s[t])
    requires k == 0 || IsSpace(s[k - 1])
    ensures k == LastTokenStart(s)
  {
  }

  /** The first index in [lo, hi) that is not whitespace, or `hi`. */
  function SkipSpaces(s: string, lo: int, hi: int): (p: int)
    requires 0 <= lo <= hi <= |s|
    ensures lo <= p <= hi
    ensures forall t :: lo <= t < p ==> IsSpace(s[t])
    ensures p < hi ==> !IsSpace(s[p])
    decreases hi - lo
  {
    if lo < hi && IsSpace(s[lo]) then SkipSpaces(s, lo + 1, hi) else lo
  }

  /** The start of the whitespace run that ends [lo, hi). */
  function SkipSpacesBack(s: string, lo: int, hi: int): (q: int)
    requires 0 <= lo <= hi <= |s|
    ensures lo <= q <= hi
    ensures forall t :: q <= t < hi ==> IsSpace(s[t])
    ensures q > lo ==> !IsSpace(s[q - 1])
    decreases hi - lo
  {
    if lo < hi && IsSpace(s[hi - 1]) then SkipSpacesBack(s, lo, hi - 1) else hi
  }

  /** Whether `s[3..k]` can be read as `\s+.+?\s+`. When it holds some
      non-whitespace character, the description must reach from the first to
      the last of those and hold no line feed; when it is all whitespace, any
      character other than a line feed strictly inside it can serve as the
      description. */
  predicate MiddleMatches(s: string, k: nat)
    requires 3 <= k <= |s|
  {
    var p := SkipSpaces(s, 3, k);
    var q := SkipSpacesBack(s, 3, k);
    if p == k then exists t | 4 <= t < k - 1 :: s[t] != '\n'
    else 3 < p && q < k && forall t | p <= t < q :: s[t] != '\n'
  }

  /** The two named groups of a successful match. */
  datatype LineMatch = LineMatch(code: string, price: string)

  /** `PRICE_LINE_REGEX.match(s)` as a function. */
  function MatchPriceLine(s: string): Option<LineMatch>
  {
    if !HasCode(s) then None
    else
      var k := LastTokenStart(s);
      if 3 <= k && IsNumeral(s[k..]) && MiddleMatches(s, k) then Some(LineMatch(s[..3], s[k..]))
      else None
  }

  lemma NumeralHasNoSpace(t: string)
    requires IsNumeral(t)
    ensures |t| > 0
    ensures forall x :: 0 <= x < |t| ==> !IsSpace(t[x])
  {
    if !(|t| > 0 && AllDigits(t)) {
      var d :| 0 < d < |t| - 1 && IsSeparator(t[d]) && AllDigits(t[..d]) && AllDigits(t[d + 1..]);
      forall x | 0 <= x < |t| ensures !IsSpace(t[x]) {
        if x < d { assert t[x] == t[..d][x]; }
        else if x > d { assert t[x] == t[d + 1..][x - d - 1]; }
      }
    }
  }

  /** The recogniser accepts exactly the language of the regex, and the
      price group it reports is the one every match of the regex captures:
      the last whitespace-free token of the line. */
  lemma MatchPriceLineCorrect(s: string)
    ensures MatchPriceLine(s).Some? <==> MatchesPriceLine(s)
    ensures MatchPriceLine(s).Some? ==>
              && MatchPriceLine(s).value.code == s[..3]
              && MatchPriceLine(s).value.price == s[LastTokenStart(s)..]
              && forall i, j, k :: LineSplit(s, i, j, k) ==> MatchPriceLine(s).value.price == s[k..]
  {
    PriceGroupIsLastToken(s);
    if MatchesPriceLine(s) {
      MatchComplete(s);
    }
    if MatchPriceLine(s).Some? {
      MatchSound(s);
    }
  }

  /** Every way of matching puts the price group at the last token. */
  lemma PriceGroupIsLastToken(s: string)
    ensures forall i, j, k :: LineSplit(s, i, j, k) ==> k == LastTokenStart(s)
  {
    forall i, j, k | LineSplit(s, i, j, k) ensures k == LastTokenStart(s) {
      NumeralHasNoSpace(s[k..]);
      forall t | k <= t < |s| ensures !IsSpace(s[t]) { assert s[t] == s[k..][t - k]; }
      LastTokenStartUnique(s, k);
    }
  }

  /** A line in the language is accepted by the recogniser. */
  lemma MatchComplete(s: string)
    requires MatchesPriceLine(s)
    ensures MatchPriceLine(s).Some?
  {
    PriceGroupIsLastToken(s);
    var i, j, k :| LineSplit(s, i, j, k);
    var p := SkipSpaces(s, 3, k);
    var q := SkipSpacesBack(s, 3, k);
    assert p >= i;
    if p == k {
      assert s[i] != '\n';
    } else {
      assert q <= j;
    }
    assert MiddleMatches(s, k);
  }

  /** A line the recogniser accepts is in the language. */
  lemma MatchSound(s: string)
    requires MatchPriceLine(s).Some?
    ensures MatchesPriceLine(s)
  {
    var k := LastTokenStart(s);
    var p := SkipSpaces(s, 3, k);
    var q := SkipSpacesBack(s, 3, k);
    NumeralHasNoSpace(s[k..]);
    if p == k {
      var t :| 4 <= t < k - 1 && s[t] != '\n';
      assert LineSplit(s, t, t + 1, k);
    } else {
      assert p < q;
      assert LineSplit(s, p, q, k);
    }
  }

  // ---------------------------------------------------------------------
  // float(match.group("price").replace(",", "."))
  // ---------------------------------------------------------------------

  function ReplaceCommas(t: string): (r: string)
    ensures |r| == |t|
    ensures forall i :: 0 <= i < |t| ==> r[i] == (if t[i] == ',' then '.' else t[i])
  {
    seq(|t|, i requires 0 <= i < |t| => if t[i] == ',' then '.' else t[i])
  }

  /** The index of the first `c` in `t`, or `|t|` when there is none. */
  function IndexOf(t: string, c: char): (d: nat)
    ensures d <= |t|
    ensures forall x :: 0 <= x < d ==> t[x] != c
    ensures d < |t| ==> t[d] == c
  {
    if |t| == 0 then 0 else if t[0] == c then 0 else 1 + IndexOf(t[1..], c)
  }

  /** `float(u)` for a string of digits with at most one `.` between digits,
      exactly (no binary rounding). */
  function DecimalValue(u: string): real
  {
    var d := IndexOf(u, '.');
    if d == |u| then
      (if AllDigits(u) then DigitsValue(u) as real else 0.0)
    else if AllDigits(u[..d]) && AllDigits(u[d + 1..]) then
      DigitsValue(u[..d]) as real + DigitsValue(u[d + 1..]) as real / Pow10(|u| - d - 1) as real
    else 0.0
  }

  /** The price a matched price group denotes. */
  function PriceValue(t: string): real {
    DecimalValue(ReplaceCommas(t))
  }

  /** A price without separator is the integer its digits spell. */
  lemma PriceValueWhole(a: string)
    requires |a| > 0 && AllDigits(a)
    ensures PriceValue(a) == DigitsValue(a) as real
  {
    assert ReplaceCommas(a) == a;
  }

  /** A price `a.b` or `a,b` is a plus b tenths-to-the-|b|; the comma is
      read as a decimal point. */
  lemma PriceValueFraction(a: string, sep: char, b: string)
    requires |a| > 0 && |b| > 0 && AllDigits(a) && AllDigits(b) && IsSeparator(sep)
    ensures PriceValue(a + [sep] + b) == DigitsValue(a) as real + DigitsValue(b) as real / Pow10(|b|) as real
  {
    CommaReplaced(a, sep, b);
    DecimalValueFraction(a, b);
  }

  lemma CommaReplaced(a: string, sep: char, b: string)
    requires AllDigits(a) && AllDigits(b) && IsSeparator(sep)
    ensures ReplaceCommas(a + [sep] + b) == a + ['.'] + b
  {
    var t := a + [sep] + b;
    var u := ReplaceCommas(t);
    var v := a + ['.'] + b;
    forall x | 0 <= x < |u| ensures u[x] == v[x] {
      if x < |a| {
        assert t[x] == a[x];
      } else if x > |a| {
        assert t[x] == b[x - |a| - 1];
      }
    }
  }

  lemma DecimalValueFraction(a: string, b: string)
    requires |a| > 0 && |b| > 0 && AllDigits(a) && AllDigits(b)
    ensures DecimalValue(a + ['.'] + b) == DigitsValue(a) as real + DigitsValue(b) as real / Pow10(|b|) as real
  {
    var v := a + ['.'] + b;
    DotIndex(a, b);
    assert v[..|a|] == a;
    assert v[|a| + 1..] == b;
  }

  lemma {:induction false} DotIndex(a: string, b: string)
    requires AllDigits(a)
    ensures IndexOf(a + ['.'] + b, '.') == |a|
  {
    if a != [] {
      assert (a + ['.'] + b)[1..] == a[1..] + ['.'] + b;
      DotIndex(a[1..], b);
    }
  }

  /** "12,5" and "12.5" are the same price. */
  lemma CommaSameAsDot(a: string, b: string)
    requires |a| > 0 && |b| > 0 && AllDigits(a) && AllDigits(b)
    ensures PriceValue(a + [','] + b) == PriceValue(a + ['.'] + b)
  {
    PriceValueFraction(a, ',', b);
    PriceValueFraction(a, '.', b);
  }

  // ---------------------------------------------------------------------
  // parse_priced_lines
  // ---------------------------------------------------------------------

  datatype PricedLine = PricedLine(code: string, price: real)

  /** The ValueError "Invalid priced line format: <line>", carrying the
      stripped line. */
  datatype LineError = InvalidPricedLine(line: string)

  /** One iteration of the loop: strip, match, take code and price. */
  function ParseLine(line: string): Result<PricedLine, LineError>
  {
    var s := Strip(line);
    match MatchPriceLine(s)
    case None => Err(InvalidPricedLine(s))
    case Some(m) => Ok(PricedLine(m.code, PriceValue(m.price)))
  }

  /** A line is accepted exactly when its stripped form matches the regex;
      the code is then its first three characters and the price the value of
      its final token; otherwise the error names the stripped line. */
  lemma ParseLineMeaning(line: string)
    ensures ParseLine(line).Err? <==> !MatchesPriceLine(Strip(line))
    ensures ParseLine(line).Err? ==> ParseLine(line).error == InvalidPricedLine(Strip(line))
    ensures ParseLine(line).Ok? ==>
              && ParseLine(line).value.code == Strip(line)[..3]
              && |ParseLine(line).value.code| == 3
              && (forall t :: 0 <= t < 3 ==> IsCodeChar(ParseLine(line).value.code[t]))
              && ParseLine(line).value.price == PriceValue(Strip(line)[LastTokenStart(Strip(line))..])
  {
    MatchPriceLineCorrect(Strip(line));
  }

  /** The outcome of each line, in order. */
  function ParseAll(lines: seq<string>): (rs: seq<Result<PricedLine, LineError>>)
    ensures |rs| == |lines|
    ensures forall i :: 0 <= i < |lines| ==> rs[i] == ParseLine(lines[i])
  {
    seq(|lines|, i requires 0 <= i < |lines| => ParseLine(lines[i]))
  }

  /** The dictionary the loop has built after the given line outcomes, or
      the error of the first line that failed. */
  function Collect(rs: seq<Result<PricedLine, LineError>>): Result<map<string, real>, LineError>
  {
    if rs == [] then Ok(map[])
    else
      match Collect(rs[..|rs| - 1])
      case Err(e) => Err(e)
      case Ok(prices) =>
        match rs[|rs| - 1]
        case Err(e) => Err(e)
        case Ok(p) => Ok(prices[p.code := p.price])
  }

  function PricedLines(lines: seq<string>): Result<map<string, real>, LineError>
  {
    Collect(ParseAll(lines))
  }

  /** `parse_priced_lines`: fills the dictionary line by line, a later line
      overwriting the price of an earlier one with the same code, and
      raises on the first malformed line. */
  method ParsePricedLines(lines: seq<string>) returns (r: Result<map<string, real>, LineError>)
    ensures r == PricedLines(lines)
  {
    ghost var rs := ParseAll(lines);
    var prices: map<string, real> := map[];
    for n := 0 to |lines|
      invariant Collect(rs[..n]) == Ok(prices)
    {
      var parsed := ParseLine(lines[n]);
      CollectStep(rs, n);
      if parsed.Err? {
        CollectErrorPersists(rs, n + 1);
        return Err(parsed.error);
      }
      prices := prices[parsed.value.code := parsed.value.price];
    }
    assert rs[..|rs|] == rs;
    r := Ok(prices);
  }

  /** What one more line does to the dictionary built so far. */
  lemma CollectStep(rs: seq<Result<PricedLine, LineError>>, n: nat)
    requires n < |rs| && Collect(rs[..n]).Ok?
    ensures rs[n].Err? ==> Collect(rs[..n + 1]) == Err(rs[n].error)
    ensures rs[n].Ok? ==> Collect(rs[..n + 1]) == Ok(Collect(rs[..n]).value[rs[n].value.code := rs[n].value.price])
  {
    assert rs[..n + 1][..n] == rs[..n];
  }

  /** Once a prefix fails, the whole fails with the same error. */
  lemma {:induction false} CollectErrorPersists(rs: seq<Result<PricedLine, LineError>>, n: nat)
    requires n <= |rs|
    requires Collect(rs[..n]).Err?
    ensures Collect(rs) == Collect(rs[..n])
    decreases |rs| - n
  {
    if n < |rs| {
      assert rs[..n + 1][..n] == rs[..n];
      CollectErrorPersists(rs, n + 1);
    } else {
      assert rs[..n] == rs;
    }
  }

  lemma {:induction false} CollectFailure(rs: seq<Result<PricedLine, LineError>>)
    ensures Collect(rs).Err? <==> exists i :: 0 <= i < |rs| && rs[i].Err?
    ensures Collect(rs).Err? ==>
              exists i :: && 0 <= i < |rs| && rs[i].Err? && Collect(rs).error == rs[i].error
                          && forall j :: 0 <= j < i ==> rs[j].Ok?
  {
    if rs != [] {
      var n := |rs| - 1;
      var init := rs[..n];
      CollectFailure(init);
      assert forall j :: 0 <= j < n ==> init[j] == rs[j];
      if Collect(init).Err? {
        var i :| && 0 <= i < n && init[i].Err? && Collect(init).error == init[i].error
                 && forall j :: 0 <= j < i ==> init[j].Ok?;
        assert rs[i].Err?;
      }
    }
  }

  lemma CollectContents(rs: seq<Result<PricedLine, LineError>>)
    requires Collect(rs).Ok?
    ensures forall i :: 0 <= i < |rs| ==> rs[i].Ok?
    ensures forall c :: c in Collect(rs).value <==> exists i :: 0 <= i < |rs| && rs[i].value.code == c
    ensures forall i :: 0 <= i < |rs| && (forall j :: i < j < |rs| ==> rs[j].value.code != rs[i].value.code)
                        ==> Collect(rs).value[rs[i].value.code] == rs[i].value.price
  {
    CollectAllOk(rs);
    CollectKeys(rs);
    CollectLastWins(rs);
  }

  lemma {:induction false} CollectAllOk(rs: seq<Result<PricedLine, LineError>>)
    requires Collect(rs).Ok?
    ensures forall i :: 0 <= i < |rs| ==> rs[i].Ok?
  {
    if rs != [] {
      var n := |rs| - 1;
      CollectAllOk(rs[..n]);
      assert forall j :: 0 <= j < n ==> rs[..n][j] == rs[j];
    }
  }

  lemma {:induction false} CollectKeys(rs: seq<Result<PricedLine, LineError>>)
    requires Collect(rs).Ok?
    ensures forall i :: 0 <= i < |rs| ==> rs[i].Ok?
    ensures forall c :: c in Collect(rs).value <==> exists i :: 0 <= i < |rs| && rs[i].value.code == c
  {
    CollectAllOk(rs);
    if rs != [] {
      var n := |rs| - 1;
      var init := rs[..n];
      CollectKeys(init);
      assert forall j :: 0 <= j < n ==> init[j] == rs[j];
      forall c | c in Collect(rs).value ensures exists i :: 0 <= i < |rs| && rs[i].value.code == c {
        if c != rs[n].value.code {
          var i :| 0 <= i < n && init[i].value.code == c;
          assert rs[i].value.code == c;
        }
      }
    }
  }

  lemma {:induction false} CollectLastWins(rs: seq<Result<PricedLine, LineError>>)
    requires Collect(rs).Ok?
    ensures forall i :: 0 <= i < |rs| ==> rs[i].Ok? && rs[i].value.code in Collect(rs).value
    ensures forall i :: 0 <= i < |rs| && (forall j :: i < j < |rs| ==> rs[j].value.code != rs[i].value.code)
                        ==> Collect(rs).value[rs[i].value.code] == rs[i].value.price
  {
    CollectKeys(rs);
    if rs != [] {
      var n := |rs| - 1;
      var init := rs[..n];
      CollectLastWins(init);
      assert forall j :: 0 <= j < n ==> init[j] == rs[j];
    }
  }

  /** The batch fails exactly when some line is malformed, and then with the
      error of the first malformed line: no line is skipped and no partial
      dictionary is returned. */
  lemma PricedLinesFailure(lines: seq<string>)
    ensures PricedLines(lines).Err? <==> exists i :: 0 <= i < |lines| && ParseLine(lines[i]).Err?
    ensures PricedLines(lines).Err? ==>
              exists i :: && 0 <= i < |lines| && ParseLine(lines[i]).Err?
                          && PricedLines(lines).error == ParseLine(lines[i]).error
                          && forall j :: 0 <= j < i ==> ParseLine(lines[j]).Ok?
  {
    var rs := ParseAll(lines);
    CollectFailure(rs);
    if PricedLines(lines).Err? {
      var i :| && 0 <= i < |rs| && rs[i].Err? && Collect(rs).error == rs[i].error
               && forall j :: 0 <= j < i ==> rs[j].Ok?;
      assert ParseLine(lines[i]).Err?;
    }
  }

  /** On success the dictionary has exactly the codes of the lines as keys,
      and each code maps to the price on its last line. */
  lemma PricedLinesContents(lines: seq<string>)
    requires PricedLines(lines).Ok?
    ensures forall i :: 0 <= i < |lines| ==> ParseLine(lines[i]).Ok?
    ensures forall c :: c in PricedLines(lines).value <==>
                        exists i :: 0 <= i < |lines| && ParseLine(lines[i]).value.code == c
    ensures forall i :: 0 <= i < |lines| &&
                        (forall j :: i < j < |lines| ==> ParseLine(lines[j]).value.code != ParseLine(lines[i]).value.code)
                        ==> PricedLines(lines).value[ParseLine(lines[i]).value.code] == ParseLine(lines[i]).value.price
  {
    var rs := ParseAll(lines);
    CollectContents(rs);
  }

  /** No lines, no prices. */
  lemma PricedLinesEmpty()
    ensures PricedLines([]) == Ok(map[])
  {
  }
}

/**
 * `TextExtractors`: the amount, the income test, the phone number hidden in
 * an account string, and the all-caps provider fallback, with each regular
 * expression written out as the scan the matcher performs.
 *
 * The first two provider patterns of `extractProviderFromBody` use lazy
 * backtracking; they are a parameter (`leadingPatterns`).
 */
module TextExtractors {
  import opened Common

  predicate IsSeparator(c: char) {
    c == '.' || c == ','
  }

  predicate IsZero(c: char) {
    c == '0'
  }

  /** Every character is a digit or a separator. */
  predicate DigitsOrSeparators(t: string) {
    forall k :: 0 <= k < |t| ==> IsDigit(t[k]) || IsSeparator(t[k])
  }

  /** The text with every '.' and ',' removed (`replace("[.,]".toRegex(), "")`). */
  function DropSeparators(t: string): (r: string)
    ensures |r| <= |t|
    ensures forall i :: 0 <= i < |r| ==> !IsSeparator(r[i])
    ensures DigitsOrSeparators(t) ==> AllDigits(r)
    ensures t != [] && !IsSeparator(t[0]) ==> r != [] && r[0] == t[0]
  {
    if t == [] then []
    else
      var rest := DropSeparators(t[1..]);
      assert DigitsOrSeparators(t) ==> DigitsOrSeparators(t[1..]) by {
        if DigitsOrSeparators(t) {
          forall k | 0 <= k < |t[1..]| ensures IsDigit(t[1..][k]) || IsSeparator(t[1..][k]) {
            assert t[1..][k] == t[k + 1];
          }
        }
      }
      if IsSeparator(t[0]) then rest else [t[0]] + rest
  }

  // ------------------------------------------------------------ amount

  /** The currency alternative `(\$|COP)` at position `i`. */
  function CurrencyAt(s: string, i: nat): (r: Option<string>)
    ensures r.Some? ==> (r.value == "$" || r.value == "COP") && OccursAt(s, r.value, i)
  {
    if OccursAt(s, "$", i) then Some("$")
    else if OccursAt(s, "COP", i) then Some("COP")
    else None
  }

  /** Where the number starts: after the currency and any whitespace. */
  function NumberStart(s: string, i: nat): (j: nat)
    requires CurrencyAt(s, i).Some?
    ensures j <= |s|
  {
    SpaceRunEnd(s, i + |CurrencyAt(s, i).value|)
  }

  /** An amount match starts at `i`: a currency token, optional whitespace, then a digit. */
  predicate AmountMatchAt(s: string, i: nat) {
    CurrencyAt(s, i).Some? && NumberStart(s, i) < |s| && IsDigit(s[NumberStart(s, i)])
  }

  /** `(?:[.,]\d{3})*`, greedy: the end of the thousands groups starting at `k`. */
  function GroupsEnd(s: string, k: nat): (r: nat)
    requires k <= |s|
    decreases |s| - k
    ensures k <= r <= |s|
    ensures forall m :: k <= m < r ==> IsDigit(s[m]) || IsSeparator(s[m])
  {
    if k + 4 <= |s| && IsSeparator(s[k]) && IsDigit(s[k + 1]) && IsDigit(s[k + 2]) && IsDigit(s[k + 3]) then
      GroupsEnd(s, k + 4)
    else k
  }

  /** The groups of one match: the currency, the integer part without separators, and the decimals. */
  datatype AmountMatch = AmountMatch(currency: string, mainNumber: string, decimal: Option<string>)

  /**
   * The match at `i`. `\d{1,3}` takes at most three digits, so the first
   * alternative stops an unseparated run after three digits; the second
   * alternative `\d+` is never reached.
   */
  function AmountMatchOf(s: string, i: nat): (r: AmountMatch)
    requires AmountMatchAt(s, i)
    ensures r.currency == "$" || r.currency == "COP"
    ensures r.mainNumber != [] && AllDigits(r.mainNumber)
    ensures r.decimal.Some? ==> |r.decimal.value| == 2 && AllDigits(r.decimal.value)
  {
    var j := NumberStart(s, i);
    var lead := DigitRunEnd(s, j);
    var k := if lead - j > 3 then j + 3 else lead;
    var e := GroupsEnd(s, k);
    var decimal := if e + 3 <= |s| && IsSeparator(s[e]) && IsDigit(s[e + 1]) && IsDigit(s[e + 2])
                   then Some(s[e + 1..e + 3]) else None;
    var main := DropSeparators(s[j..e]);
    assert DigitsOrSeparators(s[j..e]) by {
      forall m | 0 <= m < e - j ensures IsDigit(s[j..e][m]) || IsSeparator(s[j..e][m]) {
        assert s[j..e][m] == s[j + m];
      }
    }
    AmountMatch(CurrencyAt(s, i).value, main, decimal)
  }

  /** The returned text: currency, integer part, and ".dd" unless the decimals are absent or "00". */
  function AmountText(m: AmountMatch): string {
    match m.decimal
    case None => m.currency + m.mainNumber
    case Some(d) => if d == "00" then m.currency + m.mainNumber else m.currency + m.mainNumber + "." + d
  }

  /** The patterns the extractors search for with `find`. */
  datatype Pattern = AmountPattern | MobilePattern | LongRunPattern

  predicate MatchesAt(pat: Pattern, s: string, i: nat) {
    match pat
    case AmountPattern => AmountMatchAt(s, i)
    case MobilePattern => MobileAt(s, i)
    case LongRunPattern => LongRunAt(s, i)
  }

  /** `find` from position `i`: the leftmost position where the pattern matches. */
  function FirstMatch(pat: Pattern, s: string, i: nat): (r: Option<nat>)
    decreases |s| - i
    ensures r.Some? ==> i <= r.value < |s| && MatchesAt(pat, s, r.value)
                        && forall k :: i <= k < r.value ==> !MatchesAt(pat, s, k)
    ensures r.None? ==> forall k :: i <= k < |s| ==> !MatchesAt(pat, s, k)
  {
    if i >= |s| then None
    else if MatchesAt(pat, s, i) then Some(i)
    else FirstMatch(pat, s, i + 1)
  }

  /** Any position that matches with none before it is the one `find` reports. */
  lemma FirstMatchIs(pat: Pattern, s: string, i: nat)
    requires i < |s| && MatchesAt(pat, s, i)
    requires forall k :: 0 <= k < i ==> !MatchesAt(pat, s, k)
    ensures FirstMatch(pat, s, 0) == Some(i)
  {
  }

  /** `extractAmountFromBody`: the text of the leftmost match, or null when the pattern never matches. */
  function ExtractAmountFromBody(body: string): (r: Option<string>)
    ensures r.None? <==> forall i :: 0 <= i < |body| ==> !AmountMatchAt(body, i)
    ensures r.Some? ==> exists i :: 0 <= i < |body| && AmountMatchAt(body, i)
                                    && (forall k :: 0 <= k < i ==> !AmountMatchAt(body, k))
                                    && r.value == AmountText(AmountMatchOf(body, i))
  {
    match FirstMatch(AmountPattern, body, 0)
    case None =>
      assert forall i :: 0 <= i < |body| ==> !AmountMatchAt(body, i) by {
        forall i | 0 <= i < |body| ensures !AmountMatchAt(body, i) {
          assert !MatchesAt(AmountPattern, body, i);
        }
      }
      None
    case Some(i) =>
      assert AmountMatchAt(body, i) by {
        assert MatchesAt(AmountPattern, body, i);
      }
      assert forall k :: 0 <= k < i ==> !AmountMatchAt(body, k) by {
        forall k | 0 <= k < i ensures !AmountMatchAt(body, k) {
          assert !MatchesAt(AmountPattern, body, k);
        }
      }
      Some(AmountText(AmountMatchOf(body, i)))
  }

  /** The decimal rule: two decimals other than "00" are kept after a '.', anything else adds nothing. */
  lemma AmountDecimals(m: AmountMatch)
    ensures (m.decimal.None? || m.decimal == Some("00")) <==> AmountText(m) == m.currency + m.mainNumber
  {
    if m.decimal.Some? && m.decimal != Some("00") {
      assert |AmountText(m)| > |m.currency + m.mainNumber|;
    }
  }

  /** A match at the very start is the one `extractAmountFromBody` reports. */
  lemma ExtractAtStart(s: string)
    requires AmountMatchAt(s, 0)
    ensures ExtractAmountFromBody(s) == Some(AmountText(AmountMatchOf(s, 0)))
  {
    FirstMatchIs(AmountPattern, s, 0);
  }

  lemma TextWithCents(c: string, w: string, d: string)
    requires d != "00"
    ensures AmountText(AmountMatch(c, w, Some(d))) == c + w + "." + d
  {
  }

  /**
   * An unseparated run of four or more digits is cut after three: the
   * integer part is the first three digits and there are no decimals.
   */
  lemma UnseparatedRunTruncated(s: string, i: nat)
    requires AmountMatchAt(s, i)
    requires NumberStart(s, i) + 4 <= |s|
    requires forall m :: NumberStart(s, i) <= m < NumberStart(s, i) + 4 ==> IsDigit(s[m])
    ensures AmountMatchOf(s, i) == AmountMatch(CurrencyAt(s, i).value, s[NumberStart(s, i)..NumberStart(s, i) + 3], None)
  {
    var j := NumberStart(s, i);
    var lead := DigitRunEnd(s, j);
    assert lead >= j + 4;
    assert !IsSeparator(s[j + 3]);
    assert GroupsEnd(s, j + 3) == j + 3;
    var m := AmountMatchOf(s, i);
    assert m.decimal == None;
    DropSeparatorsOfDigits(s[j..j + 3]);
    assert m.mainNumber == s[j..j + 3];
  }

  /** For instance "$12345" matches with integer part "123" and no decimals, so "$123" is returned. */
  lemma UnseparatedMatch()
    ensures AmountMatchAt("$12345", 0)
    ensures AmountMatchOf("$12345", 0) == AmountMatch("$", "123", None)
  {
    var s := "$12345";
    UnseparatedStart();
    assert DigitRunEnd(s, 1) == 6;
    assert GroupsEnd(s, 4) == 4;
    assert s[1..4] == "123";
    DropSeparatorsOfDigits("123");
  }

  lemma UnseparatedStart()
    ensures CurrencyAt("$12345", 0) == Some("$")
    ensures NumberStart("$12345", 0) == 1
  {
    var s := "$12345";
    assert OccursAt(s, "$", 0) by { assert s[0..1] == "$"; }
    assert SpaceRunEnd(s, 1) == 1;
  }

  /**
   * Thousands groups lose their separators and the decimals are captured:
   * "COP 1.234,56" matches with integer part "1234" and decimals "56", so
   * "COP1234.56" is returned.
   */
  lemma SeparatedMatch()
    ensures AmountMatchAt("COP 1.234,56", 0)
    ensures AmountMatchOf("COP 1.234,56", 0) == AmountMatch("COP", "1234", Some("56"))
  {
    SeparatedStart();
    SeparatedGroups();
    SeparatedPieces();
    DropOf1234();
  }

  /** The number "1.234,56": one leading digit, then one thousands group ending before ",56". */
  lemma SeparatedGroups()
    ensures DigitRunEnd("COP 1.234,56", 4) == 5
    ensures GroupsEnd("COP 1.234,56", 5) == 9
  {
    var s := "COP 1.234,56";
    assert DigitRunEnd(s, 5) == 5;
    assert GroupsEnd(s, 9) == 9;
  }

  lemma SeparatedPieces()
    ensures var s := "COP 1.234,56";
            && IsSeparator(s[9]) && IsDigit(s[10]) && IsDigit(s[11])
            && s[10..12] == "56" && s[4..9] == "1.234"
  {
  }

  /** "1.234" without its separator is "1234". */
  lemma DropOf1234()
    ensures DropSeparators("1.234") == "1234"
  {
    assert "1.234"[1..] == ".234";
    assert ".234"[1..] == "234";
    DropSeparatorsOfDigits("234");
  }

  lemma SeparatedStart()
    ensures CurrencyAt("COP 1.234,56", 0) == Some("COP")
    ensures NumberStart("COP 1.234,56", 0) == 4
  {
    var s := "COP 1.234,56";
    assert !OccursAt(s, "$", 0) by { assert s[0] != "$"[0]; }
    assert OccursAt(s, "COP", 0) by { assert s[0..3] == "COP"; }
    assert SpaceRunEnd(s, 4) == 4;
    assert SpaceRunEnd(s, 3) == 4;
  }

  /** Without separators there is nothing to drop. */
  lemma {:induction false} DropSeparatorsOfDigits(t: string)
    requires AllDigits(t)
    ensures DropSeparators(t) == t
  {
    if t != [] {
      DropSeparatorsOfDigits(t[1..]);
    }
  }

  // ------------------------------------------------------------ parsing the amount text

  /** `replace("^(\$|COP)".toRegex(), "")`: one leading currency token removed. */
  function StripCurrency(a: string): (r: string)
    ensures |r| <= |a|
  {
    if OccursAt(a, "$", 0) then a[1..]
    else if OccursAt(a, "COP", 0) then a[3..]
    else a
  }

  /** `replace(",", ".")`. */
  function CommasToDots(a: string): (r: string)
    ensures |r| == |a|
    ensures forall i :: 0 <= i < |a| ==> r[i] == (if a[i] == ',' then '.' else a[i])
  {
    if a == [] then [] else [if a[0] == ',' then '.' else a[0]] + CommasToDots(a[1..])
  }

  /** The index of the first '.' at or after `i`. */
  function DotIndex(t: string, i: nat): (r: Option<nat>)
    decreases |t| - i
    ensures r.Some? ==> i <= r.value < |t| && t[r.value] == '.' && forall j :: i <= j < r.value ==> t[j] != '.'
    ensures r.None? ==> forall j :: i <= j < |t| ==> t[j] != '.'
  {
    if i >= |t| then None
    else if t[i] == '.' then Some(i)
    else DotIndex(t, i + 1)
  }

  function Pow10(n: nat): (r: nat)
    ensures r >= 1
  {
    if n == 0 then 1 else 10 * Pow10(n - 1)
  }

  /**
   * `toFloatOrNull` on plain decimal numerals: digits, optionally a '.'
   * and more digits, with at least one digit in all.
   */
  function ParseDecimal(t: string): (r: Option<real>)
    ensures r.Some? ==> r.value >= 0.0
  {
    match DotIndex(t, 0)
    case None =>
      if t != [] && AllDigits(t) then Some(DigitsValue(t) as real) else None
    case Some(k) =>
      var whole := t[..k];
      var fraction := t[k + 1..];
      if AllDigits(whole) && AllDigits(fraction) && |whole| + |fraction| > 0 then
        Some(DigitsValue(whole) as real + DigitsValue(fraction) as real / Pow10(|fraction|) as real)
      else None
  }

  /** `parseToFloat`. */
  function ParseToFloat(amount: Option<string>): (r: Option<real>)
    ensures amount.None? ==> r.None?
  {
    match amount
    case None => None
    case Some(a) => ParseDecimal(CommasToDots(StripCurrency(a)))
  }

  /** The value an extracted amount stands for: the integer part plus the kept decimals as hundredths. */
  function AmountValue(m: AmountMatch): real
    requires AllDigits(m.mainNumber)
    requires m.decimal.Some? ==> AllDigits(m.decimal.value)
  {
    DigitsValue(m.mainNumber) as real
    + (if m.decimal.Some? && m.decimal != Some("00") then DigitsValue(m.decimal.value) as real / 100.0 else 0.0)
  }

  lemma StripCurrencyOf(currency: string, digits: string)
    requires currency == "$" || currency == "COP"
    ensures StripCurrency(currency + digits) == digits
  {
    var text := currency + digits;
    if currency == "$" {
      assert text[0..1] == "$";
      assert text[1..] == digits;
    } else {
      assert text[0] == 'C';
      assert text[0..3] == "COP";
      assert text[3..] == digits;
    }
  }

  lemma CommasToDotsOfDigitsAndDots(t: string)
    requires forall i :: 0 <= i < |t| ==> IsDigit(t[i]) || t[i] == '.'
    ensures CommasToDots(t) == t
  {
  }

  lemma ParseWhole(w: string)
    requires w != [] && AllDigits(w)
    ensures ParseDecimal(w) == Some(DigitsValue(w) as real)
  {
  }

  lemma DotAfterDigits(w: string, rest: string)
    requires AllDigits(w) && rest != [] && rest[0] == '.'
    ensures DotIndex(w + rest, 0) == Some(|w|)
  {
    var t := w + rest;
    assert t[|w|] == '.';
  }

  /** `DotIndex` from `i` stops at the first '.' at or after it. */
  lemma {:induction false} DotIndexAt(t: string, i: nat, k: nat)
    requires i <= k < |t| && t[k] == '.'
    requires forall j :: i <= j < k ==> t[j] != '.'
    decreases k - i
    ensures DotIndex(t, i) == Some(k)
  {
    if i < k {
      DotIndexAt(t, i + 1, k);
    }
  }

  lemma Pow10Two()
    ensures Pow10(2) == 100
  {
  }

  lemma ParseWithCents(w: string, d: string)
    requires w != [] && AllDigits(w) && |d| == 2 && AllDigits(d)
    ensures ParseDecimal(w + "." + d) == Some(DigitsValue(w) as real + DigitsValue(d) as real / 100.0)
  {
    var t := w + "." + d;
    assert t[|w|] == '.';
    forall j | 0 <= j < |w| ensures t[j] != '.' {
      assert t[j] == w[j];
    }
    DotIndexAt(t, 0, |w|);
    assert t[..|w|] == w;
    assert t[|w| + 1..] == d;
    Pow10Two();
  }

  lemma WholeAmountParses(currency: string, w: string)
    requires currency == "$" || currency == "COP"
    requires w != [] && AllDigits(w)
    ensures ParseToFloat(Some(currency + w)) == Some(DigitsValue(w) as real)
  {
    StripCurrencyOf(currency, w);
    CommasToDotsOfDigitsAndDots(w);
    ParseWhole(w);
  }

  lemma CentsAmountParses(currency: string, w: string, d: string)
    requires currency == "$" || currency == "COP"
    requires w != [] && AllDigits(w) && |d| == 2 && AllDigits(d)
    ensures ParseToFloat(Some(currency + w + "." + d)) == Some(DigitsValue(w) as real + DigitsValue(d) as real / 100.0)
  {
    var digits := w + "." + d;
    assert currency + w + "." + d == currency + digits;
    StripCurrencyOf(currency, digits);
    CommasToDotsOfDigitsAndDots(digits);
    ParseWithCents(w, d);
  }

  /** The extractor's text parses back to the value of its match. */
  lemma AmountTextParses(m: AmountMatch)
    requires m.currency == "$" || m.currency == "COP"
    requires m.mainNumber != [] && AllDigits(m.mainNumber)
    requires m.decimal.Some? ==> |m.decimal.value| == 2 && AllDigits(m.decimal.value)
    ensures ParseToFloat(Some(AmountText(m))) == Some(AmountValue(m))
  {
    if m.decimal.Some? && m.decimal != Some("00") {
      CentsTextParses(m.currency, m.mainNumber, m.decimal.value);
    } else {
      WholeTextParses(m);
    }
  }

  lemma CentsTextParses(c: string, w: string, d: string)
    requires c == "$" || c == "COP"
    requires w != [] && AllDigits(w) && |d| == 2 && AllDigits(d) && d != "00"
    ensures ParseToFloat(Some(AmountText(AmountMatch(c, w, Some(d))))) == Some(AmountValue(AmountMatch(c, w, Some(d))))
  {
    var m := AmountMatch(c, w, Some(d));
    var v := DigitsValue(w) as real + DigitsValue(d) as real / 100.0;
    assert AmountValue(m) == v by { assert m.decimal != Some("00"); }
    calc {
      ParseToFloat(Some(AmountText(m)));
      == { TextWithCents(c, w, d); }
      ParseToFloat(Some(c + w + "." + d));
      == { CentsAmountParses(c, w, d); }
      Some(v);
    }
  }

  lemma WholeTextParses(m: AmountMatch)
    requires m.currency == "$" || m.currency == "COP"
    requires m.mainNumber != [] && AllDigits(m.mainNumber)
    requires m.decimal.None? || m.decimal == Some("00")
    ensures ParseToFloat(Some(AmountText(m))) == Some(AmountValue(m))
  {
    assert AmountText(m) == m.currency + m.mainNumber;
    assert AmountValue(m) == DigitsValue(m.mainNumber) as real;
    WholeAmountParses(m.currency, m.mainNumber);
  }

  /** Whatever the extractor finds, `parseToFloat` reads a number from it. */
  lemma ExtractedAmountParses(body: string)
    ensures ParseToFloat(ExtractAmountFromBody(body)).Some? <==> ExtractAmountFromBody(body).Some?
  {
    if ExtractAmountFromBody(body).Some? {
      var i :| 0 <= i < |body| && AmountMatchAt(body, i)
                && (forall k :: 0 <= k < i ==> !AmountMatchAt(body, k))
                && ExtractAmountFromBody(body).value == AmountText(AmountMatchOf(body, i));
      AmountTextParses(AmountMatchOf(body, i));
    }
  }

  // ------------------------------------------------------------ income

  /** The alternatives of the income pattern, each `[óo]` spelled both ways. */
  const IncomeTerms: seq<string> := ["recepción", "recepcion", "recibiste", "nómina", "nomina", "abono",
                                     "consignación", "consignacion", "depósito", "deposito", "ingreso"]

  /** `isIncome`: the body mentions, ignoring case, one of the income terms. */
  predicate IsIncome(body: string)
    ensures IsIncome(body) <==> OccursSomewhere(LowerStr(body), IncomeTerms)
  {
    ContainsAnyIff(LowerStr(body), IncomeTerms);
    ContainsAny(LowerStr(body), IncomeTerms)
  }

  lemma LowerIdempotent(c: char)
    ensures Lower(Lower(c)) == Lower(c)
  {
    if 'A' <= c <= 'Z' {
      assert 'a' <= Lower(c) <= 'z';
    }
  }

  lemma LowerStrIdempotent(s: string)
    ensures LowerStr(LowerStr(s)) == LowerStr(s)
  {
    forall i | 0 <= i < |s| ensures LowerStr(LowerStr(s))[i] == LowerStr(s)[i] {
      LowerIdempotent(s[i]);
    }
  }

  /** The test ignores case: lowering the body first changes nothing. */
  lemma IsIncomeIgnoresCase(body: string)
    ensures IsIncome(LowerStr(body)) <==> IsIncome(body)
  {
    LowerStrIdempotent(body);
  }

  // ------------------------------------------------------------ phone number

  /** Where the zeros start in `[*]?0{3,}`: after the optional '*'. */
  function ZerosStart(s: string, i: nat): (z: nat)
    requires i < |s|
    ensures z <= |s|
  {
    if s[i] == '*' then i + 1 else i
  }

  /**
   * `[*]?0{3,}(3\d{9})` matches at `i`: at least three zeros (the greedy run,
   * since giving zeros back leaves a '0' where the '3' must be), then '3' and
   * nine digits.
   */
  predicate MobileAt(s: string, i: nat) {
    i < |s|
    && var e := RunEnd(s, ZerosStart(s, i), IsZero);
       e - ZerosStart(s, i) >= 3 && e + 10 <= |s| && s[e] == '3' && AllDigits(s[e + 1..e + 10])
  }

  function MobileNumberAt(s: string, i: nat): (r: string)
    requires MobileAt(s, i)
    ensures |r| == 10 && r[0] == '3' && AllDigits(r)
  {
    var e := RunEnd(s, ZerosStart(s, i), IsZero);
    assert AllDigits(s[e..e + 10]) by {
      assert s[e..e + 10] == [s[e]] + s[e + 1..e + 10];
    }
    s[e..e + 10]
  }

  /** `(\d{10,})` matches at `i`: ten digits or more, taken greedily. */
  predicate LongRunAt(s: string, i: nat) {
    i < |s| && DigitRunEnd(s, i) - i >= 10
  }

  /**
   * `extractPhoneNumberFromAccount`: the mobile number of the leftmost
   * masked match, else the leftmost run of ten digits or more, else null.
   */
  function ExtractPhoneNumberFromAccount(account: string): (r: Option<string>)
    ensures r.None? <==> forall i :: 0 <= i < |account| ==> !MobileAt(account, i) && !LongRunAt(account, i)
    ensures r.Some? ==> |r.value| >= 10 && AllDigits(r.value)
  {
    match FirstMatch(MobilePattern, account, 0)
    case Some(i) => Some(MobileNumberAt(account, i))
    case None =>
      match FirstMatch(LongRunPattern, account, 0)
      case Some(i) =>
        var run := account[i..DigitRunEnd(account, i)];
        assert AllDigits(run);
        Some(run)
      case None =>
        assert forall i :: 0 <= i < |account| ==> !MobileAt(account, i) && !LongRunAt(account, i) by {
          forall i | 0 <= i < |account| ensures !MobileAt(account, i) && !LongRunAt(account, i) {
            assert !MatchesAt(MobilePattern, account, i) && !MatchesAt(LongRunPattern, account, i);
          }
        }
        None
  }

  /** A masked mobile number wins: the first one is returned. */
  lemma PhonePrefersMobile(account: string, i: nat)
    requires i < |account| && MobileAt(account, i)
    requires forall k :: 0 <= k < i ==> !MobileAt(account, k)
    ensures ExtractPhoneNumberFromAccount(account) == Some(MobileNumberAt(account, i))
  {
    FirstMatchIs(MobilePattern, account, i);
  }

  /** Without a mobile number, the first run of ten digits or more is returned whole. */
  lemma PhoneFallsBackToLongRun(account: string, i: nat)
    requires forall k :: 0 <= k < |account| ==> !MobileAt(account, k)
    requires i < |account| && LongRunAt(account, i)
    requires forall k :: 0 <= k < i ==> !LongRunAt(account, k)
    ensures ExtractPhoneNumberFromAccount(account) == Some(account[i..DigitRunEnd(account, i)])
  {
    assert FirstMatch(MobilePattern, account, 0).None? by {
      assert forall k :: 0 <= k < |account| ==> !MatchesAt(MobilePattern, account, k);
    }
    FirstMatchIs(LongRunPattern, account, i);
  }

  // ------------------------------------------------------------ all-caps provider

  /** `\w` without Unicode classes: ASCII letters, digits and '_'. */
  predicate IsWordChar(c: char) {
    'a' <= c <= 'z' || 'A' <= c <= 'Z' || IsDigit(c) || c == '_'
  }

  predicate IsCapOrDigit(c: char) {
    'A' <= c <= 'Z' || IsDigit(c)
  }

  predicate IsCapDigitOrStar(c: char) {
    IsCapOrDigit(c) || c == '*'
  }

  /** `s[k..e]` is a sequence of `\s[A-Z0-9]+` words. */
  predicate WordGroups(s: string, k: nat, e: nat)
    requires k <= e <= |s|
  {
    k == e
    || (IsRegexSpace(s[k]) && IsCapOrDigit(s[e - 1])
        && (forall m :: k <= m < e ==> IsRegexSpace(s[m]) || IsCapOrDigit(s[m]))
        && (forall m :: k <= m < e - 1 && IsRegexSpace(s[m]) ==> !IsRegexSpace(s[m + 1])))
  }

  /** `[A-Z0-9][A-Z0-9*]+(?:\s[A-Z0-9]+)*` spans exactly `s[i..e]`. */
  predicate CapsSpan(s: string, i: nat, e: nat) {
    i + 2 <= e <= |s| && IsCapOrDigit(s[i])
    && var run := RunEnd(s, i + 1, IsCapDigitOrStar);
       var k := if run < e then run else e;
       k >= i + 2 && WordGroups(s, k, e)
  }

  /** The lookahead `(?!\w)` holds at `e`. */
  predicate NoWordAfter(s: string, e: nat) {
    e >= |s| || !IsWordChar(s[e])
  }

  /** The lookbehind `(?<!\w)` holds at `i`. */
  predicate NoWordBefore(s: string, i: nat) {
    i == 0 || (i <= |s| && !IsWordChar(s[i - 1]))
  }

  /**
   * The end of the match at `i`: backtracking tries the ends from the
   * longest down, so the match is the longest span the lookahead accepts.
   */
  function CapsEndFrom(s: string, i: nat, e: nat): (r: Option<nat>)
    decreases e
    ensures r.Some? ==> i + 2 <= r.value <= e && CapsSpan(s, i, r.value) && NoWordAfter(s, r.value)
    ensures r.Some? ==> forall f :: r.value < f <= e ==> !(CapsSpan(s, i, f) && NoWordAfter(s, f))
    ensures r.None? ==> forall f :: i + 2 <= f <= e ==> !(CapsSpan(s, i, f) && NoWordAfter(s, f))
  {
    if e < i + 2 then None
    else if CapsSpan(s, i, e) && NoWordAfter(s, e) then Some(e)
    else CapsEndFrom(s, i, e - 1)
  }

  function CapsEnd(s: string, i: nat): (r: Option<nat>)
    ensures r.Some? ==> i < r.value <= |s|
  {
    if NoWordBefore(s, i) then CapsEndFrom(s, i, |s|) else None
  }

  /** The successive `find()` results: each search resumes where the last match ended. */
  function CapsMatches(s: string, p: nat): (r: seq<string>)
    decreases |s| - p
    ensures forall k :: 0 <= k < |r| ==> |r[k]| >= 2 && IsCapOrDigit(r[k][0])
  {
    if p >= |s| then []
    else
      match CapsEnd(s, p)
      case Some(e) => [s[p..e]] + CapsMatches(s, e)
      case None => CapsMatches(s, p + 1)
  }

  /** The fallback skips "COP", "USD" and anything of three characters or fewer. */
  predicate Eligible(m: string) {
    m != "COP" && m != "USD" && |m| > 3
  }

  /** The currency exclusions never decide anything: both words are too short anyway. */
  lemma EligibleIsLength(m: string)
    ensures Eligible(m) <==> |m| > 3
  {
  }

  /** Position `i` holds the first of the longest eligible matches. */
  predicate FirstLongest(matches: seq<string>, i: int) {
    0 <= i < |matches| && Eligible(matches[i])
    && (forall j :: 0 <= j < |matches| && Eligible(matches[j]) ==> |matches[j]| <= |matches[i]|)
    && (forall j :: 0 <= j < i && Eligible(matches[j]) ==> |matches[j]| < |matches[i]|)
  }

  function LengthOf(m: Option<string>): nat {
    if m.Some? then |m.value| else 0
  }

  /**
   * The scan's result on a prefix of the matches: a later match replaces
   * the best one only when it is eligible and strictly longer.
   */
  function BestEligible(matches: seq<string>): (r: Option<string>)
    ensures r.Some? ==> Eligible(r.value)
  {
    if matches == [] then None
    else
      var best := BestEligible(matches[..|matches| - 1]);
      var m := matches[|matches| - 1];
      if Eligible(m) && |m| > LengthOf(best) then Some(m) else best
  }

  /** The scan picks the first of the longest eligible matches, and nothing when none is eligible. */
  lemma {:induction false} BestEligibleIsFirstLongest(matches: seq<string>)
    ensures BestEligible(matches).None? <==> forall j :: 0 <= j < |matches| ==> !Eligible(matches[j])
    ensures BestEligible(matches).Some? ==>
              exists i :: FirstLongest(matches, i) && BestEligible(matches).value == matches[i]
  {
    if matches != [] {
      var init := matches[..|matches| - 1];
      var m := matches[|matches| - 1];
      BestEligibleIsFirstLongest(init);
      assert forall j :: 0 <= j < |init| ==> init[j] == matches[j];
      var best := BestEligible(init);
      if Eligible(m) && |m| > LengthOf(best) {
        if best.Some? {
          var i :| FirstLongest(init, i) && best.value == init[i];
        }
        assert FirstLongest(matches, |matches| - 1);
      } else if best.Some? {
        var i :| FirstLongest(init, i) && best.value == init[i];
        assert FirstLongest(matches, i);
      } else {
        assert !Eligible(m);
      }
    }
  }

  /** The `bestMatch`/`maxLength` scan over the all-caps matches. */
  method LongestEligible(matches: seq<string>) returns (bestMatch: Option<string>)
    ensures bestMatch == BestEligible(matches)
  {
    bestMatch := None;
    var maxLength := 0;
    var i := 0;
    while i < |matches|
      invariant 0 <= i <= |matches|
      invariant bestMatch == BestEligible(matches[..i])
      invariant maxLength == LengthOf(bestMatch)
    {
      var m := matches[i];
      assert matches[..i + 1][..i] == matches[..i];
      if m != "COP" && m != "USD" && |m| > 3 && |m| > maxLength {
        maxLength := |m|;
        bestMatch := Some(m);
      }
      i := i + 1;
    }
    assert matches[..i] == matches;
  }

  /** `extractProviderFromBody` as a value: the leading patterns' answer, else the best all-caps match. */
  function ProviderFromBody(body: string, leadingPatterns: string -> Option<string>): (r: Option<string>)
    ensures leadingPatterns(body).Some? ==> r == leadingPatterns(body)
    ensures leadingPatterns(body).None? && r.Some? ==> |r.value| > 3 && r.value != "COP" && r.value != "USD"
  {
    if leadingPatterns(body).Some? then leadingPatterns(body) else BestEligible(CapsMatches(body, 0))
  }

  /** Without a leading-pattern answer, the provider is the first longest eligible all-caps match. */
  lemma ProviderFallback(body: string, leadingPatterns: string -> Option<string>)
    requires leadingPatterns(body).None?
    ensures var ms := CapsMatches(body, 0);
            (ProviderFromBody(body, leadingPatterns).None? <==> forall j :: 0 <= j < |ms| ==> !Eligible(ms[j]))
            && (ProviderFromBody(body, leadingPatterns).Some? ==>
                  exists i :: FirstLongest(ms, i) && ProviderFromBody(body, leadingPatterns).value == ms[i])
  {
    assert ProviderFromBody(body, leadingPatterns) == BestEligible(CapsMatches(body, 0));
    BestEligibleIsFirstLongest(CapsMatches(body, 0));
  }

  /** `extractProviderFromBody`: the two leading patterns first, then the all-caps fallback. */
  method ExtractProviderFromBody(body: string, leadingPatterns: string -> Option<string>) returns (r: Option<string>)
    ensures r == ProviderFromBody(body, leadingPatterns)
  {
    var leading := leadingPatterns(body);
    if leading.Some? {
      return leading;
    }
    r := LongestEligible(CapsMatches(body, 0));
  }
}

/**
 * `SmsReceiver`: the test that classifies an incoming SMS as financial, the
 * income test, the amount and account extractors, and the transaction built
 * from the message. The arrival time (`Date()`) is a parameter `now`.
 */
module SmsReceiver {
  import opened Common
  import TextExtractors

  /** The short codes and numbers of the known banks. */
  const BankSenders: seq<string> := ["87400", "85432", "87746", "87267", "85764", "3203447373", "899273"]

  const TransactionKeywords: seq<string> :=
    ["compra", "pago", "transaccion", "transferencia", "retiro", "deposito",
     "payout", "payment", "transfer", "transaction", "purchase", "pagaste",
     "recibiste", "withdraw", "deposit"]

  const IncomeKeywords: seq<string> :=
    ["recibiste", "deposito", "abono", "transferencia recibida",
     "received", "deposit", "credit", "incoming transfer"]

  /** `isFinancialSms`: the sender contains a bank code, or the body a transaction keyword. */
  predicate IsFinancialSms(sender: string, body: string)
    ensures IsFinancialSms(sender, body)
            <==> OccursSomewhere(sender, BankSenders) || OccursSomewhere(LowerStr(body), LowerAll(TransactionKeywords))
  {
    ContainsAnyIff(sender, BankSenders);
    ContainsAnyIgnoreCaseIff(body, TransactionKeywords);
    (exists i :: 0 <= i < |BankSenders| && Contains(sender, BankSenders[i]))
    || ContainsAnyIgnoreCase(body, TransactionKeywords)
  }

  /** `isIncomingTransaction`: the body contains an income keyword. */
  predicate IsIncomingTransaction(body: string)
    ensures IsIncomingTransaction(body) <==> OccursSomewhere(LowerStr(body), LowerAll(IncomeKeywords))
  {
    ContainsAnyIgnoreCaseIff(body, IncomeKeywords);
    ContainsAnyIgnoreCase(body, IncomeKeywords)
  }

  // ------------------------------------------------------------ keyword lemmas

  /** A piece of a piece is a piece. */
  lemma ContainsTransitive(s: string, k: string, p: string)
    requires Contains(s, k) && Contains(k, p)
    ensures Contains(s, p)
  {
    ContainsIff(s, k);
    ContainsIff(k, p);
    var i: nat :| OccursAt(s, k, i);
    var j: nat :| OccursAt(k, p, j);
    forall m | 0 <= m < |p| ensures s[i + j + m] == p[m] {
      assert k[j + m] == p[m];
      assert s[i + (j + m)] == k[j + m];
    }
    assert s[i + j..i + j + |p|] == p;
    assert OccursAt(s, p, i + j);
    ContainsIff(s, p);
  }

  lemma ContainsSuffix(a: string, b: string)
    ensures Contains(a + b, b)
  {
    assert (a + b)[|a|..|a| + |b|] == b;
    assert OccursAt(a + b, b, |a|);
    ContainsIff(a + b, b);
  }

  lemma {:induction false} LowerStrAppend(a: string, b: string)
    ensures LowerStr(a + b) == LowerStr(a) + LowerStr(b)
  {
    assert forall m :: 0 <= m < |a + b| ==> LowerStr(a + b)[m] == (LowerStr(a) + LowerStr(b))[m];
  }

  /** A keyword containing another one (both lowered) brings it along. */
  lemma KeywordWithin(body: string, k: string, p: string)
    requires ContainsIgnoreCase(body, k) && Contains(LowerStr(k), LowerStr(p))
    ensures ContainsIgnoreCase(body, p)
  {
    ContainsTransitive(LowerStr(body), LowerStr(k), LowerStr(p));
  }

  /** Body keywords are case-blind: lowering the body first changes nothing. */
  lemma IsFinancialSmsIgnoresCase(sender: string, body: string)
    ensures IsFinancialSms(sender, LowerStr(body)) <==> IsFinancialSms(sender, body)
  {
    TextExtractors.LowerStrIdempotent(body);
  }

  /** A known bank sender makes any message financial. */
  lemma BankSenderIsFinancial(sender: string, body: string, i: nat)
    requires i < |BankSenders| && Contains(sender, BankSenders[i])
    ensures IsFinancialSms(sender, body)
  {
  }

  /**
   * The two lists overlap: an incoming transaction is financial whatever its
   * sender, unless the income keyword it contains is "abono", "received" or
   * "credit" (positions 2, 4 and 6).
   */
  lemma IncomingIsFinancial(sender: string, body: string, i: nat)
    requires i < |IncomeKeywords| && ContainsIgnoreCase(body, IncomeKeywords[i])
    requires i != 2 && i != 4 && i != 6
    ensures IsFinancialSms(sender, body)
  {
    IncomeKeywordIsTransactionKeyword(body, i);
  }

  lemma IncomeKeywordIsTransactionKeyword(body: string, i: nat)
    requires i < |IncomeKeywords| && ContainsIgnoreCase(body, IncomeKeywords[i])
    requires i != 2 && i != 4 && i != 6
    ensures ContainsAnyIgnoreCase(body, TransactionKeywords)
  {
    if i == 3 || i == 7 {
      TransferKeyword(body, i);
    } else {
      SharedKeyword(body, i);
    }
  }

  /** "recibiste", "deposito" and "deposit" are on both lists. */
  lemma SharedKeyword(body: string, i: nat)
    requires (i == 0 || i == 1 || i == 5) && ContainsIgnoreCase(body, IncomeKeywords[i])
    ensures ContainsAnyIgnoreCase(body, TransactionKeywords)
  {
    SharedSpellings();
    var j := if i == 0 then 12 else if i == 1 then 5 else 14;
    SameKeywordWitness(body, IncomeKeywords, TransactionKeywords, i, j);
  }

  lemma SharedSpellings()
    ensures IncomeKeywords[0] == TransactionKeywords[12]
    ensures IncomeKeywords[1] == TransactionKeywords[5]
    ensures IncomeKeywords[5] == TransactionKeywords[14]
  {
  }

  /** A keyword found in the text that is also on another list satisfies that list's test. */
  lemma SameKeywordWitness(body: string, from: seq<string>, to: seq<string>, i: nat, j: nat)
    requires i < |from| && j < |to| && from[i] == to[j] && ContainsIgnoreCase(body, from[i])
    ensures ContainsAnyIgnoreCase(body, to)
  {
    KeywordWitness(body, to, j);
  }

  /** "transferencia recibida" and "incoming transfer" contain "transferencia" and "transfer". */
  lemma TransferKeyword(body: string, i: nat)
    requires (i == 3 || i == 7) && ContainsIgnoreCase(body, IncomeKeywords[i])
    ensures ContainsAnyIgnoreCase(body, TransactionKeywords)
  {
    if i == 3 {
      TransferReceived(body, i);
    } else {
      IncomingTransfer(body, i);
    }
  }

  lemma KeywordSpellings()
    ensures IncomeKeywords[3] == TransactionKeywords[3] + " recibida"
    ensures IncomeKeywords[7] == "incoming " + TransactionKeywords[8]
  {
  }

  lemma TransferReceived(body: string, i: nat)
    requires i == 3 && ContainsIgnoreCase(body, IncomeKeywords[i])
    ensures ContainsAnyIgnoreCase(body, TransactionKeywords)
  {
    KeywordSpellings();
    ViaPrefix(body, TransactionKeywords[3], " recibida");
    KeywordWitness(body, TransactionKeywords, 3);
  }

  lemma IncomingTransfer(body: string, i: nat)
    requires i == 7 && ContainsIgnoreCase(body, IncomeKeywords[i])
    ensures ContainsAnyIgnoreCase(body, TransactionKeywords)
  {
    KeywordSpellings();
    ViaSuffix(body, "incoming ", TransactionKeywords[8]);
    KeywordWitness(body, TransactionKeywords, 8);
  }

  lemma ViaPrefix(body: string, a: string, b: string)
    requires ContainsIgnoreCase(body, a + b)
    ensures ContainsIgnoreCase(body, a)
  {
    LowerStrAppend(a, b);
    assert LowerStr(a) <= LowerStr(a + b);
    KeywordWithin(body, a + b, a);
  }

  lemma ViaSuffix(body: string, a: string, b: string)
    requires ContainsIgnoreCase(body, a + b)
    ensures ContainsIgnoreCase(body, b)
  {
    LowerStrAppend(a, b);
    ContainsSuffix(LowerStr(a), LowerStr(b));
    KeywordWithin(body, a + b, b);
  }

  // ------------------------------------------------------------ amount

  /** `\$?\s?` followed by a digit, starting at `i`. */
  predicate AmountMatchAt(s: string, i: nat) {
    i < |s|
    && (IsDigit(s[i])
        || ((s[i] == '$' || IsRegexSpace(s[i])) && i + 1 < |s| && IsDigit(s[i + 1]))
        || (s[i] == '$' && i + 2 < |s| && IsRegexSpace(s[i + 1]) && IsDigit(s[i + 2])))
  }

  /** Where the captured group starts: the greedy `\$?` and `\s?` are tried with their characters first. */
  function GroupStart(s: string, i: nat): (g: nat)
    requires AmountMatchAt(s, i)
    ensures i <= g <= i + 2 && g < |s| && IsDigit(s[g])
    ensures forall m :: i <= m < g ==> !IsDigit(s[m])
  {
    if s[i] == '$' && i + 2 < |s| && IsRegexSpace(s[i + 1]) && IsDigit(s[i + 2]) then i + 2
    else if (s[i] == '$' || IsRegexSpace(s[i])) && i + 1 < |s| && IsDigit(s[i + 1]) then i + 1
    else i
  }

  /** `find`: the leftmost position where the amount pattern matches. */
  function FirstAmountMatch(s: string, i: nat): (r: Option<nat>)
    decreases |s| - i
    ensures r.Some? ==> i <= r.value && AmountMatchAt(s, r.value)
                        && forall k :: i <= k < r.value ==> !AmountMatchAt(s, k)
    ensures r.None? ==> forall k :: i <= k < |s| ==> !AmountMatchAt(s, k)
  {
    if i >= |s| then None
    else if AmountMatchAt(s, i) then Some(i)
    else FirstAmountMatch(s, i + 1)
  }

  /**
   * The end of `\d{1,3}(?:[.,]\d{3})*(?:[.,]\d{2})?` from the digit at `g`:
   * every part is greedy and everything after the first digit is optional,
   * so the first attempt succeeds.
   */
  function GroupEnd(s: string, g: nat): (e: nat)
    requires g < |s| && IsDigit(s[g])
    ensures g < e <= |s|
    ensures forall m :: g <= m < e ==> IsDigit(s[m]) || TextExtractors.IsSeparator(s[m])
  {
    var lead := DigitRunEnd(s, g);
    var k := if lead - g > 3 then g + 3 else lead;
    var e := TextExtractors.GroupsEnd(s, k);
    if e + 3 <= |s| && TextExtractors.IsSeparator(s[e]) && IsDigit(s[e + 1]) && IsDigit(s[e + 2]) then e + 3
    else e
  }

  /** `extractAmountString`: group 1 of the leftmost match. */
  function ExtractAmountString(body: string): (r: Option<string>)
    ensures r.None? <==> forall j :: 0 <= j < |body| ==> !IsDigit(body[j])
    ensures r.Some? ==> r.value != [] && IsDigit(r.value[0])
                        && forall m :: 0 <= m < |r.value| ==> IsDigit(r.value[m]) || TextExtractors.IsSeparator(r.value[m])
  {
    match FirstAmountMatch(body, 0)
    case None =>
      assert forall j :: 0 <= j < |body| ==> !IsDigit(body[j]) by {
        forall j | 0 <= j < |body| ensures !IsDigit(body[j]) {
          assert !AmountMatchAt(body, j);
        }
      }
      None
    case Some(i) =>
      var g := GroupStart(body, i);
      Some(body[g..GroupEnd(body, g)])
  }

  /** The captured amount always begins at the first digit of the body. */
  lemma AmountStartsAtFirstDigit(body: string)
    requires FirstIndex(body, IsDigit).Some?
    ensures var d := FirstIndex(body, IsDigit).value;
            ExtractAmountString(body) == Some(body[d..GroupEnd(body, d)])
  {
    var d := FirstIndex(body, IsDigit).value;
    assert AmountMatchAt(body, d);
    var i := FirstAmountMatch(body, 0).value;
    var g := GroupStart(body, i);
    assert g >= d;
    assert g == d;
  }

  // ------------------------------------------------------------ numeric amount

  /**
   * `extractNumericAmount`: every ',' and '.' removed, the digits read as
   * hundredths. A text that is not a run of digits has no value.
   */
  function ExtractNumericAmount(amount: Option<string>): (r: Option<real>)
    ensures amount.None? ==> r.None?
    ensures r.Some? ==> r.value >= 0.0
    ensures amount.Some? && AllDigits(TextExtractors.DropSeparators(amount.value))
            && TextExtractors.DropSeparators(amount.value) != [] ==>
              r == Some(DigitsValue(TextExtractors.DropSeparators(amount.value)) as real / 100.0)
  {
    match amount
    case None => None
    case Some(text) =>
      var normalized := TextExtractors.DropSeparators(text);
      if normalized != [] && AllDigits(normalized) then Some(DigitsValue(normalized) as real / 100.0)
      else None
  }

  /** Every amount the extractor finds has a numeric value. */
  lemma ExtractedAmountHasValue(body: string)
    ensures ExtractAmountString(body).Some? ==> ExtractNumericAmount(ExtractAmountString(body)).Some?
  {
    if ExtractAmountString(body).Some? {
      var t := ExtractAmountString(body).value;
      var n := TextExtractors.DropSeparators(t);
      assert TextExtractors.DigitsOrSeparators(t);
      assert n != [] && n[0] == t[0];
    }
  }

  /** Separators only group digits: the last two digits are always the cents, so "1.234" reads 12.34. */
  lemma ThousandsReadAsCents()
    ensures ExtractNumericAmount(Some("1.234")) == Some(12.34)
  {
    TextExtractors.DropOf1234();
    DigitsOf1234();
  }

  lemma DigitsOf1234()
    ensures DigitsValue("1234") == 1234
  {
    assert "1234"[..3] == "123";
    assert "123"[..2] == "12";
    assert "12"[..1] == "1";
    assert "1"[..0] == "";
  }

  // ------------------------------------------------------------ account

  const AccountWords: seq<string> := ["cuenta", "tarjeta", "card", "account"]

  /*
   * The pattern is matched case-insensitively: the words are looked up in
   * `ls`, the lowered body, and the marker and digits in the body `s`
   * itself. `ExtractAccount` passes `LowerStr(body)` for `ls`.
   */

  /** The first of `words`, in order, that occurs at position `i` of `ls`. */
  function FirstWordAt(ls: string, words: seq<string>, i: nat): (r: Option<string>)
    ensures r.Some? ==> r.value in words && OccursAt(ls, r.value, i)
    ensures r.None? ==> forall w :: w in words ==> !OccursAt(ls, w, i)
  {
    if words == [] then None
    else if OccursAt(ls, words[0], i) then Some(words[0])
    else FirstWordAt(ls, words[1..], i)
  }

  /** Where `[*x]` must stand: after the word found at `i` and the greedy `\s+`. */
  function MarkerAt(s: string, ls: string, words: seq<string>, i: nat): (f: nat)
    requires FirstWordAt(ls, words, i).Some? && i + |FirstWordAt(ls, words, i).value| <= |s|
    ensures i + |FirstWordAt(ls, words, i).value| <= f <= |s|
  {
    SpaceRunEnd(s, i + |FirstWordAt(ls, words, i).value|)
  }

  /**
   * The whole pattern matches at `i`: one of `words`, at least one space,
   * '*', 'x' or 'X', then four digits.
   */
  predicate AccountMatchAt(s: string, ls: string, words: seq<string>, i: nat) {
    FirstWordAt(ls, words, i).Some?
    && var e := i + |FirstWordAt(ls, words, i).value|;
       e <= |s|
       && var f := MarkerAt(s, ls, words, i);
          f > e && f + 5 <= |s| && (s[f] == '*' || s[f] == 'x' || s[f] == 'X') && AllDigits(s[f + 1..f + 5])
  }

  /** The leftmost match at or after `i`, as `find` reports it. */
  function FirstAccountMatch(s: string, ls: string, words: seq<string>, i: nat): (r: Option<nat>)
    decreases |s| - i
    ensures r.Some? ==> i <= r.value < |s| && AccountMatchAt(s, ls, words, r.value)
                        && forall k :: i <= k < r.value ==> !AccountMatchAt(s, ls, words, k)
    ensures r.None? ==> forall k :: i <= k < |s| ==> !AccountMatchAt(s, ls, words, k)
  {
    if i >= |s| then None
    else if AccountMatchAt(s, ls, words, i) then Some(i)
    else FirstAccountMatch(s, ls, words, i + 1)
  }

  /** What a match at `i` yields: "*" and the four digits after its marker. */
  function MatchedAccount(s: string, ls: string, words: seq<string>, i: nat): (r: Option<string>)
    ensures r.Some? <==> AccountMatchAt(s, ls, words, i)
    ensures r.Some? ==> |r.value| == 5 && r.value[0] == '*' && AllDigits(r.value[1..])
  {
    if AccountMatchAt(s, ls, words, i) then
      var f := MarkerAt(s, ls, words, i);
      var digits := s[f + 1..f + 5];
      AccountText(digits);
      Some("*" + digits)
    else None
  }

  /** The account text: the marker '*' and the four digits after the matched marker. */
  lemma AccountText(digits: string)
    requires |digits| == 4 && AllDigits(digits)
    ensures var r := "*" + digits; |r| == 5 && r[0] == '*' && AllDigits(r[1..])
  {
    assert ("*" + digits)[1..] == digits;
  }

  /**
   * The leftmost match's account text, for the lowered body `ls` and the
   * alternatives `words`: null exactly when nothing matches.
   */
  function ExtractAccountIn(s: string, ls: string, words: seq<string>): (r: Option<string>)
    ensures r.None? <==> forall i :: 0 <= i < |s| ==> !AccountMatchAt(s, ls, words, i)
    ensures r.Some? ==> |r.value| == 5 && r.value[0] == '*' && AllDigits(r.value[1..])
    ensures r.Some? ==> exists i :: 0 <= i < |s| && r == MatchedAccount(s, ls, words, i)
                                    && forall k :: 0 <= k < i ==> !AccountMatchAt(s, ls, words, k)
  {
    match FirstAccountMatch(s, ls, words, 0)
    case None => None
    case Some(i) => MatchedAccount(s, ls, words, i)
  }

  /**
   * `extractAccount`: "*" and the four digits of the leftmost match of the
   * account pattern (one of the account words in any case, whitespace, a
   * marker, four digits), or null.
   */
  function ExtractAccount(body: string): (r: Option<string>)
    ensures r.Some? ==> |r.value| == 5 && r.value[0] == '*' && AllDigits(r.value[1..])
  {
    ExtractAccountIn(body, LowerStr(body), AccountWords)
  }

  // ------------------------------------------------------------ message and transaction

  /** `createSmsMessage`: the extracted fields, the sender as address and provider, the arrival time. */
  function CreateSmsMessage(sender: string, body: string, now: Date): (m: SmsMessage)
    ensures m.address == sender && m.body == body && m.provider == Some(sender)
    ensures m.amount == ExtractAmountString(body) && m.numericAmount == ExtractNumericAmount(m.amount)
    ensures m.dateTime == Some(now) && m.detectedAccount == ExtractAccount(body)
    ensures m.sourceAccount.None? && m.recipientContact.None? && m.recipientPhoneNumber.None?
  {
    var amount := ExtractAmountString(body);
    SmsMessage(sender, body, amount, ExtractNumericAmount(amount), Some(now), ExtractAccount(body),
               None, None, None, Some(sender))
  }

  /**
   * `parseTransaction`: the message's fields carried over, no category, an
   * amount of zero when none was read, and the current time when the
   * message has none.
   */
  function ParseTransaction(sms: SmsMessage, now: Date): (t: Transaction)
    ensures t.categoryId.None? && t.id.None? && t.userId.None? && t.description.None?
    ensures t.amount == OrElse(sms.numericAmount, 0.0) && t.isIncome == IsIncomingTransaction(sms.body)
    ensures t.date == OrElse(sms.dateTime, now)
    ensures t.provider == sms.provider && t.contactName == sms.recipientContact && t.accountInfo == sms.detectedAccount
  {
    Transaction(None, None, OrElse(sms.dateTime, now), OrElse(sms.numericAmount, 0.0),
                IsIncomingTransaction(sms.body), None, sms.provider, sms.recipientContact,
                sms.detectedAccount, None)
  }

  /**
   * One received message end to end: a financial SMS yields a transaction
   * dated on arrival, from its sender, with the amount that the body's
   * first digits spell and never a negative amount.
   */
  lemma ReceivedTransaction(sender: string, body: string, now: Date)
    requires IsFinancialSms(sender, body)
    ensures var t := ParseTransaction(CreateSmsMessage(sender, body, now), now);
            t.date == now && t.provider == Some(sender) && t.amount >= 0.0
            && (t.amount == 0.0 <== forall j :: 0 <= j < |body| ==> !IsDigit(body[j]))
            && t.accountInfo == ExtractAccount(body)
  {
  }
}

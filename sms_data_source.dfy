/**
 * `SmsDataSource`: the inbox query and the per-message filter that turns
 * inbox rows into `SmsMessage`s. The content provider itself (which rows
 * match the where clause, their order and the LIMIT) is outside the model:
 * `readSmsMessages` is given the rows the query returned.
 */
module SmsDataSource {
  import opened Common
  import TextExtractors
  import ExtractTransactionData

  /** The LIKE patterns of the where clause, one `?` each. */
  const BankFilters: seq<string> := [
    "%Bancolombia%", "%Nequi%", "%Daviplata%", "%BBVA%", "%Davivienda%", "%Banco%",
    "%transfer%", "%cuenta%", "%pago%", "%compra%", "%tarjeta%", "%credito%",
    "%debito%", "%recepcion%", "%recibiste%", "%nomina%", "%abono%", "%consignacion%",
    "%deposito%", "%ingreso%", "%retiro%", "%cajero%", "%efectivo%", "%transaccion%"]

  /** The keyword list of `containsFinancialKeywords`. */
  const FinancialKeywords: seq<string> := [
    "transferencia", "transfer", "pago", "payment", "compra", "purchase",
    "cuenta", "account", "tarjeta", "card", "débito", "debit", "crédito", "credit",
    "recibo", "factura", "bill", "receipt", "efectivo", "cash",
    "transacción", "transaction", "saldo", "balance", "dinero", "money",
    "banco", "bank", "cajero", "atm", "depósito", "deposit", "retiro", "withdraw",
    "nómina", "payroll", "abono", "consignación", "ingreso", "income"]

  /** The prefix every processed message must start with. */
  const BankPrefix: string := "Bancolombia:"

  /** One LIKE test on `Telephony.Sms.BODY`. */
  const LikeTest: string := "body LIKE ?"
  const OrSeparator: string := " OR "
  /** The date test on `Telephony.Sms.DATE`. */
  const DateTest: string := " AND date >= ?"

  // ------------------------------------------------------------ the where clause

  /** The number of occurrences of `c` in `s`. */
  function Count(s: string, c: char): (r: nat)
    ensures r <= |s|
  {
    if s == [] then 0 else (if s[0] == c then 1 else 0) + Count(s[1..], c)
  }

  lemma {:induction false} CountAppend(a: string, b: string, c: char)
    ensures Count(a + b, c) == Count(a, c) + Count(b, c)
  {
    if a == [] {
      assert a + b == b;
    } else {
      assert (a + b)[0] == a[0];
      assert (a + b)[1..] == a[1..] + b;
      CountAppend(a[1..], b, c);
    }
  }

  lemma {:induction false} CountAbsent(s: string, c: char)
    requires forall i :: 0 <= i < |s| ==> s[i] != c
    ensures Count(s, c) == 0
  {
    if s != [] {
      CountAbsent(s[1..], c);
    }
  }

  /** A string whose last character is its only `c`. */
  lemma CountLast(s: string, c: char)
    requires s != [] && s[|s| - 1] == c
    requires forall i :: 0 <= i < |s| - 1 ==> s[i] != c
    ensures Count(s, c) == 1
  {
    var init := s[..|s| - 1];
    assert s == init + [c];
    CountAbsent(init, c);
    CountAppend(init, [c], c);
  }

  lemma LikeTestPlaceholder()
    ensures Count(LikeTest, '?') == 1
  {
    CountLast(LikeTest, '?');
  }

  lemma OrSeparatorPlaceholders()
    ensures Count(OrSeparator, '?') == 0
  {
    CountAbsent(OrSeparator, '?');
  }

  lemma DateTestPlaceholder()
    ensures Count(DateTest, '?') == 1
  {
    CountLast(DateTest, '?');
  }

  /** `n` LIKE tests joined by " OR ". */
  function Disjunction(n: nat): string {
    if n == 0 then "" else if n == 1 then LikeTest else Disjunction(n - 1) + OrSeparator + LikeTest
  }

  /** The date constraint: present exactly when a positive number of months is asked for. */
  function DateConstraint(limitToRecentMonths: int): (r: string)
    ensures r != "" <==> limitToRecentMonths > 0
  {
    if limitToRecentMonths > 0 then DateTest else ""
  }

  /** The where clause for `n` filters. */
  function WhereClause(n: nat, limitToRecentMonths: int): string {
    "(" + Disjunction(n) + ")" + DateConstraint(limitToRecentMonths)
  }

  /**
   * The where clause and its arguments, built as the source builds them:
   * the LIKE tests one filter at a time, then the date constraint and its
   * argument, the cutoff timestamp, when one is asked for.
   */
  method BuildWhereClause(filters: seq<string>, limitToRecentMonths: int, cutoff: string)
    returns (whereClause: string, whereArgs: seq<string>)
    ensures whereClause == WhereClause(|filters|, limitToRecentMonths)
    ensures whereArgs == filters + (if limitToRecentMonths > 0 then [cutoff] else [])
    ensures Count(whereClause, '?') == |whereArgs|
  {
    var dateConstraint := "";
    var dateArg: Option<string> := None;
    if limitToRecentMonths > 0 {
      dateConstraint := DateTest;
      dateArg := Some(cutoff);
    }
    whereClause := "(";
    whereArgs := [];
    var index := 0;
    while index < |filters|
      invariant 0 <= index <= |filters|
      invariant whereClause == "(" + Disjunction(index)
      invariant whereArgs == filters[..index]
    {
      if index > 0 {
        whereClause := whereClause + OrSeparator;
      }
      whereClause := whereClause + LikeTest;
      whereArgs := whereArgs + [filters[index]];
      index := index + 1;
    }
    assert filters[..index] == filters;
    whereClause := whereClause + ")";
    whereClause := whereClause + dateConstraint;
    if dateArg.Some? {
      whereArgs := whereArgs + [dateArg.value];
    }
    PlaceholdersMatchArgs(|filters|, limitToRecentMonths);
  }

  /** A disjunction of `n` tests has `n` placeholders. */
  lemma {:induction false} DisjunctionPlaceholders(n: nat)
    ensures Count(Disjunction(n), '?') == n
  {
    if n == 1 {
      LikeTestPlaceholder();
    } else if n > 1 {
      LikeTestPlaceholder();
      OrSeparatorPlaceholders();
      DisjunctionPlaceholders(n - 1);
      CountAppend(Disjunction(n - 1), OrSeparator, '?');
      CountAppend(Disjunction(n - 1) + OrSeparator, LikeTest, '?');
    }
  }

  /** Every `?` of the where clause has its argument: one per filter, one more for the date. */
  lemma PlaceholdersMatchArgs(n: nat, limitToRecentMonths: int)
    ensures Count(WhereClause(n, limitToRecentMonths), '?') == n + (if limitToRecentMonths > 0 then 1 else 0)
  {
    DateTestPlaceholder();
    DisjunctionPlaceholders(n);
    CountAppend("(", Disjunction(n), '?');
    CountAppend("(" + Disjunction(n), ")", '?');
    CountAppend("(" + Disjunction(n) + ")", DateConstraint(limitToRecentMonths), '?');
    assert Count("", '?') == 0;
  }

  /** The app's own query: 24 filters and, for the default twelve months, the cutoff as the 25th argument. */
  lemma DefaultQueryArguments()
    ensures |BankFilters| == 24
    ensures Count(WhereClause(|BankFilters|, 12), '?') == 25
  {
    PlaceholdersMatchArgs(|BankFilters|, 12);
  }

  // ------------------------------------------------------------ the keep rule

  /** `startsWith(prefix, ignoreCase = true)`. */
  predicate StartsWithIgnoreCase(s: string, prefix: string) {
    |prefix| <= |s| && forall i :: 0 <= i < |prefix| ==> Lower(s[i]) == Lower(prefix[i])
  }

  /** `containsFinancialKeywords`. */
  predicate ContainsFinancialKeywords(body: string)
    ensures ContainsFinancialKeywords(body) <==> OccursSomewhere(LowerStr(body), LowerAll(FinancialKeywords))
  {
    ContainsAnyIgnoreCaseIff(body, FinancialKeywords);
    ContainsAnyIgnoreCase(body, FinancialKeywords)
  }

  /** An inbox row: the address, body and date columns. */
  datatype SmsRow = SmsRow(address: string, body: string, timestamp: Date)

  /** A row is turned into a message: the bank's prefix, and an amount or a financial keyword. */
  predicate Kept(row: SmsRow) {
    StartsWithIgnoreCase(row.body, BankPrefix)
    && (TextExtractors.ParseToFloat(TextExtractors.ExtractAmountFromBody(row.body)).Some?
        || ContainsFinancialKeywords(row.body))
  }

  /** The message made from a kept row; `dateFromBody` is `DateTimeUtils.extractDateTimeFromBody`. */
  function MessageOf(row: SmsRow, services: ExtractTransactionData.Services, dateFromBody: string -> Option<Date>): (m: SmsMessage)
    ensures m.address == row.address && m.body == row.body
    ensures m.amount == TextExtractors.ExtractAmountFromBody(row.body)
    ensures m.numericAmount == TextExtractors.ParseToFloat(m.amount)
    ensures m.dateTime == Some(OrElse(dateFromBody(row.body), row.timestamp))
    ensures m.detectedAccount == services.detectAccountInfo(row.body).0
    ensures m.sourceAccount == services.detectAccountInfo(row.body).1
    ensures m.provider == TextExtractors.ProviderFromBody(row.body, services.leadingPatterns)
    ensures m.recipientPhoneNumber
            == (if m.detectedAccount.Some? then TextExtractors.ExtractPhoneNumberFromAccount(m.detectedAccount.value) else None)
    ensures m.recipientContact
            == (if m.recipientPhoneNumber.Some? then services.lookupContactName(m.recipientPhoneNumber.value) else None)
  {
    var body := row.body;
    var amount := TextExtractors.ExtractAmountFromBody(body);
    var (detectedAccount, sourceAccount) := services.detectAccountInfo(body);
    var phoneNumber := if detectedAccount.Some? then TextExtractors.ExtractPhoneNumberFromAccount(detectedAccount.value) else None;
    var contactName := if phoneNumber.Some? then services.lookupContactName(phoneNumber.value) else None;
    SmsMessage(row.address, body, amount, TextExtractors.ParseToFloat(amount),
               Some(OrElse(dateFromBody(body), row.timestamp)), detectedAccount, sourceAccount,
               contactName, phoneNumber, TextExtractors.ProviderFromBody(body, services.leadingPatterns))
  }

  /** The messages made from the rows, in the order the cursor returns them. */
  function ReadRows(rows: seq<SmsRow>, services: ExtractTransactionData.Services, dateFromBody: string -> Option<Date>): (r: seq<SmsMessage>)
    ensures |r| <= |rows|
  {
    if rows == [] then []
    else if Kept(rows[0]) then [MessageOf(rows[0], services, dateFromBody)] + ReadRows(rows[1..], services, dateFromBody)
    else ReadRows(rows[1..], services, dateFromBody)
  }

  /** `readSmsMessages` over the rows of the query, `hasPermission` being `hasReadSmsPermission()`. */
  method ReadSmsMessages(hasPermission: bool, rows: seq<SmsRow>, services: ExtractTransactionData.Services,
                         dateFromBody: string -> Option<Date>)
    returns (smsMessages: seq<SmsMessage>)
    ensures !hasPermission ==> smsMessages == []
    ensures hasPermission ==> smsMessages == ReadRows(rows, services, dateFromBody)
  {
    if !hasPermission {
      return [];
    }
    smsMessages := [];
    var i := 0;
    while i < |rows|
      invariant 0 <= i <= |rows|
      invariant smsMessages + ReadRows(rows[i..], services, dateFromBody) == ReadRows(rows, services, dateFromBody)
    {
      var row := rows[i];
      ReadRowsFrom(rows, i, services, dateFromBody);
      i := i + 1;
      if !StartsWithIgnoreCase(row.body, BankPrefix) {
        continue;
      }
      var message := KeptMessage(row, services, dateFromBody);
      if message.Some? {
        smsMessages := smsMessages + [message.value];
      }
    }
  }

  /** The rest of the cursor loop for a row with the bank's prefix: its message, if it has an amount or a keyword. */
  method KeptMessage(row: SmsRow, services: ExtractTransactionData.Services, dateFromBody: string -> Option<Date>)
    returns (message: Option<SmsMessage>)
    requires StartsWithIgnoreCase(row.body, BankPrefix)
    ensures message == if Kept(row) then Some(MessageOf(row, services, dateFromBody)) else None
  {
    var amount := TextExtractors.ExtractAmountFromBody(row.body);
    var numericAmount := TextExtractors.ParseToFloat(amount);
    if numericAmount.Some? || ContainsFinancialKeywords(row.body) {
      var m := BuildMessage(row, amount, numericAmount, services, dateFromBody);
      message := Some(m);
    } else {
      message := None;
    }
  }

  /** The body of the cursor loop for a kept row: the message built field by field. */
  method BuildMessage(row: SmsRow, amount: Option<string>, numericAmount: Option<real>,
                      services: ExtractTransactionData.Services, dateFromBody: string -> Option<Date>)
    returns (message: SmsMessage)
    requires amount == TextExtractors.ExtractAmountFromBody(row.body)
    requires numericAmount == TextExtractors.ParseToFloat(amount)
    ensures message == MessageOf(row, services, dateFromBody)
  {
    var dateFromText := dateFromBody(row.body);
    var dateTime := if dateFromText.Some? then dateFromText.value else row.timestamp;
    var (detectedAccount, sourceAccount) := services.detectAccountInfo(row.body);
    var phoneNumber := if detectedAccount.Some? then TextExtractors.ExtractPhoneNumberFromAccount(detectedAccount.value) else None;
    var contactName := if phoneNumber.Some? then services.lookupContactName(phoneNumber.value) else None;
    var provider := TextExtractors.ExtractProviderFromBody(row.body, services.leadingPatterns);
    message := SmsMessage(row.address, row.body, amount, numericAmount, Some(dateTime),
                          detectedAccount, sourceAccount, contactName, phoneNumber, provider);
  }

  /** One step of the cursor: the row at `i` contributes its message when it is kept. */
  lemma ReadRowsFrom(rows: seq<SmsRow>, i: nat, services: ExtractTransactionData.Services, dateFromBody: string -> Option<Date>)
    requires i < |rows|
    ensures ReadRows(rows[i..], services, dateFromBody)
         == (if Kept(rows[i]) then [MessageOf(rows[i], services, dateFromBody)] else [])
            + ReadRows(rows[i + 1..], services, dateFromBody)
  {
    assert rows[i..][0] == rows[i];
    assert rows[i..][1..] == rows[i + 1..];
  }

  // ------------------------------------------------------------ properties

  /** A row is kept exactly when it starts with the prefix and has an amount or a keyword. */
  lemma KeptIff(row: SmsRow)
    ensures Kept(row) <==> StartsWithIgnoreCase(row.body, BankPrefix)
                           && (TextExtractors.ExtractAmountFromBody(row.body).Some? || ContainsFinancialKeywords(row.body))
  {
    TextExtractors.ExtractedAmountParses(row.body);
  }

  /** The messages made from the given rows, one each, in order. */
  function MessagesOf(kept: seq<SmsRow>, services: ExtractTransactionData.Services, dateFromBody: string -> Option<Date>)
    : (r: seq<SmsMessage>)
    ensures |r| == |kept|
    ensures forall k :: 0 <= k < |kept| ==> r[k] == MessageOf(kept[k], services, dateFromBody)
  {
    if kept == [] then []
    else [MessageOf(kept[0], services, dateFromBody)] + MessagesOf(kept[1..], services, dateFromBody)
  }

  /** The read messages are the kept rows, one message each, in order. */
  lemma {:induction false} ReadRowsAreKept(rows: seq<SmsRow>, services: ExtractTransactionData.Services, dateFromBody: string -> Option<Date>)
    ensures ReadRows(rows, services, dateFromBody) == MessagesOf(Filter(rows, Kept), services, dateFromBody)
  {
    if rows != [] {
      ReadRowsAreKept(rows[1..], services, dateFromBody);
      var rest := Filter(rows[1..], Kept);
      if Kept(rows[0]) {
        assert Filter(rows, Kept) == [rows[0]] + rest;
        assert ([rows[0]] + rest)[1..] == rest;
      } else {
        assert Filter(rows, Kept) == rest;
      }
    }
  }

  /**
   * What every read message satisfies: the bank's prefix, a date, an
   * amount text exactly when a numeric amount, and an amount or a keyword.
   */
  lemma {:induction false} ReadMessagesShape(rows: seq<SmsRow>, services: ExtractTransactionData.Services, dateFromBody: string -> Option<Date>)
    ensures forall m :: m in ReadRows(rows, services, dateFromBody) ==>
              StartsWithIgnoreCase(m.body, BankPrefix)
              && m.dateTime.Some?
              && (m.numericAmount.Some? <==> m.amount.Some?)
              && (m.numericAmount.Some? || ContainsFinancialKeywords(m.body))
  {
    if rows != [] {
      ReadMessagesShape(rows[1..], services, dateFromBody);
      if Kept(rows[0]) {
        TextExtractors.ExtractedAmountParses(rows[0].body);
        var m := MessageOf(rows[0], services, dateFromBody);
        assert ReadRows(rows, services, dateFromBody) == [m] + ReadRows(rows[1..], services, dateFromBody);
      }
    }
  }

  /** The date found in the body wins over the inbox timestamp. */
  lemma DatePrecedence(row: SmsRow, services: ExtractTransactionData.Services, dateFromBody: string -> Option<Date>)
    ensures dateFromBody(row.body).Some? ==> MessageOf(row, services, dateFromBody).dateTime == dateFromBody(row.body)
    ensures dateFromBody(row.body).None? ==> MessageOf(row, services, dateFromBody).dateTime == Some(row.timestamp)
  {
  }

  /** A read message can be converted into a transaction exactly when it has an amount. */
  lemma CompleteIffAmount(row: SmsRow, services: ExtractTransactionData.Services, dateFromBody: string -> Option<Date>)
    ensures var m := MessageOf(row, services, dateFromBody);
            ExtractTransactionData.Complete(m) <==> TextExtractors.ExtractAmountFromBody(row.body).Some?
  {
    TextExtractors.ExtractedAmountParses(row.body);
  }

  /** Without the bank's prefix no row is read, whatever its content. */
  lemma PrefixRequired(rows: seq<SmsRow>, services: ExtractTransactionData.Services, dateFromBody: string -> Option<Date>)
    requires forall k :: 0 <= k < |rows| ==> !StartsWithIgnoreCase(rows[k].body, BankPrefix)
    ensures ReadRows(rows, services, dateFromBody) == []
  {
    if rows != [] {
      PrefixRequired(rows[1..], services, dateFromBody);
    }
  }
}

/**
 * `ExtractTransactionDataUseCase`: the conversion of read SMS messages into
 * transactions. The services the conversion consults — the account
 * detector, the contact book, the digest behind the stable id and the two
 * leading provider patterns — are the fields of `Services`.
 */
module ExtractTransactionData {
  import opened Common
  import TextExtractors

  datatype Services = Services(
    /** `detectAccountInfo`: the account shown to the user and the source account. */
    detectAccountInfo: string -> (Option<string>, Option<string>),
    /** `lookupContactName`: the contact saved under a phone number. */
    lookupContactName: string -> Option<string>,
    /** `generateStableId` of "time-address-body". */
    stableId: (Date, string, string) -> string,
    /** The first two patterns of `extractProviderFromBody`. */
    leadingPatterns: string -> Option<string>)

  /** `0{4,}(3\d{9})` matches at `i`: four zeros or more, then '3' and nine digits. */
  predicate DirectPhoneAt(s: string, i: nat) {
    i <= |s|
    && var e := RunEnd(s, i, TextExtractors.IsZero);
       e - i >= 4 && e + 10 <= |s| && s[e] == '3' && AllDigits(s[e + 1..e + 10])
  }

  function FirstDirectPhone(s: string, i: nat): (r: Option<nat>)
    decreases |s| - i
    ensures r.Some? ==> i <= r.value && DirectPhoneAt(s, r.value)
                        && forall k :: i <= k < r.value ==> !DirectPhoneAt(s, k)
    ensures r.None? ==> forall k :: i <= k < |s| ==> !DirectPhoneAt(s, k)
  {
    if i >= |s| then None
    else if DirectPhoneAt(s, i) then Some(i)
    else FirstDirectPhone(s, i + 1)
  }

  /** Group 1 of the leftmost direct match: the ten-digit mobile number after the zeros. */
  function DirectPhoneNumber(body: string): (r: Option<string>)
    ensures r.None? <==> forall k :: 0 <= k < |body| ==> !DirectPhoneAt(body, k)
    ensures r.Some? ==> |r.value| == 10 && r.value[0] == '3'
  {
    match FirstDirectPhone(body, 0)
    case None => None
    case Some(i) =>
      var e := RunEnd(body, i, TextExtractors.IsZero);
      Some(body[e..e + 10])
  }

  /** The message carries both a date and an amount. */
  predicate Complete(m: SmsMessage) {
    m.dateTime.Some? && m.numericAmount.Some?
  }

  /** The contact reached through the phone number inside the source account. */
  function AccountContact(body: string, services: Services): Option<string> {
    var sourceAccount := services.detectAccountInfo(body).1;
    if sourceAccount.None? then None
    else
      match TextExtractors.ExtractPhoneNumberFromAccount(sourceAccount.value)
      case None => None
      case Some(phone) => services.lookupContactName(phone)
  }

  /** The contact reached through the direct phone pattern of the body. */
  function DirectContact(body: string, services: Services): Option<string> {
    match DirectPhoneNumber(body)
    case None => None
    case Some(number) => services.lookupContactName(number)
  }

  /** Kotlin's `a ?: b`. */
  function FirstPresent(a: Option<string>, b: Option<string>): (r: Option<string>)
    ensures r.None? <==> a.None? && b.None?
    ensures a.Some? ==> r == a
  {
    if a.Some? then a else b
  }

  /** The transaction built from a complete message. */
  function Build(m: SmsMessage, services: Services): (t: Transaction)
    requires Complete(m)
    ensures t.date == m.dateTime.value && t.amount == m.numericAmount.value
    ensures t.description == Some(m.body) && t.isIncome == TextExtractors.IsIncome(m.body)
    ensures t.accountInfo == services.detectAccountInfo(m.body).0
    ensures t.id == Some(services.stableId(m.dateTime.value, m.address, m.body))
    ensures t.userId.None? && t.categoryId.None?
  {
    var body := m.body;
    var account := AccountContact(body, services);
    var direct := DirectContact(body, services);
    var provider := FirstPresent(FirstPresent(TextExtractors.ProviderFromBody(body, services.leadingPatterns), account), direct);
    var contactName := FirstPresent(direct, account);
    Transaction(Some(services.stableId(m.dateTime.value, m.address, body)), None, m.dateTime.value,
                m.numericAmount.value, TextExtractors.IsIncome(body), Some(body), provider, contactName,
                services.detectAccountInfo(body).0, None)
  }

  /** `execute` as a value: `mapNotNull` over the messages. */
  function Converted(messages: seq<SmsMessage>, services: Services): (r: seq<Transaction>)
    ensures |r| <= |messages|
    ensures forall t :: t in r ==> t.id.Some? && t.userId.None? && t.categoryId.None?
  {
    if messages == [] then []
    else if Complete(messages[0]) then [Build(messages[0], services)] + Converted(messages[1..], services)
    else Converted(messages[1..], services)
  }

  /** The body of the `mapNotNull` lambda, with `provider` and `contactName` reassigned as the checks go. */
  method ConvertMessage(message: SmsMessage, services: Services) returns (r: Option<Transaction>)
    ensures Complete(message) ==> r == Some(Build(message, services))
    ensures !Complete(message) ==> r.None?
  {
    if message.dateTime.None? || message.numericAmount.None? {
      return None;
    }
    var body := message.body;
    var provider := TextExtractors.ExtractProviderFromBody(body, services.leadingPatterns);
    var (accountInfo, sourceAccount) := services.detectAccountInfo(body);
    var phoneNumberFromAccount := if sourceAccount.Some? then TextExtractors.ExtractPhoneNumberFromAccount(sourceAccount.value) else None;
    var contactName := if phoneNumberFromAccount.Some? then services.lookupContactName(phoneNumberFromAccount.value) else None;
    if provider.None? && contactName.Some? {
      provider := contactName;
    }
    var directPhoneNumber := DirectPhoneNumber(body);
    if directPhoneNumber.Some? {
      var directContact := services.lookupContactName(directPhoneNumber.value);
      if directContact.Some? {
        contactName := directContact;
        if provider.None? {
          provider := directContact;
        }
      }
    }
    var stableId := services.stableId(message.dateTime.value, message.address, body);
    r := Some(Transaction(Some(stableId), None, message.dateTime.value, message.numericAmount.value,
                          TextExtractors.IsIncome(body), Some(body), provider, contactName, accountInfo, None));
  }

  /** `execute`: one transaction per complete message. */
  method Execute(messages: seq<SmsMessage>, services: Services) returns (r: seq<Transaction>)
    ensures r == Converted(messages, services)
  {
    r := [];
    var i := 0;
    while i < |messages|
      invariant 0 <= i <= |messages|
      invariant r + Converted(messages[i..], services) == Converted(messages, services)
    {
      var t := ConvertMessage(messages[i], services);
      assert messages[i..][1..] == messages[i + 1..];
      if t.Some? {
        r := r + [t.value];
      }
      i := i + 1;
    }
  }

  // ------------------------------------------------------------ properties

  /** The records built from the given messages, one each, in order. */
  function BuiltAll(complete: seq<SmsMessage>, services: Services): (r: seq<Transaction>)
    requires forall m :: m in complete ==> Complete(m)
    ensures |r| == |complete|
  {
    if complete == [] then []
    else
      assert forall m :: m in complete[1..] ==> m in complete;
      [Build(complete[0], services)] + BuiltAll(complete[1..], services)
  }

  /** The record at each position is the one built from the message there. */
  lemma {:induction false} BuiltAllAt(complete: seq<SmsMessage>, services: Services, k: nat)
    requires forall m :: m in complete ==> Complete(m)
    requires k < |complete|
    ensures BuiltAll(complete, services)[k] == Build(complete[k], services)
  {
    if k > 0 {
      assert forall m :: m in complete[1..] ==> m in complete;
      BuiltAllAt(complete[1..], services, k - 1);
      assert complete[1..][k - 1] == complete[k];
    }
  }

  /** Exactly the complete messages are converted, in their order. */
  lemma {:induction false} ConvertedAreComplete(messages: seq<SmsMessage>, services: Services)
    ensures Converted(messages, services) == BuiltAll(Filter(messages, Complete), services)
  {
    if messages != [] {
      ConvertedAreComplete(messages[1..], services);
      var rest := Filter(messages[1..], Complete);
      if Complete(messages[0]) {
        assert Filter(messages, Complete) == [messages[0]] + rest;
        assert ([messages[0]] + rest)[1..] == rest;
      } else {
        assert Filter(messages, Complete) == rest;
      }
    }
  }

  /**
   * The provider: the one read from the body, else the contact behind the
   * source account's phone number, else the contact behind the direct pattern.
   */
  lemma ProviderPrecedence(m: SmsMessage, services: Services)
    requires Complete(m)
    ensures var fromBody := TextExtractors.ProviderFromBody(m.body, services.leadingPatterns);
            var account := AccountContact(m.body, services);
            var direct := DirectContact(m.body, services);
            var provider := Build(m, services).provider;
            (fromBody.Some? ==> provider == fromBody)
            && (fromBody.None? && account.Some? ==> provider == account)
            && (fromBody.None? && account.None? ==> provider == direct)
  {
  }

  /** A contact found through the direct pattern replaces the one found through the account. */
  lemma DirectContactWins(m: SmsMessage, services: Services)
    requires Complete(m)
    ensures DirectContact(m.body, services).Some? ==> Build(m, services).contactName == DirectContact(m.body, services)
    ensures DirectContact(m.body, services).None? ==> Build(m, services).contactName == AccountContact(m.body, services)
  {
  }

  /** A message read twice becomes the same transaction, id included. */
  lemma StableConversion(m1: SmsMessage, m2: SmsMessage, services: Services)
    requires Complete(m1) && m1.dateTime == m2.dateTime && m1.address == m2.address && m1.body == m2.body
    requires m1.numericAmount == m2.numericAmount
    ensures Complete(m2) && Build(m1, services) == Build(m2, services)
  {
  }
}

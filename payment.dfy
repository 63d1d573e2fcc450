/** `initiate_payment` of api/views.py: a chain of guards over the decoded
    request (amount, presence of eight fields, email, expiry, payee and payer
    lookups, currency conversion), ending in one new `Initiated` record. */
module Payment {
  import opened Json
  import opened Responses
  import opened Ledger

  /** The foreign validators, as parameters.
      - `emailValid(v)`: `validate_email(v)` returns (false: it raises
        EmailNotValidError);
      - `parseDate(s)`: `datetime.strptime(s, '%Y-%m-%d').date()` (None: it
        raises ValueError). */
  datatype Validators = Validators(
    emailValid: Value -> bool,
    parseDate: string -> Option<Date>)

  /** The four tables the view queries with `objects.get`, each as a map from
      the query's arguments to the one matching record.
      - bankDetails: (accountNumber, sortCode, accountName) to the record's accountNumber;
      - businessAccounts: accountNumber to the BusinessAccount's id;
      - paymentDetails: (cardNumber, securityCode, expiryDate) to the paymentId;
      - personalAccounts: accountNumber to the PersonalAccount's id. */
  datatype Tables = Tables(
    bankDetails: map<(Value, Value, Value), Value>,
    businessAccounts: map<Value, nat>,
    paymentDetails: map<(Value, Value, Date), nat>,
    personalAccounts: map<nat, nat>)

  /** The fields whose absence gives 102. CVV and both currency codes are not among them. */
  const REQUIRED: set<string> := {
    "CardNumber", "Expiry", "CardHolderName", "CardHolderAddress",
    "Email", "PayeeBankAccNum", "PayeeBankSortCode", "RecipientName"
  }

  const AMOUNT_INVALID := "Error. Amount must be a float value larger than 0"
  const CARD_EXPIRED := "Error. Card has expired."
  const EMAIL_INVALID := "Error. Email provided is not in the correct format."
  const DATE_INVALID := "Error. Date is not in YYYY-MM-DD Format"
  const PAYEE_MISSING := "Error. Payee does not exist"
  const PAYER_MISSING := "Error. Payer does not exist"

  /** `all(value is not None for value in [...])` over the given fields. */
  predicate AllPresent(req: map<string, Value>, keys: set<string>)
  {
    forall k :: k in keys ==> Get(req, k) != VNull
  }

  /** The expiry is a string that parses to a date strictly after today. */
  predicate ExpiresAfter(v: Validators, expiry: Value, today: Date)
  {
    expiry.VStr? && v.parseDate(expiry.s).Some? && Before(today, v.parseDate(expiry.s).value)
  }

  /** The email check, then the expiry's format, then whether the card is
      still valid; yields the parsed expiry. A non-string expiry makes
      `strptime` raise TypeError, which no clause catches. */
  function CheckCard(req: map<string, Value>, v: Validators, today: Date): (s: Step<Date>)
    ensures s.Continue? <==> v.emailValid(Get(req, "Email")) && ExpiresAfter(v, Get(req, "Expiry"), today)
    ensures s.Continue? ==> v.parseDate(Get(req, "Expiry").s) == Some(s.value)
    ensures !v.emailValid(Get(req, "Email")) ==> s == Stop(Fail(104, EMAIL_INVALID))
    ensures v.emailValid(Get(req, "Email")) && !Get(req, "Expiry").VStr? ==> s == Stop(Uncaught)
    ensures s.Stop? && s.reply != Uncaught ==>
      s.reply in {Fail(104, EMAIL_INVALID), Fail(104, DATE_INVALID), Fail(104, CARD_EXPIRED)}
  {
    if !v.emailValid(Get(req, "Email")) then Stop(Fail(104, EMAIL_INVALID))
    else match Get(req, "Expiry")
      case VStr(text) =>
        (match v.parseDate(text)
         case None => Stop(Fail(104, DATE_INVALID))
         case Some(expiry) =>
           if !Before(today, expiry) then Stop(Fail(104, CARD_EXPIRED)) else Continue(expiry))
      case _ => Stop(Uncaught)
  }

  /** The ids of the payer's and the payee's accounts. */
  datatype Parties = Parties(payer: nat, payee: nat)

  function PayeeKey(req: map<string, Value>): (Value, Value, Value)
  {
    (Get(req, "PayeeBankAccNum"), Get(req, "PayeeBankSortCode"), Get(req, "RecipientName"))
  }

  function CardKey(req: map<string, Value>, expiry: Date): (Value, Value, Date)
  {
    (Get(req, "CardNumber"), Get(req, "CVV"), expiry)
  }

  /** The four lookups, payee first. The clauses `except A or B` catch only
      `A.DoesNotExist`, so a missing BusinessAccount or PersonalAccount
      escapes as an exception. */
  function FindParties(req: map<string, Value>, t: Tables, expiry: Date): (s: Step<Parties>)
    ensures PayeeKey(req) !in t.bankDetails ==> s == Stop(Fail(104, PAYEE_MISSING))
    ensures PayeeKey(req) in t.bankDetails && t.bankDetails[PayeeKey(req)] !in t.businessAccounts ==>
      s == Stop(Uncaught)
    ensures PayeeKey(req) in t.bankDetails && t.bankDetails[PayeeKey(req)] in t.businessAccounts ==>
      && (CardKey(req, expiry) !in t.paymentDetails ==> s == Stop(Fail(104, PAYER_MISSING)))
      && (CardKey(req, expiry) in t.paymentDetails && t.paymentDetails[CardKey(req, expiry)] !in t.personalAccounts ==>
            s == Stop(Uncaught))
    ensures s.Continue? <==>
      && PayeeKey(req) in t.bankDetails
      && t.bankDetails[PayeeKey(req)] in t.businessAccounts
      && CardKey(req, expiry) in t.paymentDetails
      && t.paymentDetails[CardKey(req, expiry)] in t.personalAccounts
    ensures s.Continue? ==>
      && s.value.payee == t.businessAccounts[t.bankDetails[PayeeKey(req)]]
      && s.value.payer == t.personalAccounts[t.paymentDetails[CardKey(req, expiry)]]
    ensures s.Stop? && s.reply != Uncaught ==> s.reply in {Fail(104, PAYEE_MISSING), Fail(104, PAYER_MISSING)}
  {
    if PayeeKey(req) !in t.bankDetails then Stop(Fail(104, PAYEE_MISSING))
    else if t.bankDetails[PayeeKey(req)] !in t.businessAccounts then Stop(Uncaught)
    else if CardKey(req, expiry) !in t.paymentDetails then Stop(Fail(104, PAYER_MISSING))
    else if t.paymentDetails[CardKey(req, expiry)] !in t.personalAccounts then Stop(Uncaught)
    else Continue(Parties(t.personalAccounts[t.paymentDetails[CardKey(req, expiry)]],
                          t.businessAccounts[t.bankDetails[PayeeKey(req)]]))
  }

  /** The conversion step as written: it hands a plain dictionary to the
      `convert_currency` view, whose pre-check reads `request.body`, so
      whenever the two codes differ an AttributeError escapes. */
  function ConversionStepAsWritten(payerCode: Value, payeeCode: Value): (s: Step<()>)
    ensures s.Continue? <==> PyEq(payerCode, payeeCode)
    ensures s.Stop? ==> s.reply == Uncaught
  {
    if PyEq(payerCode, payeeCode) then Continue(()) else Stop(Uncaught)
  }

  /** The conversion step as intended: the converter is consulted only when
      the codes differ, and any answer but HTTP 200 gives 201. */
  function ConversionStep(payerCode: Value, payeeCode: Value, converterStatus: int): (s: Step<()>)
    ensures s.Continue? <==> PyEq(payerCode, payeeCode) || converterStatus == 200
    ensures s.Stop? ==> s.reply == Err(201, VNull)
  {
    if PyEq(payerCode, payeeCode) || converterStatus == 200 then Continue(()) else Stop(Err(201, VNull))
  }

  /** The codes differ, so the step as written raises where the intended
      step follows the converter. */
  lemma ConversionCallDefect()
    ensures ConversionStepAsWritten(VStr("840"), VStr("826")).Stop?
    ensures ConversionStepAsWritten(VStr("840"), VStr("826")).reply == Uncaught
    ensures ConversionStep(VStr("840"), VStr("826"), 200) == Continue(())
  {
  }

  /** The record `initiate_payment` saves: the submitted amount, the payee's
      currency code, today's date, status Initiated. */
  function NewTransaction(req: map<string, Value>, p: Parties, today: Date): (tx: Transaction)
    requires IsPositiveFloat(Get(req, "Amount"))
    ensures tx.amount > 0.0 && tx.amount == Get(req, "Amount").f
    ensures tx.payer == p.payer && tx.payee == p.payee
    ensures tx.currency == Get(req, "PayeeCurrencyCode") && tx.date == today && tx.status == INITIATED
  {
    Transaction(p.payer, p.payee, Get(req, "Amount").f, Get(req, "PayeeCurrencyCode"), today, INITIATED)
  }

  /** The whole of `initiate_payment` after the pre-check, on the value the
      pre-check handed over. */
  function PaymentDecision(isPost: bool, data: Value, v: Validators, t: Tables, today: Date, converterStatus: int): (d: Decision)
    ensures d.reply.Ok? <==> d.effect.Insert?
    ensures !d.effect.Insert? ==> d.effect == NoChange
    ensures d.effect.Insert? ==>
      && isPost && data.VObject?
      && IsPositiveFloat(Get(data.entries, "Amount"))
      && AllPresent(data.entries, REQUIRED)
      && v.emailValid(Get(data.entries, "Email"))
      && ExpiresAfter(v, Get(data.entries, "Expiry"), today)
      && FindParties(data.entries, t, v.parseDate(Get(data.entries, "Expiry").s).value).Continue?
      && (PyEq(Get(data.entries, "PayerCurrencyCode"), Get(data.entries, "PayeeCurrencyCode")) || converterStatus == 200)
    ensures d.effect.Insert? ==>
      && d.effect.tx.payer == FindParties(data.entries, t, v.parseDate(Get(data.entries, "Expiry").s).value).value.payer
      && d.effect.tx.payee == FindParties(data.entries, t, v.parseDate(Get(data.entries, "Expiry").s).value).value.payee
      && d.effect.tx.status == INITIATED
      && d.effect.tx.amount == Get(data.entries, "Amount").f
      && d.effect.tx.amount > 0.0
      && d.effect.tx.currency == Get(data.entries, "PayeeCurrencyCode")
      && d.effect.tx.date == today
      && d.reply == Success(VStr(""))
    ensures d.reply.Err? ==> d.reply.code in {METHOD_NOT_ALLOWED, 102, 104, 201}
    ensures !isPost ==> d == Reject(Err(METHOD_NOT_ALLOWED, VNull))
    ensures isPost && !data.VObject? ==> d == Reject(Uncaught)
    ensures isPost && data.VObject? ==>
      var req := data.entries;
      && (!IsPositiveFloat(Get(req, "Amount")) ==> d == Reject(Fail(104, AMOUNT_INVALID)))
      && (IsPositiveFloat(Get(req, "Amount")) && !AllPresent(req, REQUIRED) ==> d == Reject(Err(102, VNull)))
      && (IsPositiveFloat(Get(req, "Amount")) && AllPresent(req, REQUIRED) ==>
            var card := CheckCard(req, v, today);
            && (card.Stop? ==> d == Reject(card.reply))
            && (card.Continue? && FindParties(req, t, card.value).Stop? ==>
                  d == Reject(FindParties(req, t, card.value).reply))
            && (card.Continue? && FindParties(req, t, card.value).Continue?
                && ConversionStep(Get(req, "PayerCurrencyCode"), Get(req, "PayeeCurrencyCode"), converterStatus).Stop? ==>
                  d == Reject(Err(201, VNull))))
  {
    if !isPost then Reject(Err(METHOD_NOT_ALLOWED, VNull))
    else if !data.VObject? then Reject(Uncaught)
    else
      var req := data.entries;
      if !IsPositiveFloat(Get(req, "Amount")) then Reject(Fail(104, AMOUNT_INVALID))
      else if !AllPresent(req, REQUIRED) then Reject(Err(102, VNull))
      else match CheckCard(req, v, today)
        case Stop(reply) => Reject(reply)
        case Continue(expiry) =>
          match FindParties(req, t, expiry)
          case Stop(reply) => Reject(reply)
          case Continue(parties) =>
            match ConversionStep(Get(req, "PayerCurrencyCode"), Get(req, "PayeeCurrencyCode"), converterStatus)
            case Stop(reply) => Reject(reply)
            case Continue(_) => Decision(Insert(NewTransaction(req, parties, today)), Success(VStr("")))
  }

  /** The amount is checked before anything else in the body: a bad amount
      gives 104 whatever the other fields hold, even when all eight required
      fields are missing. */
  lemma AmountCheckedFirst(data: Value, v: Validators, t: Tables, today: Date, converterStatus: int)
    requires data.VObject? && !IsPositiveFloat(Get(data.entries, "Amount"))
    ensures PaymentDecision(true, data, v, t, today, converterStatus) == Reject(Fail(104, AMOUNT_INVALID))
  {
  }

  /** 102 is reported exactly when the amount passed and one of the eight
      required fields is None. */
  lemma MissingFieldIff102(data: Value, v: Validators, t: Tables, today: Date, converterStatus: int)
    requires data.VObject?
    ensures PaymentDecision(true, data, v, t, today, converterStatus).reply == Err(102, VNull) <==>
      IsPositiveFloat(Get(data.entries, "Amount")) && !AllPresent(data.entries, REQUIRED)
  {
    var d := PaymentDecision(true, data, v, t, today, converterStatus);
    var req := data.entries;
    if IsPositiveFloat(Get(req, "Amount")) && AllPresent(req, REQUIRED) {
      var card := CheckCard(req, v, today);
      if card.Continue? {
        var parties := FindParties(req, t, card.value);
        if parties.Continue? {
          var conv := ConversionStep(Get(req, "PayerCurrencyCode"), Get(req, "PayeeCurrencyCode"), converterStatus);
          assert conv.Stop? ==> d.reply == Err(201, VNull);
        }
      }
    }
  }

  /** CVV and the two currency codes are not required: erasing them from a
      request whose eight required fields are present never yields 102. */
  lemma OptionalFieldsNotRequired(req: map<string, Value>, v: Validators, t: Tables, today: Date, converterStatus: int)
    requires IsPositiveFloat(Get(req, "Amount")) && AllPresent(req, REQUIRED)
    ensures PaymentDecision(true, VObject(req - {"CVV", "PayerCurrencyCode", "PayeeCurrencyCode"}), v, t, today, converterStatus).reply
      != Err(102, VNull)
  {
    var stripped := req - {"CVV", "PayerCurrencyCode", "PayeeCurrencyCode"};
    assert forall k :: k in REQUIRED ==> Get(stripped, k) == Get(req, k);
    assert Get(stripped, "Amount") == Get(req, "Amount");
    MissingFieldIff102(VObject(stripped), v, t, today, converterStatus);
  }

  /** Once the amount and the eight fields pass, an invalid email gives 104
      whatever the expiry holds: the email is checked first. */
  lemma EmailCheckedBeforeExpiry(req: map<string, Value>, v: Validators, t: Tables, today: Date, converterStatus: int)
    requires IsPositiveFloat(Get(req, "Amount")) && AllPresent(req, REQUIRED)
    requires !v.emailValid(Get(req, "Email"))
    ensures PaymentDecision(true, VObject(req), v, t, today, converterStatus) == Reject(Fail(104, EMAIL_INVALID))
  {
  }

  /** With a valid email, a string expiry that does not parse gives 104 and
      one that parses to today or earlier gives 104 "Card has expired". */
  lemma ExpiryOutcomes(req: map<string, Value>, v: Validators, t: Tables, today: Date, converterStatus: int)
    requires IsPositiveFloat(Get(req, "Amount")) && AllPresent(req, REQUIRED)
    requires v.emailValid(Get(req, "Email")) && Get(req, "Expiry").VStr?
    ensures v.parseDate(Get(req, "Expiry").s).None? ==>
      PaymentDecision(true, VObject(req), v, t, today, converterStatus) == Reject(Fail(104, DATE_INVALID))
    ensures v.parseDate(Get(req, "Expiry").s).Some? && !Before(today, v.parseDate(Get(req, "Expiry").s).value) ==>
      PaymentDecision(true, VObject(req), v, t, today, converterStatus) == Reject(Fail(104, CARD_EXPIRED))
  {
  }

  /** A request that passes every guard, with both parties on record and the
      codes equal or the converter answering 200, is accepted with a record
      built from the submitted amount. */
  lemma PaymentAccepted(req: map<string, Value>, v: Validators, t: Tables, today: Date, converterStatus: int)
    requires IsPositiveFloat(Get(req, "Amount")) && AllPresent(req, REQUIRED)
    requires v.emailValid(Get(req, "Email")) && ExpiresAfter(v, Get(req, "Expiry"), today)
    requires FindParties(req, t, v.parseDate(Get(req, "Expiry").s).value).Continue?
    requires PyEq(Get(req, "PayerCurrencyCode"), Get(req, "PayeeCurrencyCode")) || converterStatus == 200
    ensures PaymentDecision(true, VObject(req), v, t, today, converterStatus) ==
      Decision(Insert(NewTransaction(req, FindParties(req, t, v.parseDate(Get(req, "Expiry").s).value).value, today)),
               Success(VStr("")))
  {
  }
}

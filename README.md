# Payment API request handling, in Dafny

This project models the request-handling core of a small Django payment
service: the pre-check every view runs on a request body
(`check_valid_request`), the three transaction views `initiate_payment`,
`initiate_refund` and `initiate_cancellation`, the field renaming in
`request_transaction_pns`, the `convert_currency` view, and the `codes`
table. Each view is a chain of guards. Each guard either answers with a
numbered error code or moves on, and a successful view changes the
transaction table.

Layout, one module per file:

- `json.dfy` (`Json`): decoded JSON values and the Python operations the
  views use on them. These are `d.get(k, None)` (a missing key and a JSON
  null read alike), `isinstance(v, int)` (which holds for `bool`),
  `isinstance(v, float)`, and `==` across `bool`/`int`/`float`.
- `responses.dfy` (`Responses`): a view's `Reply`. It is `Ok` with the
  response dictionary, `Err(code, comment)`, or `Uncaught` when an
  exception escapes the view. The module also holds the `codes` table.
- `functions.dfy` (`Functions`): `check_valid_request`. `PreCheck` is the
  pure decision. `ResponseData.CheckValidRequest` updates the caller's
  response dictionary in place.
- `ledger.dfy` (`Ledger`): the `Transaction` record and the table's state.
  Its ids come from an auto-increment counter. `Apply` carries out the three
  kinds of change: none, insert one record, set one record's status.
- `payment.dfy`, `refund.dfy`, `cancellation.dfy`, `pns.dfy`,
  `conversion.dfy`: each view as a function from the request to a
  `Decision` (effect plus reply), with lemmas on the order of its guards.
- `store.dfy` (`Store`): the `TransactionStore` class. Its methods carry
  out the decisions by updating its `transactions` map. The module also has
  lemmas over any sequence of requests.

The views receive whatever `check_valid_request` returned. On an empty or
undecodable body that is the response dictionary itself, because the
views' `isinstance(request_data, JsonResponse)` test never holds.

What the code does on points a reader might expect otherwise:

- payments are saved with status `Initiated`;
- the record is saved without contacting the payment network;
- refunds and cancellations have no guard on the current status, so a
  refunded transaction can be refunded again or cancelled;
- a refund creates no separate ledger record and checks no cap on the amount;
- no card, CVV or sort-code format is checked;
- a transaction id that is not on record gives 104.

Two defects in the code are recorded under "## Findings". The refund and
payment views are modelled with the corrected guard and conversion step,
and each affected row below says so.

## Model

| member | source | states |
|---|---|---|
| `Json.Get` | api/views.py:33-56 | `d.get(k, None)` reads None exactly when the key is missing or holds JSON null; any other result is the stored value. |
| `Json.MissingReadsAsNull` | api/views.py:33-56 | Through `get`, a missing key and a key holding JSON null cannot be told apart. |
| `Functions.PreCheck` | api/functions.py:4-24 | An empty body, and only an empty body, gives 100 "Error. Body of the request is empty". A non-empty body that is not JSON gives 101 "Error. Request is not in JSON format". A non-empty JSON body yields the decoded document. A body that is no UTF text lets the exception escape. |
| `Functions.EmptyBodyIgnoresDecoder` | api/functions.py:5-14 | The emptiness test comes before decoding: on an empty body the verdict is 100 whatever the decoder would say, so it is never 101. |
| `Functions.WithError` | api/functions.py:7-10 | Marking the response with an error sets ErrorCode and Comment and leaves every other entry as it was. |
| `Functions.ResponseData.CheckValidRequest` | api/functions.py:4-24 | On 100 or 101 the caller's own response object is returned, with only ErrorCode and Comment updated. On success the decoded document is returned and the response object is unchanged. |
| `Functions.ResponseData.constructor` | api/views.py:12-15 | A view's response dictionary starts as ErrorCode None, Comment "". |
| `Functions.HandedToView` | api/views.py:24-27 | On an empty body the view receives the response dictionary marked with 100, and on a non-JSON body the dictionary marked with 101. A body that is no UTF text hands over nothing, because the exception escapes. A body that decodes hands the view the decoded document. |
| `Payment.CheckCard` | api/views.py:63-79 | Passes exactly when the email validates and the expiry is a string that parses to a date strictly after today. An invalid email gives 104 whatever the expiry. A valid email with a non-string expiry lets the TypeError from `strptime` escape. Every handled failure is one of the three 104 comments. |
| `Payment.FindParties` | api/views.py:81-98 | The payee's bank record is looked up first, and its absence gives 104 "Payee does not exist". Success requires all four records. Payer and payee are the accounts found. Then a missing business account escapes as an exception, a missing card record gives 104 "Payer does not exist", and a missing personal account escapes. |
| `Payment.ConversionStepAsWritten` | api/views.py:101-108 | The step as written passes exactly when the two codes compare equal; otherwise the call to the view raises. |
| `Payment.ConversionStep` | api/views.py:101-114 | The corrected conversion step: it passes exactly when the two codes are equal or the converter answers 200, and otherwise gives 201. |
| `Payment.ConversionCallDefect` | api/views.py:101-114 | For codes "840" and "826", the step as written raises where the corrected step follows the converter. |
| `Payment.NewTransaction` | api/views.py:116-117 | The saved record holds the submitted amount, which is positive, the payer and payee found, the payee's currency code, today's date and status Initiated. |
| `Payment.PaymentDecision` | api/views.py:31-138 | With the corrected conversion step (see Findings), a record is inserted exactly when the reply is Ok, and only if every guard passed, the four lookups included. Its payer and payee are the accounts the lookups found. It has status Initiated, the submitted positive amount, the payee's currency code and today's date. The reply is ErrorCode None with Comment "". Every other outcome changes nothing. A non-POST gives 105, a POSTed non-dictionary raises, then a bad amount 104, a missing required field 102, a failed card check or lookup that step's own reply, and a failed conversion 201. |
| `Payment.AmountCheckedFirst` | api/views.py:46-60 | A POSTed dictionary whose Amount is not a float, or is <= 0, gives 104, whatever else it holds and even with all eight required fields missing. |
| `Payment.MissingFieldIff102` | api/views.py:46-135 | 102 is answered exactly when the amount passed and one of the eight required fields is None. |
| `Payment.OptionalFieldsNotRequired` | api/views.py:33-60 | CVV, PayerCurrencyCode and PayeeCurrencyCode are not required: removing them never yields 102. |
| `Payment.EmailCheckedBeforeExpiry` | api/views.py:63-76 | Once amount and presence pass, an invalid email gives 104 (email comment) and changes nothing, whatever the expiry. |
| `Payment.ExpiryOutcomes` | api/views.py:69-79 | An expiry string that does not parse gives 104 "Date is not in YYYY-MM-DD Format". One that parses to today or earlier gives 104 "Card has expired.". |
| `Payment.PaymentAccepted` | api/views.py:116-133 | With the corrected conversion step (see Findings), a request that passes every guard, with both parties on record and equal codes or converter status 200, inserts the record built from the submitted amount. |
| `Refund.RefundGuardAsWritten` | api/views.py:160-169 | The guards as written: no request gets through. A non-POST gives 105, and every POST raises, from `any` called with three arguments. |
| `Refund.RefundAsWrittenNeverProceeds` | api/views.py:160-169 | Every request the corrected guards would let through raises in the guards as written. |
| `Refund.RefundGuard` | api/views.py:160-176 | The corrected guards pass exactly for a POSTed dictionary with all three fields, an id that is a non-negative int (bool included) and an amount that is a positive float, and yield that id. A non-POST gives 105, then a missing field 102, then a bad id 103, then a bad amount 104. |
| `Refund.RefundPresenceDefect` | api/views.py:168-185 | For a complete, valid refund request the guards as written raise, while the corrected guards yield id 1. |
| `Refund.RefundDecision` | api/views.py:141-216 | With the corrected presence test (see Findings), the status becomes Refunded exactly when the guards pass, the id is on record and the network's StatusCode equals 200. Then the reply echoes the network's Comment. A failed guard is answered with the guard's reply. Every other outcome changes nothing. Error codes are 105, 102, 103, 104 or 301. |
| `Refund.RefundErrorOrder` | api/views.py:160-211 | With the corrected presence test (see Findings), a POSTed dictionary with a missing field gives 102, then a bad id 103, then a bad amount 104, then an id not on record 104 "Transaction does not exist". |
| `Refund.IdCheckedBeforeAmount` | api/views.py:171-176 | With the corrected presence test (see Findings), a bad id gives 103 even when the amount is bad too. |
| `Refund.RefundOfUnknownId` | api/views.py:186-211 | With the corrected presence test (see Findings), a valid request for an id not on record gives 104 "Transaction does not exist" and changes nothing, whatever the network answers. |
| `Refund.RefundRefusedByNetwork` | api/views.py:193-207 | With the corrected presence test (see Findings), a network status other than 200 gives 301 with the network's comment and changes nothing. |
| `Cancellation.CancellationGuard` | api/views.py:234-243 | Passes exactly for a POSTed dictionary whose TransactionUUID is a non-negative int, and yields it. A non-POST gives 105, a POSTed non-dictionary raises, a missing id gives 102 and a bad id 103. |
| `Cancellation.CancellationDecision` | api/views.py:219-262 | The status becomes Cancelled exactly when the guard passes and the id is on record. The reply is Comment "Cancellation Successful". There is no condition on the prior status. A failed guard is answered with the guard's reply, and every other outcome changes nothing. |
| `Cancellation.CancellationErrorOrder` | api/views.py:236-259 | A missing id gives 102, then a non-int or negative id gives 103, then an id not on record gives 104. |
| `Cancellation.TrueIsTransactionOne` | api/views.py:241-248 | A JSON `true` id passes the int test and cancels transaction 1. |
| `Pns.RenameKey` | api/views.py:301 | `d[to] = d.pop(from)` succeeds exactly when `from` is present. The keys become the old keys minus `from`, plus `to`. |
| `Pns.RenameKeyMoves` | api/views.py:301 | One rename stores the popped value unchanged under the new key and leaves every other key alone. |
| `Pns.RenameForPns` | api/views.py:301-305 | The five renames succeed exactly when all five source keys are present; a missing one raises KeyError. |
| `Pns.RenameForPnsMoves` | api/views.py:301-305 | After the renames the five old keys are gone. HolderName, BillingAddress, CurrencyCode, AccountNumber and Sort-Code hold the old values, and every other key keeps its value. |
| `Pns.RenameRoundTrip` | api/views.py:301-305 | Renaming back restores the original request exactly, when it held no target key: the renaming loses nothing. |
| `Pns.PnsRequest` | api/views.py:265-341 | Ok, echoing the network's comment, exactly when the request is a POSTed dictionary with the five source keys and the network answers 200. A non-POST gives 105. A POSTed non-dictionary or a missing key raises. Any network status other than 200 gives 301. |
| `Conversion.MissingFieldBeforeUpstream` | api/views.py:399-432 | A missing field gives 102 whatever the converter answered. |
| `Conversion.ConvertCurrency` | api/views.py:372-436 | A non-POST gives 105 and a POSTed non-dictionary raises. A missing CurrencyFrom, CurrencyTo, Amount or Date gives 102. Otherwise upstream status 200 gives Ok with the upstream Comment and Amount, and any other status gives 201. |
| `Ledger.Apply` | api/views.py:116-251 | An insert (the save at 116-119) adds exactly one record, under a fresh id. A status change (the saves at 201-202 and 249-251) alters only that record's status. Nothing is ever removed, and the id counter never goes back. |
| `Ledger.ApplyAllKeepsHistory` | api/views.py:116-251 | Over any sequence of saves and status changes, no record is removed or changed in anything but its status. The table and the id counter each grow by exactly one per new record. |
| `Store.TransactionStore.constructor` | api/views.py:116-119 | The store starts from any table whose ids all lie below the next id to be handed out. |
| `Store.TransactionStore.InitiatePayment` | api/views.py:10-138 | With the corrected conversion step (see Findings), carries out the payment decision on the table in place. On Ok, exactly one new Initiated record is added under a fresh id. On any error the table is unchanged. |
| `Store.TransactionStore.InitiateRefund` | api/views.py:186-211 | With the corrected presence test (see Findings), carries out the refund decision in place: at most one record's status changes, and no record is added. |
| `Store.TransactionStore.InitiateCancellation` | api/views.py:245-259 | Carries out the cancellation decision in place: at most one record's status changes, and no record is added. |
| `Store.ReplayKeepsHealthy` | api/views.py:46-119 | With the corrected refund guard and conversion step, over any sequence of payment, refund and cancellation requests, every stored amount stays positive and every id stays below the counter. |
| `Store.ReplayIsTrace` | api/views.py:116-255 | With the corrected refund guard and conversion step, serving requests one after the other is the same as carrying out, in order, the effects each request has on the table the earlier ones left. |
| `Store.OnlyPaymentsInsert` | api/views.py:116-255 | With the corrected refund guard and conversion step, only payment requests save new records. Refund and cancellation requests never do. |
| `Store.ReplayKeepsHistory` | api/views.py:116-251 | With the corrected refund guard and conversion step, over any sequence of requests, no record disappears or changes in anything but its status, and ids are never reused. The table grows by exactly one record per save. |
| `Store.RefundTwiceThenCancel` | api/views.py:188-255 | With the corrected presence test (see Findings), a refunded transaction can be refunded again, with an Ok reply, and then cancelled. It ends Cancelled with every other field as before. |
| `Store.EmptyBodyReachesCancellation` | api/views.py:226-239 | An empty body sent to the cancellation view gets 102, not 100, because the pre-check's error dictionary flows into the view. |
| `Responses.CodesKeys` | api/views.py:439-447 | The `codes` table has entries for 100, 101, 102, 103, 104, 201 and 301, and none for the 105 every view returns. |
| `Store.ErrorCodesKnown` | api/views.py:439-447 | With the corrected refund guard and conversion step, every error code the three transaction views report is a key of `codes`, except 105, which the table lacks. |

## Left out

- Payment.PaymentDecision, Payment.PaymentAccepted, Store.TransactionStore.InitiatePayment, Refund.RefundDecision, Refund.RefundErrorOrder, Refund.IdCheckedBeforeAmount, Refund.RefundOfUnknownId, Refund.RefundRefusedByNetwork, Store.TransactionStore.InitiateRefund, Store.RefundTwiceThenCancel, Store.ErrorCodesKnown, Store.ReplayKeepsHealthy, Store.ReplayIsTrace, Store.OnlyPaymentsInsert and Store.ReplayKeepsHistory follow the corrected `Payment.ConversionStep` and `Refund.RefundGuard` from "## Findings". As written, `initiate_payment` never answers 201: it raises whenever the two currency codes differ. And `initiate_refund` never refunds anything, because line 168 raises. What they state about 201 answers and about refunds holds only for the corrected code.
- Django plumbing is not modelled: `JsonResponse`, the request object and the ORM. `objects.get` becomes a lookup in a map from the query's arguments to one record, so `MultipleObjectsReturned` cannot arise. `save()` becomes an update of the store.
- api/models.py is not part of this model. Records hold the values the view passes, and the ORM's field-type coercions are not modelled.
- Foreign routines are parameters: `json.loads`, `validate_email`, `datetime.strptime` and `date.today`. The email validator is applied to any value, and a TypeError it might raise on a non-string is not distinguished.
- `error_response` is not defined in api/functions.py. It is modelled as an error reply with the code and the optional comment. In `initiate_refund`, the calls without `return` (207, 211, 214) are treated like the returned ones, since all fall through to a 400 reply.
- The payment-network and converter HTTP calls are stubbed in the code with fixed dictionaries. Their replies are parameters.
- `request_refund_pns` is not modelled. It calls `post` on the request object and no view calls it.
- In `request_transaction_pns`, lines 307-315 read fields into unused locals and have no effect. They are left out.
- The converter request's contents (102-107) are not modelled. Neither is the write of the original amount into the converter's reply (111). The saved amount is the submitted one either way.
- The 102/103/104 templates in `codes` are never formatted, so only the numbers are modelled.
- The `print` calls in `initiate_payment` are left out: they only write to the console.
- Payment.NewTransaction, Store.ReplayKeepsHealthy: "the stored amount is positive" holds only because floats are modelled as reals, which have no NaN. Python's JSON decoder also accepts NaN and Infinity, and a NaN amount passes `amount <= 0` at api/views.py:46 and is saved; such a record is not modelled.
- Equality of JSON arrays and objects is structural. Python would also equate numbers nested inside them across int and float.
- The `except A or B` clauses (94, 97) are modelled as written. A missing BusinessAccount or PersonalAccount escapes as an exception (`Uncaught`). `Payment.FindParties` states each of the four lookup outcomes.
- api/admin.py is not modelled: it only registers the models with Django's admin.
- Concurrency and serialisation of requests are not modelled; the code has none.

## Findings

| source | as written | input that shows it | evidently intended | confidence | as-written member | corrected member |
|---|---|---|---|---|---|---|
| api/views.py:168 | `any(transaction_id, amount, currency_code) is None` passes three arguments to `any`, which raises TypeError, so every POSTed refund ends in a server error and none reaches the table (`Refund.RefundAsWrittenNeverProceeds`). | `{"TransactionUUID": 1, "Amount": 5.0, "CurrencyCode": "826"}` (`Refund.RefundPresenceDefect`) | 102 "No transaction ID was provided" when any of the three is None, as the commented-out block at lines 178-185 spells out. | high, not executed | `Refund.RefundGuardAsWritten` | `Refund.RefundGuard` |
| api/views.py:108 | `convert_currency(currency_converter_request)` hands a plain dictionary to a view whose pre-check reads `request.body`. This raises AttributeError whenever the payer's and payee's codes differ. | PayerCurrencyCode "840", PayeeCurrencyCode "826" (`Payment.ConversionCallDefect`) | Consult the converter: continue on 200, answer 201 otherwise. | high, not executed | `Payment.ConversionStepAsWritten` | `Payment.ConversionStep` |

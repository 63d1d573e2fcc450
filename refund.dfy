/** `initiate_refund` of api/views.py: validate the id and the amount, load
    the transaction, and mark it Refunded when the payment network answers 200. */
module Refund {
  import opened Json
  import opened Responses
  import opened Ledger

  const NO_ID := "Error. No transaction ID was provided"
  const ID_INVALID := "Error. Transaction ID needs to be a positive integer"
  const AMOUNT_INVALID := "Error. Amount must be a float value larger than 0"
  const NOT_FOUND := "Error. Transaction does not exist"

  /** The guards as written. The presence test calls `any` with three
      arguments, which raises TypeError before anything else is looked at, so
      every POST whose body is a dictionary ends in an exception. */
  function RefundGuardAsWritten(isPost: bool, data: Value): (g: Step<nat>)
    ensures g.Stop?
    ensures g.reply == Uncaught <==> isPost
    ensures !isPost ==> g == Stop(Err(METHOD_NOT_ALLOWED, VNull))
  {
    if !isPost then Stop(Err(METHOD_NOT_ALLOWED, VNull))
    else Stop(Uncaught)
  }

  /** Every request the intended guards let through raises in the guards as
      written, so no refund ever reaches the table. */
  lemma RefundAsWrittenNeverProceeds(isPost: bool, data: Value)
    ensures RefundGuard(isPost, data).Continue? ==> RefundGuardAsWritten(isPost, data) == Stop(Uncaught)
  {
  }

  /** The guards as intended (the presence test the commented-out block of
      the same view spells out): any of the three fields None gives 102, then
      the id must be a non-negative int (103), then the amount a positive
      float (104). Yields the transaction id. */
  function RefundGuard(isPost: bool, data: Value): (g: Step<nat>)
    ensures g.Continue? <==>
      && isPost && data.VObject?
      && Get(data.entries, "Amount") != VNull && Get(data.entries, "CurrencyCode") != VNull
      && IsNonNegativePyInt(Get(data.entries, "TransactionUUID"))
      && IsPositiveFloat(Get(data.entries, "Amount"))
    ensures g.Continue? ==> g.value == PyIntValue(Get(data.entries, "TransactionUUID"))
    ensures g.Stop? && g.reply != Uncaught ==>
      g.reply in {Err(METHOD_NOT_ALLOWED, VNull), Fail(102, NO_ID), Fail(103, ID_INVALID), Fail(104, AMOUNT_INVALID)}
    ensures !isPost ==> g == Stop(Err(METHOD_NOT_ALLOWED, VNull))
    ensures isPost && !data.VObject? ==> g == Stop(Uncaught)
    ensures isPost && data.VObject? ==>
      var id, amount, code := Get(data.entries, "TransactionUUID"), Get(data.entries, "Amount"), Get(data.entries, "CurrencyCode");
      && (id == VNull || amount == VNull || code == VNull ==> g == Stop(Fail(102, NO_ID)))
      && (id != VNull && amount != VNull && code != VNull && !IsNonNegativePyInt(id) ==> g == Stop(Fail(103, ID_INVALID)))
      && (id != VNull && amount != VNull && code != VNull && IsNonNegativePyInt(id) && !IsPositiveFloat(amount) ==>
            g == Stop(Fail(104, AMOUNT_INVALID)))
  {
    if !isPost then Stop(Err(METHOD_NOT_ALLOWED, VNull))
    else if !data.VObject? then Stop(Uncaught)
    else
      var id := Get(data.entries, "TransactionUUID");
      var amount := Get(data.entries, "Amount");
      if id == VNull || amount == VNull || Get(data.entries, "CurrencyCode") == VNull then Stop(Fail(102, NO_ID))
      else if !IsNonNegativePyInt(id) then Stop(Fail(103, ID_INVALID))
      else if !IsPositiveFloat(amount) then Stop(Fail(104, AMOUNT_INVALID))
      else Continue(PyIntValue(id))
  }

  /** A request with all three fields, an id of 1 and a good amount: the
      guards as written raise, the intended guards let it through. */
  lemma RefundPresenceDefect()
    ensures RefundGuardAsWritten(true, VObject(map["TransactionUUID" := VInt(1), "Amount" := VFloat(5.0), "CurrencyCode" := VStr("826")])).reply == Uncaught
    ensures RefundGuard(true, VObject(map["TransactionUUID" := VInt(1), "Amount" := VFloat(5.0), "CurrencyCode" := VStr("826")])) == Continue(1)
  {
  }

  /** The whole of `initiate_refund` after the pre-check, with the intended
      presence test, on the table's state `s` and the network's answer `pns`. */
  function RefundDecision(isPost: bool, data: Value, s: State, pns: map<string, Value>): (d: Decision)
    ensures d.reply.Ok? <==> d.effect.SetStatus?
    ensures !d.effect.SetStatus? ==> d.effect == NoChange
    ensures d.effect.SetStatus? <==>
      && RefundGuard(isPost, data).Continue?
      && RefundGuard(isPost, data).value in s.transactions
      && PyEq(Get(pns, "StatusCode"), VInt(200))
    ensures d.effect.SetStatus? ==>
      && d.effect == SetStatus(RefundGuard(isPost, data).value, REFUNDED)
      && d.reply == Success(Get(pns, "Comment"))
    ensures d.reply.Err? ==> d.reply.code in {METHOD_NOT_ALLOWED, 102, 103, 104, 301}
    ensures RefundGuard(isPost, data).Stop? ==> d == Reject(RefundGuard(isPost, data).reply)
  {
    match RefundGuard(isPost, data)
    case Stop(reply) => Reject(reply)
    case Continue(id) =>
      if id !in s.transactions then Reject(Fail(104, NOT_FOUND))
      else if PyEq(Get(pns, "StatusCode"), VInt(200)) then Decision(SetStatus(id, REFUNDED), Success(Get(pns, "Comment")))
      else Reject(Err(301, Get(pns, "Comment")))
  }

  /** The order of the guards on a POSTed dictionary: a missing field gives
      102, then a bad id 103, then a bad amount 104, then an id not on
      record 104. */
  lemma RefundErrorOrder(req: map<string, Value>, s: State, pns: map<string, Value>)
    ensures Get(req, "TransactionUUID") == VNull || Get(req, "Amount") == VNull || Get(req, "CurrencyCode") == VNull ==>
      RefundDecision(true, VObject(req), s, pns) == Reject(Fail(102, NO_ID))
    ensures Get(req, "TransactionUUID") != VNull && Get(req, "Amount") != VNull && Get(req, "CurrencyCode") != VNull ==>
      && (!IsNonNegativePyInt(Get(req, "TransactionUUID")) ==>
            RefundDecision(true, VObject(req), s, pns) == Reject(Fail(103, ID_INVALID)))
      && (IsNonNegativePyInt(Get(req, "TransactionUUID")) && !IsPositiveFloat(Get(req, "Amount")) ==>
            RefundDecision(true, VObject(req), s, pns) == Reject(Fail(104, AMOUNT_INVALID)))
      && (IsNonNegativePyInt(Get(req, "TransactionUUID")) && IsPositiveFloat(Get(req, "Amount"))
          && PyIntValue(Get(req, "TransactionUUID")) !in s.transactions ==>
            RefundDecision(true, VObject(req), s, pns) == Reject(Fail(104, NOT_FOUND)))
  {
  }

  /** A bad id is reported before a bad amount. */
  lemma IdCheckedBeforeAmount(req: map<string, Value>, s: State, pns: map<string, Value>)
    requires Get(req, "TransactionUUID") != VNull && Get(req, "Amount") != VNull && Get(req, "CurrencyCode") != VNull
    requires !IsNonNegativePyInt(Get(req, "TransactionUUID"))
    ensures RefundDecision(true, VObject(req), s, pns) == Reject(Fail(103, ID_INVALID))
  {
  }

  /** A valid request for an id the table does not hold gives 104 and
      changes nothing, whatever the network would have answered. */
  lemma RefundOfUnknownId(req: map<string, Value>, s: State, pns: map<string, Value>)
    requires RefundGuard(true, VObject(req)).Continue?
    requires RefundGuard(true, VObject(req)).value !in s.transactions
    ensures RefundDecision(true, VObject(req), s, pns) == Reject(Fail(104, NOT_FOUND))
  {
  }

  /** A network answer other than 200 gives 301 with the network's comment,
      and the record keeps its status. */
  lemma RefundRefusedByNetwork(req: map<string, Value>, s: State, pns: map<string, Value>)
    requires RefundGuard(true, VObject(req)).Continue?
    requires RefundGuard(true, VObject(req)).value in s.transactions
    requires !PyEq(Get(pns, "StatusCode"), VInt(200))
    ensures RefundDecision(true, VObject(req), s, pns) == Reject(Err(301, Get(pns, "Comment")))
  {
  }
}

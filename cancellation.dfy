/** `initiate_cancellation` of api/views.py: the id must be present (102), a
    non-negative int (103) and on record (104); the record is then marked
    Cancelled, whatever its status was. */
module Cancellation {
  import opened Json
  import opened Responses
  import opened Ledger

  const NO_ID := "Error. No transaction ID was provided"
  const ID_INVALID := "Error. Transaction ID needs to be a positive integer"
  const NOT_FOUND := "Error. Transaction does not exist"
  const CANCELLED_COMMENT := "Cancellation Successful"

  /** The guards before the lookup; yields the transaction id. */
  function CancellationGuard(isPost: bool, data: Value): (g: Step<nat>)
    ensures g.Continue? <==> isPost && data.VObject? && IsNonNegativePyInt(Get(data.entries, "TransactionUUID"))
    ensures g.Continue? ==> g.value == PyIntValue(Get(data.entries, "TransactionUUID"))
    ensures g.Stop? && g.reply != Uncaught ==>
      g.reply in {Err(METHOD_NOT_ALLOWED, VNull), Fail(102, NO_ID), Fail(103, ID_INVALID)}
    ensures !isPost ==> g == Stop(Err(METHOD_NOT_ALLOWED, VNull))
    ensures isPost && !data.VObject? ==> g == Stop(Uncaught)
  {
    if !isPost then Stop(Err(METHOD_NOT_ALLOWED, VNull))
    else if !data.VObject? then Stop(Uncaught)
    else
      var id := Get(data.entries, "TransactionUUID");
      if id == VNull then Stop(Fail(102, NO_ID))
      else if !IsNonNegativePyInt(id) then Stop(Fail(103, ID_INVALID))
      else Continue(PyIntValue(id))
  }

  /** The whole of `initiate_cancellation` after the pre-check, on the
      table's state `s`. */
  function CancellationDecision(isPost: bool, data: Value, s: State): (d: Decision)
    ensures d.reply.Ok? <==> d.effect.SetStatus?
    ensures !d.effect.SetStatus? ==> d.effect == NoChange
    ensures d.effect.SetStatus? <==>
      CancellationGuard(isPost, data).Continue? && CancellationGuard(isPost, data).value in s.transactions
    ensures d.effect.SetStatus? ==>
      && d.effect == SetStatus(CancellationGuard(isPost, data).value, CANCELLED)
      && d.reply == Success(VStr(CANCELLED_COMMENT))
    ensures d.reply.Err? ==> d.reply.code in {METHOD_NOT_ALLOWED, 102, 103, 104}
    ensures CancellationGuard(isPost, data).Stop? ==> d == Reject(CancellationGuard(isPost, data).reply)
  {
    match CancellationGuard(isPost, data)
    case Stop(reply) => Reject(reply)
    case Continue(id) =>
      if id !in s.transactions then Reject(Fail(104, NOT_FOUND))
      else Decision(SetStatus(id, CANCELLED), Success(VStr(CANCELLED_COMMENT)))
  }

  /** The order of the guards: a missing id gives 102, a present id that is
      not a non-negative int gives 103, a good id not on record gives 104. */
  lemma CancellationErrorOrder(req: map<string, Value>, s: State)
    ensures Get(req, "TransactionUUID") == VNull ==>
      CancellationDecision(true, VObject(req), s) == Reject(Fail(102, NO_ID))
    ensures Get(req, "TransactionUUID") != VNull && !IsNonNegativePyInt(Get(req, "TransactionUUID")) ==>
      CancellationDecision(true, VObject(req), s) == Reject(Fail(103, ID_INVALID))
    ensures IsNonNegativePyInt(Get(req, "TransactionUUID")) && PyIntValue(Get(req, "TransactionUUID")) !in s.transactions ==>
      CancellationDecision(true, VObject(req), s) == Reject(Fail(104, NOT_FOUND))
  {
  }

  /** JSON `true` is a Python int, so it cancels transaction 1. */
  lemma TrueIsTransactionOne(s: State)
    requires 1 in s.transactions
    ensures CancellationDecision(true, VObject(map["TransactionUUID" := VBool(true)]), s).effect == SetStatus(1, CANCELLED)
  {
  }
}

/** The transaction table that `initiate_payment`, `initiate_refund` and
    `initiate_cancellation` save to, as an object whose methods carry out the
    views' decisions in place, and what holds over any sequence of requests. */
module Store {
  import opened Json
  import opened Responses
  import opened Ledger
  import opened Functions
  import opened Payment
  import opened Refund
  import opened Cancellation

  class TransactionStore {
    var transactions: map<nat, Transaction>
    var nextId: nat

    ghost predicate Valid()
      reads this
    {
      WellFormed(Snapshot())
    }

    function Snapshot(): State
      reads this
    {
      State(transactions, nextId)
    }

    constructor (initial: State)
      requires WellFormed(initial)
      ensures Valid() && Snapshot() == initial
    {
      transactions := initial.transactions;
      nextId := initial.nextId;
    }

    /** `initiate_payment`: on acceptance one new record, with a fresh id and
        status Initiated, is saved; on any error the table is untouched. */
    method InitiatePayment(isPost: bool, data: Value, v: Validators, t: Tables, today: Date, converterStatus: int)
      returns (reply: Reply)
      requires Valid()
      modifies this
      ensures Valid()
      ensures var d := PaymentDecision(isPost, data, v, t, today, converterStatus);
        reply == d.reply && Snapshot() == Apply(old(Snapshot()), d.effect)
      ensures reply.Ok? ==>
        && old(nextId) !in old(transactions)
        && transactions.Keys == old(transactions.Keys) + {old(nextId)}
        && (forall id :: id in old(transactions) ==> transactions[id] == old(transactions[id]))
        && transactions[old(nextId)].status == INITIATED
      ensures !reply.Ok? ==> transactions == old(transactions) && nextId == old(nextId)
    {
      var d := PaymentDecision(isPost, data, v, t, today, converterStatus);
      if d.effect.Insert? {
        transactions := transactions[nextId := d.effect.tx];
        nextId := nextId + 1;
      }
      reply := d.reply;
    }

    /** `initiate_refund` with the intended presence test: on success the
        one record's status becomes Refunded and the network's comment is
        echoed; otherwise nothing changes. */
    method InitiateRefund(isPost: bool, data: Value, pns: map<string, Value>) returns (reply: Reply)
      requires Valid()
      modifies this
      ensures Valid()
      ensures var d := RefundDecision(isPost, data, old(Snapshot()), pns);
        reply == d.reply && Snapshot() == Apply(old(Snapshot()), d.effect)
      ensures nextId == old(nextId) && transactions.Keys == old(transactions.Keys)
      ensures !reply.Ok? ==> transactions == old(transactions)
    {
      var guard := RefundGuard(isPost, data);
      if guard.Stop? {
        return guard.reply;
      }
      var id := guard.value;
      if id !in transactions {
        return Fail(104, Refund.NOT_FOUND);
      }
      var status := Get(pns, "StatusCode");
      var comment := Get(pns, "Comment");
      if PyEq(status, VInt(200)) {
        transactions := transactions[id := transactions[id].(status := REFUNDED)];
        reply := Success(comment);
      } else {
        reply := Err(301, comment);
      }
    }

    /** `initiate_cancellation`: on success the one record's status becomes
        Cancelled, whatever it was; otherwise nothing changes. */
    method InitiateCancellation(isPost: bool, data: Value) returns (reply: Reply)
      requires Valid()
      modifies this
      ensures Valid()
      ensures var d := CancellationDecision(isPost, data, old(Snapshot()));
        reply == d.reply && Snapshot() == Apply(old(Snapshot()), d.effect)
      ensures nextId == old(nextId) && transactions.Keys == old(transactions.Keys)
      ensures !reply.Ok? ==> transactions == old(transactions)
    {
      var guard := CancellationGuard(isPost, data);
      if guard.Stop? {
        return guard.reply;
      }
      var id := guard.value;
      if id !in transactions {
        return Fail(104, Cancellation.NOT_FOUND);
      }
      transactions := transactions[id := transactions[id].(status := CANCELLED)];
      reply := Success(VStr(CANCELLED_COMMENT));
    }
  }

  /** One request to one of the three views, with what the outside world
      answers it. */
  datatype Call =
    | PaymentCall(isPost: bool, data: Value, v: Validators, t: Tables, today: Date, converterStatus: int)
    | RefundCall(isPost: bool, data: Value, pns: map<string, Value>)
    | CancellationCall(isPost: bool, data: Value)

  function Outcome(s: State, c: Call): Decision
  {
    match c
    case PaymentCall(isPost, data, v, t, today, status) => PaymentDecision(isPost, data, v, t, today, status)
    case RefundCall(isPost, data, pns) => RefundDecision(isPost, data, s, pns)
    case CancellationCall(isPost, data) => CancellationDecision(isPost, data, s)
  }

  /** The table after serving the calls one after the other. */
  function Replay(s: State, calls: seq<Call>): State
    decreases |calls|
  {
    if calls == [] then s else Replay(Apply(s, Outcome(s, calls[0]).effect), calls[1..])
  }

  /** Every id lies below the next one, and every amount is positive. */
  predicate Healthy(s: State)
  {
    WellFormed(s) && forall id :: id in s.transactions ==> s.transactions[id].amount > 0.0
  }

  /** Every amount stays positive, whatever requests come: payments only
      save amounts that passed the float test, refunds and cancellations
      only change statuses. */
  lemma {:induction false} ReplayKeepsHealthy(s: State, calls: seq<Call>)
    requires Healthy(s)
    ensures Healthy(Replay(s, calls))
    decreases |calls|
  {
    if calls != [] {
      var d := Outcome(s, calls[0]);
      var next := Apply(s, d.effect);
      assert Healthy(next) by {
        forall id | id in next.transactions
          ensures next.transactions[id].amount > 0.0
        {
          if d.effect.Insert? && id == s.nextId {
            assert calls[0].PaymentCall?;
          }
        }
      }
      ReplayKeepsHealthy(next, calls[1..]);
    }
  }

  /** The effects the calls have, each on the table the earlier ones left. */
  function Trace(s: State, calls: seq<Call>): seq<Effect>
    decreases |calls|
  {
    if calls == [] then []
    else
      var e := Outcome(s, calls[0]).effect;
      [e] + Trace(Apply(s, e), calls[1..])
  }

  /** Serving the calls one after the other is carrying out their effects
      in order. */
  lemma {:induction false} ReplayIsTrace(s: State, calls: seq<Call>)
    ensures |Trace(s, calls)| == |calls|
    ensures Replay(s, calls) == ApplyAll(s, Trace(s, calls))
    decreases |calls|
  {
    if calls != [] {
      var e := Outcome(s, calls[0]).effect;
      var next := Apply(s, e);
      ReplayIsTrace(next, calls[1..]);
      assert Trace(s, calls)[0] == e;
      assert Trace(s, calls)[1..] == Trace(next, calls[1..]);
    }
  }

  /** Only payment requests save new records; refunds and cancellations
      never do. */
  lemma {:induction false} OnlyPaymentsInsert(s: State, calls: seq<Call>)
    ensures |Trace(s, calls)| == |calls|
    ensures forall i :: 0 <= i < |calls| && Trace(s, calls)[i].Insert? ==> calls[i].PaymentCall?
    decreases |calls|
  {
    if calls != [] {
      var e := Outcome(s, calls[0]).effect;
      var next := Apply(s, e);
      OnlyPaymentsInsert(next, calls[1..]);
      assert Trace(s, calls) == [e] + Trace(next, calls[1..]);
    }
  }

  /** No request ever removes a record or changes anything in it but its
      status, ids are never handed out twice, and the table grows by one
      record per save. */
  lemma ReplayKeepsHistory(s: State, calls: seq<Call>)
    requires WellFormed(s)
    ensures WellFormed(Replay(s, calls))
    ensures Replay(s, calls).nextId == s.nextId + Inserts(Trace(s, calls))
    ensures |Replay(s, calls).transactions| == |s.transactions| + Inserts(Trace(s, calls))
    ensures forall id :: id in s.transactions ==>
      id in Replay(s, calls).transactions && SameButStatus(s.transactions[id], Replay(s, calls).transactions[id])
  {
    ReplayIsTrace(s, calls);
    ApplyAllKeepsHistory(s, Trace(s, calls));
  }

  /** There is no guard on the prior status: a refunded transaction can be
      refunded again and then cancelled, and each call succeeds. */
  lemma RefundTwiceThenCancel(s: State, refund: map<string, Value>, cancel: map<string, Value>, pns: map<string, Value>)
    requires WellFormed(s)
    requires RefundGuard(true, VObject(refund)).Continue?
    requires RefundGuard(true, VObject(refund)).value in s.transactions
    requires PyEq(Get(pns, "StatusCode"), VInt(200))
    requires Get(cancel, "TransactionUUID") == Get(refund, "TransactionUUID")
    ensures var id := RefundGuard(true, VObject(refund)).value;
      var s1 := Apply(s, RefundDecision(true, VObject(refund), s, pns).effect);
      var s2 := Apply(s1, RefundDecision(true, VObject(refund), s1, pns).effect);
      var s3 := Apply(s2, CancellationDecision(true, VObject(cancel), s2).effect);
      && RefundDecision(true, VObject(refund), s1, pns).reply == Success(Get(pns, "Comment"))
      && s2.transactions[id].status == REFUNDED
      && CancellationDecision(true, VObject(cancel), s2).reply == Success(VStr(CANCELLED_COMMENT))
      && s3.transactions[id] == s.transactions[id].(status := CANCELLED)
  {
    var id := RefundGuard(true, VObject(refund)).value;
    var s1 := Apply(s, RefundDecision(true, VObject(refund), s, pns).effect);
    assert s1.transactions[id] == s.transactions[id].(status := REFUNDED);
    var s2 := Apply(s1, RefundDecision(true, VObject(refund), s1, pns).effect);
    assert s2.transactions[id] == s.transactions[id].(status := REFUNDED);
    assert CancellationGuard(true, VObject(cancel)) == Continue(id);
  }

  /** The views' `isinstance(request_data, JsonResponse)` test never holds,
      because the pre-check returns a dictionary: an empty body sent to the
      cancellation view is answered with 102, not with 100. */
  lemma EmptyBodyReachesCancellation(decode: Decoder, s: State)
    ensures HandedToView([], decode).Some?
    ensures CancellationDecision(true, HandedToView([], decode).value, s) == Reject(Fail(102, Cancellation.NO_ID))
  {
    var data := HandedToView([], decode).value;
    assert Get(data.entries, "TransactionUUID") == VNull;
  }

  /** Every error code the three transaction views report is in the `codes`
      table, except the 105 they give for a method other than POST. */
  lemma ErrorCodesKnown(s: State, c: Call)
    ensures Outcome(s, c).reply.Err? ==>
      Outcome(s, c).reply.code in Codes || Outcome(s, c).reply.code == METHOD_NOT_ALLOWED
  {
  }
}

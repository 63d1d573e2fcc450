/** The `Transaction` table as the views see it: records keyed by an id that
    the database assigns on the first save, and the three ways the views
    change it. */
module Ledger {
  import opened Json
  import opened Responses

  const INITIATED := "Initiated"
  const REFUNDED := "Refunded"
  const CANCELLED := "Cancelled"

  /** A persisted transaction. Payer and payee are the ids of the
      PersonalAccount and BusinessAccount records; `currency` is the value
      the request carried. */
  datatype Transaction = Transaction(
    payer: nat,
    payee: nat,
    amount: real,
    currency: Value,
    date: Date,
    status: string)

  /** The table's contents and the id the next saved record receives. */
  datatype State = State(transactions: map<nat, Transaction>, nextId: nat)

  /** Every stored id lies below the next one to be handed out. */
  predicate WellFormed(s: State)
  {
    forall id :: id in s.transactions ==> id < s.nextId
  }

  /** What a request does to the table. */
  datatype Effect =
    | NoChange
    | Insert(tx: Transaction)               // `Transaction(...).save()`
    | SetStatus(id: nat, status: string)    // `t.transactionStatus = status; t.save()`

  /** A view's whole outcome: its effect on the table and its reply. */
  datatype Decision = Decision(effect: Effect, reply: Reply)

  function Reject(reply: Reply): Decision
  {
    Decision(NoChange, reply)
  }

  /** Carrying out an effect. A new record gets a fresh id and nothing else
      changes; a status change touches the status of one record only. */
  function Apply(s: State, e: Effect): (r: State)
    ensures WellFormed(s) ==> WellFormed(r)
    ensures s.transactions.Keys <= r.transactions.Keys && s.nextId <= r.nextId
    ensures WellFormed(s) ==> forall id :: id in s.transactions && !(e.SetStatus? && e.id == id) ==>
      r.transactions[id] == s.transactions[id]
    ensures e.Insert? && WellFormed(s) ==>
      && s.nextId !in s.transactions
      && r.transactions.Keys == s.transactions.Keys + {s.nextId}
      && r.transactions[s.nextId] == e.tx
      && |r.transactions| == |s.transactions| + 1
    ensures e.SetStatus? && e.id in s.transactions ==>
      && r.transactions.Keys == s.transactions.Keys
      && r.transactions[e.id] == s.transactions[e.id].(status := e.status)
    ensures e.NoChange? || (e.SetStatus? && e.id !in s.transactions) ==> r == s
  {
    match e
    case NoChange => s
    case Insert(tx) => State(s.transactions[s.nextId := tx], s.nextId + 1)
    case SetStatus(id, status) =>
      if id in s.transactions then State(s.transactions[id := s.transactions[id].(status := status)], s.nextId)
      else s
  }

  /** Two records agree on everything but their status. */
  predicate SameButStatus(a: Transaction, b: Transaction)
  {
    a.(status := b.status) == b
  }

  /** The table after a sequence of effects, carried out first to last. */
  function ApplyAll(s: State, es: seq<Effect>): State
    decreases |es|
  {
    if es == [] then s else ApplyAll(Apply(s, es[0]), es[1..])
  }

  /** How many of the effects save a new record. */
  function Inserts(es: seq<Effect>): nat
    decreases |es|
  {
    if es == [] then 0 else (if es[0].Insert? then 1 else 0) + Inserts(es[1..])
  }

  /** Over any sequence of effects no record is removed or changed in
      anything but its status, and the table grows by exactly one record,
      under a fresh id, per save. */
  lemma {:induction false} ApplyAllKeepsHistory(s: State, es: seq<Effect>)
    requires WellFormed(s)
    ensures WellFormed(ApplyAll(s, es))
    ensures ApplyAll(s, es).nextId == s.nextId + Inserts(es)
    ensures |ApplyAll(s, es).transactions| == |s.transactions| + Inserts(es)
    ensures forall id :: id in s.transactions ==>
      id in ApplyAll(s, es).transactions && SameButStatus(s.transactions[id], ApplyAll(s, es).transactions[id])
    decreases |es|
  {
    if es != [] {
      var next := Apply(s, es[0]);
      ApplyAllKeepsHistory(next, es[1..]);
      forall id | id in s.transactions
        ensures SameButStatus(s.transactions[id], next.transactions[id])
      {
      }
    }
  }
}

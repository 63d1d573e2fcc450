/** `request_transaction_pns` of api/views.py: rename five request fields to
    the payment network's names, then answer from the network's reply. */
module Pns {
  import opened Json
  import opened Responses

  /** The five keys that are popped, and the five they are stored under. */
  const SOURCES: set<string> := {"CardHolderName", "CardHolderAddress", "PayeeCurrencyCode", "PayeeBankAccNum", "PayeeBankSortCode"}
  const TARGETS: set<string> := {"HolderName", "BillingAddress", "CurrencyCode", "AccountNumber", "Sort-Code"}

  /** `d[to] = d.pop(from)`: the pop (with no default) runs first, so a
      missing key raises KeyError. */
  function RenameKey(d: map<string, Value>, from: string, to: string): (r: Option<map<string, Value>>)
    ensures r.Some? <==> from in d
    ensures r.Some? ==> r.value.Keys == d.Keys - {from} + {to}
  {
    if from in d then Some((d - {from})[to := d[from]]) else None
  }

  /** One rename moves the value unchanged and leaves every other key alone. */
  lemma RenameKeyMoves(d: map<string, Value>, from: string, to: string)
    requires from in d
    ensures RenameKey(d, from, to).value[to] == d[from]
    ensures forall k :: k in d && k != from && k != to ==> RenameKey(d, from, to).value[k] == d[k]
  {
  }

  /** The five renames in the order the view performs them; a missing
      source key stops the chain with KeyError. */
  function RenameForPns(d: map<string, Value>): (r: Option<map<string, Value>>)
    ensures r.Some? <==> SOURCES <= d.Keys
  {
    var r1 :- RenameKey(d, "CardHolderName", "HolderName");
    var r2 :- RenameKey(r1, "CardHolderAddress", "BillingAddress");
    var r3 :- RenameKey(r2, "PayeeCurrencyCode", "CurrencyCode");
    var r4 :- RenameKey(r3, "PayeeBankAccNum", "AccountNumber");
    RenameKey(r4, "PayeeBankSortCode", "Sort-Code")
  }

  /** What the five renames leave behind: the source keys are gone, each
      value sits under its new name unchanged, and every other key keeps its
      value. */
  lemma RenameForPnsMoves(d: map<string, Value>)
    requires SOURCES <= d.Keys
    ensures RenameForPns(d).Some?
    ensures RenameForPns(d).value.Keys == d.Keys - SOURCES + TARGETS
    ensures
      && RenameForPns(d).value["HolderName"] == d["CardHolderName"]
      && RenameForPns(d).value["BillingAddress"] == d["CardHolderAddress"]
      && RenameForPns(d).value["CurrencyCode"] == d["PayeeCurrencyCode"]
      && RenameForPns(d).value["AccountNumber"] == d["PayeeBankAccNum"]
      && RenameForPns(d).value["Sort-Code"] == d["PayeeBankSortCode"]
    ensures forall k :: k in d && k !in SOURCES && k !in TARGETS ==> RenameForPns(d).value[k] == d[k]
  {
    var r1 := RenameKey(d, "CardHolderName", "HolderName").value;
    RenameKeyMoves(d, "CardHolderName", "HolderName");
    var r2 := RenameKey(r1, "CardHolderAddress", "BillingAddress").value;
    RenameKeyMoves(r1, "CardHolderAddress", "BillingAddress");
    var r3 := RenameKey(r2, "PayeeCurrencyCode", "CurrencyCode").value;
    RenameKeyMoves(r2, "PayeeCurrencyCode", "CurrencyCode");
    var r4 := RenameKey(r3, "PayeeBankAccNum", "AccountNumber").value;
    RenameKeyMoves(r3, "PayeeBankAccNum", "AccountNumber");
    var r5 := RenameKey(r4, "PayeeBankSortCode", "Sort-Code").value;
    RenameKeyMoves(r4, "PayeeBankSortCode", "Sort-Code");
    assert RenameForPns(d) == Some(r5);
  }

  /** The inverse renaming, network names back to the request's names. */
  function RenameFromPns(d: map<string, Value>): Option<map<string, Value>>
  {
    var r1 :- RenameKey(d, "Sort-Code", "PayeeBankSortCode");
    var r2 :- RenameKey(r1, "AccountNumber", "PayeeBankAccNum");
    var r3 :- RenameKey(r2, "CurrencyCode", "PayeeCurrencyCode");
    var r4 :- RenameKey(r3, "BillingAddress", "CardHolderAddress");
    RenameKey(r4, "HolderName", "CardHolderName")
  }

  /** What renaming back leaves behind, the mirror of RenameForPnsMoves. */
  lemma RenameFromPnsMoves(d: map<string, Value>)
    requires TARGETS <= d.Keys
    ensures RenameFromPns(d).Some?
    ensures RenameFromPns(d).value.Keys == d.Keys - TARGETS + SOURCES
    ensures
      && RenameFromPns(d).value["CardHolderName"] == d["HolderName"]
      && RenameFromPns(d).value["CardHolderAddress"] == d["BillingAddress"]
      && RenameFromPns(d).value["PayeeCurrencyCode"] == d["CurrencyCode"]
      && RenameFromPns(d).value["PayeeBankAccNum"] == d["AccountNumber"]
      && RenameFromPns(d).value["PayeeBankSortCode"] == d["Sort-Code"]
    ensures forall k :: k in d && k !in SOURCES && k !in TARGETS ==> RenameFromPns(d).value[k] == d[k]
  {
    var r1 := RenameKey(d, "Sort-Code", "PayeeBankSortCode").value;
    RenameKeyMoves(d, "Sort-Code", "PayeeBankSortCode");
    var r2 := RenameKey(r1, "AccountNumber", "PayeeBankAccNum").value;
    RenameKeyMoves(r1, "AccountNumber", "PayeeBankAccNum");
    var r3 := RenameKey(r2, "CurrencyCode", "PayeeCurrencyCode").value;
    RenameKeyMoves(r2, "CurrencyCode", "PayeeCurrencyCode");
    var r4 := RenameKey(r3, "BillingAddress", "CardHolderAddress").value;
    RenameKeyMoves(r3, "BillingAddress", "CardHolderAddress");
    var r5 := RenameKey(r4, "HolderName", "CardHolderName").value;
    RenameKeyMoves(r4, "HolderName", "CardHolderName");
    assert RenameFromPns(d) == Some(r5);
  }

  /** Renaming loses nothing: on a request that holds the five source keys
      and none of the five target keys, renaming back restores it exactly. */
  lemma RenameRoundTrip(d: map<string, Value>)
    requires SOURCES <= d.Keys && d.Keys !! TARGETS
    ensures RenameForPns(d).Some?
    ensures RenameFromPns(RenameForPns(d).value) == Some(d)
  {
    RenameForPnsMoves(d);
    var r := RenameForPns(d).value;
    RenameFromPnsMoves(r);
    var back := RenameFromPns(r).value;
    forall k
      ensures k in back <==> k in d
    {
      if k in SOURCES {
        assert k in back && k in d;
      } else if k in TARGETS {
        assert k !in back && k !in d;
      }
    }
    assert back.Keys == d.Keys;
    forall k | k in d
      ensures back[k] == d[k]
    {
      if k !in SOURCES {
        assert k !in TARGETS;
      }
    }
    assert back == d;
  }

  /** The whole of `request_transaction_pns` after the pre-check, with the
      network's reply as the parameter `pns`. */
  function PnsRequest(isPost: bool, data: Value, pns: map<string, Value>): (r: Reply)
    ensures r.Ok? <==> isPost && data.VObject? && SOURCES <= data.entries.Keys && PyEq(Get(pns, "StatusCode"), VInt(200))
    ensures r.Ok? ==> r == Success(Get(pns, "Comment"))
    ensures r.Err? ==> r == Err(METHOD_NOT_ALLOWED, VNull) || r == Err(301, VNull)
    ensures isPost && data.VObject? && !(SOURCES <= data.entries.Keys) ==> r == Uncaught
    ensures !isPost ==> r == Err(METHOD_NOT_ALLOWED, VNull)
    ensures isPost && !data.VObject? ==> r == Uncaught
    ensures isPost && data.VObject? && SOURCES <= data.entries.Keys && !PyEq(Get(pns, "StatusCode"), VInt(200)) ==>
      r == Err(301, VNull)
  {
    if !isPost then Err(METHOD_NOT_ALLOWED, VNull)
    else if !data.VObject? then Uncaught
    else match RenameForPns(data.entries)
      case None => Uncaught
      case Some(_) =>
        if !PyEq(Get(pns, "StatusCode"), VInt(200)) then Err(301, VNull)
        else Success(Get(pns, "Comment"))
  }
}

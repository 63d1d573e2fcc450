/** `convert_currency` of api/views.py: check that the four conversion fields
    are present, then answer from the converter's reply. */
module Conversion {
  import opened Json
  import opened Responses

  const FIELDS: set<string> := {"CurrencyFrom", "CurrencyTo", "Amount", "Date"}

  /** The whole view after the pre-check, with the converter's reply as the
      parameter `upstream`. The `Currency.DoesNotExist` clause is left out:
      nothing inside its `try` queries the Currency table. */
  function ConvertCurrency(isPost: bool, data: Value, upstream: map<string, Value>): (r: Reply)
    ensures r.Ok? <==>
      isPost && data.VObject? && (forall k :: k in FIELDS ==> Get(data.entries, k) != VNull)
      && PyEq(Get(upstream, "StatusCode"), VInt(200))
    ensures r.Ok? ==>
      && r.data.Keys == {"ErrorCode", "Comment", "Amount"}
      && r.data["ErrorCode"] == VNull
      && r.data["Comment"] == Get(upstream, "Comment")
      && r.data["Amount"] == Get(upstream, "Amount")
    ensures r == Err(102, VNull) <==>
      isPost && data.VObject? && exists k :: k in FIELDS && Get(data.entries, k) == VNull
    ensures r == Err(201, VNull) <==>
      isPost && data.VObject? && (forall k :: k in FIELDS ==> Get(data.entries, k) != VNull)
      && !PyEq(Get(upstream, "StatusCode"), VInt(200))
    ensures r.Err? ==> r.code in {METHOD_NOT_ALLOWED, 102, 201}
    ensures !isPost ==> r == Err(METHOD_NOT_ALLOWED, VNull)
    ensures isPost && !data.VObject? ==> r == Uncaught
  {
    if !isPost then Err(METHOD_NOT_ALLOWED, VNull)
    else if !data.VObject? then Uncaught
    else
      var req := data.entries;
      if Get(req, "CurrencyFrom") == VNull || Get(req, "CurrencyTo") == VNull
         || Get(req, "Amount") == VNull || Get(req, "Date") == VNull then Err(102, VNull)
      else if PyEq(Get(upstream, "StatusCode"), VInt(200)) then
        Ok(map["ErrorCode" := VNull, "Comment" := Get(upstream, "Comment"), "Amount" := Get(upstream, "Amount")])
      else Err(201, VNull)
  }

  /** The fields are checked before the converter's reply is looked at: a
      missing field gives 102 whatever the converter answered. */
  lemma MissingFieldBeforeUpstream(data: Value, upstream1: map<string, Value>, upstream2: map<string, Value>, k: string)
    requires data.VObject? && k in FIELDS && Get(data.entries, k) == VNull
    ensures ConvertCurrency(true, data, upstream1) == ConvertCurrency(true, data, upstream2) == Err(102, VNull)
  {
  }
}

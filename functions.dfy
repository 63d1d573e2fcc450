/** `check_valid_request` of api/functions.py: the pre-check every view runs
    on the request body before it reads any field. */
module Functions {
  import opened Json

  newtype Byte = b: int | 0 <= b < 256

  /** What Python's `json.loads` makes of a request body. */
  datatype Decoding =
    | Parsed(value: Value)  // a JSON document
    | Malformed             // json.JSONDecodeError
    | NotText               // the bytes are no UTF text: UnicodeDecodeError, which is not a JSONDecodeError

  /** The JSON decoder, a foreign routine, as a parameter. */
  type Decoder = seq<Byte> -> Decoding

  const EMPTY_BODY := "Error. Body of the request is empty"
  const NOT_JSON := "Error. Request is not in JSON format"

  /** The response dictionary every view starts from. */
  const INITIAL_RESPONSE: map<string, Value> := map["ErrorCode" := VNull, "Comment" := VStr("")]

  /** What the pre-check decides about a body. */
  datatype Verdict =
    | Decoded(data: Value)                // the decoded document is returned
    | Refused(code: int, comment: string) // the caller's response dictionary is returned, marked with an error
    | Raises                              // an exception escapes

  /** The decision of `check_valid_request`: emptiness first, then decoding. */
  function PreCheck(body: seq<Byte>, decode: Decoder): (r: Verdict)
    ensures r == Refused(100, EMPTY_BODY) <==> |body| == 0
    ensures r == Refused(101, NOT_JSON) <==> |body| > 0 && decode(body).Malformed?
    ensures r.Refused? ==> r.code == 100 || r.code == 101
    ensures r.Decoded? <==> |body| > 0 && decode(body).Parsed?
    ensures r.Decoded? ==> r.data == decode(body).value
    ensures r.Raises? <==> |body| > 0 && decode(body).NotText?
  {
    if |body| == 0 then Refused(100, EMPTY_BODY)
    else match decode(body)
      case Parsed(v) => Decoded(v)
      case Malformed => Refused(101, NOT_JSON)
      case NotText => Raises
  }

  /** An empty body is refused before the decoder is consulted: the verdict
      is the same whatever the decoder would have said. */
  lemma EmptyBodyIgnoresDecoder(d1: Decoder, d2: Decoder)
    ensures PreCheck([], d1) == PreCheck([], d2) == Refused(100, EMPTY_BODY)
  {
  }

  /** `response_data.update({'ErrorCode': code, 'Comment': comment})`: only
      those two entries change, every other entry stays as it was. */
  function WithError(response: map<string, Value>, code: int, comment: string): (r: map<string, Value>)
    ensures r.Keys == response.Keys + {"ErrorCode", "Comment"}
    ensures r["ErrorCode"] == VInt(code) && r["Comment"] == VStr(comment)
    ensures forall k :: k in response && k != "ErrorCode" && k != "Comment" ==> r[k] == response[k]
  {
    response["ErrorCode" := VInt(code)]["Comment" := VStr(comment)]
  }

  /** The object `check_valid_request` hands back to the view. */
  datatype Returned =
    | SameObject            // the caller's own response_data
    | NewObject(v: Value)   // the freshly decoded document
    | Escaped               // nothing: an exception propagates

  /** A view's `response_data` dictionary, which the pre-check updates in place. */
  class ResponseData {
    var entries: map<string, Value>

    constructor ()
      ensures entries == INITIAL_RESPONSE
    {
      entries := INITIAL_RESPONSE;
    }

    /** `check_valid_request(request, response_data)` with `this` as
        `response_data`: on either error the very same object comes back
        with its ErrorCode and Comment set; on success the decoded document
        comes back and this object is left alone. */
    method CheckValidRequest(body: seq<Byte>, decode: Decoder) returns (returned: Returned)
      modifies this
      ensures match PreCheck(body, decode)
        case Decoded(v) => returned == NewObject(v) && entries == old(entries)
        case Refused(code, comment) => returned == SameObject && entries == WithError(old(entries), code, comment)
        case Raises => returned == Escaped && entries == old(entries)
    {
      if |body| == 0 {
        entries := entries["ErrorCode" := VInt(100)]["Comment" := VStr(EMPTY_BODY)];
        return SameObject;
      }
      match decode(body) {
        case Parsed(v) =>
          returned := NewObject(v);
        case Malformed =>
          entries := entries["ErrorCode" := VInt(101)]["Comment" := VStr(NOT_JSON)];
          returned := SameObject;
        case NotText =>
          returned := Escaped;
      }
    }
  }

  /** What a view receives from the pre-check when it starts from a fresh
      response dictionary; `None` when an exception escapes. */
  function HandedToView(body: seq<Byte>, decode: Decoder): (r: Option<Value>)
    ensures |body| == 0 ==> r == Some(VObject(WithError(INITIAL_RESPONSE, 100, EMPTY_BODY)))
    ensures |body| > 0 && decode(body).Malformed? ==> r == Some(VObject(WithError(INITIAL_RESPONSE, 101, NOT_JSON)))
    ensures |body| > 0 && decode(body).NotText? ==> r.None?
    ensures |body| > 0 && decode(body).Parsed? ==> r == Some(decode(body).value)
    ensures r.Some? && !r.value.VObject? ==> decode(body).Parsed? && r.value == decode(body).value
  {
    match PreCheck(body, decode)
    case Decoded(v) => Some(v)
    case Refused(code, comment) => Some(VObject(WithError(INITIAL_RESPONSE, code, comment)))
    case Raises => None
  }
}

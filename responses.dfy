/** What a view hands back to Django, the `codes` table of api/views.py, and
    the one-step outcome the views' guard chains are built from. */
module Responses {
  import opened Json

  /** The answer of one view.
      - `Ok(data)`: `JsonResponse(response_data, status=200)`, with `data`
        the response dictionary;
      - `Err(code, comment)`: `error_response(response_data, code[, comment])`,
        with `comment` the third argument, `VNull` when none is passed;
      - `Uncaught`: an exception escapes the view, and Django answers with a
        server error of its own. */
  datatype Reply =
    | Ok(data: map<string, Value>)
    | Err(code: int, comment: Value)
    | Uncaught

  /** One guard of a chain: carry on with a value, or stop with a reply. */
  datatype Step<+T> = Continue(value: T) | Stop(reply: Reply)

  /** Every view answers a method other than POST with this code. */
  const METHOD_NOT_ALLOWED := 105

  /** The `codes` table at the end of api/views.py. Code 105, which every
      view returns, has no entry. */
  const Codes: map<int, string> := map[
    100 := "Request body empty.",
    101 := "Request body in incorrect format",
    102 := "Could not find field \"{}\".",
    103 := "Field {0} is a {1}, when {2} was expected.",
    104 := "Invalid Field(s): {0}",
    201 := "An error occurred with currency conversion.",
    301 := "An error occurred with contacting the Payment Network Service."
  ]

  /** The table lists the pre-check's, the field, the conversion and the
      network errors, and not the method error every view reports. */
  lemma CodesKeys()
    ensures Codes.Keys == {100, 101, 102, 103, 104, 201, 301}
    ensures METHOD_NOT_ALLOWED !in Codes
  {
  }

  /** `error_response(response_data, code, message)`. */
  function Fail(code: int, message: string): Reply
  {
    Err(code, VStr(message))
  }

  /** The default response dictionary with its `Comment` set, answered with status 200. */
  function Success(comment: Value): Reply
  {
    Ok(map["ErrorCode" := VNull, "Comment" := comment])
  }
}

/** The legacy generation's error type and its code table (api-view/error.js). */
module LegacyError {
  import opened JsValues

  /** `APIViewError.codes` */
  const Codes: map<string, int> := map[
    "INVALID_REQUEST_DATA" := 1,
    "INVALID_ENTITY" := 2,
    "INVALID_ACTION" := 3,
    "INVALID_METHOD" := 4,
    "API_NOT_FOUND" := 5,
    "INVALID_API" := 6,
    "PROCESS_METHOD_NOT_FOUND" := 7
  ]

  /** The table has seven names with pairwise distinct codes, exactly 1 to 7. */
  lemma CodesTable()
    ensures |Codes.Keys| == 7
    ensures forall a, b :: a in Codes && b in Codes && a != b ==> Codes[a] != Codes[b]
    ensures Codes.Values == {1, 2, 3, 4, 5, 6, 7}
    ensures Codes["API_NOT_FOUND"] == 5 && Codes["INVALID_API"] == 6 && Codes["PROCESS_METHOD_NOT_FOUND"] == 7
  {
    var values := {1, 2, 3, 4, 5, 6, 7};
    assert Codes["INVALID_REQUEST_DATA"] == 1 && Codes["INVALID_ENTITY"] == 2;
    assert Codes["INVALID_ACTION"] == 3 && Codes["INVALID_METHOD"] == 4;
    assert Codes["API_NOT_FOUND"] == 5 && Codes["INVALID_API"] == 6;
    assert Codes["PROCESS_METHOD_NOT_FOUND"] == 7;
    forall c | c in values ensures c in Codes.Values {
      if c == 1 { assert Codes["INVALID_REQUEST_DATA"] == c; }
      else if c == 2 { assert Codes["INVALID_ENTITY"] == c; }
      else if c == 3 { assert Codes["INVALID_ACTION"] == c; }
      else if c == 4 { assert Codes["INVALID_METHOD"] == c; }
      else if c == 5 { assert Codes["API_NOT_FOUND"] == c; }
      else if c == 6 { assert Codes["INVALID_API"] == c; }
      else { assert Codes["PROCESS_METHOD_NOT_FOUND"] == c; }
    }
    assert Codes.Keys == {"INVALID_REQUEST_DATA", "INVALID_ENTITY", "INVALID_ACTION", "INVALID_METHOD",
                          "API_NOT_FOUND", "INVALID_API", "PROCESS_METHOD_NOT_FOUND"};
  }

  /**
   * `new APIViewError(err, code)`: the message is `err.message` when that is
   * truthy and `err` itself otherwise; the code is kept as given (it may lie
   * outside the table) and the name is always 'APIViewError'. (`err` null
   * or undefined would make the constructor itself throw; no caller passes one.)
   */
  function NewAPIViewError(err: Value, code: Value): (e: JsError)
    requires !err.Null? && !err.Undefined?
    ensures e.name == "APIViewError" && e.code == code && e.httpCode == Undefined
    ensures err.Obj? && "message" in err.props && Truthy(err.props["message"]) ==> e.message == err.props["message"]
    ensures !(err.Obj? && "message" in err.props && Truthy(err.props["message"])) ==> e.message == err
  {
    JsError("APIViewError", Or(Property(err, "message"), err), code, Undefined)
  }

  /** An APIViewError with a text message and the code of `name` in the table. */
  function Raise(message: string, name: string): (e: JsError)
    requires name in Codes
    ensures e.name == "APIViewError" && e.message == Str(message) && e.code == Num(Codes[name])
  {
    NewAPIViewError(Str(message), Num(Codes[name]))
  }
}

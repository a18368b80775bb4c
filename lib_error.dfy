/** The newer generation's error type and its code table (lib/error.js). */
module LibError {
  import opened JsValues

  /** `APIViewError.codes` */
  const Codes: map<string, int> := map[
    // raised by the dispatcher's request validation
    "INVALID_REQUEST_DATA" := 1,
    "INVALID_ENTITY" := 2,
    "INVALID_ACTION" := 3,
    "INVALID_METHOD" := 4,
    "INVALID_HEADERS" := 5,
    "INVALID_COOKIES" := 6,
    // raised by the fetcher
    "API_VIEW_NOT_FOUND" := 7,
    "INVALID_API_VIEW" := 8,
    "INVALID_API_VIEW_INHERITANCE" := 9,
    "PROCESS_METHOD_NOT_FOUND" := 10
  ]

  const ValidatorCodeNames: set<string> :=
    {"INVALID_REQUEST_DATA", "INVALID_ENTITY", "INVALID_ACTION", "INVALID_METHOD", "INVALID_HEADERS", "INVALID_COOKIES"}

  const FetcherCodeNames: set<string> :=
    {"API_VIEW_NOT_FOUND", "INVALID_API_VIEW", "INVALID_API_VIEW_INHERITANCE", "PROCESS_METHOD_NOT_FOUND"}

  /**
   * The table has ten names with pairwise distinct codes, exactly 1 to 10:
   * the validator's names take 1 to 6 and the fetcher's 7 to 10.
   */
  lemma CodesTable()
    ensures Codes.Keys == ValidatorCodeNames + FetcherCodeNames
    ensures forall a, b :: a in Codes && b in Codes && a != b ==> Codes[a] != Codes[b]
    ensures Codes.Values == {1, 2, 3, 4, 5, 6, 7, 8, 9, 10}
    ensures forall a :: a in ValidatorCodeNames ==> 1 <= Codes[a] <= 6
    ensures forall a :: a in FetcherCodeNames ==> 7 <= Codes[a] <= 10
  {
    var values := {1, 2, 3, 4, 5, 6, 7, 8, 9, 10};
    assert Codes["INVALID_REQUEST_DATA"] == 1 && Codes["INVALID_ENTITY"] == 2;
    assert Codes["INVALID_ACTION"] == 3 && Codes["INVALID_METHOD"] == 4;
    assert Codes["INVALID_HEADERS"] == 5 && Codes["INVALID_COOKIES"] == 6;
    assert Codes["API_VIEW_NOT_FOUND"] == 7 && Codes["INVALID_API_VIEW"] == 8;
    assert Codes["INVALID_API_VIEW_INHERITANCE"] == 9 && Codes["PROCESS_METHOD_NOT_FOUND"] == 10;
    forall c | c in values ensures c in Codes.Values {
      if c == 1 { assert Codes["INVALID_REQUEST_DATA"] == c; }
      else if c == 2 { assert Codes["INVALID_ENTITY"] == c; }
      else if c == 3 { assert Codes["INVALID_ACTION"] == c; }
      else if c == 4 { assert Codes["INVALID_METHOD"] == c; }
      else if c == 5 { assert Codes["INVALID_HEADERS"] == c; }
      else if c == 6 { assert Codes["INVALID_COOKIES"] == c; }
      else if c == 7 { assert Codes["API_VIEW_NOT_FOUND"] == c; }
      else if c == 8 { assert Codes["INVALID_API_VIEW"] == c; }
      else if c == 9 { assert Codes["INVALID_API_VIEW_INHERITANCE"] == c; }
      else { assert Codes["PROCESS_METHOD_NOT_FOUND"] == c; }
    }
  }

  /**
   * `new APIViewError(err, code)`: the message is `err.message` when that is
   * truthy and `err` itself otherwise; the code is kept as given and the
   * name is always 'APIViewError'. (`err` null or undefined would make the
   * constructor itself throw; no caller passes one.)
   */
  function NewAPIViewError(err: Value, code: Value): (e: JsError)
    requires !err.Null? && !err.Undefined?
    ensures e.name == "APIViewError" && e.code == code && e.httpCode == Undefined
    ensures err.Obj? && "message" in err.props && Truthy(err.props["message"]) ==> e.message == err.props["message"]
    ensures !(err.Obj? && "message" in err.props && Truthy(err.props["message"])) ==> e.message == err
  {
    JsError("APIViewError", Or(Property(err, "message"), err), code, Undefined)
  }

  /** An APIViewError with a text message and the code of `name` in the table. */
  function Raise(message: string, name: string): (e: JsError)
    requires name in Codes
    ensures e.name == "APIViewError" && e.message == Str(message) && e.code == Num(Codes[name])
  {
    NewAPIViewError(Str(message), Num(Codes[name]))
  }
}

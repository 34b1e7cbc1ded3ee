/**
 * The exceptions of the ModelStudio memory tools
 * (tools/modelstudio_memory/exceptions.py): one base class with four
 * subclasses, each carrying an optional HTTP status, error code and request
 * id, and the text `str(e)` gives for them.
 */
module MemoryErrors {
  import opened Wrappers
  import opened Strings
  import opened Json

  /** The exception classes. */
  datatype ErrorClass =
    | MemoryAPIError
    | MemoryAuthenticationError
    | MemoryNotFoundError
    | MemoryValidationError
    | MemoryNetworkError

  /** The direct base class within the hierarchy: every class but the root derives from `MemoryAPIError`. */
  function BaseClass(c: ErrorClass): (r: Option<ErrorClass>)
    ensures r.None? <==> c == MemoryAPIError
    ensures r.Some? ==> r.value == MemoryAPIError
  {
    if c == MemoryAPIError then None else Some(MemoryAPIError)
  }

  /** `isinstance(e, cls)` for an exception of class `c`. */
  predicate IsInstance(c: ErrorClass, cls: ErrorClass)
  {
    c == cls || BaseClass(c) == Some(cls)
  }

  /**
   * An exception: its message and the three optional fields. `None` codes
   * and request ids are `JNull`; the fields hold whatever value was passed.
   */
  datatype MemoryError = MemoryError(
    cls: ErrorClass,
    message: string,
    statusCode: Option<int>,
    errorCode: JsonValue,
    requestId: JsonValue)

  /** `cls(message, status_code=…, error_code=…, request_id=…)`. */
  function NewError(cls: ErrorClass, message: string, statusCode: Option<int> := None, errorCode: JsonValue := JNull,
                    requestId: JsonValue := JNull): (e: MemoryError)
    ensures e.cls == cls && e.message == message
    ensures e.statusCode == statusCode && e.errorCode == errorCode && e.requestId == requestId
  {
    MemoryError(cls, message, statusCode, errorCode, requestId)
  }

  /** The parts `__str__` joins: the message, then each field that is truthy. */
  function ErrorParts(e: MemoryError): (r: seq<string>)
    ensures r != [] && r[0] == e.message
  {
    [e.message]
      + Part(JTruthy(e.errorCode), "Error Code: " + PyStr(e.errorCode))
      + Part(TruthyInt(e.statusCode), "Status Code: " + IntToString(e.statusCode.GetOr(0)))
      + Part(JTruthy(e.requestId), "Request ID: " + PyStr(e.requestId))
  }

  /** `str(e)`. */
  function ErrorText(e: MemoryError): string
  {
    Join(ErrorParts(e), " | ")
  }

  /** `__str__`, appending to the list of parts. */
  method ErrorToString(e: MemoryError) returns (s: string)
    ensures s == ErrorText(e)
  {
    var parts := [e.message];
    if JTruthy(e.errorCode) {
      parts := parts + ["Error Code: " + PyStr(e.errorCode)];
    }
    if TruthyInt(e.statusCode) {
      parts := parts + ["Status Code: " + IntToString(e.statusCode.value)];
    }
    assert parts == [e.message]
      + Part(JTruthy(e.errorCode), "Error Code: " + PyStr(e.errorCode))
      + Part(TruthyInt(e.statusCode), "Status Code: " + IntToString(e.statusCode.GetOr(0)));
    if JTruthy(e.requestId) {
      parts := parts + ["Request ID: " + PyStr(e.requestId)];
    }
    assert parts == ErrorParts(e);
    s := Join(parts, " | ");
  }

  /** The text always starts with the message. */
  lemma ErrorTextHead(e: MemoryError)
    ensures StartsWith(ErrorText(e), e.message)
  {
    JoinHead(ErrorParts(e), " | ");
  }

  /** Without a truthy field the text is the bare message. */
  lemma PlainErrorText(e: MemoryError)
    requires !JTruthy(e.errorCode) && !TruthyInt(e.statusCode) && !JTruthy(e.requestId)
    ensures ErrorText(e) == e.message
  {
    assert ErrorParts(e) == [e.message];
  }

  /** With all three fields, each follows in order behind " | ". */
  lemma FullErrorText(cls: ErrorClass, message: string, status: int, code: string, requestId: string)
    requires status != 0 && code != "" && requestId != ""
    ensures ErrorText(NewError(cls, message, Some(status), JStr(code), JStr(requestId)))
      == message + " | " + ("Error Code: " + code) + " | " + ("Status Code: " + IntToString(status))
         + " | " + ("Request ID: " + requestId)
  {
    var e := NewError(cls, message, Some(status), JStr(code), JStr(requestId));
    assert ErrorParts(e) == [message, "Error Code: " + code, "Status Code: " + IntToString(status), "Request ID: " + requestId];
    JoinFour(message, "Error Code: " + code, "Status Code: " + IntToString(status), "Request ID: " + requestId, " | ");
  }

  /** A message without `|` is what precedes the first " | " of the text. */
  lemma MessageBeforeSeparator(e: MemoryError)
    requires !HasChar(e.message, '|')
    ensures BeforeFirst(ErrorText(e), " | ") == e.message
  {
    var p := ErrorParts(e);
    if |p| == 1 {
      NoBarNoSeparator(e.message);
    } else {
      JoinCons(p, " | ");
      BeforeFirstBar(e.message, Join(p[1..], " | "));
    }
  }
}

/**
 * What a JavaScript `throw` can carry, as far as the modelled code inspects it.
 *
 * An `Error` object is described by its `name` and `message`, the extra fields
 * an `ApiError` adds (`code`, `subcode`, `traceId`), an optional `.error`
 * property holding a vendor error envelope, and an optional `.response.status`.
 * Anything else that is thrown is described by how `String(value)` renders it.
 */
module JsErrors {
  import opened Common

  /** The fields of a Graph API error envelope, `{message, code, type, fbtrace_id, error_subcode}`. */
  datatype VendorFields = VendorFields(
    message: Option<string>,
    code: Option<int>,
    errType: Option<string>,
    traceId: Option<string>,
    subcode: Option<int>)

  /** The fields an `ApiError` carries beside its message. */
  datatype ApiFields = ApiFields(code: Option<int>, subcode: Option<int>, traceId: Option<string>)

  /**
   * An `Error` instance. `api` is present exactly for `ApiError` instances;
   * `nested` is the object's `.error` property, if any; `responseStatus` is
   * `.response.status`, if the object has a `.response`.
   */
  datatype ErrorValue = ErrorValue(
    name: string,
    message: string,
    api: Option<ApiFields>,
    nested: Option<VendorFields>,
    responseStatus: Option<int>)

  /** A thrown value: an `Error`, a string, or some other value shown by `String(value)`. */
  datatype Thrown = ThrownError(error: ErrorValue) | ThrownString(text: string) | ThrownOther(display: string)

  /** A plain `new Error(message)`. */
  function PlainError(message: string): ErrorValue {
    ErrorValue("Error", message, None, None, None)
  }

  /** `String(value)` of a thrown value that is not an `Error`. */
  function Display(t: Thrown): string
    requires !t.ThrownError?
  {
    match t
    case ThrownString(s) => s
    case ThrownOther(d) => d
  }

  /**
   * `error instanceof Error ? error : new Error(String(error))`: an `Error`
   * passes through unchanged, anything else becomes a plain `Error` whose
   * message is its string form and which carries no vendor or API fields.
   */
  function Wrap(t: Thrown): (e: ErrorValue)
    ensures t.ThrownError? ==> e == t.error
    ensures !t.ThrownError? ==> e.name == "Error" && e.message == Display(t)
    ensures !t.ThrownError? ==> e.api.None? && e.nested.None? && e.responseStatus.None?
  {
    match t
    case ThrownError(e) => e
    case _ => PlainError(Display(t))
  }
}

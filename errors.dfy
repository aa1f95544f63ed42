/** The error codes and the `(code, message)` pairs collected by every result envelope. */
module ErrorModel {
  import opened Wrappers

  /** The three supported error codes (model/ErrorCodes.java). */
  datatype ErrorCode = BadRequest | NotFound | Conflict {

    /** The numeric code an error records. */
    function Code(): (c: int)
      ensures c == 400 <==> this == BadRequest
      ensures c == 404 <==> this == NotFound
      ensures c == 409 <==> this == Conflict
    {
      match this
      case BadRequest => 400
      case NotFound => 404
      case Conflict => 409
    }
  }

  /** One recorded error; the message is a Java string and may be null. Values are equal
      exactly when code and message are. */
  datatype Error = Error(code: int, message: Option<string>)

  /** The codes an envelope can hold: those of `ErrorCode`. */
  predicate IsKnownCode(code: int) {
    code == 400 || code == 404 || code == 409
  }

  predicate AllKnownCodes(errors: seq<Error>) {
    forall k :: 0 <= k < |errors| ==> IsKnownCode(errors[k].code)
  }

  /** Every code an `ErrorCode` yields is a known one, and every known code comes from one. */
  lemma KnownCodesAreErrorCodes(code: int)
    ensures IsKnownCode(code) <==> exists c: ErrorCode :: c.Code() == code
  {
    if code == 400 { assert BadRequest.Code() == code; }
    if code == 404 { assert NotFound.Code() == code; }
    if code == 409 { assert Conflict.Code() == code; }
  }
}

/** The update-request validator: its single call-sign rule and the mapping of field errors to
    a BAD_REQUEST update envelope. */
module Validation {
  import opened Wrappers
  import opened ErrorModel
  import opened FieldErrors
  import opened Envelope

  /** The field errors the call-sign rule records for a changeset's call sign: none for a
      null one or one of four characters, otherwise one rejection of `callSign` carrying the
      value. The empty string has length 0 and is rejected. */
  function CallSignRejections(callSign: Option<string>): (r: seq<FieldError>)
    ensures r == [] <==> callSign.None? || |callSign.value| == 4
    ensures r != [] ==>
              callSign.Some? &&
              r == [FieldError("callSign", "callsign.size.invalid", [callSign.value], None)]
  {
    if callSign.Some? && |callSign.value| != 4 then
      [FieldError("callSign", "callsign.size.invalid", [callSign.value], None)]
    else
      []
  }

  /** The empty call sign is rejected once, as a `callsign.size.invalid` rejection of
      `callSign` whose argument is the empty string, even though empty fields are left alone
      by an update. */
  lemma EmptyCallSignRejected()
    ensures CallSignRejections(Some("")) == [FieldError("callSign", "callsign.size.invalid", [""], None)]
  {
  }

  /** The messages of an envelope built from field errors: BAD_REQUEST with the message that
      `messages` resolves from each error's code and arguments, in encounter order. */
  ghost predicate ResolvedBadRequests(errors: seq<Error>, fieldErrors: seq<FieldError>,
                                      messages: (string, seq<string>) -> string)
  {
    && |errors| == |fieldErrors|
    && forall k :: 0 <= k < |errors| ==>
         errors[k] == Error(400, Some(messages(fieldErrors[k].code, fieldErrors[k].arguments)))
  }

  class StationMixinValidator {
    /** Message resolution, `(key, args) -> text`; the locale is not modelled. */
    const messages: (string, seq<string>) -> string

    constructor (messages: (string, seq<string>) -> string)
      ensures this.messages == messages
    {
      this.messages := messages;
    }

    /** Applies the call-sign rule and no other: appends `CallSignRejections(target.callSign)`. */
    method Validate(target: StationMixin, errors: BindingErrors)
      modifies errors
      ensures errors.fieldErrors == old(errors.fieldErrors) + CallSignRejections(target.callSign)
    {
      if target.callSign.Some? && |target.callSign.value| != 4 {
        errors.RejectValue("callSign", "callsign.size.invalid", [target.callSign.value], None);
      }
    }

    /** A new update envelope with no fields and one resolved BAD_REQUEST error per field
        error, in order. */
    method CreateMixin(errors: BindingErrors) returns (mixin: StationMixin)
      ensures fresh(mixin) && mixin.kind == Update && mixin.Valid()
      ensures mixin.NoFields() && mixin.timestamp.None?
      ensures ResolvedBadRequests(mixin.errors, errors.fieldErrors, messages)
    {
      mixin := new StationMixin(Update);
      var fieldErrors := errors.fieldErrors;
      var i := 0;
      while i < |fieldErrors|
        invariant 0 <= i <= |fieldErrors|
        invariant mixin.kind == Update && mixin.Valid()
        invariant mixin.NoFields() && mixin.timestamp.None?
        invariant |mixin.errors| == i
        invariant forall k :: 0 <= k < i ==>
                    mixin.errors[k] == Error(400, Some(messages(fieldErrors[k].code, fieldErrors[k].arguments)))
      {
        mixin.AddError(BadRequest, Some(messages(fieldErrors[i].code, fieldErrors[i].arguments)));
        i := i + 1;
      }
    }
  }
}

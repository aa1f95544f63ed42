/** The field-error collector that the web framework hands to validators (Spring's `Errors`),
    reduced to what the core reads and writes: an ordered list of field errors. */
module FieldErrors {
  import opened Wrappers

  /** One rejected field: the field name, the message code, its interpolation arguments and
      an optional default message. */
  datatype FieldError = FieldError(
    field: string,
    code: string,
    arguments: seq<string>,
    defaultMessage: Option<string>)

  class BindingErrors {
    var fieldErrors: seq<FieldError>

    constructor ()
      ensures fieldErrors == []
    {
      fieldErrors := [];
    }

    /** Records a rejection of `field`, after those already recorded. */
    method RejectValue(field: string, code: string, arguments: seq<string>, defaultMessage: Option<string>)
      modifies this
      ensures fieldErrors == old(fieldErrors) + [FieldError(field, code, arguments, defaultMessage)]
    {
      fieldErrors := fieldErrors + [FieldError(field, code, arguments, defaultMessage)];
    }
  }
}

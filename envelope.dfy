/** The result envelope returned by create, retrieve by business key or by name, update and
    delete (the two listings return the stations themselves): copies of the entity's fields,
    an operation-specific timestamp and an ordered list of errors. The four result classes of the
    source (create, get, update, delete) are one class here, told apart by `kind`. */
module Envelope {
  import opened Wrappers
  import opened ErrorModel
  import opened StationModel
  import opened FieldErrors

  /** Which operation produced the envelope; the get variant has no timestamp. */
  datatype Kind = Create | Get | Update | Delete

  class StationMixin {
    const kind: Kind
    var id: Option<int>
    var stationId: Option<string>
    var stationName: Option<string>
    var hdEnabled: Option<bool>
    var callSign: Option<string>
    /** `creationTimestamp`, `updatedTimestamp` or `deletedTimestamp`, after `kind`. */
    var timestamp: Option<nat>
    var errors: seq<Error>

    /** The get variant never holds a timestamp; every recorded code is 400, 404 or 409. */
    ghost predicate Valid()
      reads this
    {
      (kind == Get ==> timestamp.None?) && AllKnownCodes(errors)
    }

    /** No entity field is set. */
    predicate NoFields()
      reads this
    {
      id.None? && stationId.None? && stationName.None? && hdEnabled.None? && callSign.None?
    }

    /** A new envelope: no fields, no timestamp, an empty error list. */
    constructor (kind: Kind)
      ensures this.kind == kind && Valid()
      ensures NoFields() && timestamp.None? && errors == []
    {
      this.kind := kind;
      id, stationId, stationName, hdEnabled, callSign := None, None, None, None, None;
      timestamp := None;
      errors := [];
    }

    /** Appends one `(code, message)` pair after the errors already recorded. */
    method AddError(code: ErrorCode, message: Option<string>)
      requires Valid()
      modifies this`errors
      ensures Valid()
      ensures errors == old(errors) + [Error(code.Code(), message)]
    {
      errors := errors + [Error(code.Code(), message)];
    }

    predicate HasErrors()
      reads this
      ensures HasErrors() <==> |errors| > 0
    {
      errors != []
    }

    /** What the envelope reports as its timestamp: always null for the get variant. */
    function GetTimestamp(): (t: Option<nat>)
      reads this
      ensures kind == Get ==> t.None?
      ensures kind != Get ==> t == timestamp
    {
      if kind == Get then None else timestamp
    }

    /** Records the operation's timestamp; on the get variant it does nothing. */
    method SetTimestamp(localDateTime: nat)
      requires Valid()
      modifies this`timestamp
      ensures Valid()
      ensures kind == Get ==> timestamp == old(timestamp)
      ensures kind != Get ==> timestamp == Some(localDateTime) && GetTimestamp() == Some(localDateTime)
    {
      if kind != Get {
        timestamp := Some(localDateTime);
      }
    }

    /** Copies the station's id, business key, name, call sign and HD flag. */
    method BuildMixin(station: Station)
      modifies this`id, this`stationId, this`stationName, this`callSign, this`hdEnabled
      ensures HoldsFieldsOf(station.Data())
    {
      stationId := station.stationId;
      stationName := station.stationName;
      id := station.id;
      callSign := station.callSign;
      hdEnabled := station.hdEnabled;
    }

    /** The envelope's fields are exactly those of `d`. */
    predicate HoldsFieldsOf(d: StationData)
      reads this
    {
      && id == d.id && stationId == d.stationId && stationName == d.stationName
      && callSign == d.callSign && hdEnabled == d.hdEnabled
    }

    /** Appends one BAD_REQUEST error per field error, in order, with its default message. */
    method BuildMixinFromErrors(result: BindingErrors)
      requires Valid()
      modifies this`errors
      ensures Valid()
      ensures |errors| == |old(errors)| + |result.fieldErrors|
      ensures errors[..|old(errors)|] == old(errors)
      ensures forall k :: 0 <= k < |result.fieldErrors| ==>
                errors[|old(errors)| + k] == Error(400, result.fieldErrors[k].defaultMessage)
    {
      var fieldErrors := result.fieldErrors;
      var i := 0;
      while i < |fieldErrors|
        invariant 0 <= i <= |fieldErrors|
        invariant Valid()
        invariant |errors| == |old(errors)| + i
        invariant errors[..|old(errors)|] == old(errors)
        invariant forall k :: 0 <= k < i ==>
                    errors[|old(errors)| + k] == Error(400, fieldErrors[k].defaultMessage)
      {
        AddError(BadRequest, fieldErrors[i].defaultMessage);
        i := i + 1;
      }
    }

    method SetStationId(stationId: Option<string>)
      modifies this`stationId
      ensures this.stationId == stationId
    {
      this.stationId := stationId;
    }

    method SetStationName(stationName: Option<string>)
      modifies this`stationName
      ensures this.stationName == stationName
    {
      this.stationName := stationName;
    }

    method SetHdEnabled(hdEnabled: Option<bool>)
      modifies this`hdEnabled
      ensures this.hdEnabled == hdEnabled
    {
      this.hdEnabled := hdEnabled;
    }

    method SetCallSign(callSign: Option<string>)
      modifies this`callSign
      ensures this.callSign == callSign
    {
      this.callSign := callSign;
    }
  }

  /** Lombok equality of envelopes: same variant, same four fields and the same errors; the
      surrogate `id` and every variant's timestamp are left out. */
  predicate SameEnvelope(a: StationMixin, b: StationMixin)
    reads a, b
    ensures a == b ==> SameEnvelope(a, b)
  {
    && a.kind == b.kind
    && a.stationId == b.stationId && a.stationName == b.stationName
    && a.hdEnabled == b.hdEnabled && a.callSign == b.callSign
    && a.errors == b.errors
  }

  /** Equality of envelopes is an equivalence, and equal envelopes share their variant and
      their errors. */
  lemma SameEnvelopeIsEquivalence(a: StationMixin, b: StationMixin, c: StationMixin)
    ensures SameEnvelope(a, a)
    ensures SameEnvelope(a, b) ==> SameEnvelope(b, a)
    ensures SameEnvelope(a, b) && SameEnvelope(b, c) ==> SameEnvelope(a, c)
    ensures SameEnvelope(a, b) ==> a.kind == b.kind && a.errors == b.errors
  {
  }

  /** Two envelopes of one variant with the same errors, holding the fields of two stations,
      are equal exactly when the stations are equal as entities. */
  lemma BuiltFromEqualStations(a: StationMixin, b: StationMixin, s: StationData, t: StationData)
    requires a.kind == b.kind && a.errors == b.errors
    requires a.HoldsFieldsOf(s) && b.HoldsFieldsOf(t)
    ensures SameEnvelope(a, b) <==> SameStation(s, t)
  {
  }
}

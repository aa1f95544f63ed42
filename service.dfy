/** The station lifecycle service: create, retrieve by business key or name, update through
    the field-merge policy, delete by business key, and the HD filter. */
module Service {
  import opened Wrappers
  import opened ErrorModel
  import opened StationModel
  import opened Envelope
  import opened Repository
  import opened Validation

  // ---------------------------------------------------------------------------------------
  // The update-merge policy
  // ---------------------------------------------------------------------------------------

  /** The station after `updateState` merged a changeset into it at clock reading `now`:
      call sign and name are taken only when present and non-empty, the HD flag whenever it
      is present, and `updatedTimestamp` is stamped; nothing else moves. */
  function Merged(d: StationData, callSign: Option<string>, stationName: Option<string>,
                  hdEnabled: Option<bool>, now: nat): (r: StationData)
    ensures NotEmpty(callSign) ==> r.callSign == callSign
    ensures !NotEmpty(callSign) ==> r.callSign == d.callSign
    ensures NotEmpty(stationName) ==> r.stationName == stationName
    ensures !NotEmpty(stationName) ==> r.stationName == d.stationName
    ensures hdEnabled.Some? ==> r.hdEnabled == hdEnabled
    ensures hdEnabled.None? ==> r.hdEnabled == d.hdEnabled
    ensures r.updatedTimestamp == Some(now)
    ensures r.id == d.id && r.stationId == d.stationId
    ensures r.createdTimeStamp == d.createdTimeStamp && r.version == d.version
  {
    var withCallSign := if NotEmpty(callSign) then d.(callSign := callSign) else d;
    var withName := if NotEmpty(stationName) then withCallSign.(stationName := stationName) else withCallSign;
    var withHd := if hdEnabled.Some? && hdEnabled != withName.hdEnabled
                  then withName.(hdEnabled := hdEnabled) else withName;
    withHd.(updatedTimestamp := Some(now))
  }

  /** Merging the same changeset twice is merging it once, up to the later clock reading. */
  lemma MergeIdempotent(d: StationData, callSign: Option<string>, stationName: Option<string>,
                        hdEnabled: Option<bool>, first: nat, second: nat)
    ensures Merged(Merged(d, callSign, stationName, hdEnabled, first), callSign, stationName, hdEnabled, second)
            == Merged(d, callSign, stationName, hdEnabled, second)
  {
  }

  /** A changeset call sign that keeps a stored station valid once merged: empty or absent
      (then it is ignored), or of four characters. */
  predicate MergeableCallSign(callSign: Option<string>) {
    !NotEmpty(callSign) || |callSign.value| == 4
  }

  /** Merging keeps a valid station valid exactly when the call sign it brings in is of four
      characters or ignored; a call sign the validator accepted always is. */
  lemma MergeKeepsRules(d: StationData, callSign: Option<string>, stationName: Option<string>,
                        hdEnabled: Option<bool>, now: nat)
    requires Violations(d) == {}
    ensures Violations(Merged(d, callSign, stationName, hdEnabled, now)) == {} <==> MergeableCallSign(callSign)
    ensures CallSignRejections(callSign) == [] ==> MergeableCallSign(callSign)
  {
  }

  /** The validator and the merge policy disagree on the empty call sign: the merge would
      ignore it, the validator rejects it. */
  lemma EmptyCallSignMergeableButRejected()
    ensures MergeableCallSign(Some("")) && CallSignRejections(Some("")) != []
  {
  }

  /** A merge leaves every column as it was exactly when the stored `updatedTimestamp` is
      already the merge-time reading and each field the changeset would apply holds the
      stored value already. */
  lemma MergeCleanExactly(d: StationData, callSign: Option<string>, stationName: Option<string>,
                          hdEnabled: Option<bool>, now: nat)
    ensures Merged(d, callSign, stationName, hdEnabled, now) == d <==>
              && d.updatedTimestamp == Some(now)
              && (NotEmpty(callSign) ==> callSign == d.callSign)
              && (NotEmpty(stationName) ==> stationName == d.stationName)
              && (hdEnabled.Some? ==> hdEnabled == d.hdEnabled)
  {
  }

  /** The HD-flag test of `updateState` only skips writes that would change nothing, which is
      why the merge states it as "present means taken". */
  lemma HdTestSkipsOnlyNoOps(d: StationData, hdEnabled: Option<bool>, now: nat)
    requires hdEnabled == d.hdEnabled
    ensures Merged(d, None, None, hdEnabled, now) == d.(updatedTimestamp := Some(now))
  {
  }

  // ---------------------------------------------------------------------------------------
  // The service
  // ---------------------------------------------------------------------------------------

  class StationService {
    const repository: StationRepository
    /** Message resolution, `(key, args) -> text`; the locale is not modelled. */
    const messages: (string, seq<string>) -> string

    constructor (repository: StationRepository, messages: (string, seq<string>) -> string)
      ensures this.repository == repository && this.messages == messages
    {
      this.repository := repository;
      this.messages := messages;
    }

    /** The single NOT_FOUND error for a lookup of `key` under message `messageKey`. */
    function NotFoundError(messageKey: string, key: string): (e: Error)
      ensures e.code == 404 && e.message == Some(messages(messageKey, [key]))
    {
      Error(ErrorCode.NotFound.Code(), Some(messages(messageKey, [key])))
    }

    /** No stored station other than `s` is named `name`, when `name` would be applied. */
    ghost predicate NameFreeFor(s: Station, name: Option<string>)
      reads repository, repository.stations
    {
      NotEmpty(name) ==> forall t :: t in repository.stations && t != s ==> t.stationName != name
    }

    /** Saves the candidate once and returns a create envelope with its saved fields and no
        errors; the envelope's timestamp is never set. */
    method CreateStation(valueObject: Station, now: nat) returns (mixin: StationMixin)
      requires repository.Valid()
      requires valueObject !in repository.stations && valueObject.id.None?
      requires Violations(valueObject.Data()) == {} && repository.KeysFree(valueObject)
      modifies repository, valueObject
      ensures repository.Valid()
      ensures repository.stations == old(repository.stations) + [valueObject]
      ensures repository.nextId == old(repository.nextId) + 1
      ensures valueObject.Data() ==
                Persisted(old(valueObject.Data()).(id := Some(old(repository.nextId))), now)
      ensures fresh(mixin) && mixin.kind == Create && mixin.Valid()
      ensures mixin.HoldsFieldsOf(valueObject.Data())
      ensures mixin.errors == [] && mixin.timestamp.None?
    {
      mixin := new StationMixin(Create);
      var savedEntity := repository.Save(valueObject, now);
      mixin.BuildMixin(savedEntity);
    }

    /** Every stored station, each once. */
    method RetrieveAllStations() returns (stations: seq<Station>)
      ensures |stations| == |repository.stations|
      ensures forall i :: 0 <= i < |repository.stations| ==> repository.stations[i] in stations
      ensures forall i :: 0 <= i < |stations| ==> stations[i] in repository.stations
    {
      stations := repository.FindAll();
    }

    /** Merges the changeset into the entity, field by field, and stamps `updatedTimestamp`. */
    method UpdateState(stationObject: Station, mixin: StationMixin, now: nat)
      modifies stationObject
      ensures stationObject.Data() ==
                Merged(old(stationObject.Data()), mixin.callSign, mixin.stationName, mixin.hdEnabled, now)
    {
      if mixin.callSign.Some? && |mixin.callSign.value| != 0 {
        stationObject.callSign := mixin.callSign;
      }
      if mixin.stationName.Some? && |mixin.stationName.value| != 0 {
        stationObject.stationName := mixin.stationName;
      }
      if mixin.hdEnabled.Some? && mixin.hdEnabled != stationObject.hdEnabled {
        stationObject.hdEnabled := mixin.hdEnabled;
      }
      stationObject.updatedTimestamp := Some(now);
    }

    /** A get envelope: one NOT_FOUND error and no fields for a missing station, otherwise
        the station's fields and no errors. */
    method TransformStationToMixin(station: Station?, errorMessageKey: string, errorArg: string)
      returns (mixin: StationMixin)
      ensures fresh(mixin) && mixin.kind == Get && mixin.Valid() && mixin.timestamp.None?
      ensures station == null ==>
                mixin.NoFields() && mixin.errors == [NotFoundError(errorMessageKey, errorArg)]
      ensures station != null ==> mixin.HoldsFieldsOf(station.Data()) && mixin.errors == []
    {
      mixin := new StationMixin(Get);
      if station == null {
        mixin.AddError(ErrorCode.NotFound, Some(messages(errorMessageKey, [errorArg])));
        return;
      }
      mixin.BuildMixin(station);
    }

    /** Looks a station up by business key. */
    method RetrieveStationByStationId(stationId: string) returns (mixin: StationMixin)
      ensures fresh(mixin) && mixin.kind == Get && mixin.Valid() && mixin.timestamp.None?
      ensures repository.FindByStationId(stationId) == null ==>
                mixin.NoFields() && mixin.errors == [NotFoundError("station.not.found.station.id", stationId)]
      ensures repository.FindByStationId(stationId) != null ==>
                mixin.HoldsFieldsOf(repository.FindByStationId(stationId).Data()) && mixin.errors == []
    {
      var station := repository.FindByStationId(stationId);
      mixin := TransformStationToMixin(station, "station.not.found.station.id", stationId);
    }

    /** Looks a station up by name. */
    method RetrieveStationByStationName(stationName: string) returns (mixin: StationMixin)
      ensures fresh(mixin) && mixin.kind == Get && mixin.Valid() && mixin.timestamp.None?
      ensures repository.FindByStationName(stationName) == null ==>
                mixin.NoFields() && mixin.errors == [NotFoundError("station.not.found.station.name", stationName)]
      ensures repository.FindByStationName(stationName) != null ==>
                mixin.HoldsFieldsOf(repository.FindByStationName(stationName).Data()) && mixin.errors == []
    {
      var station := repository.FindByStationName(stationName);
      mixin := TransformStationToMixin(station, "station.not.found.station.name", stationName);
    }

    /** For a missing station: an update envelope with one NOT_FOUND error and no save. For a
        fetched one: merge with clock reading `mergeTime` and save, which for a stored station
        is a merge that changes nothing yet; the envelope holds the merged fields and the merged
        `updatedTimestamp`, read before the update hook runs at commit. */
    method ValidateStationOrSave(fetchedStation: Station?, stateToBeMerged: StationMixin,
                                 messageKey: string, errorArg: string,
                                 mergeTime: nat) returns (mixin: StationMixin)
      requires repository.Valid()
      requires fetchedStation != null ==>
                 && fetchedStation in repository.stations
                 && MergeableCallSign(stateToBeMerged.callSign)
                 && NameFreeFor(fetchedStation, stateToBeMerged.stationName)
      modifies repository, if fetchedStation == null then {} else {fetchedStation}
      ensures repository.Valid() && repository.stations == old(repository.stations)
      ensures fresh(mixin) && mixin.kind == Update && mixin.Valid()
      ensures fetchedStation == null ==>
                && repository.nextId == old(repository.nextId)
                && mixin.NoFields() && mixin.timestamp.None?
                && mixin.errors == [NotFoundError(messageKey, errorArg)]
      ensures fetchedStation != null ==>
                && repository.nextId == old(repository.nextId)
                && fetchedStation.Data() ==
                     Merged(old(fetchedStation.Data()), stateToBeMerged.callSign,
                            stateToBeMerged.stationName, stateToBeMerged.hdEnabled, mergeTime)
                && Violations(fetchedStation.Data()) == {}
                && mixin.HoldsFieldsOf(fetchedStation.Data())
                && mixin.timestamp == fetchedStation.updatedTimestamp == Some(mergeTime)
                && mixin.errors == []
    {
      if fetchedStation == null {
        mixin := new StationMixin(Update);
        mixin.AddError(ErrorCode.NotFound, Some(messages(messageKey, [errorArg])));
        return;
      }
      ghost var before := fetchedStation.Data();
      MergeKeepsRules(before, stateToBeMerged.callSign, stateToBeMerged.stationName,
                      stateToBeMerged.hdEnabled, mergeTime);
      UpdateState(fetchedStation, stateToBeMerged, mergeTime);
      var updatedEntity := repository.Save(fetchedStation, mergeTime);
      mixin := new StationMixin(Update);
      mixin.SetTimestamp(updatedEntity.updatedTimestamp.value);
      mixin.BuildMixin(updatedEntity);
    }

    /** Updates the station with business key `stationId` from a changeset, inside one
        transaction: merge at clock reading `mergeTime`, then the flush at commit, which runs
        the update hook at `commitTime` when the merge changed a column. The envelope is built
        before the commit, so it carries the merge's timestamp, and it echoes the entity's
        business key, which the merge never changes, not the changeset's. */
    method UpdateStation(stationId: string, stationMixin: StationMixin, mergeTime: nat, commitTime: nat)
      returns (mixin: StationMixin)
      requires repository.Valid()
      requires repository.FindByStationId(stationId) != null ==>
                 && MergeableCallSign(stationMixin.callSign)
                 && NameFreeFor(repository.FindByStationId(stationId), stationMixin.stationName)
      modifies repository, repository.stations
      ensures repository.Valid() && repository.stations == old(repository.stations)
      ensures fresh(mixin) && mixin.kind == Update && mixin.Valid()
      ensures old(repository.FindByStationId(stationId)) == null ==>
                && repository.nextId == old(repository.nextId)
                && (forall s :: s in repository.stations ==> s.Data() == old(s.Data()))
                && mixin.NoFields() && mixin.timestamp.None?
                && mixin.errors == [NotFoundError("station.not.found.station.id", stationId)]
      ensures var found := old(repository.FindByStationId(stationId));
              found != null ==>
                var merged := Merged(old(found.Data()), stationMixin.callSign, stationMixin.stationName,
                                     stationMixin.hdEnabled, mergeTime);
                && repository.nextId == old(repository.nextId)
                && (merged != old(found.Data()) ==>
                      found.Data() == Persisted(merged, commitTime) && found.updatedTimestamp == Some(commitTime))
                && (merged == old(found.Data()) ==> found.Data() == old(found.Data()))
                && (forall s :: s in repository.stations && s != found ==> s.Data() == old(s.Data()))
                && mixin.HoldsFieldsOf(found.Data())
                && mixin.stationId == Some(stationId)
                && mixin.timestamp == Some(mergeTime)
                && mixin.errors == []
    {
      var fetchedStation := repository.FindByStationId(stationId);
      var loaded := if fetchedStation == null then Blank else fetchedStation.Data();
      mixin := ValidateStationOrSave(fetchedStation, stationMixin, "station.not.found.station.id",
                                     stationId, mergeTime);
      if fetchedStation != null {
        repository.Flush(fetchedStation, loaded, commitTime);
      }
    }

    /** Exactly the stored stations whose HD flag is true. */
    method RetrieveHdEnabledStations() returns (stations: seq<Station>)
      ensures forall i :: 0 <= i < |stations| ==>
                stations[i] in repository.stations && stations[i].hdEnabled == Some(true)
      ensures forall i :: 0 <= i < |repository.stations| && repository.stations[i].hdEnabled == Some(true) ==>
                repository.stations[i] in stations
      ensures repository.Valid() ==> Distinct(stations)
    {
      stations := repository.FindHdEnabledStations();
    }

    /** Removes the station with business key `stationId`. With none removed, the envelope
        holds one NOT_FOUND error; otherwise the first removed station's fields and the
        deletion instant `now`. Afterwards no station has that key. */
    method DeleteStationByStationId(stationId: string, now: nat) returns (mixin: StationMixin)
      requires repository.Valid()
      modifies repository`stations
      ensures repository.Valid()
      ensures forall s :: s in repository.stations <==> s in old(repository.stations) && s.stationId != Some(stationId)
      ensures repository.FindByStationId(stationId) == null
      ensures fresh(mixin) && mixin.kind == Delete && mixin.Valid()
      ensures old(repository.FindByStationId(stationId)) == null ==>
                mixin.NoFields() && mixin.timestamp.None? &&
                mixin.errors == [NotFoundError("station.not.found.station.id", stationId)]
      ensures var found := old(repository.FindByStationId(stationId));
              found != null ==>
                mixin.HoldsFieldsOf(found.Data()) && mixin.timestamp == Some(now) && mixin.errors == []
    {
      var deletedStations := repository.RemoveByStationId(stationId);
      mixin := new StationMixin(Delete);
      if deletedStations == [] {
        mixin.AddError(ErrorCode.NotFound, Some(messages("station.not.found.station.id", [stationId])));
      } else {
        var currentTime := now;
        mixin.SetTimestamp(currentTime);
        var deletedStation := deletedStations[0];
        mixin.BuildMixin(deletedStation);
      }
    }
  }
}

/** Client runs of the service: the two-station fixture the service's tests save, and runs of
    each operation against any valid store, with the envelopes compared by Lombok's equality. */
module Scenarios {
  import opened Wrappers
  import opened ErrorModel
  import opened StationModel
  import opened Envelope
  import opened Repository
  import opened FieldErrors
  import opened Validation
  import opened Service

  /** A station as a client fills it in before the first save. */
  method NewStation(stationId: string, stationName: string, callSign: string, hdEnabled: Option<bool>)
    returns (s: Station)
    ensures fresh(s)
    ensures s.Data() == Blank.(stationId := Some(stationId), stationName := Some(stationName),
                               callSign := Some(callSign), hdEnabled := hdEnabled)
  {
    s := new Station();
    s.stationId := Some(stationId);
    s.stationName := Some(stationName);
    s.callSign := Some(callSign);
    s.hdEnabled := hdEnabled;
  }

  /** The fixture: an HD station "WHTZ-FM" and a station "KISS-FM" whose HD flag is left null,
      saved in that order into an empty store. The second save fills the null flag with false. */
  method SetUp(messages: (string, seq<string>) -> string, first: nat, second: nat)
    returns (service: StationService, hdStation: Station, nonHdStation: Station)
    ensures fresh(service) && fresh(service.repository) && fresh(hdStation) && fresh(nonHdStation)
    ensures service.repository.Valid()
    ensures service.repository.stations == [hdStation, nonHdStation]
    ensures service.messages == messages
    ensures hdStation.Data() ==
              Persisted(Blank.(id := Some(1), stationId := Some("WHTZ-FM"), stationName := Some("Z-100"),
                               callSign := Some("WHTZ"), hdEnabled := Some(true)), first)
    ensures nonHdStation.Data() ==
              Persisted(Blank.(id := Some(2), stationId := Some("KISS-FM"), stationName := Some("102.7"),
                               callSign := Some("KISS")), second)
    ensures hdStation.hdEnabled == Some(true) && nonHdStation.hdEnabled == Some(false)
  {
    var repository := new StationRepository();
    hdStation := NewStation("WHTZ-FM", "Z-100", "WHTZ", Some(true));
    ValidExactly(hdStation.Data());
    hdStation := repository.Save(hdStation, first);
    nonHdStation := NewStation("KISS-FM", "102.7", "KISS", None);
    ValidExactly(nonHdStation.Data());
    nonHdStation := repository.Save(nonHdStation, second);
    service := new StationService(repository, messages);
  }

  /** On the fixture, the store lists both stations and the HD filter finds only the first,
      once. */
  method ListFixture(service: StationService, hdStation: Station, nonHdStation: Station)
    returns (all: seq<Station>, hdStations: seq<Station>)
    requires service.repository.Valid()
    requires service.repository.stations == [hdStation, nonHdStation]
    requires hdStation.hdEnabled == Some(true) && nonHdStation.hdEnabled == Some(false)
    ensures |all| == 2 && hdStation in all && nonHdStation in all
    ensures hdStation in hdStations && Distinct(hdStations)
    ensures forall i :: 0 <= i < |hdStations| ==> hdStations[i] == hdStation
  {
    all := service.RetrieveAllStations();
    hdStations := service.RetrieveHdEnabledStations();
    assert service.repository.stations[0] == hdStation && service.repository.stations[1] == nonHdStation;
  }

  /** The envelope a client builds to compare with: of variant `kind`, holding `d`'s fields
      and `timestamp`, with no errors. */
  method ExpectedEnvelope(kind: Kind, d: StationData, timestamp: Option<nat>) returns (m: StationMixin)
    requires kind == Get ==> timestamp.None?
    ensures fresh(m) && m.kind == kind && m.Valid()
    ensures m.HoldsFieldsOf(d) && m.timestamp == timestamp && m.errors == []
  {
    m := new StationMixin(kind);
    m.id, m.stationId, m.stationName, m.hdEnabled, m.callSign :=
      d.id, d.stationId, d.stationName, d.hdEnabled, d.callSign;
    m.timestamp := timestamp;
  }

  /** Creating a station: the create envelope equals the one a client builds with the created
      timestamp, although the service never sets it. */
  method CreateMatchesExpected(service: StationService, newStation: Station, now: nat)
    returns (saved: StationMixin, expected: StationMixin)
    requires service.repository.Valid()
    requires newStation !in service.repository.stations && newStation.id.None?
    requires Violations(newStation.Data()) == {} && service.repository.KeysFree(newStation)
    modifies service.repository, newStation
    ensures service.repository.Valid() && newStation in service.repository.stations
    ensures SameEnvelope(saved, expected)
    ensures saved.timestamp.None? && expected.timestamp == newStation.createdTimeStamp
    ensures expected.timestamp.Some?
  {
    saved := service.CreateStation(newStation, now);
    expected := ExpectedEnvelope(Create, newStation.Data(), newStation.createdTimeStamp);
  }

  /** Creating a station and reading it back by business key: the get envelope equals one a
      client builds from the saved entity, with no errors. */
  method CreateThenRetrieve(service: StationService, s: Station, now: nat)
    returns (fetched: StationMixin, expected: StationMixin)
    requires service.repository.Valid()
    requires s !in service.repository.stations && s.id.None?
    requires Violations(s.Data()) == {} && service.repository.KeysFree(s)
    modifies service.repository, s
    ensures service.repository.Valid() && s in service.repository.stations
    ensures SameEnvelope(fetched, expected)
    ensures fetched.HoldsFieldsOf(s.Data()) && fetched.errors == [] && fetched.timestamp.None?
  {
    var created := service.CreateStation(s, now);
    assert Stored(s.Data());
    assert service.repository.FindByStationId(s.stationId.value) == s;
    fetched := service.RetrieveStationByStationId(s.stationId.value);
    expected := ExpectedEnvelope(Get, s.Data(), None);
  }

  /** Reading a stored station back by business key and by name: both lookups equal a get
      envelope built from the entity. */
  method RetrieveMatchesExpected(service: StationService, station: Station)
    returns (byId: StationMixin, byName: StationMixin, expected: StationMixin)
    requires service.repository.Valid() && station in service.repository.stations
    ensures SameEnvelope(byId, expected) && SameEnvelope(byName, expected)
    ensures byId.errors == [] && byName.errors == []
  {
    assert Stored(station.Data());
    assert service.repository.FindByStationId(station.stationId.value) == station;
    assert service.repository.FindByStationName(station.stationName.value) == station;
    byId := service.RetrieveStationByStationId(station.stationId.value);
    byName := service.RetrieveStationByStationName(station.stationName.value);
    expected := ExpectedEnvelope(Get, station.Data(), None);
  }

  /** Updating a stored station with its own call sign and business key, the flipped HD flag
      and its name suffixed "Update": the envelope equals the changeset, the entity now holds
      the changeset's values, the envelope carries the merge's timestamp, and the entity the
      commit's. */
  method UpdateEchoesChangeset(service: StationService, fetchedStation: Station, mergeTime: nat, commitTime: nat)
    returns (changeset: StationMixin, updated: StationMixin)
    requires service.repository.Valid() && fetchedStation in service.repository.stations
    requires fetchedStation.stationName.Some? &&
             service.NameFreeFor(fetchedStation, Some(fetchedStation.stationName.value + "Update"))
    modifies service.repository, service.repository.stations
    ensures SameEnvelope(updated, changeset)
    ensures fetchedStation.stationId == changeset.stationId && fetchedStation.callSign == changeset.callSign
    ensures fetchedStation.stationName == changeset.stationName && fetchedStation.hdEnabled == changeset.hdEnabled
    ensures updated.timestamp == Some(mergeTime) && fetchedStation.updatedTimestamp == Some(commitTime)
  {
    var before := fetchedStation.Data();
    assert Stored(before);
    ValidExactly(before);
    assert service.repository.FindByStationId(before.stationId.value) == fetchedStation;
    changeset := ExpectedEnvelope(Update,
                                  Blank.(stationId := before.stationId, callSign := before.callSign,
                                         hdEnabled := Some(!before.hdEnabled.value),
                                         stationName := Some(before.stationName.value + "Update")),
                                  None);
    updated := service.UpdateStation(fetchedStation.stationId.value, changeset, mergeTime, commitTime);
  }

  /** The update run on the fixture: the HD station, renamed "Z-100Update" with its flag
      flipped, comes back as an envelope equal to the changeset, carrying the merge's
      timestamp. */
  method UpdateFixtureStation(messages: (string, seq<string>) -> string, first: nat, second: nat,
                              mergeTime: nat, commitTime: nat)
    returns (changeset: StationMixin, updated: StationMixin)
    ensures SameEnvelope(updated, changeset) && updated.timestamp == Some(mergeTime)
  {
    var service, hdStation, nonHdStation := SetUp(messages, first, second);
    assert "Z-100" + "Update" != "102.7";
    changeset, updated := UpdateEchoesChangeset(service, hdStation, mergeTime, commitTime);
  }

  /** Updating a stored station with an empty changeset at the reading its `updatedTimestamp`
      already holds: the merge changes no column, so the flush runs no hook and the entity,
      `version` included, is as it was. */
  method UpdateWithNothingToChange(service: StationService, station: Station, t: nat, commitTime: nat)
    returns (updated: StationMixin)
    requires service.repository.Valid() && station in service.repository.stations
    requires station.updatedTimestamp == Some(t)
    modifies service.repository, service.repository.stations
    ensures station.Data() == old(station.Data())
    ensures updated.HoldsFieldsOf(station.Data()) && updated.timestamp == Some(t) && updated.errors == []
  {
    assert Stored(station.Data());
    assert service.repository.FindByStationId(station.stationId.value) == station;
    var changeset := new StationMixin(Update);
    MergeCleanExactly(station.Data(), None, None, None, t);
    updated := service.UpdateStation(station.stationId.value, changeset, t, commitTime);
  }

  /** Updating an unknown business key: the envelope has errors and equals an update envelope
      holding only the NOT_FOUND error for that key. */
  method UpdateUnknownStation(service: StationService, mergeTime: nat, commitTime: nat)
    returns (updated: StationMixin, expected: StationMixin)
    requires service.repository.Valid() && service.repository.FindByStationId("ABCD") == null
    modifies service.repository, service.repository.stations
    ensures updated.HasErrors() && SameEnvelope(updated, expected)
  {
    var changeset := new StationMixin(Update);
    updated := service.UpdateStation("ABCD", changeset, mergeTime, commitTime);
    expected := new StationMixin(Update);
    expected.AddError(ErrorCode.NotFound, Some(service.messages("station.not.found.station.id", ["ABCD"])));
  }

  /** Deleting a stored station by business key: the envelope equals one holding only its four
      fields (its id and deletion timestamp are outside equality), and the station is gone. */
  method DeleteMatchesExpected(service: StationService, station: Station, now: nat)
    returns (deleted: StationMixin, expected: StationMixin)
    requires service.repository.Valid() && station in service.repository.stations
    modifies service.repository
    ensures service.repository.Valid()
    ensures SameEnvelope(deleted, expected)
    ensures deleted.id == station.id && expected.id.None?
    ensures deleted.timestamp == Some(now) && expected.timestamp.None?
    ensures station !in service.repository.stations
  {
    assert Stored(station.Data());
    deleted := service.DeleteStationByStationId(station.stationId.value, now);
    expected := ExpectedEnvelope(Delete,
                                 Blank.(stationId := station.stationId, stationName := station.stationName,
                                        callSign := station.callSign, hdEnabled := station.hdEnabled),
                                 None);
  }

  /** Once the station with business key `key` is deleted, looking that key up is NOT_FOUND. */
  method DeleteThenRetrieve(service: StationService, key: string, now: nat)
    returns (deleted: StationMixin, fetched: StationMixin)
    requires service.repository.Valid()
    modifies service.repository
    ensures fetched.NoFields() &&
            fetched.errors == [Error(404, Some(service.messages("station.not.found.station.id", [key])))]
  {
    deleted := service.DeleteStationByStationId(key, now);
    fetched := service.RetrieveStationByStationId(key);
  }

  /** The update path of the controller on a changeset whose call sign is "ABC123": the
      validator records one rejection, and the envelope holds exactly one 400 error whose
      message is resolved from `callsign.size.invalid` with the value, and no fields. */
  method RejectSixCharacterCallSign(validator: StationMixinValidator) returns (mixin: StationMixin)
    ensures fresh(mixin) && mixin.kind == Update && mixin.NoFields()
    ensures mixin.errors == [Error(400, Some(validator.messages("callsign.size.invalid", ["ABC123"])))]
  {
    var changeset := new StationMixin(Update);
    changeset.SetCallSign(Some("ABC123"));
    var result := new BindingErrors();
    validator.Validate(changeset, result);
    mixin := validator.CreateMixin(result);
  }
}

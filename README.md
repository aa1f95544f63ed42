# Radio-station lifecycle service, modelled in Dafny

This project models the core of a Spring/JPA backend that keeps radio-station records. The
core is the station lifecycle service, which covers:

- creating a station;
- retrieving stations, by business key (`stationId`), by name, all of them, or only the
  HD-enabled ones;
- updating a station through a field-optional merge policy;
- deleting a station by business key.

Create, retrieve by business key, retrieve by name, update and delete each return a result
envelope, the "mixin". It carries copies of the entity's fields, a timestamp specific to the
operation, and an ordered list of `(code, message)` errors. The two listings, all stations
and the HD-enabled ones, return the stations themselves.

The model is built from these parts:

- `wrappers.dfy`: `Option`, in which `None` stands for Java `null`.
- `errors.dfy`: the error codes (BAD_REQUEST 400, NOT_FOUND 404, CONFLICT 409) and the
  `(code, message)` error pair.
- `station.dfy`:
  - the `Station` entity, as a class whose fields the persistence layer and the service
    update in place;
  - its column snapshot `StationData`;
  - the Bean Validation rules, as the set of violations a station trips (`Violations`);
  - Lombok equality of stations (`SameStation`);
  - the `@PrePersist`/`@PreUpdate` hook, as the function `Persisted` and the method
    `Station.SetTimestamps`.
- `field_errors.dfy`: the field-error collector that the validator writes into (Spring's
  `Errors`), reduced to an ordered list.
- `envelope.dfy`:
  - the result envelope, as one class `StationMixin` whose `kind` tells apart the four
    variants (create, get, update, delete);
  - the get variant's timestamp is always null;
  - Lombok equality of envelopes.
- `validator.dfy`: the update validator, with its single call-sign rule, and the mapping of
  field errors to a BAD_REQUEST update envelope.
- `repository.dfy`: an in-memory store behind the repository interface. It holds:
  - a sequence of `Station` objects;
  - an id counter;
  - an invariant `Valid()`: each object is stored once, every stored station passed
    validation and the hook, ids are below the counter, and ids, business keys and names
    are unique.
- `service.dfy`:
  - the merge policy `Merged`;
  - the service class, whose methods are each proved against the repository's state and
    the specification functions above.
- `scenarios.dfy`: client runs of the service, with the envelopes compared by Lombok
  equality.
  - `SetUp` builds the two-station fixture the service tests save, and `ListFixture` lists it.
  - The other scenarios run each operation against any store that keeps the invariant, which
    covers the fixture and every other valid store.

The clock (`LocalDateTime.now(ZoneOffset.UTC)`) becomes a `nat` parameter of each operation
that reads it. Message resolution (`MessageSource.getMessage`) becomes an injected total
function `(key, args) -> text`.

### Where the code's comments and the code differ (the model follows the code)

- **Create envelope timestamp.** The comment on the envelope's timestamp
  (StationMixin.java:76-79) says an insert reports the entity's `createdTimestamp`.
  `createStation` (StationService.java:53-60) never calls `setTimestamp`, so the create
  envelope's timestamp stays null.
  - `Service.StationService.CreateStation` ensures `mixin.timestamp.None?`.
  - `Scenarios.CreateMatchesExpected` shows why the service test's comparison
    (StationServiceTest.java:123-127) still holds: the variant's timestamp is excluded from
    equality, so an expected envelope with the timestamp set equals one that has none.
- **Empty call sign on update.** The validator's doc comment (StationMixinValidator.java:32)
  says empty or null fields are ignored. The code rejects every non-null call sign whose
  length is not 4, so it also rejects the empty string (StationMixinValidator.java:45). The
  merge policy, in contrast, would ignore an empty call sign.
  - `Validation.EmptyCallSignRejected` and `Service.EmptyCallSignMergeableButRejected` state
    this gap.
- **Update envelope timestamp.** The same comment (StationMixin.java:78-79) says an update
  reports the entity's `updatedTimestamp`. The envelope copies it (StationService.java:146)
  right after `save` (StationService.java:144). For the managed entity that `updateStation`
  fetched, `save` is a JPA merge that changes nothing. The `@PreUpdate` hook
  (Station.java:90-102) runs only at the flush when the `@Transactional` method commits. It
  runs there only if the dirty check finds a column that differs from the one loaded. So:
  - the envelope carries the reading `updateState` took (StationService.java:79);
  - when the merge changed a column, the stored entity ends with the commit-time reading and
    one more `version`;
  - when it changed none (an empty changeset at the reading `updatedTimestamp` already holds),
    no hook runs and the entity stays as it was.
  - `Service.StationService.UpdateStation` ensures `mixin.timestamp == Some(mergeTime)`. It
    ensures `found.updatedTimestamp == Some(commitTime)` when the merge changed a column, and
    an unchanged entity when it did not.
  - `Scenarios.UpdateWithNothingToChange` shows the second case.
- **Business key in the update envelope.** The envelope is built from the saved entity
  (StationService.java:147). It therefore echoes the entity's business key, which the merge
  never changes, and not the changeset's. `Service.StationService.UpdateStation` ensures
  `mixin.stationId == Some(stationId)`.
- **HD-flag test.** The "present and different" test on `hdEnabled` (StationService.java:75-76)
  only skips writes that would change nothing. `Merged` therefore states it as "present means
  taken": its ensures give the flag as the changeset's whenever that is present.
  `Service.HdTestSkipsOnlyNoOps` adds that a changeset holding the current flag alone changes
  only `updatedTimestamp`.

## Model

| member | source | states |
|---|---|---|
| ErrorModel.ErrorCode.Code | src/main/java/com/iheartmedia/model/ErrorCodes.java:8-10 | the numeric code is 400 exactly for BAD_REQUEST, 404 exactly for NOT_FOUND and 409 exactly for CONFLICT |
| ErrorModel.KnownCodesAreErrorCodes | src/main/java/com/iheartmedia/model/ErrorCodes.java:7-20 | an integer is one of the three known codes exactly when some error code maps to it |
| StationModel.Violations | src/main/java/com/iheartmedia/model/Station.java:54-70 | each rule is reported exactly when it is broken: empty or null id, id present but not matching `^([KW])[A-Za-z0-9\-].*$` as a whole-string match (`.` excludes line terminators), empty or null name, empty or null call sign, call sign present but not of length 4; a null value trips only the `@NotEmpty` rule |
| StationModel.ValidExactly | src/main/java/com/iheartmedia/model/Station.java:54-70 | a station has no violations exactly when its id matches the pattern, its name is non-empty and its call sign has length 4 |
| StationModel.ExampleStationsValid | src/test/java/com/iheartmedia/model/StationTest.java:40-72 | the two three-field stations of the tests (call signs WXRK and KXRK) are valid |
| StationModel.AllNullViolations | src/test/java/com/iheartmedia/model/StationTest.java:50-62 | a freshly constructed station has exactly the three emptiness violations, so three in all |
| StationModel.SingleViolationExamples | src/test/java/com/iheartmedia/model/StationTest.java:75-104 | "XYZ" as id is the only fault (the pattern), and "XYZ93" as call sign is the only fault (the size rule) |
| StationModel.ShortIdExamples | src/main/java/com/iheartmedia/model/Station.java:55-56 | a lone "W" does not match the pattern, which needs a second character; an empty id breaks both id rules |
| StationModel.SameStation | src/main/java/com/iheartmedia/model/Station.java:42-43 | two stations are equal exactly when they agree after both timestamps, `id` and `version` are blanked |
| StationModel.EqualStationsEquallyValid | src/main/java/com/iheartmedia/model/Station.java:42-70 | equal stations trip the same violations, because validation reads only columns that equality compares |
| StationModel.Persisted | src/main/java/com/iheartmedia/model/Station.java:90-102 | the hook stamps `createdTimeStamp` only when it is null, always sets `updatedTimestamp` to the clock reading, defaults a null `hdEnabled` to false and keeps a set one, adds one to `version`, and leaves every other column alone |
| StationModel.PersistKeepsRulesAndEquality | src/main/java/com/iheartmedia/model/Station.java:90-102 | a persist never changes the violations, and the station stays equal to itself exactly when `hdEnabled` was already set |
| StationModel.PersistAllBookkeeping | src/main/java/com/iheartmedia/model/Station.java:90-102 | over any run of persists, `version` grows by their number, `id` is kept, equality is kept unless the flag started null, `updatedTimestamp` is the last reading, the flag is set, and `createdTimeStamp` is the first reading if it started null and is otherwise kept |
| StationModel.VersionCountsPersists | src/main/java/com/iheartmedia/model/Station.java:80-82 | starting from the initial `version` 0, the version after n persists is n |
| StationModel.Station.constructor | src/main/java/com/iheartmedia/model/Station.java:46-82 | a new entity has every reference null and `version` 0 |
| StationModel.Station.SetTimestamps | src/main/java/com/iheartmedia/model/Station.java:90-102 | the entity's new columns are `Persisted` of its old columns at one clock reading |
| FieldErrors.BindingErrors.constructor | src/main/java/com/iheartmedia/utils/StationMixinValidator.java:43 | a new collector holds no field errors |
| FieldErrors.BindingErrors.RejectValue | src/main/java/com/iheartmedia/utils/StationMixinValidator.java:46-47 | a rejection is appended after those already recorded, with its field, code, arguments and default message |
| Envelope.StationMixin.constructor | src/main/java/com/iheartmedia/model/IError.java:39-41 | a new envelope of the given variant has no fields, no timestamp and an empty error list |
| Envelope.StationMixin.AddError | src/main/java/com/iheartmedia/model/IError.java:56-58 | exactly one `(code, message)` pair is appended, the existing errors are kept in order, and all codes stay known |
| Envelope.StationMixin.HasErrors | src/main/java/com/iheartmedia/model/IError.java:60-62 | true exactly when the error list is non-empty |
| Envelope.StationMixin.GetTimestamp | src/main/java/com/iheartmedia/dto/GetStationMixin.java:12-14 | the get variant always reports null; the create, update and delete variants report their stored timestamp |
| Envelope.StationMixin.SetTimestamp | src/main/java/com/iheartmedia/dto/CreateStationMixin.java:31-33 | the create, update and delete variants store the given instant and report it back; the get variant ignores it |
| Envelope.StationMixin.BuildMixin | src/main/java/com/iheartmedia/dto/StationMixin.java:106-111 | afterwards the envelope's id, business key, name, call sign and HD flag are exactly the station's, and nothing else changes |
| Envelope.StationMixin.BuildMixinFromErrors | src/main/java/com/iheartmedia/dto/StationMixin.java:118-122 | one BAD_REQUEST error with the field error's default message is appended per field error, in order, after the errors already present |
| Envelope.StationMixin.SetStationId | src/main/java/com/iheartmedia/dto/StationMixin.java:125-127 | sets the business key and only that field |
| Envelope.StationMixin.SetStationName | src/main/java/com/iheartmedia/dto/StationMixin.java:130-132 | sets the name and only that field |
| Envelope.StationMixin.SetHdEnabled | src/main/java/com/iheartmedia/dto/StationMixin.java:135-137 | sets the HD flag and only that field |
| Envelope.StationMixin.SetCallSign | src/main/java/com/iheartmedia/dto/StationMixin.java:140-142 | sets the call sign and only that field |
| Envelope.SameEnvelope | src/main/java/com/iheartmedia/dto/StationMixin.java:27 | Lombok equality of envelopes, also following CreateStationMixin.java:20, UpdateStationMixin.java:22 and DeleteStationMixin.java:19: it compares the variant, the business key, name, HD flag and call sign, and the errors, and ignores `id` and the variant's timestamp; every envelope equals itself |
| Envelope.SameEnvelopeIsEquivalence | src/main/java/com/iheartmedia/dto/StationMixin.java:27 | envelope equality is reflexive, symmetric and transitive, and equal envelopes share their variant and their errors |
| Envelope.BuiltFromEqualStations | src/main/java/com/iheartmedia/dto/StationMixin.java:27 | two envelopes of one variant with the same errors, built from two stations, are equal exactly when the stations are equal |
| Validation.CallSignRejections | src/main/java/com/iheartmedia/utils/StationMixinValidator.java:43-49 | there is no rejection exactly when the call sign is null or of length 4; otherwise there is exactly one rejection of `callSign`, with code `callsign.size.invalid` and the value as its argument |
| Validation.EmptyCallSignRejected | src/main/java/com/iheartmedia/utils/StationMixinValidator.java:45-47 | the empty call sign gets exactly one rejection: of field `callSign`, with code `callsign.size.invalid`, the empty string as its argument and no default message |
| Validation.StationMixinValidator.constructor | src/main/java/com/iheartmedia/utils/StationMixinValidator.java:23-24 | the validator resolves messages with the message source it is given |
| Validation.StationMixinValidator.Validate | src/main/java/com/iheartmedia/utils/StationMixinValidator.java:43-49 | the collector's new contents are its old contents followed by the call-sign rejections of the target |
| Validation.StationMixinValidator.CreateMixin | src/main/java/com/iheartmedia/utils/StationMixinValidator.java:57-64 | an update envelope with no fields and no timestamp, holding one BAD_REQUEST error per field error, in order, with the message resolved from that error's code and arguments |
| Repository.FirstWithStationId | src/main/java/com/iheartmedia/repository/IStationRepository.java:27 | null exactly when no station has the key; otherwise the first station of the sequence with that key: it is at some index, and no station before it has the key |
| Repository.FirstWithStationName | src/main/java/com/iheartmedia/repository/IStationRepository.java:35 | null exactly when no station has the name; otherwise the first station of the sequence with that name: it is at some index, and no station before it has the name |
| Repository.HdEnabledOf | src/main/java/com/iheartmedia/repository/IStationRepository.java:41-42 | exactly the stations whose flag is true, without duplicates when the input has none |
| Repository.Partition | src/main/java/com/iheartmedia/repository/IStationRepository.java:49 | exactly the stations with (or without) the key; no duplicates are introduced; with unique keys at most one station has the key |
| Repository.StationRepository.constructor | src/main/java/com/iheartmedia/repository/IStationRepository.java:19 | an empty store satisfies the invariant, and the first id it hands out is 1 |
| Repository.StationRepository.FindByStationId | src/main/java/com/iheartmedia/repository/IStationRepository.java:21-27 | null exactly when no stored station has the key; otherwise a stored station with that key, and in a valid store the only one |
| Repository.StationRepository.FindByStationName | src/main/java/com/iheartmedia/repository/IStationRepository.java:29-35 | null exactly when no stored station has the name; otherwise a stored station with that name, and in a valid store the only one |
| Repository.StationRepository.FindHdEnabledStations | src/main/java/com/iheartmedia/repository/IStationRepository.java:41-42 | exactly the stored stations whose flag is true, each once in a valid store |
| Repository.StationRepository.FindAll | src/main/java/com/iheartmedia/repository/IStationRepository.java:19 | every stored station and nothing else, as many as are stored |
| Repository.StationRepository.Save | src/main/java/com/iheartmedia/repository/IStationRepository.java:19 | returns the same object and keeps the invariant. For a stored station it is a merge that changes nothing: store, counter and columns stay. A new one is persisted: it gets the next id and the hook at once and is appended, and the counter advances |
| Repository.StationRepository.Flush | src/main/java/com/iheartmedia/model/Station.java:90-102 | at commit, a stored station whose columns differ from those loaded gets `Persisted` of its columns at the commit-time reading. One whose columns are the loaded ones is left as it is, hook not run. The store stays valid |
| Repository.StationRepository.RemoveByStationId | src/main/java/com/iheartmedia/repository/IStationRepository.java:44-49 | the removed stations are exactly those with the key, and the others stay. At most one is removed: none exactly when the finder returns null, otherwise the finder's station. The invariant is kept |
| Service.Merged | src/main/java/com/iheartmedia/service/StationService.java:68-80 | call sign and name are overwritten exactly when the changeset's value is present and non-empty, and the HD flag exactly when it is present. `updatedTimestamp` is the merge-time reading. Id, business key, creation timestamp and version do not move |
| Service.MergeIdempotent | src/main/java/com/iheartmedia/service/StationService.java:68-80 | merging a changeset twice is merging it once, at the later clock reading |
| Service.MergeKeepsRules | src/main/java/com/iheartmedia/service/StationService.java:68-80 | merging into a valid station keeps it valid exactly when the incoming call sign is ignored or has length 4, which every call sign the validator accepts does |
| Service.EmptyCallSignMergeableButRejected | src/main/java/com/iheartmedia/service/StationService.java:69 | the merge would ignore an empty call sign, but the validator rejects it |
| Service.MergeCleanExactly | src/main/java/com/iheartmedia/service/StationService.java:68-80 | a merge leaves the station exactly as it was if and only if the stored `updatedTimestamp` is already the merge-time reading and every field the changeset would apply already holds that value |
| Service.HdTestSkipsOnlyNoOps | src/main/java/com/iheartmedia/service/StationService.java:75-78 | when the changeset's flag equals the current one, merging it changes only `updatedTimestamp` |
| Service.StationService.constructor | src/main/java/com/iheartmedia/service/StationService.java:41-43 | the service uses the repository and message source it is given |
| Service.StationService.NotFoundError | src/main/java/com/iheartmedia/service/StationService.java:95-96 | the NOT_FOUND error carries 404 and the message resolved from the key and the lookup argument |
| Service.StationService.CreateStation | src/main/java/com/iheartmedia/service/StationService.java:53-60 | the candidate is saved once: it gets the next id and the hook, is appended to the store, and the counter advances by one. The result is a fresh create envelope with the saved fields, no errors and no timestamp |
| Service.StationService.RetrieveAllStations | src/main/java/com/iheartmedia/service/StationService.java:64-66 | every stored station and nothing else |
| Service.StationService.UpdateState | src/main/java/com/iheartmedia/service/StationService.java:68-80 | the entity's new columns are `Merged` of its old columns with the changeset's call sign, name and flag |
| Service.StationService.TransformStationToMixin | src/main/java/com/iheartmedia/service/StationService.java:91-101 | a get envelope with no timestamp. A null station gives no fields and exactly one NOT_FOUND error with the resolved message. Otherwise the envelope has the station's fields and no errors |
| Service.StationService.RetrieveStationByStationId | src/main/java/com/iheartmedia/service/StationService.java:105-109 | for a missing key, no fields and one NOT_FOUND error for `station.not.found.station.id` with the key. Otherwise the found station's fields and no errors |
| Service.StationService.RetrieveStationByStationName | src/main/java/com/iheartmedia/service/StationService.java:113-117 | for a missing name, no fields and one NOT_FOUND error for `station.not.found.station.name` with the name. Otherwise the found station's fields and no errors |
| Service.StationService.ValidateStationOrSave | src/main/java/com/iheartmedia/service/StationService.java:131-150 | a null station gives one NOT_FOUND error, no fields and no save. Otherwise the entity becomes `Merged(old, ...)` at the merge-time reading and stays valid; the store, its counter and its membership stay; and the fresh update envelope holds the merged fields and the merge-time `updatedTimestamp` |
| Service.StationService.UpdateStation | src/main/java/com/iheartmedia/service/StationService.java:162-169 | an unknown key gives one NOT_FOUND error, no fields and an unchanged store. Otherwise the found station is merged. If the merge changed a column, the hook runs at commit and the station ends as `Persisted(Merged(old, ...), commitTime)`. If it changed none, the station is unchanged. No other station changes and the counter stays. The envelope echoes the path's business key and carries the merge-time reading, not the commit-time one |
| Service.StationService.RetrieveHdEnabledStations | src/main/java/com/iheartmedia/service/StationService.java:173-175 | exactly the stored stations whose flag is true, each once in a valid store |
| Service.StationService.DeleteStationByStationId | src/main/java/com/iheartmedia/service/StationService.java:179-197 | the stations with the key are removed, so no station has it afterwards, and the others stay. Nothing removed gives one NOT_FOUND error with no fields and no timestamp. Otherwise the removed station's fields and the deletion instant |
| Scenarios.NewStation | src/test/java/com/iheartmedia/service/StationServiceTest.java:56-60 | a fresh blank entity with the given business key, name, call sign and flag |
| Scenarios.SetUp | src/test/java/com/iheartmedia/service/StationServiceTest.java:54-68 | after saving the two fixture stations into an empty store, the store is valid and holds them in order. Each holds its business key, name and call sign, the ids 1 and 2 and its save's hook, and the station saved without a flag has it false |
| Scenarios.ListFixture | src/test/java/com/iheartmedia/service/StationServiceTest.java:179-183 | on the fixture, the full listing holds both stations, and the HD listing holds the HD station and nothing else, once |
| Scenarios.ExpectedEnvelope | src/test/java/com/iheartmedia/service/StationServiceTest.java:87-88 | a fresh envelope of the given variant with exactly the given fields and timestamp and no errors |
| Scenarios.CreateMatchesExpected | src/test/java/com/iheartmedia/service/StationServiceTest.java:116-130 | the create envelope equals the client's expected envelope, although only the latter carries the set creation timestamp |
| Scenarios.CreateThenRetrieve | src/test/java/com/iheartmedia/service/StationServiceTest.java:116-130 | a station created into a valid store and then looked up by its business key comes back as a get envelope equal to one built from the saved entity, with its fields, no errors and no timestamp |
| Scenarios.RetrieveMatchesExpected | src/test/java/com/iheartmedia/service/StationServiceTest.java:82-114 | lookups of a stored station by business key and by name both equal a get envelope built from it, with no errors |
| Scenarios.UpdateEchoesChangeset | src/test/java/com/iheartmedia/service/StationServiceTest.java:132-150 | updating with the station's own key and call sign, the flipped flag and a suffixed name returns an envelope equal to the changeset; the entity now holds the changeset's values; the envelope carries the merge-time reading and the entity the commit-time reading |
| Scenarios.UpdateFixtureStation | src/test/java/com/iheartmedia/service/StationServiceTest.java:132-150 | on the fixture, renaming the HD station with a suffix and flipping its flag returns an update envelope equal to the changeset, carrying the merge-time reading |
| Scenarios.UpdateWithNothingToChange | src/main/java/com/iheartmedia/service/StationService.java:68-80 | an empty changeset applied at the reading the station's `updatedTimestamp` already holds changes no column, so no hook runs: the entity, `version` included, is unchanged, and the envelope holds its fields and that reading |
| Scenarios.UpdateUnknownStation | src/test/java/com/iheartmedia/service/StationServiceTest.java:152-164 | an update of "ABCD" where no station has it returns an envelope with errors, equal to one holding only that NOT_FOUND error |
| Scenarios.DeleteMatchesExpected | src/test/java/com/iheartmedia/service/StationServiceTest.java:166-177 | the delete envelope equals one holding only the four fields, although it also carries the id and deletion instant; the station is gone |
| Scenarios.DeleteThenRetrieve | src/main/java/com/iheartmedia/service/StationService.java:179-197 | once a key is deleted, looking it up gives no fields and exactly one NOT_FOUND error |
| Scenarios.RejectSixCharacterCallSign | src/test/java/com/iheartmedia/controller/StationControllerTest.java:229-251 | a changeset with call sign "ABC123" yields an envelope with no fields and exactly one 400 error, with the message resolved from `callsign.size.invalid` and the value |

## Left out

- The HTTP controller, the exception handler, configuration, the application entry point, logging, JSON serialisation (`@JsonInclude`, `@JsonProperty`) and locales are outside this model. The locale is folded into the injected message function.
- `@Transactional` and `@Retryable`: there is no rollback and no retry. The one effect of a transaction the model keeps is the commit-time flush of `updateStation`.
- Flush timing: `@PrePersist` runs inside `save` of a new station. `@PreUpdate` runs at the commit of the transaction, and only when the dirty check against the loaded columns finds a change (`Repository.StationRepository.Flush`). A flush forced earlier, or a `save` run outside a transaction, is not modelled.
- Database constraints: unique business key and name, non-null columns, and Bean Validation on insert. These are preconditions of `Save`, `CreateStation` and `UpdateStation`. The exception and the CONFLICT (409) response they cause belong to the controller's exception handler, which is not part of this model.
- Repository.StationRepository.Save: a new station's id comes from a counter in the store rather than from the database sequence, and `save` of a detached entity (JPA `merge`, which copies state into another instance) is not modelled: the object saved is the object stored.
- Station's error list, inherited from `IError`, is never written on an entity and is left out of `StationData` and of `SameStation`.
- StationModel.Persisted: `version` is an unbounded integer, so the overflow of Java's `Integer` after 2^31 - 1 persists is not modelled.
- Validation.CallSignRejections: lengths are counted in Unicode scalar values, whereas Java's `String.length()` counts UTF-16 code units, so a call sign with characters outside the Basic Multilingual Plane is measured differently.
- StationModel.Violations: lengths are counted the same way, with the same difference for `@Size`.
- A null business key or name passed to the finders (Java `findByStationId(null)`) is not modelled, because the finders take a `string`.
- The store passed to `UpdateStation` must keep its invariant, and the merge must not break it. So when the key is found, `UpdateStation` requires a call sign the merge keeps valid and a name no other station uses. These are the checks the validator and the database would otherwise perform.
- Scenarios.ListFixture: the HD listing is stated as "holds the HD station, only it, each entry once" rather than as equality with a one-element list. The two are equivalent.

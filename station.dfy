/** The persisted radio-station entity: its columns, its validation rules, its equality and
    the hook that runs before every insert or update. */
module StationModel {
  import opened Wrappers

  /** Every column of a station, as one value; `None` is a null column. Timestamps are
      readings of the injected clock. */
  datatype StationData = StationData(
    id: Option<int>,
    stationId: Option<string>,
    stationName: Option<string>,
    hdEnabled: Option<bool>,
    callSign: Option<string>,
    createdTimeStamp: Option<nat>,
    updatedTimestamp: Option<nat>,
    version: int)

  /** A freshly constructed station: every reference null, `version` initialised to 0. */
  const Blank := StationData(None, None, None, None, None, None, None, 0)

  // ---------------------------------------------------------------------------------------
  // Bean Validation rules of the entity
  // ---------------------------------------------------------------------------------------

  /** The constraint violations one validation pass can report. */
  datatype Violation =
    | StationIdEmpty     // @NotEmpty on stationId
    | StationIdFormat    // @Pattern on stationId
    | StationNameEmpty   // @NotEmpty on stationName
    | CallSignEmpty      // @NotEmpty on callSign
    | CallSignSize       // @Size(min = 4, max = 4) on callSign

  /** `@NotEmpty`: present and of non-zero length. */
  predicate NotEmpty(v: Option<string>) {
    v.Some? && |v.value| > 0
  }

  /** The characters Java's `.` does not match without DOTALL. */
  predicate IsLineTerminator(c: char) {
    c == '\n' || c == '\r' || c == '\U{85}' || c == '\U{2028}' || c == '\U{2029}'
  }

  /** The class `[A-Za-z0-9\-]`. */
  predicate IsIdCharacter(c: char) {
    ('A' <= c <= 'Z') || ('a' <= c <= 'z') || ('0' <= c <= '9') || c == '-'
  }

  /** Whole-string match of `^([KW])[A-Za-z0-9\-].*$`, as `Matcher.matches()` does it. */
  predicate MatchesStationIdPattern(s: string) {
    && |s| >= 2
    && (s[0] == 'K' || s[0] == 'W')
    && IsIdCharacter(s[1])
    && forall k :: 2 <= k < |s| ==> !IsLineTerminator(s[k])
  }

  /** The violations Bean Validation reports for a station. A null value trips only the
      `@NotEmpty` rule: `@Pattern` and `@Size` accept null. */
  function Violations(d: StationData): (r: set<Violation>)
    ensures StationIdEmpty in r <==> !NotEmpty(d.stationId)
    ensures StationIdFormat in r <==> d.stationId.Some? && !MatchesStationIdPattern(d.stationId.value)
    ensures StationNameEmpty in r <==> !NotEmpty(d.stationName)
    ensures CallSignEmpty in r <==> !NotEmpty(d.callSign)
    ensures CallSignSize in r <==> d.callSign.Some? && |d.callSign.value| != 4
  {
    (if NotEmpty(d.stationId) then {} else {StationIdEmpty})
    + (if d.stationId.Some? && !MatchesStationIdPattern(d.stationId.value) then {StationIdFormat} else {})
    + (if NotEmpty(d.stationName) then {} else {StationNameEmpty})
    + (if NotEmpty(d.callSign) then {} else {CallSignEmpty})
    + (if d.callSign.Some? && |d.callSign.value| != 4 then {CallSignSize} else {})
  }

  /** A station passes validation exactly when its id matches the pattern, its name is
      non-empty and its call sign has exactly four characters. */
  lemma ValidExactly(d: StationData)
    ensures Violations(d) == {} <==>
              && d.stationId.Some? && MatchesStationIdPattern(d.stationId.value)
              && NotEmpty(d.stationName)
              && d.callSign.Some? && |d.callSign.value| == 4
  {
  }

  /** The three-field station of StationTest is valid, with an east- or west-coast id. */
  lemma ExampleStationsValid()
    ensures Violations(Blank.(stationId := Some("WNYL"), stationName := Some("Alt 92.3"),
                              callSign := Some("WXRK"))) == {}
    ensures Violations(Blank.(stationId := Some("WNYL"), stationName := Some("Alt 92.3"),
                              callSign := Some("KXRK"))) == {}
  {
  }

  /** An all-null station has exactly the three `@NotEmpty` violations. */
  lemma AllNullViolations()
    ensures Violations(Blank) == {StationIdEmpty, StationNameEmpty, CallSignEmpty}
    ensures |Violations(Blank)| == 3
  {
  }

  /** An id that does not start with K or W is the only fault of "XYZ"; a five-character
      call sign is the only fault of "XYZ93". */
  lemma SingleViolationExamples()
    ensures Violations(Blank.(stationId := Some("XYZ"), stationName := Some("Alt 92.3"),
                              callSign := Some("XY93"))) == {StationIdFormat}
    ensures Violations(Blank.(stationId := Some("WNYL"), stationName := Some("Alt 92.3"),
                              callSign := Some("XYZ93"))) == {CallSignSize}
  {
  }

  /** A single K or W is not a valid id: the pattern needs a second character. An empty id
      breaks both the emptiness and the pattern rule. */
  lemma ShortIdExamples()
    ensures !MatchesStationIdPattern("W")
    ensures Violations(Blank.(stationId := Some(""))) >= {StationIdEmpty, StationIdFormat}
  {
  }

  // ---------------------------------------------------------------------------------------
  // Equality and the persist hook
  // ---------------------------------------------------------------------------------------

  /** Lombok equality of stations, which leaves out the two timestamps, `id` and `version`. */
  predicate SameStation(a: StationData, b: StationData)
    ensures SameStation(a, b) <==>
              a.(id := None, createdTimeStamp := None, updatedTimestamp := None, version := 0)
              == b.(id := None, createdTimeStamp := None, updatedTimestamp := None, version := 0)
  {
    && a.stationId == b.stationId
    && a.stationName == b.stationName
    && a.hdEnabled == b.hdEnabled
    && a.callSign == b.callSign
  }

  /** Validation looks only at columns that equality compares: equal stations are equally
      valid. */
  lemma EqualStationsEquallyValid(a: StationData, b: StationData)
    requires SameStation(a, b)
    ensures Violations(a) == Violations(b)
  {
  }

  /** The columns after the `@PrePersist`/`@PreUpdate` hook ran with clock reading `now`. */
  function Persisted(d: StationData, now: nat): (r: StationData)
    ensures d.createdTimeStamp.Some? ==> r.createdTimeStamp == d.createdTimeStamp
    ensures d.createdTimeStamp.None? ==> r.createdTimeStamp == Some(now)
    ensures r.updatedTimestamp == Some(now)
    ensures d.hdEnabled.Some? ==> r.hdEnabled == d.hdEnabled
    ensures d.hdEnabled.None? ==> r.hdEnabled == Some(false)
    ensures r.version == d.version + 1
    ensures r.id == d.id && r.stationId == d.stationId && r.stationName == d.stationName
    ensures r.callSign == d.callSign
  {
    d.(createdTimeStamp := if d.createdTimeStamp.None? then Some(now) else d.createdTimeStamp,
       updatedTimestamp := Some(now),
       hdEnabled := if d.hdEnabled.None? then Some(false) else d.hdEnabled,
       version := d.version + 1)
  }

  /** Persisting never changes what validation reports, and leaves a station equal to what it
      was exactly when `hdEnabled` was already set. */
  lemma PersistKeepsRulesAndEquality(d: StationData, now: nat)
    ensures Violations(Persisted(d, now)) == Violations(d)
    ensures SameStation(Persisted(d, now), d) <==> d.hdEnabled.Some?
  {
  }

  /** The columns after one persist per clock reading, in order. */
  function PersistAll(d: StationData, clock: seq<nat>): (r: StationData)
    decreases |clock|
  {
    if clock == [] then d else PersistAll(Persisted(d, clock[0]), clock[1..])
  }

  /** Over any run of persists, `version` counts them, `createdTimeStamp` keeps the reading of
      the first persist that found it null, `updatedTimestamp` holds the last reading and
      `hdEnabled` is set. */
  lemma {:induction false} PersistAllBookkeeping(d: StationData, clock: seq<nat>)
    ensures PersistAll(d, clock).version == d.version + |clock|
    ensures PersistAll(d, clock).id == d.id
    ensures SameStation(PersistAll(d, clock), d) || d.hdEnabled.None?
    ensures clock != [] ==> PersistAll(d, clock).updatedTimestamp == Some(clock[|clock| - 1])
    ensures clock != [] ==> PersistAll(d, clock).hdEnabled.Some?
    ensures clock != [] ==>
              PersistAll(d, clock).createdTimeStamp ==
              (if d.createdTimeStamp.None? then Some(clock[0]) else d.createdTimeStamp)
    decreases |clock|
  {
    if clock != [] {
      var d' := Persisted(d, clock[0]);
      PersistAllBookkeeping(d', clock[1..]);
      if clock[1..] == [] {
        assert PersistAll(d', clock[1..]) == d';
      } else {
        assert clock[1..][|clock[1..]| - 1] == clock[|clock| - 1];
      }
    }
  }

  /** Created with `version` 0, a station has version `n` after its `n`-th persist. */
  lemma VersionCountsPersists(clock: seq<nat>)
    ensures PersistAll(Blank, clock).version == |clock|
  {
    PersistAllBookkeeping(Blank, clock);
  }

  // ---------------------------------------------------------------------------------------
  // The entity object
  // ---------------------------------------------------------------------------------------

  /** A station entity; the persistence layer and the service update its fields in place. */
  class Station {
    var id: Option<int>
    var stationId: Option<string>
    var stationName: Option<string>
    var hdEnabled: Option<bool>
    var callSign: Option<string>
    var createdTimeStamp: Option<nat>
    var updatedTimestamp: Option<nat>
    var version: int

    /** The object's columns as one value. */
    function Data(): (d: StationData)
      reads this
    {
      StationData(id, stationId, stationName, hdEnabled, callSign,
                  createdTimeStamp, updatedTimestamp, version)
    }

    constructor ()
      ensures Data() == Blank
    {
      id, stationId, stationName, hdEnabled, callSign := None, None, None, None, None;
      createdTimeStamp, updatedTimestamp, version := None, None, 0;
    }

    /** The persist hook, reading the clock once. */
    method SetTimestamps(now: nat)
      modifies this
      ensures Data() == Persisted(old(Data()), now)
    {
      var utcNow := now;
      if createdTimeStamp.None? {
        createdTimeStamp := Some(utcNow);
      }
      updatedTimestamp := Some(utcNow);
      if hdEnabled.None? {
        hdEnabled := Some(false);
      }
      version := version + 1;
    }
  }
}

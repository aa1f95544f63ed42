/** An in-memory station store with the operations the repository interface declares: the
    finders by business key and by name, the HD filter, `findAll`, `save` and the derived
    delete `removeByStationId`. */
module Repository {
  import opened Wrappers
  import opened StationModel

  /** No station object occurs twice. */
  ghost predicate Distinct(ss: seq<Station>) {
    forall i, j :: 0 <= i < j < |ss| ==> ss[i] != ss[j]
  }

  /** What every stored station satisfies: it passed validation and the persist hook ran. */
  ghost predicate Stored(d: StationData) {
    && Violations(d) == {}
    && d.id.Some? && d.hdEnabled.Some?
    && d.createdTimeStamp.Some? && d.updatedTimestamp.Some?
  }

  /** The first station of `ss` whose business key is `key`, or null when none has it. */
  function FirstWithStationId(ss: seq<Station>, key: string): (r: Station?)
    reads ss
    ensures r == null <==> forall s :: s in ss ==> s.stationId != Some(key)
    ensures r != null ==> r in ss && r.stationId == Some(key)
    ensures r != null ==>
              exists i :: 0 <= i < |ss| && ss[i] == r && forall j :: 0 <= j < i ==> ss[j].stationId != Some(key)
  {
    if ss == [] then null
    else if ss[0].stationId == Some(key) then ss[0]
    else FirstWithStationId(ss[1..], key)
  }

  /** The first station of `ss` whose name is `name`, or null when none has it. */
  function FirstWithStationName(ss: seq<Station>, name: string): (r: Station?)
    reads ss
    ensures r == null <==> forall s :: s in ss ==> s.stationName != Some(name)
    ensures r != null ==> r in ss && r.stationName == Some(name)
    ensures r != null ==>
              exists i :: 0 <= i < |ss| && ss[i] == r && forall j :: 0 <= j < i ==> ss[j].stationName != Some(name)
  {
    if ss == [] then null
    else if ss[0].stationName == Some(name) then ss[0]
    else FirstWithStationName(ss[1..], name)
  }

  /** The stations of `ss` whose HD flag is true. */
  function HdEnabledOf(ss: seq<Station>): (r: seq<Station>)
    reads ss
    ensures forall i :: 0 <= i < |r| ==> r[i] in ss && r[i].hdEnabled == Some(true)
    ensures forall i :: 0 <= i < |ss| && ss[i].hdEnabled == Some(true) ==> ss[i] in r
    ensures Distinct(ss) ==> Distinct(r)
  {
    if ss == [] then []
    else if ss[0].hdEnabled == Some(true) then [ss[0]] + HdEnabledOf(ss[1..])
    else HdEnabledOf(ss[1..])
  }

  /** No two positions of `ss` hold the same business key. */
  ghost predicate UniqueStationIds(ss: seq<Station>)
    reads ss
  {
    forall i, j :: 0 <= i < j < |ss| ==> ss[i].stationId != ss[j].stationId
  }

  /** The stations of `ss` whose business key is `key` (when `keep` is false) or is not
      (when `keep` is true). */
  function Partition(ss: seq<Station>, key: string, keep: bool): (r: seq<Station>)
    reads ss
    ensures forall i :: 0 <= i < |r| ==> r[i] in ss && (r[i].stationId != Some(key) <==> keep)
    ensures forall i :: 0 <= i < |ss| && (ss[i].stationId != Some(key) <==> keep) ==> ss[i] in r
    ensures Distinct(ss) ==> Distinct(r)
    ensures |r| <= |ss|
    ensures !keep && (forall i :: 0 <= i < |ss| ==> ss[i].stationId != Some(key)) ==> r == []
    ensures !keep && UniqueStationIds(ss) ==> |r| <= 1
  {
    if ss == [] then []
    else if (ss[0].stationId != Some(key)) == keep then [ss[0]] + Partition(ss[1..], key, keep)
    else Partition(ss[1..], key, keep)
  }

  class StationRepository {
    var stations: seq<Station>
    /** The next surrogate id the store hands out. */
    var nextId: int

    /** Every station is stored once, has passed validation and the hook, and carries an id
        below `nextId`; no two stations share an id, a business key or a name. */
    ghost predicate Valid()
      reads this, stations
    {
      && Distinct(stations)
      && (forall s :: s in stations ==> Stored(s.Data()) && s.id.value < nextId)
      && (forall s, t :: s in stations && t in stations && s != t ==>
            s.id != t.id && s.stationId != t.stationId && s.stationName != t.stationName)
    }

    /** No station other than `s` shares its business key or its name. */
    ghost predicate KeysFree(s: Station)
      reads this, stations, s
    {
      forall t :: t in stations && t != s ==>
        t.stationId != s.stationId && t.stationName != s.stationName
    }

    constructor ()
      ensures Valid() && stations == [] && nextId == 1
    {
      stations := [];
      nextId := 1;
    }

    /** The station whose business key is `key`, or null when none has it. */
    function FindByStationId(key: string): (r: Station?)
      reads this, stations
      ensures r == null <==> forall s :: s in stations ==> s.stationId != Some(key)
      ensures r != null ==> r in stations && r.stationId == Some(key)
      ensures r != null && Valid() ==> forall s :: s in stations && s.stationId == Some(key) ==> s == r
    {
      FirstWithStationId(stations, key)
    }

    /** The station whose name is `name`, or null when none has it. */
    function FindByStationName(name: string): (r: Station?)
      reads this, stations
      ensures r == null <==> forall s :: s in stations ==> s.stationName != Some(name)
      ensures r != null ==> r in stations && r.stationName == Some(name)
      ensures r != null && Valid() ==> forall s :: s in stations && s.stationName == Some(name) ==> s == r
    {
      FirstWithStationName(stations, name)
    }

    /** Exactly the stored stations whose HD flag is true, each once. */
    function FindHdEnabledStations(): (r: seq<Station>)
      reads this, stations
      ensures forall i :: 0 <= i < |r| ==> r[i] in stations && r[i].hdEnabled == Some(true)
      ensures forall i :: 0 <= i < |stations| && stations[i].hdEnabled == Some(true) ==> stations[i] in r
      ensures Valid() ==> Distinct(r)
    {
      HdEnabledOf(stations)
    }

    /** Every stored station, each once; empty on an empty store. */
    function FindAll(): (r: seq<Station>)
      reads this
      ensures forall i :: 0 <= i < |stations| ==> stations[i] in r
      ensures forall i :: 0 <= i < |r| ==> r[i] in stations
      ensures |r| == |stations|
    {
      stations
    }

    /** Persists `s` and returns the same object. A new station is persisted: it gets the next
        id, the persist hook runs at once, and it is added. A station already stored is merged,
        which changes nothing now: its update hook runs at the commit-time `Flush`. The store's
        key uniqueness and the entity rules are demanded of the caller: the database and Bean
        Validation refuse the rest. */
    method Save(s: Station, now: nat) returns (saved: Station)
      requires Valid()
      requires s !in stations ==> s.id.None? && Violations(s.Data()) == {} && KeysFree(s)
      modifies this, s
      ensures Valid() && saved == s
      ensures old(s in stations) ==>
                stations == old(stations) && nextId == old(nextId) && s.Data() == old(s.Data())
      ensures old(s !in stations) ==>
                stations == old(stations) + [s] && nextId == old(nextId) + 1 &&
                s.Data() == Persisted(old(s.Data()).(id := Some(old(nextId))), now)
    {
      if s !in stations {
        ghost var candidate := s.Data();
        s.id := Some(nextId);
        nextId := nextId + 1;
        EqualStationsEquallyValid(candidate, s.Data());
        PersistKeepsRulesAndEquality(s.Data(), now);
        s.SetTimestamps(now);
        stations := stations + [s];
      }
      saved := s;
    }

    /** The flush at commit of a transaction that loaded the stored station `s` with columns
        `loaded`: the dirty check compares its columns with that snapshot, and only when one
        changed does the update hook run, with clock reading `now`. Nothing else changes. */
    method Flush(s: Station, loaded: StationData, now: nat)
      requires Valid() && s in stations
      modifies s
      ensures Valid()
      ensures old(s.Data()) != loaded ==> s.Data() == Persisted(old(s.Data()), now)
      ensures old(s.Data()) == loaded ==> s.Data() == old(s.Data())
    {
      if s.Data() != loaded {
        PersistKeepsRulesAndEquality(s.Data(), now);
        s.SetTimestamps(now);
      }
    }

    /** Removes every station whose business key is `key` and returns them; the others stay,
        unchanged. */
    method RemoveByStationId(key: string) returns (removed: seq<Station>)
      requires Valid()
      modifies this`stations
      ensures Valid()
      ensures forall s :: s in removed <==> s in old(stations) && s.stationId == Some(key)
      ensures forall s :: s in stations <==> s in old(stations) && s.stationId != Some(key)
      ensures |removed| <= 1
      ensures removed == [] <==> old(FindByStationId(key)) == null
      ensures removed != [] ==> removed == [old(FindByStationId(key))]
    {
      ghost var found := FindByStationId(key);
      removed := Partition(stations, key, false);
      assert UniqueStationIds(stations);
      forall i | 0 <= i < |removed| ensures removed[i] == found {
        assert removed[i] in stations;
      }

      stations := Partition(stations, key, true);
    }
  }
}

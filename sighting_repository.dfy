/** internal/repository/sighting.go: the sighting table and its three queries.
    The database's own failures are not computed by the model; each operation
    takes the error the database answered with, if any, as `fault`. */
module SightingRepository {
  import opened Wrappers
  import opened GoErrors
  import opened Models
  import Ordering

  /** The radius written into the count query as a literal. */
  const QueryRadiusInMeters: nat := 5000

  datatype GetSightingOpts = GetSightingOpts(
    tigerId: nat,
    lat: real,
    lon: real,
    rangeInMeters: nat,
    limit: int,
    offset: int)

  /** Options with only the tiger set, as the notifier builds them. */
  function TigerOnly(tigerId: nat): GetSightingOpts {
    GetSightingOpts(tigerId, 0.0, 0.0, 0, 0, 0)
  }

  /** `st_distancesphere(a, b) < radius`, computed by PostGIS; the model assumes
      nothing about it (not even symmetry). */
  type WithinRadius = (Point, Point, nat) -> bool

  /** The stored row as the count query hands it to `st_makepoint(lat, lon)`. */
  function RowPoint(s: Sighting): Point {
    Point(s.lat, s.lon)
  }

  /** The count query's condition: `tiger_id = ?` (written as SQL, so tiger 0
      filters too) and the row within the literal radius of the query point. */
  predicate InRange(s: Sighting, tigerId: nat, at: Point, within: WithinRadius) {
    s.tigerId == tigerId && within(RowPoint(s), at, QueryRadiusInMeters)
  }

  function CountInRange(rows: seq<Sighting>, tigerId: nat, at: Point, within: WithinRadius): (n: nat)
    ensures n <= |rows|
  {
    if rows == [] then 0
    else CountInRange(rows[..|rows| - 1], tigerId, at, within)
         + (if InRange(rows[|rows| - 1], tigerId, at, within) then 1 else 0)
  }

  /** The count is positive exactly when some stored row is in range. */
  lemma {:induction false} CountInRangePositiveIff(rows: seq<Sighting>, tigerId: nat, at: Point, within: WithinRadius)
    ensures CountInRange(rows, tigerId, at, within) > 0
            <==> exists i :: 0 <= i < |rows| && InRange(rows[i], tigerId, at, within)
  {
    if rows != [] {
      var init := rows[..|rows| - 1];
      CountInRangePositiveIff(init, tigerId, at, within);
      if exists i :: 0 <= i < |init| && InRange(init[i], tigerId, at, within) {
        var i :| 0 <= i < |init| && InRange(init[i], tigerId, at, within);
        assert rows[i] == init[i];
      }
      if exists i :: 0 <= i < |rows| && InRange(rows[i], tigerId, at, within) {
        var i :| 0 <= i < |rows| && InRange(rows[i], tigerId, at, within);
        if i < |init| {
          assert init[i] == rows[i];
        }
      }
    }
  }

  /** `Where(&model.Sighting{TigerID: id})`: GORM leaves zero-valued fields of a
      struct condition out, so tiger id 0 adds no condition at all. */
  predicate MatchesTiger(s: Sighting, tigerId: nat) {
    tigerId == 0 || s.tigerId == tigerId
  }

  /** The rows the struct condition keeps, each as often as it is stored. */
  function FilterTiger(rows: seq<Sighting>, tigerId: nat): (r: seq<Sighting>)
    ensures forall s :: multiset(r)[s] == if MatchesTiger(s, tigerId) then multiset(rows)[s] else 0
  {
    if rows == [] then
      []
    else
      var init := FilterTiger(rows[..|rows| - 1], tigerId);
      var last := rows[|rows| - 1];
      assert rows == rows[..|rows| - 1] + [last];
      if MatchesTiger(last, tigerId) then init + [last] else init
  }

  /** `Limit(l).Offset(o).Order("timestamp desc").Where(...)`: filter, newest
      first, then the window. */
  function Query(rows: seq<Sighting>, opts: GetSightingOpts): seq<Sighting> {
    Ordering.Window(Ordering.SortDesc(FilterTiger(rows, opts.tigerId), SightingTimestamp), opts.offset, opts.limit)
  }

  /** What `GetSightings` returns: newest first, only rows of the requested tiger,
      each a stored row, at most `limit` of them. */
  lemma QueryShape(rows: seq<Sighting>, opts: GetSightingOpts)
    ensures Ordering.SortedDesc(Query(rows, opts), SightingTimestamp)
    ensures forall s | s in Query(rows, opts) :: MatchesTiger(s, opts.tigerId) && s in rows
    ensures opts.limit > 0 ==> |Query(rows, opts)| <= opts.limit
  {
    var filtered := FilterTiger(rows, opts.tigerId);
    var sorted := Ordering.SortDesc(filtered, SightingTimestamp);
    Ordering.WindowOfSorted(sorted, opts.offset, opts.limit, SightingTimestamp);
    forall s | s in Query(rows, opts) ensures MatchesTiger(s, opts.tigerId) && s in rows {
      assert s in multiset(sorted);
      assert multiset(filtered)[s] > 0;
    }
  }

  /** Without offset and limit the query returns every matching row, each as
      often as it is stored: a permutation of the tiger's rows. */
  lemma {:induction false} QueryUnpagedIsAllOfTiger(rows: seq<Sighting>, opts: GetSightingOpts)
    requires opts.offset <= 0 && opts.limit <= 0
    ensures multiset(Query(rows, opts)) == multiset(FilterTiger(rows, opts.tigerId))
  {
    var sorted := Ordering.SortDesc(FilterTiger(rows, opts.tigerId), SightingTimestamp);
    assert Query(rows, opts) == sorted;
  }

  /** The table `sightings`, one row per reported sighting, never updated or
      deleted. */
  class SightingTable {
    var rows: seq<Sighting>

    constructor ()
      ensures rows == []
    {
      rows := [];
    }

    /** `DB.Create(sighting)`: appends the row, or returns the database's error
        and leaves the table as it was. */
    method ReportSighting(sighting: Sighting, fault: Option<GoError>) returns (err: Option<GoError>)
      modifies this
      ensures err == fault
      ensures rows == if fault.None? then old(rows) + [sighting] else old(rows)
    {
      if fault.Some? {
        err := fault;
        return;
      }
      rows := rows + [sighting];
      err := None;
    }

    /** The count query: the rows of the tiger within the literal 5000 m of the
        requested point; on a database error `(0, err)`. The radius passed in the
        options is not consulted. */
    function GetSightingsCountInRange(opts: GetSightingOpts, within: WithinRadius, fault: Option<GoError>): (r: (int, Option<GoError>))
      reads this
      ensures fault.Some? ==> r == (0, fault)
      ensures fault.None? ==> r.1.None? && 0 <= r.0 <= |rows|
      ensures fault.None? ==> (r.0 > 0 <==> exists i :: 0 <= i < |rows| && InRange(rows[i], opts.tigerId, Point(opts.lat, opts.lon), within))
      ensures fault.None? ==> r == (CountInRange(rows, opts.tigerId, Point(opts.lat, opts.lon), within), None)
    {
      if fault.Some? then
        (0, fault)
      else
        var at := Point(opts.lat, opts.lon);
        CountInRangePositiveIff(rows, opts.tigerId, at, within);
        (CountInRange(rows, opts.tigerId, at, within), None)
    }

    /** The listing query; on a database error `(nil, err)`. */
    function GetSightings(opts: GetSightingOpts, fault: Option<GoError>): (r: Result<seq<Sighting>, GoError>)
      reads this
      ensures fault.Some? ==> r == Err(fault.value)
      ensures fault.None? ==> r == Ok(Query(rows, opts))
    {
      if fault.Some? then Err(fault.value) else Ok(Query(rows, opts))
    }
  }
}

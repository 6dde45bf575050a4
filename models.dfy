/** The stored records of internal/model, reduced to what the core reads and
    writes. Coordinates are kept as reals and never computed with: the only thing
    done with them is to hand them to the database's distance predicate. */
module Models {

  /** A UUID, known by its canonical text (`uuid.UUID.String()`). */
  datatype Uuid = Uuid(canonical: string)

  /** An instant in whole seconds since the Unix epoch. */
  type Time = int

  /** Go's zero `time.Time`, 0001-01-01T00:00:00Z. */
  const ZeroTime: Time := -62135596800

  const SecondsPerDay: int := 24 * 60 * 60

  /** `st_makepoint(x, y)` */
  datatype Point = Point(x: real, y: real)

  datatype Sighting = Sighting(
    tigerId: nat,
    reportedByUserId: Uuid,
    lat: real,
    lon: real,
    timestamp: Time,
    imageUrl: string)

  datatype Tiger = Tiger(
    id: nat,
    name: string,
    dateOfBirth: Time,
    lastSeenTimestamp: Time,
    lastSeenLat: real,
    lastSeenLon: real,
    createdAt: Time,
    updatedAt: Time)

  datatype User = User(
    id: Uuid,
    username: string,
    password: string,
    email: string,
    createdAt: Time)

  function SightingTimestamp(s: Sighting): int {
    s.timestamp
  }

  function TigerLastSeen(t: Tiger): int {
    t.lastSeenTimestamp
  }
}

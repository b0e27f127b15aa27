/** Shared value types: the POI record of types/index.ts and the error wrappers the services use. */
module Types {

  datatype Option<+T> = None | Some(value: T)

  /** A settled promise: `Ok` for a resolved value, `Err` for a rejection or a thrown error. */
  datatype Result<+T, +E> = Ok(value: T) | Err(error: E)

  /** A map position; the decimals of the source are kept exactly and never computed on. */
  datatype Position = Position(latitude: real, longitude: real)

  /** A point of interest, field for field as the POI interface declares it. */
  datatype POI = POI(
    id: string,
    name: string,
    location: string,
    latitude: real,
    longitude: real,
    shortDescription: string,
    description: string,
    imageUrl: string)
  {
    /** The record moved to `p`, every other field kept. */
    function MovedTo(p: Position): (q: POI)
      ensures SameExceptCoordinates(q, this)
      ensures q.latitude == p.latitude && q.longitude == p.longitude
    {
      this.(latitude := p.latitude, longitude := p.longitude)
    }
  }

  /** Two records that differ at most in their coordinates. */
  predicate SameExceptCoordinates(p: POI, q: POI) {
    && p.id == q.id
    && p.name == q.name
    && p.location == q.location
    && p.shortDescription == q.shortDescription
    && p.description == q.description
    && p.imageUrl == q.imageUrl
  }
}

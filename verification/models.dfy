/** The joke document (internal/models/model.go) and the create/update request body. */
module Models {
  import opened Primitive

  /**
   * Instants are nanoseconds relative to the Unix epoch. Go's zero time.Time,
   * January 1 of year 1 UTC, is the value a field holds when nobody sets it.
   */
  const ZeroTime: int := -62_135_596_800_000_000_000

  datatype Jusgo = Jusgo(id: ObjectId, joke: string, createdAt: int, updatedAt: int)

  /** The decoded `{"joke": ...}` request body. */
  datatype JokeRequest = JokeRequest(joke: string)
}

/** The parts of the `ulid`, `chrono` and `surrealdb` crates the todo entities
    lean on. Their implementations are not part of this model: the parsing and
    formatting functions are carried as function values in a `Crates`, so every
    result below holds for whatever those crates actually compute. */
module Library {
  import opened Results

  const ULID_BOUND: nat := 0x1_0000_0000_0000_0000_0000_0000_0000_0000

  /** A ULID is a 128-bit value. */
  type Ulid = u: nat | u < ULID_BOUND

  /** chrono keeps the sub-second part below two seconds' worth of
      nanoseconds, the second one being a leap second. */
  const NANOS_BOUND: nat := 2_000_000_000

  type Nanos = n: nat | n < NANOS_BOUND

  /** A `DateTime<Utc>`: whole seconds since the Unix epoch plus a
      sub-second part in nanoseconds. */
  datatype UtcDateTime = UtcDateTime(secs: int, nanos: Nanos)

  /** A surrealdb record reference `table:key`; the key is held by the text
      that `Id::to_string` renders for it. */
  datatype Thing = Thing(tb: string, id: string)

  /** The library operations the entity layer calls.
      - `ulidFromString`: `Ulid::from_string`; the error is the text of the
        decode error.
      - `ulidToString`: `Ulid::to_string`, the 26-character Crockford form.
      - `parseDateTime`: `str::parse::<DateTime<Utc>>`; `None` when it fails.
      - `formatDateTime`: the text a `DateTime<Utc>` is serialised as. */
  datatype Crates = Crates(
    ulidFromString: string -> Result<Ulid, string>,
    ulidToString: Ulid -> string,
    parseDateTime: string -> Option<UtcDateTime>,
    formatDateTime: UtcDateTime -> string)

  /** The text form of this particular ULID parses back to it. */
  predicate UlidRoundTrips(lib: Crates, u: Ulid) {
    lib.ulidFromString(lib.ulidToString(u)) == Success(u)
  }

  /** The serialised text of this particular instant parses back to it. Stated
      per value: chrono's range of instants is bounded, so no parser meets it
      for every `UtcDateTime`. */
  predicate TimeRoundTrips(lib: Crates, t: UtcDateTime) {
    lib.parseDateTime(lib.formatDateTime(t)) == Some(t)
  }
}

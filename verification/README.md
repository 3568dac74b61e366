# Todo entity mapping — a Dafny model

This project models the entity-mapping layer of a small todo service written
in Rust. The layer turns a stored todo record into the domain `Todo`,
validates create and search requests, and builds the response shape. It also
creates a new `Todo` from a create request and merges a partial
`UpdateTodoRequest` with an existing `Todo`. Two crates hold this logic:

- the api crate (`api/src/resource/todo/entities.rs`). Its stored record
  keeps the id as a record reference and all three timestamps as text. The
  decoder parses all four.
- the documentation crate (`api/documentation/src/entities/todo/domain.rs`).
  Its stored record already holds typed timestamps, so only the id is parsed.

Modules:

- `Results` (`results.dfy`): `Option` with Rust's `or`, and `Result`. Where
  the source would panic, the model returns a `Failure` instead.
- `Library` (`library.dfy`): ULIDs (128-bit values), UTC instants and record
  references. The datatype `Crates` carries the `ulid` and `chrono`
  operations as function values: `Ulid::from_string`, `Ulid::to_string`,
  timestamp parsing and timestamp serialisation. surrealdb's record
  reference is the `Thing` datatype. Each result about the entity layer
  therefore holds for whatever those crates compute. `UlidRoundTrips` and
  `TimeRoundTrips` state a library round trip at one given value. The
  lemmas that need a round trip assume it only at the values they use.
- `TodoEntities` (`todo_entities.dfy`): the api crate's entities and
  operations.
- `TodoDomain` (`todo_domain.dfy`): the documentation crate's decoder and
  `from_request`. It shares `Todo` with the api crate, because the
  documentation crate's `Todo` declares the same fields. It also shares
  `CreateTodoRequest`: the documentation crate's request type is assumed to
  carry the subject, description and due_date that its `from_request` reads.

Parameters instead of effects: `Todo::from_request` reads the clock
(`Utc::now()`) and draws a fresh ULID (`Ulid::new()`). Both are parameters
`now` and `newId` here.

Behaviour of the code worth knowing:

- `merge` returns an `UpdateTodoRequest` whose four fields are all present.
  It never touches `updated_at`, and its result carries no id or
  `created_at`.
- Every failure of the api decoder carries the heading
  `"Error parsing model ID"`, even when a timestamp failed. It does not name
  the offending field. For the id, the second message is the ULID error's
  text. For a timestamp, it is the raw string. The fields are evaluated in
  the order id, `due_date`, `created_at`, `updated_at`. The first failure is
  the one reported (`unwrap` panics there).
- The documentation decoder fails only on the id. Its `expect` message is
  `"Error parsing ULID"`.

## Model

| member | source | states |
|---|---|---|
| TodoEntities.FromModel | api/src/resource/todo/entities.rs:36-82 | decoding succeeds exactly when the id text and all three timestamp strings parse. On success, subject, description and is_done are copied verbatim, and each timestamp is the parse of its own string. Every failure is a two-message server error headed "Error parsing model ID" |
| TodoEntities.FromModelFailsIffSomeFieldFails | api/src/resource/todo/entities.rs:39-79 | decoding succeeds iff every one of the four parsed fields parses. It fails iff at least one of them does not: any single parse failure fails the whole record |
| TodoEntities.FromModelReportsFirstFailure | api/src/resource/todo/entities.rs:38-80 | a failed decode reports the first field, in the order id, due_date, created_at, updated_at, that does not parse. All earlier fields parse. The detail is that field's raw text, or the ULID error text for the id |
| TodoEntities.FromModelErrorOmitsFieldName | api/src/resource/todo/entities.rs:50-69 | a record with a bad due_date and one with a bad created_at (same raw text) fail with the identical error, so the error does not identify the field |
| TodoEntities.FromModelInvertsToModel | api/src/resource/todo/entities.rs:14-82 | when the todo's id and its three timestamps each parse back from their own text forms, the todo's stored form (reference in table todo keyed by the ULID text, serialised timestamps) decodes back to the same todo |
| TodoEntities.CreateViolations | api/src/resource/todo/entities.rs:84-91 | a create request breaks the length rule on subject exactly when subject is empty, and likewise for description. No other field is ever reported |
| TodoEntities.SearchViolations | api/src/resource/todo/entities.rs:112-116 | a search query is valid exactly when q is non-empty. Only q can be reported |
| TodoEntities.ToResponse | api/src/resource/todo/entities.rs:124-136 | the response id is the ULID's text form. Every other field is copied unchanged |
| TodoEntities.ToResponseLosesNothing | api/src/resource/todo/entities.rs:124-136 | when both todos' ids parse back from their text forms, distinct todos give distinct responses, so a response identifies its todo |
| TodoEntities.FromRequest | api/src/resource/todo/entities.rs:138-152 | a new todo has the given fresh id and is_done false. created_at and updated_at are both the given instant. subject, description and due_date come from the request |
| TodoEntities.FromRequestSurvivesStorage | api/src/resource/todo/entities.rs:139-151 | when the new id, the due date and the creation instant each parse back from their text forms, a freshly created todo, stored and read back through the decoder, decodes to itself |
| TodoEntities.Merge | api/src/resource/todo/entities.rs:154-163 | after merging, all four fields are present. A field present in the update keeps the update's value. An absent field takes the original todo's value |
| TodoEntities.MergeEmptyIsIdentity | api/src/resource/todo/entities.rs:156-159 | merging the all-absent update yields exactly the original's subject, description, is_done and due_date |
| TodoEntities.MergeCompleteIsUnchanged | api/src/resource/todo/entities.rs:155-162 | an update with every field present is returned unchanged, whatever the original |
| TodoEntities.MergeIdempotent | api/src/resource/todo/entities.rs:156-161 | merging an already merged update against any todo returns it unchanged |
| TodoDomain.FromModel | api/documentation/src/entities/todo/domain.rs:19-31 | decoding succeeds exactly when the reference's id text parses as a ULID. On success, subject, description and is_done are copied verbatim, and the three timestamps are carried over unparsed. On failure, the panic reads "Error parsing ULID" with the ULID error |
| TodoDomain.FromRequest | api/documentation/src/entities/todo/domain.rs:33-47 | a new todo has the given fresh id and is_done false, with created_at == updated_at == the given instant. subject, description and due_date come from the request |
| TodoDomain.FromRequestAgrees | api/documentation/src/entities/todo/domain.rs:34-46 | the two crates' from_request build the same todo, field for field, from the same request, id and instant |
| TodoDomain.DecodersAgree | api/documentation/src/entities/todo/domain.rs:19-31 | on records with the same reference and verbatim fields, the api decoder succeeds only if the documentation decoder does. When both succeed they agree on id, subject, description and is_done. When the api timestamp strings parse to the documentation record's timestamps, both decoders give the same outcome and the same todo |

## Left out

- Library.UlidRoundTrips, Library.TimeRoundTrips: the round trips of `Ulid::from_string`/`Ulid::to_string` and of timestamp parsing/serialisation are hypotheses at the values a lemma uses, not proved. The `ulid` and `chrono` crates are not part of this model. chrono's bounded range of instants is not modelled: `UtcDateTime` allows any second count.
- TodoEntities.FromModelInvertsToModel: the stored form `ToModel` stands for the serde serialisation derived on `Todo` and the store's write path. Neither is shown, so the exact text format of stored timestamps is a parameter. The key of the stored reference is assumed to render, through surrealdb's `Id::to_string`, as exactly the ULID's text, with no escaping or brackets.
- ULID generation (`Ulid::new`) and the clock (`Utc::now`): randomness and time become the parameters `newId` and `now`.
- Rendering of a surrealdb record key (`Id::to_string`): a reference is modelled by the key's rendered text.
- The validator crate's error structure (codes, messages, parameters): only the set of offending field names is modelled.
- The exact text of a panic: the documentation decoder's panic shows the error via `Debug`, not `Display`. Both are the abstract error text here.
- Panics themselves: a panic that aborts the request is modelled as a returned `Failure`.
- The HTTP layer (`IntoResponse`, JSON), the health endpoint, the database connection and the schema/index migration: they are I/O with no checkable logic beyond statement text.
- The CRUD and search handlers, which call these operations against the store: they are not part of this model.
- The documentation crate's `TodoModel` and `CreateTodoRequest` are declared in files that are not part of this model. Their fields are taken from how `domain.rs` uses them.

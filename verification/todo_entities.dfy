/** The todo entities of the api crate: the stored record and its decoder,
    the create / search validators, the response shape, creation of a new
    todo and the partial-update merge. */
module TodoEntities {
  import opened Results
  import opened Library

  /** The domain entity. */
  datatype Todo = Todo(
    id: Ulid,
    subject: string,
    description: string,
    is_done: bool,
    due_date: UtcDateTime,
    created_at: UtcDateTime,
    updated_at: UtcDateTime)

  /** The record as read back from the store: a record reference for the id
      and the three timestamps as text. */
  datatype TodoModel = TodoModel(
    id: Thing,
    subject: string,
    description: string,
    is_done: bool,
    due_date: string,
    created_at: string,
    updated_at: string)

  datatype CreateTodoRequest = CreateTodoRequest(
    subject: string,
    description: string,
    due_date: UtcDateTime)

  /** A sparse update: `None` means "leave this field as it is". */
  datatype UpdateTodoRequest = UpdateTodoRequest(
    subject: Option<string>,
    description: Option<string>,
    is_done: Option<bool>,
    due_date: Option<UtcDateTime>)

  /** What the api answers with: the id in its text form. */
  datatype TodoResponse = TodoResponse(
    id: string,
    subject: string,
    description: string,
    is_done: bool,
    due_date: UtcDateTime,
    created_at: UtcDateTime,
    updated_at: UtcDateTime)

  datatype SearchTodo = SearchTodo(q: string)

  /** `ApplicationError::ServerError`, a list of messages. */
  datatype ApplicationError = ServerError(messages: seq<string>)

  /** The one heading every decoding failure carries, whichever field failed. */
  const PARSE_ERROR: string := "Error parsing model ID"

  /** The table the records live in. */
  const TABLE: string := "todo"

  // ---------------------------------------------------------------------
  // Decoding a stored record

  /** The four fields of a record that must be parsed, in the order the
      decoder evaluates them. */
  datatype StoredField = IdField | DueDateField | CreatedAtField | UpdatedAtField

  const DECODE_ORDER: seq<StoredField> := [IdField, DueDateField, CreatedAtField, UpdatedAtField]

  /** Whether the given field of `m` parses. */
  predicate Parses(lib: Crates, m: TodoModel, f: StoredField) {
    match f
    case IdField => lib.ulidFromString(m.id.id).Success?
    case DueDateField => lib.parseDateTime(m.due_date).Some?
    case CreatedAtField => lib.parseDateTime(m.created_at).Some?
    case UpdatedAtField => lib.parseDateTime(m.updated_at).Some?
  }

  /** The second message of the error raised when field `f` fails: the ULID
      decode error's text for the id, the raw string for a timestamp. */
  function FailureDetail(lib: Crates, m: TodoModel, f: StoredField): string
    requires !Parses(lib, m, f)
  {
    match f
    case IdField => lib.ulidFromString(m.id.id).error
    case DueDateField => m.due_date
    case CreatedAtField => m.created_at
    case UpdatedAtField => m.updated_at
  }

  function ParseId(lib: Crates, id: Thing): Result<Ulid, ApplicationError> {
    match lib.ulidFromString(id.id)
    case Success(u) => Success(u)
    case Failure(e) => Failure(ServerError([PARSE_ERROR, e]))
  }

  function ParseTimestamp(lib: Crates, raw: string): Result<UtcDateTime, ApplicationError> {
    match lib.parseDateTime(raw)
    case Some(t) => Success(t)
    case None => Failure(ServerError([PARSE_ERROR, raw]))
  }

  /** `From<TodoModel> for Todo`: fields are parsed in declaration order and
      the first failure is reported (the source unwraps, so it panics there). */
  function FromModel(lib: Crates, m: TodoModel): (r: Result<Todo, ApplicationError>)
    ensures r.Success? <==>
      && lib.ulidFromString(m.id.id).Success?
      && lib.parseDateTime(m.due_date).Some?
      && lib.parseDateTime(m.created_at).Some?
      && lib.parseDateTime(m.updated_at).Some?
    ensures r.Success? ==>
      && r.value.id == lib.ulidFromString(m.id.id).value
      && r.value.subject == m.subject
      && r.value.description == m.description
      && r.value.is_done == m.is_done
      && Some(r.value.due_date) == lib.parseDateTime(m.due_date)
      && Some(r.value.created_at) == lib.parseDateTime(m.created_at)
      && Some(r.value.updated_at) == lib.parseDateTime(m.updated_at)
    ensures r.Failure? ==> |r.error.messages| == 2 && r.error.messages[0] == PARSE_ERROR
  {
    var id :- ParseId(lib, m.id);
    var due_date :- ParseTimestamp(lib, m.due_date);
    var created_at :- ParseTimestamp(lib, m.created_at);
    var updated_at :- ParseTimestamp(lib, m.updated_at);
    Success(Todo(id, m.subject, m.description, m.is_done, due_date, created_at, updated_at))
  }

  /** The success condition of `FromModel` restated over the four parsed
      fields: decoding succeeds exactly when every field parses, and fails
      exactly when some field does not. */
  lemma {:induction false} FromModelFailsIffSomeFieldFails(lib: Crates, m: TodoModel)
    ensures FromModel(lib, m).Success? <==> forall f: StoredField :: Parses(lib, m, f)
    ensures FromModel(lib, m).Failure? <==> exists f: StoredField :: !Parses(lib, m, f)
  {
    if FromModel(lib, m).Failure? {
      if !Parses(lib, m, IdField) {
      } else if !Parses(lib, m, DueDateField) {
      } else if !Parses(lib, m, CreatedAtField) {
      } else {
        assert !Parses(lib, m, UpdatedAtField);
      }
    } else {
      forall f: StoredField ensures Parses(lib, m, f) {
      }
    }
  }

  /** The field at position `i` of the evaluation order is the first that
      does not parse. */
  predicate IsFirstFailure(lib: Crates, m: TodoModel, i: nat)
    requires i < |DECODE_ORDER|
  {
    && !Parses(lib, m, DECODE_ORDER[i])
    && forall j :: 0 <= j < i ==> Parses(lib, m, DECODE_ORDER[j])
  }

  /** A failure reports the first field, in evaluation order, that does not
      parse: its detail is that field's raw text (or the ULID error). */
  lemma {:induction false} FromModelReportsFirstFailure(lib: Crates, m: TodoModel)
    requires FromModel(lib, m).Failure?
    ensures exists i :: (0 <= i < |DECODE_ORDER| && IsFirstFailure(lib, m, i)
                         && FromModel(lib, m).error == ServerError([PARSE_ERROR, FailureDetail(lib, m, DECODE_ORDER[i])]))
  {
    var i := if !Parses(lib, m, IdField) then 0
      else if !Parses(lib, m, DueDateField) then 1
      else if !Parses(lib, m, CreatedAtField) then 2
      else 3;
    assert !Parses(lib, m, DECODE_ORDER[i]);
  }

  /** The error does not say which field failed: a record whose due date is
      malformed and one whose creation time is malformed, with the same raw
      text, fail with the same error. */
  lemma FromModelErrorOmitsFieldName(lib: Crates, m1: TodoModel, m2: TodoModel)
    requires Parses(lib, m1, IdField) && !Parses(lib, m1, DueDateField)
    requires Parses(lib, m2, IdField) && Parses(lib, m2, DueDateField) && !Parses(lib, m2, CreatedAtField)
    requires m1.due_date == m2.created_at
    ensures FromModel(lib, m1) == FromModel(lib, m2)
  {
  }

  /** The stored form of a todo: the record reference in table `todo` whose
      key renders as the ULID's text, and each timestamp in its serialised
      text. */
  function ToModel(lib: Crates, t: Todo): (m: TodoModel)
    ensures m.id.tb == TABLE
    ensures m.subject == t.subject && m.description == t.description && m.is_done == t.is_done
  {
    TodoModel(Thing(TABLE, lib.ulidToString(t.id)), t.subject, t.description, t.is_done,
      lib.formatDateTime(t.due_date), lib.formatDateTime(t.created_at), lib.formatDateTime(t.updated_at))
  }

  /** The todo's id and each of its timestamps round-trip through their
      text forms. */
  predicate StorableIn(lib: Crates, t: Todo) {
    && UlidRoundTrips(lib, t.id)
    && TimeRoundTrips(lib, t.due_date)
    && TimeRoundTrips(lib, t.created_at)
    && TimeRoundTrips(lib, t.updated_at)
  }

  /** Decoding inverts the stored form of any todo whose id and timestamps
      round-trip through the libraries' text forms. */
  lemma FromModelInvertsToModel(lib: Crates, t: Todo)
    requires StorableIn(lib, t)
    ensures FromModel(lib, ToModel(lib, t)) == Success(t)
  {
  }

  // ---------------------------------------------------------------------
  // Validation

  /** `#[validate(length(min = 1))]` on a string: at least one character. */
  predicate MinLengthOne(s: string) {
    |s| >= 1
  }

  /** The names of the fields of a create request that break their length
      rule; the request is valid when there are none. */
  function CreateViolations(req: CreateTodoRequest): (v: set<string>)
    ensures v <= {"subject", "description"}
    ensures "subject" in v <==> req.subject == []
    ensures "description" in v <==> req.description == []
  {
    (if MinLengthOne(req.subject) then {} else {"subject"})
      + (if MinLengthOne(req.description) then {} else {"description"})
  }

  /** The names of the fields of a search query that break their length rule. */
  function SearchViolations(query: SearchTodo): (v: set<string>)
    ensures v <= {"q"}
    ensures v == {} <==> query.q != []
  {
    if MinLengthOne(query.q) then {} else {"q"}
  }

  // ---------------------------------------------------------------------
  // Response

  /** `From<Todo> for TodoResponse`: the id becomes its text form. */
  function ToResponse(lib: Crates, t: Todo): (r: TodoResponse)
    ensures r.id == lib.ulidToString(t.id)
    ensures r.subject == t.subject && r.description == t.description && r.is_done == t.is_done
    ensures r.due_date == t.due_date && r.created_at == t.created_at && r.updated_at == t.updated_at
  {
    TodoResponse(lib.ulidToString(t.id), t.subject, t.description, t.is_done,
      t.due_date, t.created_at, t.updated_at)
  }

  /** A response loses nothing: when both ids round-trip through their text
      form, two todos with the same response are the same todo. */
  lemma ToResponseLosesNothing(lib: Crates, a: Todo, b: Todo)
    requires UlidRoundTrips(lib, a.id) && UlidRoundTrips(lib, b.id)
    ensures ToResponse(lib, a) == ToResponse(lib, b) ==> a == b
  {
  }

  // ---------------------------------------------------------------------
  // Creation

  /** `Todo::from_request`, with the new ULID and the current instant given
      as parameters. */
  function FromRequest(req: CreateTodoRequest, newId: Ulid, now: UtcDateTime): (t: Todo)
    ensures t.id == newId && !t.is_done
    ensures t.created_at == now && t.updated_at == now
    ensures t.subject == req.subject && t.description == req.description && t.due_date == req.due_date
  {
    Todo(newId, req.subject, req.description, false, req.due_date, now, now)
  }

  /** A freshly created todo, stored and read back, decodes to itself. */
  lemma FromRequestSurvivesStorage(lib: Crates, req: CreateTodoRequest, newId: Ulid, now: UtcDateTime)
    requires UlidRoundTrips(lib, newId) && TimeRoundTrips(lib, req.due_date) && TimeRoundTrips(lib, now)
    ensures FromModel(lib, ToModel(lib, FromRequest(req, newId, now))) == Success(FromRequest(req, newId, now))
  {
  }

  // ---------------------------------------------------------------------
  // Partial update

  /** Every field of the update is present. */
  predicate Complete(u: UpdateTodoRequest) {
    u.subject.Some? && u.description.Some? && u.is_done.Some? && u.due_date.Some?
  }

  /** The update that changes nothing. */
  const EMPTY_UPDATE: UpdateTodoRequest := UpdateTodoRequest(None, None, None, None)

  /** `UpdateTodoRequest::merge`: each field present in the update is kept,
      each absent one is filled in from the original todo. */
  function Merge(u: UpdateTodoRequest, original: Todo): (r: UpdateTodoRequest)
    ensures Complete(r)
    ensures u.subject.Some? ==> r.subject == u.subject
    ensures u.description.Some? ==> r.description == u.description
    ensures u.is_done.Some? ==> r.is_done == u.is_done
    ensures u.due_date.Some? ==> r.due_date == u.due_date
    ensures u.subject.None? ==> r.subject.value == original.subject
    ensures u.description.None? ==> r.description.value == original.description
    ensures u.is_done.None? ==> r.is_done.value == original.is_done
    ensures u.due_date.None? ==> r.due_date.value == original.due_date
  {
    UpdateTodoRequest(
      u.subject.Or(Some(original.subject)),
      u.description.Or(Some(original.description)),
      u.is_done.Or(Some(original.is_done)),
      u.due_date.Or(Some(original.due_date)))
  }

  /** Merging the empty update yields exactly the original's four fields. */
  lemma MergeEmptyIsIdentity(original: Todo)
    ensures Merge(EMPTY_UPDATE, original) == UpdateTodoRequest(
      Some(original.subject), Some(original.description), Some(original.is_done), Some(original.due_date))
  {
  }

  /** A complete update is left untouched, whatever the original. */
  lemma MergeCompleteIsUnchanged(u: UpdateTodoRequest, original: Todo)
    requires Complete(u)
    ensures Merge(u, original) == u
  {
  }

  /** Merging an already merged update against any todo changes nothing. */
  lemma MergeIdempotent(u: UpdateTodoRequest, original: Todo, other: Todo)
    ensures Merge(Merge(u, original), other) == Merge(u, original)
  {
  }
}

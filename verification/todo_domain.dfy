/** The todo domain of the documentation crate. Its stored record already
    holds typed timestamps, so decoding parses only the id. Its `Todo` and
    `CreateTodoRequest` have the same fields as the api crate's, and are the
    same Dafny types here. */
module TodoDomain {
  import opened Results
  import opened Library
  import TodoEntities

  type Todo = TodoEntities.Todo
  type CreateTodoRequest = TodoEntities.CreateTodoRequest

  /** The stored record of the documentation crate: typed timestamps. */
  datatype TodoModel = TodoModel(
    id: Thing,
    subject: string,
    description: string,
    is_done: bool,
    due_date: UtcDateTime,
    created_at: UtcDateTime,
    updated_at: UtcDateTime)

  /** The panic raised by `expect`: its message and the underlying error. */
  datatype Panic = Panic(message: string, cause: string)

  const ULID_PANIC: string := "Error parsing ULID"

  /** `From<TodoModel> for Todo`: only the id is parsed; a malformed id is
      the one way to fail. */
  function FromModel(lib: Crates, m: TodoModel): (r: Result<Todo, Panic>)
    ensures r.Success? <==> lib.ulidFromString(m.id.id).Success?
    ensures r.Success? ==>
      && r.value.id == lib.ulidFromString(m.id.id).value
      && r.value.subject == m.subject
      && r.value.description == m.description
      && r.value.is_done == m.is_done
      && r.value.due_date == m.due_date
      && r.value.created_at == m.created_at
      && r.value.updated_at == m.updated_at
    ensures r.Failure? ==> r.error == Panic(ULID_PANIC, lib.ulidFromString(m.id.id).error)
  {
    match lib.ulidFromString(m.id.id)
    case Failure(e) => Failure(Panic(ULID_PANIC, e))
    case Success(id) =>
      Success(TodoEntities.Todo(id, m.subject, m.description, m.is_done,
        m.due_date, m.created_at, m.updated_at))
  }

  /** `Todo::from_request`, with the new ULID and the current instant given
      as parameters. */
  function FromRequest(req: CreateTodoRequest, newId: Ulid, now: UtcDateTime): (t: Todo)
    ensures t.id == newId && !t.is_done
    ensures t.created_at == t.updated_at && t.created_at == now
    ensures t.subject == req.subject && t.description == req.description && t.due_date == req.due_date
  {
    TodoEntities.Todo(newId, req.subject, req.description, false, req.due_date, now, now)
  }

  /** The two crates create the same todo from the same request, id and instant. */
  lemma FromRequestAgrees(req: CreateTodoRequest, newId: Ulid, now: UtcDateTime)
    ensures FromRequest(req, newId, now) == TodoEntities.FromRequest(req, newId, now)
  {
  }

  /** The two records carry the same reference and the same verbatim fields. */
  predicate SharesFields(api: TodoEntities.TodoModel, doc: TodoModel) {
    && api.id == doc.id
    && api.subject == doc.subject
    && api.description == doc.description
    && api.is_done == doc.is_done
  }

  /** The api record's timestamp strings parse to the documentation record's
      timestamps. */
  predicate TimestampsCorrespond(lib: Crates, api: TodoEntities.TodoModel, doc: TodoModel) {
    && lib.parseDateTime(api.due_date) == Some(doc.due_date)
    && lib.parseDateTime(api.created_at) == Some(doc.created_at)
    && lib.parseDateTime(api.updated_at) == Some(doc.updated_at)
  }

  /** On records sharing their id and verbatim fields, the api decoder
      succeeds only where the documentation decoder does, and the two agree on
      id, subject, description and completion; when the timestamps correspond
      as well, they succeed together and produce the same todo. */
  lemma DecodersAgree(lib: Crates, api: TodoEntities.TodoModel, doc: TodoModel)
    requires SharesFields(api, doc)
    ensures TodoEntities.FromModel(lib, api).Success? ==>
      && FromModel(lib, doc).Success?
      && TodoEntities.FromModel(lib, api).value.id == FromModel(lib, doc).value.id
      && TodoEntities.FromModel(lib, api).value.subject == FromModel(lib, doc).value.subject
      && TodoEntities.FromModel(lib, api).value.description == FromModel(lib, doc).value.description
      && TodoEntities.FromModel(lib, api).value.is_done == FromModel(lib, doc).value.is_done
    ensures TimestampsCorrespond(lib, api, doc) ==>
      TodoEntities.FromModel(lib, api).ToOption() == FromModel(lib, doc).ToOption()
  {
  }
}

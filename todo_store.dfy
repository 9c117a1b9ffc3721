/**
 * The behaviour of TodoViewSet (apps/todos/views.py) as functions over a
 * snapshot of the Todo table: the per-user visible set, the ORM's save, one
 * step function per endpoint, and request traces with the lifecycle
 * properties they keep.
 */
module TodoStore {
  import opened Wrappers
  import opened TodoModel

  // ---------------------------------------------------------------------------
  // Responses
  // ---------------------------------------------------------------------------

  const HTTP_200_OK: int := 200
  const HTTP_201_CREATED: int := 201
  const HTTP_204_NO_CONTENT: int := 204
  const HTTP_400_BAD_REQUEST: int := 400
  const HTTP_401_UNAUTHORIZED: int := 401
  const HTTP_404_NOT_FOUND: int := 404
  const HTTP_500_INTERNAL_SERVER_ERROR: int := 500

  /** The failures whose body the framework writes rather than the view. */
  datatype Failure = NotAuthenticated | NotFound | Invalid | ServerError

  datatype Payload =
    | Records(records: map<TodoId, Todo>)  // a list response
    | Record(record: Todo)                 // one serialized record
    | StatusMessage(status: string)        // {"status": ...}
    | ErrorMessage(error: string)          // {"error": ...}
    | Detail(failure: Failure)             // framework-generated error body

  datatype Response = Response(status: int, payload: Payload)

  const DeletedMessage: string := "Task marked as deleted"
  const DoneMessage: string := "Task marked as done"
  const NotFoundMessage: string := "Todo not found"

  const Unauthorized: Response := Response(HTTP_401_UNAUTHORIZED, Detail(NotAuthenticated))
  const NoSuchObject: Response := Response(HTTP_404_NOT_FOUND, Detail(NotFound))
  const BadRequest: Response := Response(HTTP_400_BAD_REQUEST, Detail(Invalid))

  // ---------------------------------------------------------------------------
  // Requests
  // ---------------------------------------------------------------------------

  /** The `pk` segment of a detail URL: a well-formed UUID names a key; any
      other text is malformed. */
  datatype Pk = Uuid(id: TodoId) | Malformed(text: string)

  /** The mutable fields a PUT or PATCH body may carry; an absent field is
      left as it is. */
  datatype Changes = Changes(title: Option<string>, description: Option<string>, completed: Option<bool>)

  datatype Action =
    | List
    | Create(title: string, description: string, completed: Option<bool>)
    | Retrieve(pk: Pk)
    | Update(pk: Pk, changes: Changes)
    | Destroy(pk: Pk)
    | MarkDone(pk: Pk)

  /** One call of the API: the authenticated caller, if any, and what is asked. */
  datatype Request = Request(caller: Option<UserId>, action: Action)

  // ---------------------------------------------------------------------------
  // The table
  // ---------------------------------------------------------------------------

  /** The Todo table, the clock the ORM reads on save, and the next fresh key. */
  datatype Db = Db(todos: map<TodoId, Todo>, clock: Time, nextId: TodoId)

  /** What every stored row satisfies: it sits under its own key, that key was
      handed out already, its timestamps are ordered and not in the future,
      and its title fits its column. */
  ghost function Valid(db: Db): (b: bool)
    // the key the next insert draws is fresh, every row carries the key it
    // is stored under, and every stored title fits its column
    ensures b ==> db.nextId !in db.todos
    ensures b ==> forall id :: id in db.todos ==> db.todos[id].id == id
    ensures b ==> forall id :: id in db.todos ==> |db.todos[id].title| <= TitleMaxLength
  {
    forall id :: id in db.todos ==> WellStored(db, id)
  }

  ghost predicate WellStored(db: Db, id: TodoId)
    requires id in db.todos
  {
    var t := db.todos[id];
    && t.id == id
    && id < db.nextId
    && t.createdAt <= t.updatedAt <= db.clock
    && TitleFits(t.title)
  }

  /** `get_queryset`: the caller's records that are not soft-deleted. */
  function Visible(todos: map<TodoId, Todo>, user: UserId): (v: map<TodoId, Todo>)
    ensures forall id :: id in v <==> id in todos && todos[id].user == user && !todos[id].isDeleted
    ensures forall id :: id in v ==> v[id] == todos[id]
  {
    map id | id in todos && todos[id].user == user && !todos[id].isDeleted :: todos[id]
  }

  /** `get_object`: the record behind `pk`, provided it is in the caller's
      visible set; a malformed key finds nothing. */
  function GetObject(db: Db, user: UserId, pk: Pk): (r: Option<Todo>)
    ensures r.Some? <==> pk.Uuid? && pk.id in Visible(db.todos, user)
    ensures r.Some? ==> r.value == db.todos[pk.id] && r.value.user == user && !r.value.isDeleted
  {
    match pk
    case Malformed(_) => None
    case Uuid(id) =>
      if id in db.todos && db.todos[id].user == user && !db.todos[id].isDeleted then Some(db.todos[id]) else None
  }

  /**
   * `Model.save()`: the clock advances, `updated_at` takes the new time, and
   * `created_at` takes it too when the row is inserted rather than updated.
   * Every other field is written as the instance holds it.
   */
  function Save(db: Db, t: Todo): (r: Db)
    ensures r.clock == db.clock + 1 && r.nextId == db.nextId
    ensures r.todos.Keys == db.todos.Keys + {t.id}
    ensures r.todos[t.id].updatedAt == r.clock
    ensures r.todos[t.id].createdAt == (if t.id in db.todos then t.createdAt else r.clock)
    ensures r.todos[t.id] == t.(createdAt := r.todos[t.id].createdAt, updatedAt := r.clock)
    ensures forall id :: id in db.todos && id != t.id ==> r.todos[id] == db.todos[id]
  {
    var now := db.clock + 1;
    var stored := if t.id in db.todos then t.(updatedAt := now) else t.(createdAt := now, updatedAt := now);
    db.(todos := db.todos[t.id := stored], clock := now)
  }

  /** The serializer's update: each supplied field replaces the stored one. */
  function Apply(t: Todo, ch: Changes): (r: Todo)
    ensures ch.title.Some? ==> r.title == ch.title.value
    ensures ch.title.None? ==> r.title == t.title
    ensures ch.description.Some? ==> r.description == ch.description.value
    ensures ch.description.None? ==> r.description == t.description
    ensures ch.completed.Some? ==> r.completed == ch.completed.value
    ensures ch.completed.None? ==> r.completed == t.completed
    ensures r.(title := t.title, description := t.description, completed := t.completed) == t
  {
    t.(title := ch.title.GetOr(t.title),
       description := ch.description.GetOr(t.description),
       completed := ch.completed.GetOr(t.completed))
  }

  /** Whether the changes pass the serializer's length check on the title. */
  predicate ChangesFit(ch: Changes) {
    ch.title.Some? ==> TitleFits(ch.title.value)
  }

  /** Every record except the one under `id` is still stored and unchanged. */
  ghost predicate OthersUnchanged(before: map<TodoId, Todo>, after: map<TodoId, Todo>, id: TodoId) {
    forall k :: k in before && k != id ==> k in after && after[k] == before[k]
  }

  // ---------------------------------------------------------------------------
  // The endpoints
  // ---------------------------------------------------------------------------

  /** GET /todos/ */
  function ListStep(db: Db, caller: Option<UserId>): (r: Response)
    ensures caller.None? ==> r == Unauthorized
    ensures caller.Some? ==> r.status == HTTP_200_OK && r.payload.Records?
    ensures caller.Some? ==> forall id :: id in r.payload.records <==>
      id in db.todos && db.todos[id].user == caller.value && !db.todos[id].isDeleted
    ensures caller.Some? ==> forall id :: id in r.payload.records ==> r.payload.records[id] == db.todos[id]
  {
    if caller.None? then Unauthorized else Response(HTTP_200_OK, Records(Visible(db.todos, caller.value)))
  }

  /** GET /todos/{pk}/ */
  function RetrieveStep(db: Db, caller: Option<UserId>, pk: Pk): (r: Response)
    ensures caller.None? ==> r == Unauthorized
    ensures caller.Some? ==> (r.status == HTTP_200_OK <==> pk.Uuid? && pk.id in Visible(db.todos, caller.value))
    ensures caller.Some? && r.status != HTTP_200_OK ==> r == NoSuchObject
    ensures r.status == HTTP_200_OK ==> r.payload == Record(db.todos[pk.id])
  {
    if caller.None? then Unauthorized
    else match GetObject(db, caller.value, pk)
      case None => NoSuchObject
      case Some(obj) => Response(HTTP_200_OK, Record(obj))
  }

  /**
   * POST /todos/: `perform_create` saves the serializer twice, first with the
   * owner and then with `created_by`, so the new row is inserted and then
   * updated once more.
   */
  function CreateStep(db: Db, caller: Option<UserId>, title: string, description: string, completed: Option<bool>): (r: (Db, Response))
    requires Valid(db)
    ensures Valid(r.0)
    ensures caller.None? ==> r == (db, Unauthorized)
    ensures caller.Some? && !TitleFits(title) ==> r == (db, BadRequest)
    ensures r.1.status == HTTP_201_CREATED <==> caller.Some? && TitleFits(title)
    ensures r.1.status == HTTP_201_CREATED ==> db.nextId in r.0.todos
    ensures r.1.status == HTTP_201_CREATED ==>
      var id := db.nextId;
      var t := r.0.todos[id];
      && id !in db.todos
      && r.0.todos.Keys == db.todos.Keys + {id}
      && OthersUnchanged(db.todos, r.0.todos, id)
      && r.1.payload == Record(t)
      && t.id == id && t.user == caller.value && t.createdBy == Some(caller.value) && t.updatedBy == None
      && t.title == title && t.description == description
      && t.completed == completed.GetOr(false) && !t.isDeleted
      && db.clock < t.createdAt < t.updatedAt == r.0.clock == db.clock + 2
      && r.0.nextId == db.nextId + 1
  {
    if caller.None? then (db, Unauthorized)
    else if !TitleFits(title) then (db, BadRequest)
    else
      var u := caller.value;
      var id := db.nextId;
      var first := Save(db.(nextId := id + 1), NewTodo(id, u, title, description, completed));
      var second := Save(first, first.todos[id].(createdBy := Some(u)));
      (second, Response(HTTP_201_CREATED, Record(second.todos[id])))
  }

  /** PUT or PATCH /todos/{pk}/: `perform_update` saves the supplied fields
      together with `updated_by`. */
  function UpdateStep(db: Db, caller: Option<UserId>, pk: Pk, ch: Changes): (r: (Db, Response))
    requires Valid(db)
    ensures Valid(r.0)
    ensures caller.None? ==> r == (db, Unauthorized)
    ensures caller.Some? && !(pk.Uuid? && pk.id in Visible(db.todos, caller.value)) ==> r == (db, NoSuchObject)
    ensures caller.Some? && pk.Uuid? && pk.id in Visible(db.todos, caller.value) && !ChangesFit(ch) ==> r == (db, BadRequest)
    ensures r.1.status == HTTP_200_OK <==>
      caller.Some? && pk.Uuid? && pk.id in Visible(db.todos, caller.value) && ChangesFit(ch)
    ensures r.1.status == HTTP_200_OK ==>
      && r.0.todos.Keys == db.todos.Keys
      && OthersUnchanged(db.todos, r.0.todos, pk.id)
      && r.0.todos[pk.id] == Apply(db.todos[pk.id], ch).(updatedBy := caller, updatedAt := r.0.clock)
      && r.0.clock == db.clock + 1 && r.0.nextId == db.nextId
      && r.1.payload == Record(r.0.todos[pk.id])
  {
    if caller.None? then (db, Unauthorized)
    else match GetObject(db, caller.value, pk)
      case None => (db, NoSuchObject)
      case Some(obj) =>
        if !ChangesFit(ch) then (db, BadRequest)
        else
          var saved := Save(db, Apply(obj, ch).(updatedBy := caller));
          (saved, Response(HTTP_200_OK, Record(saved.todos[obj.id])))
  }

  /** DELETE /todos/{pk}/: a soft delete that sets the flag and saves. */
  function DestroyStep(db: Db, caller: Option<UserId>, pk: Pk): (r: (Db, Response))
    requires Valid(db)
    ensures Valid(r.0)
    ensures caller.None? ==> r == (db, Unauthorized)
    ensures caller.Some? && !(pk.Uuid? && pk.id in Visible(db.todos, caller.value)) ==> r == (db, NoSuchObject)
    ensures r.1.status == HTTP_204_NO_CONTENT <==> caller.Some? && pk.Uuid? && pk.id in Visible(db.todos, caller.value)
    ensures r.1.status == HTTP_204_NO_CONTENT ==>
      && r.0.todos.Keys == db.todos.Keys
      && OthersUnchanged(db.todos, r.0.todos, pk.id)
      && r.0.todos[pk.id] == db.todos[pk.id].(isDeleted := true, updatedAt := r.0.clock)
      && r.0.clock == db.clock + 1 && r.0.nextId == db.nextId
      && pk.id !in Visible(r.0.todos, caller.value)
      && r.1.payload == StatusMessage(DeletedMessage)
  {
    if caller.None? then (db, Unauthorized)
    else match GetObject(db, caller.value, pk)
      case None => (db, NoSuchObject)
      case Some(obj) =>
        (Save(db, obj.(isDeleted := true)), Response(HTTP_204_NO_CONTENT, StatusMessage(DeletedMessage)))
  }

  /**
   * PATCH /todos/{pk}/mark_done/. The view looks the key up itself rather
   * than through `get_object`: a missing, foreign or deleted record gives its
   * own 404 body, and a malformed key raises a validation error from the
   * UUID column that nothing catches, so the request ends in a server error.
   */
  function MarkDoneStep(db: Db, caller: Option<UserId>, pk: Pk): (r: (Db, Response))
    requires Valid(db)
    ensures Valid(r.0)
    ensures caller.None? ==> r == (db, Unauthorized)
    ensures caller.Some? && pk.Malformed? ==> r == (db, Response(HTTP_500_INTERNAL_SERVER_ERROR, Detail(ServerError)))
    ensures caller.Some? && pk.Uuid? && pk.id !in Visible(db.todos, caller.value) ==>
      r == (db, Response(HTTP_404_NOT_FOUND, ErrorMessage(NotFoundMessage)))
    ensures r.1.status == HTTP_200_OK <==> caller.Some? && pk.Uuid? && pk.id in Visible(db.todos, caller.value)
    ensures r.1.status == HTTP_200_OK ==>
      && r.0.todos.Keys == db.todos.Keys
      && OthersUnchanged(db.todos, r.0.todos, pk.id)
      && r.0.todos[pk.id] == db.todos[pk.id].(completed := true, updatedAt := r.0.clock)
      && r.0.clock == db.clock + 1 && r.0.nextId == db.nextId
      && r.1.payload == StatusMessage(DoneMessage)
  {
    if caller.None? then (db, Unauthorized)
    else match pk
      case Malformed(_) => (db, Response(HTTP_500_INTERNAL_SERVER_ERROR, Detail(ServerError)))
      case Uuid(id) =>
        match GetObject(db, caller.value, pk)
        case None => (db, Response(HTTP_404_NOT_FOUND, ErrorMessage(NotFoundMessage)))
        case Some(todo) =>
          (Save(db, todo.(completed := true)), Response(HTTP_200_OK, StatusMessage(DoneMessage)))
  }

  /** Routes one request to its endpoint. */
  function Step(db: Db, req: Request): (r: (Db, Response))
    requires Valid(db)
    ensures Valid(r.0)
    ensures req.caller.None? ==> r == (db, Unauthorized)
  {
    match req.action
    case List => (db, ListStep(db, req.caller))
    case Create(title, description, completed) => CreateStep(db, req.caller, title, description, completed)
    case Retrieve(pk) => (db, RetrieveStep(db, req.caller, pk))
    case Update(pk, ch) => UpdateStep(db, req.caller, pk, ch)
    case Destroy(pk) => DestroyStep(db, req.caller, pk)
    case MarkDone(pk) => MarkDoneStep(db, req.caller, pk)
  }

  /** The table after serving a sequence of requests in order. */
  function Run(db: Db, reqs: seq<Request>): (r: Db)
    requires Valid(db)
    ensures Valid(r)
    ensures db.clock <= r.clock
    decreases |reqs|
  {
    if reqs == [] then db else Run(Step(db, reqs[0]).0, reqs[1..])
  }
}

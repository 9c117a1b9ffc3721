/**
 * TodoViewSet (apps/todos/views.py) as an object that holds the Todo table
 * and changes it in place. Each endpoint follows the view step by step:
 * authenticate, look the record up in the caller's visible set, set the
 * field, save. Each is proved to do exactly what the matching step function
 * of TodoStore says, and to keep the table's invariant.
 */
module TodoViews {
  import opened Wrappers
  import opened TodoModel
  import opened TodoStore

  class TodoViewSet {
    var todos: map<TodoId, Todo>
    var clock: Time
    var nextId: TodoId

    /** The table as a value. */
    function State(): Db
      reads this
    {
      Db(todos, clock, nextId)
    }

    ghost predicate Valid()
      reads this
    {
      TodoStore.Valid(State())
    }

    /** An empty table. */
    constructor ()
      ensures Valid()
      ensures todos == map[] && clock == 0 && nextId == 0
    {
      todos, clock, nextId := map[], 0, 0;
    }

    /** `Model.save()` on one instance. */
    method Save(t: Todo)
      modifies this
      ensures State() == TodoStore.Save(old(State()), t)
    {
      clock := clock + 1;
      var stored := t.(updatedAt := clock);
      if t.id !in todos {
        stored := stored.(createdAt := clock);
      }
      todos := todos[t.id := stored];
    }

    /** `get_queryset` for an authenticated caller. */
    function GetQueryset(user: UserId): (v: map<TodoId, Todo>)
      reads this
      ensures forall id :: id in v <==> id in todos && todos[id].user == user && !todos[id].isDeleted
      ensures forall id :: id in v ==> v[id] == todos[id]
    {
      Visible(todos, user)
    }

    /** `get_object`: the visible record behind `pk`, or nothing. */
    method GetObject(user: UserId, pk: Pk) returns (obj: Option<Todo>)
      ensures obj.Some? <==> pk.Uuid? && pk.id in GetQueryset(user)
      ensures obj.Some? ==> obj.value == todos[pk.id]
    {
      obj := None;
      if pk.Uuid? {
        var queryset := GetQueryset(user);
        if pk.id in queryset {
          obj := Some(queryset[pk.id]);
        }
      }
    }

    /** GET /todos/ */
    method List(caller: Option<UserId>) returns (resp: Response)
      ensures resp == ListStep(State(), caller)
    {
      if caller.None? {
        return Unauthorized;
      }
      resp := Response(HTTP_200_OK, Records(GetQueryset(caller.value)));
    }

    /** GET /todos/{pk}/ */
    method Retrieve(caller: Option<UserId>, pk: Pk) returns (resp: Response)
      ensures resp == RetrieveStep(State(), caller, pk)
    {
      if caller.None? {
        return Unauthorized;
      }
      var obj := GetObject(caller.value, pk);
      if obj.None? {
        return NoSuchObject;
      }
      resp := Response(HTTP_200_OK, Record(obj.value));
    }

    /** POST /todos/ */
    method Create(caller: Option<UserId>, title: string, description: string, completed: Option<bool>) returns (resp: Response)
      requires Valid()
      modifies this
      ensures Valid()
      ensures (State(), resp) == CreateStep(old(State()), caller, title, description, completed)
    {
      if caller.None? {
        return Unauthorized;
      }
      if !TitleFits(title) {
        return BadRequest;
      }
      var user := caller.value;
      var id := nextId;
      nextId := nextId + 1;
      // serializer.save(user=...)
      Save(NewTodo(id, user, title, description, completed));
      // serializer.save(created_by=...)
      Save(todos[id].(createdBy := Some(user)));
      resp := Response(HTTP_201_CREATED, Record(todos[id]));
    }

    /** PUT or PATCH /todos/{pk}/ */
    method Update(caller: Option<UserId>, pk: Pk, changes: Changes) returns (resp: Response)
      requires Valid()
      modifies this
      ensures Valid()
      ensures (State(), resp) == UpdateStep(old(State()), caller, pk, changes)
    {
      if caller.None? {
        return Unauthorized;
      }
      var obj := GetObject(caller.value, pk);
      if obj.None? {
        return NoSuchObject;
      }
      if !ChangesFit(changes) {
        return BadRequest;
      }
      var todo := Apply(obj.value, changes).(updatedBy := caller);
      Save(todo);
      resp := Response(HTTP_200_OK, Record(todos[todo.id]));
    }

    /** DELETE /todos/{pk}/: the soft delete. */
    method Destroy(caller: Option<UserId>, pk: Pk) returns (resp: Response)
      requires Valid()
      modifies this
      ensures Valid()
      ensures (State(), resp) == DestroyStep(old(State()), caller, pk)
    {
      if caller.None? {
        return Unauthorized;
      }
      var obj := GetObject(caller.value, pk);
      if obj.None? {
        return NoSuchObject;
      }
      var todo := obj.value.(isDeleted := true);
      Save(todo);
      resp := Response(HTTP_204_NO_CONTENT, StatusMessage(DeletedMessage));
    }

    /** PATCH /todos/{pk}/mark_done/ */
    method MarkDone(caller: Option<UserId>, pk: Pk) returns (resp: Response)
      requires Valid()
      modifies this
      ensures Valid()
      ensures (State(), resp) == MarkDoneStep(old(State()), caller, pk)
    {
      if caller.None? {
        return Unauthorized;
      }
      if pk.Malformed? {
        // the UUID column rejects the key and nothing catches the error
        return Response(HTTP_500_INTERNAL_SERVER_ERROR, Detail(ServerError));
      }
      var queryset := GetQueryset(caller.value);
      if pk.id !in queryset {
        return Response(HTTP_404_NOT_FOUND, ErrorMessage(NotFoundMessage));
      }
      var todo := queryset[pk.id].(completed := true);
      Save(todo);
      resp := Response(HTTP_200_OK, StatusMessage(DoneMessage));
    }

    /** Serves one request of any kind. */
    method Handle(req: Request) returns (resp: Response)
      requires Valid()
      modifies this
      ensures Valid()
      ensures (State(), resp) == Step(old(State()), req)
    {
      match req.action
      case List => resp := List(req.caller);
      case Create(title, description, completed) => resp := Create(req.caller, title, description, completed);
      case Retrieve(pk) => resp := Retrieve(req.caller, pk);
      case Update(pk, changes) => resp := Update(req.caller, pk, changes);
      case Destroy(pk) => resp := Destroy(req.caller, pk);
      case MarkDone(pk) => resp := MarkDone(req.caller, pk);
    }
  }
}

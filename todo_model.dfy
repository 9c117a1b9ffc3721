/**
 * The Todo record: the audit fields every model inherits from BaseModel
 * (apps/base/base_model.py) folded together with the fields of Todo itself
 * (apps/todos/models.py).
 */
module TodoModel {
  import opened Wrappers

  /** A user of the authentication system, identified by its primary key. */
  type UserId = nat

  /** The primary key of a Todo. The source draws a random UUID; the model
      draws the next number of a counter, which is just as fresh. */
  type TodoId = nat

  /** A point of the store's clock. The source reads the wall clock on every
      save; the model's clock ticks once per save. */
  type Time = nat

  /** `max_length` of the title column. */
  const TitleMaxLength: nat := 200

  datatype Todo = Todo(
    // BaseModel
    id: TodoId,                 // primary key, not editable
    createdAt: Time,            // auto_now_add: set by the first save only
    updatedAt: Time,            // auto_now: set by every save
    createdBy: Option<UserId>,  // nullable foreign key
    updatedBy: Option<UserId>,  // nullable foreign key
    // Todo
    user: UserId,               // the owner: a non-nullable foreign key
    title: string,
    description: string,
    completed: bool,
    isDeleted: bool
  )

  /** Whether a title fits its column. */
  predicate TitleFits(title: string) {
    |title| <= TitleMaxLength
  }

  /**
   * The unsaved instance that the serializer builds for a create: the
   * submitted fields, the owner, and the field defaults for everything else.
   * The timestamps are placeholders until the first save assigns them.
   */
  function NewTodo(id: TodoId, user: UserId, title: string, description: string, completed: Option<bool>): (t: Todo)
    ensures t.id == id && t.user == user
    ensures t.title == title && t.description == description
    ensures completed == None ==> !t.completed
    ensures completed.Some? ==> t.completed == completed.value
    ensures !t.isDeleted
    ensures t.createdBy == None && t.updatedBy == None
  {
    Todo(id, 0, 0, None, None, user, title, description, completed.GetOr(false), false)
  }

  /** The string form of a Todo, used wherever the framework shows a record. */
  function Str(t: Todo): (s: string)
    ensures s == t.title
    ensures TitleFits(t.title) ==> |s| <= TitleMaxLength
  {
    t.title
  }
}

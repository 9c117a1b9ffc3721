/**
 * What the Todo endpoints keep true across any sequence of requests: rows
 * are only ever added, the fields fixed at creation never change, a soft
 * delete is final, and one user's requests never touch another user's rows.
 */
module TodoLifecycle {
  import opened Wrappers
  import opened TodoModel
  import opened TodoStore

  /** How one stored row may change: its key, owner, creation time and
      creator are fixed, `updated_at` never goes backwards, and a deleted row
      stays deleted. */
  ghost predicate Evolves(before: Todo, after: Todo) {
    && after.id == before.id
    && after.user == before.user
    && after.createdAt == before.createdAt
    && after.createdBy == before.createdBy
    && before.updatedAt <= after.updatedAt
    && (before.isDeleted ==> after.isDeleted)
  }

  /** `later` keeps every row of `earlier`, each evolved as allowed. */
  ghost predicate Successor(earlier: Db, later: Db) {
    && earlier.clock <= later.clock
    && earlier.nextId <= later.nextId
    && forall id :: id in earlier.todos ==> id in later.todos && Evolves(earlier.todos[id], later.todos[id])
  }

  lemma SuccessorTransitive(a: Db, b: Db, c: Db)
    requires Successor(a, b) && Successor(b, c)
    ensures Successor(a, c)
  {
  }

  /** One request never removes a row and changes rows only as allowed. */
  lemma StepSuccessor(db: Db, req: Request)
    requires Valid(db)
    ensures Successor(db, Step(db, req).0)
  {
    match req.action {
      case List =>
      case Retrieve(_) =>
      case Create(title, description, completed) => CreateSuccessor(db, req.caller, title, description, completed);
      case Update(pk, ch) => UpdateSuccessor(db, req.caller, pk, ch);
      case Destroy(pk) => DestroySuccessor(db, req.caller, pk);
      case MarkDone(pk) => MarkDoneSuccessor(db, req.caller, pk);
    }
  }

  lemma CreateSuccessor(db: Db, caller: Option<UserId>, title: string, description: string, completed: Option<bool>)
    requires Valid(db)
    ensures Successor(db, CreateStep(db, caller, title, description, completed).0)
    ensures var after := CreateStep(db, caller, title, description, completed).0;
      forall id :: id in db.todos ==> id in after.todos && after.todos[id] == db.todos[id]
  {
  }

  lemma UpdateSuccessor(db: Db, caller: Option<UserId>, pk: Pk, ch: Changes)
    requires Valid(db)
    ensures Successor(db, UpdateStep(db, caller, pk, ch).0)
  {
  }

  lemma DestroySuccessor(db: Db, caller: Option<UserId>, pk: Pk)
    requires Valid(db)
    ensures Successor(db, DestroyStep(db, caller, pk).0)
  {
  }

  lemma MarkDoneSuccessor(db: Db, caller: Option<UserId>, pk: Pk)
    requires Valid(db)
    ensures Successor(db, MarkDoneStep(db, caller, pk).0)
  {
  }

  /** Records are never physically removed, and what is fixed at creation
      stays fixed, whatever requests are served. */
  lemma {:induction false} RunSuccessor(db: Db, reqs: seq<Request>)
    requires Valid(db)
    ensures Successor(db, Run(db, reqs))
    ensures db.todos.Keys <= Run(db, reqs).todos.Keys
    decreases |reqs|
  {
    if reqs != [] {
      var next := Step(db, reqs[0]).0;
      StepSuccessor(db, reqs[0]);
      RunSuccessor(next, reqs[1..]);
      SuccessorTransitive(db, next, Run(db, reqs));
    }
  }

  /** A soft-deleted row is still stored after any requests, and never shows
      up in anybody's visible set again. */
  lemma DeletedStaysHidden(db: Db, reqs: seq<Request>, id: TodoId, u: UserId)
    requires Valid(db)
    requires id in db.todos && db.todos[id].isDeleted
    ensures id in Run(db, reqs).todos && Run(db, reqs).todos[id].isDeleted
    ensures id !in Visible(Run(db, reqs).todos, u)
  {
    RunSuccessor(db, reqs);
  }

  /** No request is made by user `v`. */
  ghost predicate NoneBy(reqs: seq<Request>, v: UserId) {
    forall i :: 0 <= i < |reqs| ==> reqs[i].caller != Some(v)
  }

  /** The rows owned by `v`, exactly as stored. */
  function OwnedBy(todos: map<TodoId, Todo>, v: UserId): (m: map<TodoId, Todo>)
    ensures forall id :: id in m <==> id in todos && todos[id].user == v
    ensures forall id :: id in m ==> m[id] == todos[id]
  {
    map id | id in todos && todos[id].user == v :: todos[id]
  }

  /** `after` holds every row of `v` that `before` holds, unchanged, and no
      other row of `v`. */
  ghost predicate Intact(before: map<TodoId, Todo>, after: map<TodoId, Todo>, v: UserId) {
    && (forall id :: id in before && before[id].user == v ==> id in after && after[id] == before[id])
    && (forall id :: id in after && after[id].user == v ==> id in before && before[id] == after[id])
  }

  lemma IntactOwnedBy(before: map<TodoId, Todo>, after: map<TodoId, Todo>, v: UserId)
    requires Intact(before, after, v)
    ensures OwnedBy(after, v) == OwnedBy(before, v)
  {
    var a, b := OwnedBy(after, v), OwnedBy(before, v);
    assert a.Keys == b.Keys;
    assert forall id :: id in a ==> a[id] == b[id];
  }

  lemma CreateLeavesOthers(db: Db, caller: Option<UserId>, title: string, description: string, completed: Option<bool>, v: UserId)
    requires Valid(db) && caller != Some(v)
    ensures Intact(db.todos, CreateStep(db, caller, title, description, completed).0.todos, v)
  {
  }

  lemma UpdateLeavesOthers(db: Db, caller: Option<UserId>, pk: Pk, ch: Changes, v: UserId)
    requires Valid(db) && caller != Some(v)
    ensures Intact(db.todos, UpdateStep(db, caller, pk, ch).0.todos, v)
  {
  }

  lemma DestroyLeavesOthers(db: Db, caller: Option<UserId>, pk: Pk, v: UserId)
    requires Valid(db) && caller != Some(v)
    ensures Intact(db.todos, DestroyStep(db, caller, pk).0.todos, v)
  {
  }

  lemma MarkDoneLeavesOthers(db: Db, caller: Option<UserId>, pk: Pk, v: UserId)
    requires Valid(db) && caller != Some(v)
    ensures Intact(db.todos, MarkDoneStep(db, caller, pk).0.todos, v)
  {
  }

  /** A request by anyone other than `v` leaves `v`'s rows as they were. */
  lemma StepLeavesOthers(db: Db, req: Request, v: UserId)
    requires Valid(db)
    requires req.caller != Some(v)
    ensures OwnedBy(Step(db, req).0.todos, v) == OwnedBy(db.todos, v)
  {
    match req.action {
      case List =>
      case Retrieve(_) =>
      case Create(title, description, completed) => CreateLeavesOthers(db, req.caller, title, description, completed, v);
      case Update(pk, ch) => UpdateLeavesOthers(db, req.caller, pk, ch, v);
      case Destroy(pk) => DestroyLeavesOthers(db, req.caller, pk, v);
      case MarkDone(pk) => MarkDoneLeavesOthers(db, req.caller, pk, v);
    }
    IntactOwnedBy(db.todos, Step(db, req).0.todos, v);
  }

  /** Other users' records are never touched: requests none of which comes
      from `v` leave all of `v`'s rows exactly as they were. */
  lemma {:induction false} RunLeavesOthers(db: Db, reqs: seq<Request>, v: UserId)
    requires Valid(db)
    requires NoneBy(reqs, v)
    ensures OwnedBy(Run(db, reqs).todos, v) == OwnedBy(db.todos, v)
    decreases |reqs|
  {
    if reqs != [] {
      StepLeavesOthers(db, reqs[0], v);
      assert NoneBy(reqs[1..], v) by {
        forall i | 0 <= i < |reqs| - 1 ensures reqs[1..][i].caller != Some(v) {
          assert reqs[1..][i] == reqs[i + 1];
        }
      }
      RunLeavesOthers(Step(db, reqs[0]).0, reqs[1..], v);
    }
  }

  /** Requests without credentials change nothing at all. */
  lemma {:induction false} AnonymousRunChangesNothing(db: Db, reqs: seq<Request>)
    requires Valid(db)
    requires forall i :: 0 <= i < |reqs| ==> reqs[i].caller.None?
    ensures Run(db, reqs) == db
    decreases |reqs|
  {
    if reqs != [] {
      assert Step(db, reqs[0]).0 == db;
      assert forall i :: 0 <= i < |reqs[1..]| ==> reqs[1..][i].caller.None? by {
        forall i | 0 <= i < |reqs[1..]| ensures reqs[1..][i].caller.None? {
          assert reqs[1..][i] == reqs[i + 1];
        }
      }
      AnonymousRunChangesNothing(db, reqs[1..]);
    }
  }

  /** A row with its save time erased: what a second save leaves alone. */
  function Content(t: Todo): (c: Todo)
    ensures c.updatedAt == 0
    ensures c.(updatedAt := t.updatedAt) == t
  {
    t.(updatedAt := 0)
  }

  /** mark_done is idempotent: a second call answers as the first did and
      leaves every row as the first left it, save for the refreshed
      `updated_at`. */
  lemma MarkDoneIdempotent(db: Db, caller: Option<UserId>, pk: Pk)
    requires Valid(db)
    ensures
      var (once, r1) := MarkDoneStep(db, caller, pk);
      var (twice, r2) := MarkDoneStep(once, caller, pk);
      && r2 == r1
      && twice.todos.Keys == once.todos.Keys
      && forall id :: id in once.todos ==> Content(twice.todos[id]) == Content(once.todos[id])
  {
  }

  /** After a successful soft delete the id has left the owner's visible set:
      retrieving, deleting again or marking it done all answer not-found and
      change nothing, while the row itself is still stored. */
  lemma DestroyThenNotFound(db: Db, u: UserId, id: TodoId)
    requires Valid(db)
    requires id in Visible(db.todos, u)
    ensures
      var (after, r) := DestroyStep(db, Some(u), Uuid(id));
      && r.status == HTTP_204_NO_CONTENT
      && id in after.todos && after.todos[id].isDeleted
      && RetrieveStep(after, Some(u), Uuid(id)) == NoSuchObject
      && DestroyStep(after, Some(u), Uuid(id)) == (after, NoSuchObject)
      && MarkDoneStep(after, Some(u), Uuid(id)) == (after, Response(HTTP_404_NOT_FOUND, ErrorMessage(NotFoundMessage)))
  {
  }

  /** A created row is listed for its creator and for nobody else. */
  lemma CreatedVisibleOnlyToOwner(db: Db, u: UserId, v: UserId, title: string, description: string, completed: Option<bool>)
    requires Valid(db)
    requires TitleFits(title)
    ensures
      var (after, r) := CreateStep(db, Some(u), title, description, completed);
      && r.status == HTTP_201_CREATED
      && db.nextId in ListStep(after, Some(u)).payload.records
      && (v != u ==> db.nextId !in ListStep(after, Some(v)).payload.records)
  {
  }

  /**
   * A create, a delete and a retrieve by one user: the new row is not
   * completed and not deleted, the delete answers no-content, and the
   * retrieve afterwards answers not-found although the row is still stored.
   */
  lemma CreateDeleteRetrieveScenario(db: Db, u: UserId)
    requires Valid(db)
    ensures
      var (created, r1) := CreateStep(db, Some(u), "Sample Task", "This is a test task", None);
      && r1.status == HTTP_201_CREATED
      && r1.payload.Record? && !r1.payload.record.completed && !r1.payload.record.isDeleted
      && var id := r1.payload.record.id;
      && var (deleted, r2) := DestroyStep(created, Some(u), Uuid(id));
      && r2.status == HTTP_204_NO_CONTENT
      && RetrieveStep(deleted, Some(u), Uuid(id)).status == HTTP_404_NOT_FOUND
      && id in deleted.todos
  {
  }

  /** `created_by` and `updated_by` are nullable: a row with neither, as one
      written outside the views would be, is a valid row of the table, and the
      endpoints serve it like any other. */
  lemma AuditFieldsOptional(u: UserId)
    ensures
      var t := Todo(0, 1, 1, None, None, u, "Sample Task", "This is a test task", false, false);
      var db := Db(map[0 := t], 1, 1);
      && Valid(db)
      && RetrieveStep(db, Some(u), Uuid(0)) == Response(HTTP_200_OK, Record(t))
  {
  }
}

# Todo API: a Dafny model of its views and its logging middleware

The application is a small authenticated to-do API. This project models the two parts of it whose behaviour the repository itself decides:

- **The Todo store** (`TodoAPI/apps/todos/views.py`, over the record of `models.py` and `base_model.py`). A `Todo` carries an owner (a single, non-nullable user), a title, a description, `completed`, `is_deleted`, a key, two timestamps and two optional audit users. Each caller sees only the *visible set*: its own rows that are not soft-deleted.
  - The views work on that set. List, retrieve, create, update (PUT and PATCH), soft delete and `mark_done` are modelled.
  - Module `TodoStore` states each endpoint as a step function over a table value `Db` (rows, clock, next key).
  - Class `TodoViews.TodoViewSet` holds the table in fields. Its methods follow the view line by line and are proved equal to those step functions, keeping the table invariant.
  - Module `TodoLifecycle` proves what holds across any sequence of requests:
    - rows are never removed by the views (deleting a user is outside the model, see "Left out");
    - key, owner, `created_at` and `created_by` never change, and `updated_at` never goes backwards;
    - a soft delete is final;
    - one user's requests never touch another user's rows;
    - requests without credentials change nothing;
    - a second `mark_done` answers as the first and leaves every row as the first left it, except that its save refreshes `updated_at` once more.
- **The logging middleware** (`TodoAPI/TodoAPI/middleware/log_middleware.py`). Class `LogMiddleware.CustomLoggingMiddleware` keeps the logger as a sequence of entries. Its three hooks append to that sequence step by step, as the source does. Each hook is proved to append exactly what the functions `RequestEntries` and `ResponseEntries` say, and those functions' contracts give the decision table:
  - which paths are excluded;
  - which methods have their body logged;
  - the content-type dispatch and its fallback on a JSON decode failure;
  - skipping HTML;
  - truncation to 1000 characters.

  The excluded paths are the source's eight regular expressions, written out with the meaning Python's `re.match` gives them. For example, `.` does not match a newline, and `$` also matches just before a final newline.

Modelling choices:

- UUID primary keys come from a counter.
- The wall clock the ORM reads on save is a counter that ticks once per save. `created_at` is set by the first save only (auto_now_add). `updated_at` is set by every save (auto_now).
- `perform_create` saves twice, once with the owner and then with `created_by`. So a new row's `updated_at` is one tick later than its `created_at`.
- Only `perform_update` sets `updated_by`. Soft delete and `mark_done` leave it alone.
- `json.loads` and the UTF-8 decoding of response bytes (with `errors="ignore"`) are oracles, held by the middleware as function values.
- The authenticated caller is an optional user id: absent means unauthenticated, which yields 401 everywhere.

Points where the code's behaviour is sharper than a loose reading suggests, all modelled as the code does them:

- The request hook tests the Content-Type by substring. The response hook tests it by prefix, and a missing header counts as empty.
- An empty request Content-Type counts as absent.
- `process_exception` does not consult the excluded paths.
- `process_response` raises when `process_request` never stamped a logged request.
- `mark_done` looks the key up itself. A missing, foreign or deleted row gives `{"error": "Todo not found"}` with 404. A key that the router passes on but that is not a UUID makes the UUID column raise a validation error that nothing catches, so the request ends in a server error. Key text the router's pattern refuses (one containing "/" or ".") never reaches the view; routing is not modelled. The generic `get_object` of the other endpoints answers 404 for a malformed key.

## Model

| member | source | states |
|---|---|---|
| TodoModel.NewTodo | TodoAPI/apps/todos/models.py:6-11 | a new row has the submitted fields and its owner, `completed` is false unless supplied, `is_deleted` is false, and no audit user is set yet |
| TodoModel.Str | TodoAPI/apps/todos/models.py:13-14 | the string form of a Todo is its title, so it fits in 200 characters when the title fits its column |
| TodoStore.Valid | TodoAPI/apps/base/base_model.py:8-10 | the table invariant gives what the primary key and the title column promise: the key the next insert draws is not stored yet, no two rows share a key, and every title fits the 200 characters of `max_length` (models.py:8) |
| TodoStore.Visible | TodoAPI/apps/todos/views.py:14-16 | the visible set holds exactly the stored rows owned by the caller and not soft-deleted, unchanged |
| TodoStore.GetObject | TodoAPI/apps/todos/views.py:29 | a lookup finds a row iff the key is well formed and in the caller's visible set, and then returns that stored row |
| TodoStore.Save | TodoAPI/apps/base/base_model.py:8-10 | a save advances the clock, sets `updated_at` to it, sets `created_at` only when inserting, writes the other fields as given, and leaves every other row alone |
| TodoStore.Apply | TodoAPI/apps/todos/views.py:23-25 | an update replaces exactly the supplied fields and keeps every omitted one |
| TodoStore.ListStep | TodoAPI/apps/todos/views.py:12-16 | an unauthenticated list is 401; an authenticated list is 200 with exactly the caller's non-deleted rows |
| TodoStore.RetrieveStep | TodoAPI/apps/todos/views.py:12-16 | retrieve is 401 without credentials, 200 with the stored row iff the key is in the visible set, and 404 otherwise |
| TodoStore.CreateStep | TodoAPI/apps/todos/views.py:18-21 | create is 401 without credentials and 400 for an over-long title, changing nothing. On 201 it adds one row under a fresh key, owned by and `created_by` the caller, with the submitted title and description, default flags, `created_at` before `updated_at`, and no other row touched |
| TodoStore.UpdateStep | TodoAPI/apps/todos/views.py:23-25 | update is 401, 404 outside the visible set, or 400 for an over-long title, changing nothing. On 200 the row gets the supplied fields, `updated_by` is the caller, `updated_at` is refreshed, and no other row is touched |
| TodoStore.DestroyStep | TodoAPI/apps/todos/views.py:27-34 | destroy is 401, or 404 outside the visible set, changing nothing. On 204 it only sets `is_deleted` and refreshes `updated_at`. The row stays stored, leaves the owner's visible set, and no other row is touched |
| TodoStore.MarkDoneStep | TodoAPI/apps/todos/views.py:36-51 | mark_done is 401 without credentials, a server error for a malformed key, and 404 "Todo not found" outside the visible set, changing nothing. On 200 "Task marked as done" it only sets `completed` and refreshes `updated_at` |
| TodoStore.Step | TodoAPI/apps/todos/views.py:9-12 | every endpoint rejects an unauthenticated caller with 401 and leaves the table unchanged, and every request keeps the table invariant |
| TodoStore.Run | TodoAPI/apps/todos/views.py:9-51 | any sequence of requests keeps the table invariant and never moves the clock backwards |
| TodoLifecycle.StepSuccessor | TodoAPI/apps/todos/views.py:18-51 | one request keeps every row and changes it only as allowed |
| TodoLifecycle.CreateSuccessor | TodoAPI/apps/todos/views.py:18-21 | a create keeps every stored row exactly as it was, and so changes it only as allowed |
| TodoLifecycle.UpdateSuccessor | TodoAPI/apps/todos/views.py:23-25 | an update keeps every row, changing none of its key, owner, `created_at` or `created_by`, and never moves `updated_at` back |
| TodoLifecycle.DestroySuccessor | TodoAPI/apps/todos/views.py:27-31 | a soft delete keeps every row, and a row once deleted stays deleted |
| TodoLifecycle.MarkDoneSuccessor | TodoAPI/apps/todos/views.py:36-47 | a mark_done keeps every row and changes it only as allowed |
| TodoLifecycle.RunSuccessor | TodoAPI/apps/base/base_model.py:8-10 | after any requests every row is still stored. Its key, owner, `created_at` and `created_by` are unchanged, `updated_at` has not gone backwards, and a deleted row is still deleted |
| TodoLifecycle.DeletedStaysHidden | TodoAPI/apps/todos/views.py:16-31 | a soft-deleted row stays stored and stays out of every visible set whatever requests follow |
| TodoLifecycle.CreateLeavesOthers | TodoAPI/apps/todos/views.py:18-21 | a create by another caller keeps each of v's rows unchanged and adds no row owned by v |
| TodoLifecycle.UpdateLeavesOthers | TodoAPI/apps/todos/views.py:23-25 | an update by another caller keeps each of v's rows unchanged and gives v no new row |
| TodoLifecycle.DestroyLeavesOthers | TodoAPI/apps/todos/views.py:27-31 | a destroy by another caller keeps each of v's rows unchanged and gives v no new row |
| TodoLifecycle.MarkDoneLeavesOthers | TodoAPI/apps/todos/views.py:40-43 | a mark_done by another caller keeps each of v's rows unchanged and gives v no new row |
| TodoLifecycle.StepLeavesOthers | TodoAPI/apps/todos/views.py:14-16 | a request by another user leaves a user's rows exactly as they were |
| TodoLifecycle.RunLeavesOthers | TodoAPI/apps/todos/views.py:14-21 | requests none of which comes from user v leave all of v's rows exactly as they were |
| TodoLifecycle.AnonymousRunChangesNothing | TodoAPI/apps/todos/views.py:12 | requests without credentials leave the table exactly as it was |
| TodoLifecycle.MarkDoneIdempotent | TodoAPI/apps/todos/views.py:39-47 | a second mark_done answers as the first did and leaves every row as the first left it, except `updated_at` |
| TodoLifecycle.DestroyThenNotFound | TodoAPI/apps/todos/views.py:27-51 | after a soft delete the row is still stored. A later retrieve, destroy or mark_done on it is not-found and changes nothing |
| TodoLifecycle.CreatedVisibleOnlyToOwner | TodoAPI/apps/todos/views.py:14-21 | a created row is listed for its creator and for no other user |
| TodoLifecycle.CreateDeleteRetrieveScenario | TodoAPI/apps/todos/tests.py:28-73 | creating "Sample Task" gives 201, not completed and not deleted. Deleting it gives 204, and retrieving it afterwards gives 404 while the row is still stored |
| TodoLifecycle.AuditFieldsOptional | TodoAPI/apps/base/base_model.py:11-24 | a row with neither `created_by` nor `updated_by` is a valid row and is served normally |
| TodoViews.TodoViewSet.Save | TodoAPI/apps/base/base_model.py:8-10 | saving an instance updates the table exactly as `TodoStore.Save` |
| TodoViews.TodoViewSet.GetQueryset | TodoAPI/apps/todos/views.py:14-16 | the queryset holds exactly the stored rows owned by the user and not soft-deleted |
| TodoViews.TodoViewSet.GetObject | TodoAPI/apps/todos/views.py:29 | the lookup finds a row iff the key is well formed and in the queryset, and returns that row |
| TodoViews.TodoViewSet.List | TodoAPI/apps/todos/views.py:12-16 | the list response is the one `ListStep` specifies |
| TodoViews.TodoViewSet.Retrieve | TodoAPI/apps/todos/views.py:12-16 | the retrieve response is the one `RetrieveStep` specifies |
| TodoViews.TodoViewSet.Create | TodoAPI/apps/todos/views.py:18-21 | the new table and response are those of `CreateStep`, and the table invariant is kept |
| TodoViews.TodoViewSet.Update | TodoAPI/apps/todos/views.py:23-25 | the new table and response are those of `UpdateStep`, and the table invariant is kept |
| TodoViews.TodoViewSet.Destroy | TodoAPI/apps/todos/views.py:27-34 | the new table and response are those of `DestroyStep`, and the table invariant is kept |
| TodoViews.TodoViewSet.MarkDone | TodoAPI/apps/todos/views.py:36-51 | the new table and response are those of `MarkDoneStep`, and the table invariant is kept |
| TodoViews.TodoViewSet.Handle | TodoAPI/apps/todos/views.py:9-12 | serving any request changes the table and answers as `Step` specifies |
| LogMiddleware.RestOfLine | TodoAPI/TodoAPI/middleware/log_middleware.py:9 | what `.*$` accepts after a prefix is exactly a text with no newline except, possibly, as its last character |
| LogMiddleware.PrefixLine | TodoAPI/TodoAPI/middleware/log_middleware.py:9-15 | a `^prefix.*$` pattern matches exactly the paths that start with the prefix and have no newline after it other than one that ends the path |
| LogMiddleware.AdminCss | TodoAPI/TodoAPI/middleware/log_middleware.py:11 | a matching path lies under "/admin/" and contains "/css/" after that prefix; every newline-free such path matches |
| LogMiddleware.AdminBlockedPage | TodoAPI/TodoAPI/middleware/log_middleware.py:16 | a matching path lies under "/admin/" and ends in "/blockedPage.css", or in that and one final newline; every newline-free path whose part after "/admin/" ends in "/blockedPage.css" matches |
| LogMiddleware.Excluded | TodoAPI/TodoAPI/middleware/log_middleware.py:8-17 | an excluded path lies under "/static/", "/admin/" or "/api/token/". Every path under "/admin/jsi18n/" is excluded, and so is every newline-free path under one of the other prefix patterns |
| LogMiddleware.LogsBody | TodoAPI/TodoAPI/middleware/log_middleware.py:30-32 | the body is examined exactly for POST, PUT and PATCH with a Content-Type header that is present and non-empty |
| LogMiddleware.IsJsonResponse | TodoAPI/TodoAPI/middleware/log_middleware.py:59 | a response is JSON exactly when its Content-Type header is present and starts with the JSON type; a missing header is never JSON, and a response JSON header is also JSON to the request hook's substring test |
| LogMiddleware.MissingStartTime | TodoAPI/TodoAPI/middleware/log_middleware.py:49 | the response hook fails on the start time exactly for a logged path whose request was never stamped |
| LogMiddleware.HttpRequest.constructor | TodoAPI/TodoAPI/middleware/log_middleware.py:27 | a request arrives with the path, method, headers, body, form and user it was sent with and without a start time; only the request hook sets one |
| LogMiddleware.Take | TodoAPI/TodoAPI/middleware/log_middleware.py:69 | `s[:1000]` is a prefix of at most 1000 characters, all of `s` when it is shorter |
| LogMiddleware.LevelOf | TodoAPI/TodoAPI/middleware/log_middleware.py:36-39 | exactly the two decode-failure notices and the exception line are logged at error level |
| LogMiddleware.GetUser | TodoAPI/TodoAPI/middleware/log_middleware.py:77-80 | the user's string form when authenticated, exactly "Anonymous" otherwise |
| LogMiddleware.RequestBodyKind | TodoAPI/TodoAPI/middleware/log_middleware.py:33-43 | JSON iff the Content-Type contains the JSON type; multipart iff it contains the multipart type and not the JSON type; otherwise raw |
| LogMiddleware.BodyEntries | TodoAPI/TodoAPI/middleware/log_middleware.py:33-43 | one entry for parsed JSON, for a multipart form or for a raw body. Two entries, the decode error then the raw body, exactly when a JSON body fails to parse |
| LogMiddleware.RequestEntries | TodoAPI/TodoAPI/middleware/log_middleware.py:23-43 | nothing for an excluded path. Otherwise the separator, then the request line with the method and path, then the body entries exactly when the method is POST, PUT or PATCH and a non-empty Content-Type is present |
| LogMiddleware.ContentEntries | TodoAPI/TodoAPI/middleware/log_middleware.py:57-69 | a JSON response gives its parsed content, or the decode error and the raw text. Otherwise an HTML document gives nothing, and anything else gives one entry of at most the first 1000 characters |
| LogMiddleware.ResponseEntries | TodoAPI/TodoAPI/middleware/log_middleware.py:45-71 | nothing for an excluded path or a missing start time. Otherwise the status line with duration and user comes first. Content entries follow only for a non-GET response that has content |
| LogMiddleware.CustomLoggingMiddleware.ProcessRequest | TodoAPI/TodoAPI/middleware/log_middleware.py:23-43 | appends exactly `RequestEntries` to the log. It stamps the request with the start time unless the path is excluded |
| LogMiddleware.CustomLoggingMiddleware.ProcessResponse | TodoAPI/TodoAPI/middleware/log_middleware.py:45-71 | appends exactly `ResponseEntries` to the log. It returns the response it was given, or raises when a logged request was never stamped |
| LogMiddleware.CustomLoggingMiddleware.ProcessException | TodoAPI/TodoAPI/middleware/log_middleware.py:73-75 | appends one exception entry, even for an excluded path, and returns nothing, so the exception propagates |
| LogProperties.ExcludedExamples | TodoAPI/TodoAPI/middleware/log_middleware.py:9-13 | static files, the admin's script translations and the token endpoint are excluded |
| LogProperties.AdminStyleSheetsExcluded | TodoAPI/TodoAPI/middleware/log_middleware.py:11 | an admin style sheet is excluded, with `/css/` found inside the path rather than at its start |
| LogProperties.BlockedPageExcluded | TodoAPI/TodoAPI/middleware/log_middleware.py:16 | blockedPage.css under an admin path is excluded |
| LogProperties.BlockedPageUnder | TodoAPI/TodoAPI/middleware/log_middleware.py:16 | any newline-free path under "/admin/" followed by "/blockedPage.css" is excluded |
| LogProperties.TrailingNewlineStillExcluded | TodoAPI/TodoAPI/middleware/log_middleware.py:9 | `$` accepts one final newline after an excluded path |
| LogProperties.LoggedExamples | TodoAPI/TodoAPI/middleware/log_middleware.py:8-17 | the API's own paths and the admin index are not excluded |
| LogProperties.ApiPathsLogged | TodoAPI/TodoAPI/middleware/log_middleware.py:8-17 | every path under "/api/todos/" is logged, whatever follows the prefix |
| LogProperties.InnerNewlineDefeatsExclusion | TodoAPI/TodoAPI/middleware/log_middleware.py:9 | a newline inside a static path defeats the pattern, so the path is logged |
| LogProperties.ContentTypeTestsDiffer | TodoAPI/TodoAPI/middleware/log_middleware.py:33-59 | a Content-Type that only mentions the JSON type is JSON for the request hook (substring) but not for the response hook (prefix) |
| LogProperties.JsonTestComesFirst | TodoAPI/TodoAPI/middleware/log_middleware.py:33-41 | a Content-Type naming both JSON and multipart is treated as JSON |
| LogProperties.ExcludedPathIsSilent | TodoAPI/TodoAPI/middleware/log_middleware.py:24-25 | for an excluded path neither hook appends anything |
| LogProperties.GetCycleLogsThree | TodoAPI/TodoAPI/middleware/log_middleware.py:27-55 | a logged GET yields exactly the separator, the request line and the status line |
| LogProperties.CycleBounds | TodoAPI/TodoAPI/middleware/log_middleware.py:27-69 | a stamped request and its response log at most seven entries. Only the decode-failure notices are at error level |
| LogProperties.SeparatorShape | TodoAPI/TodoAPI/middleware/log_middleware.py:28 | the separator is thirty "=" characters |
| LogProperties.HandleCycle | TodoAPI/TodoAPI/middleware/log_middleware.py:27-49 | when the request hook runs first, the response hook never meets a missing start time. It returns the given response, and the log grows by the request entries and then the response entries |

## Left out

- Persistence: the database, its queries, transactions and migrations are a map from key to row. Concurrent requests are left out; the server handles them and the repository has none of its own.
- Ordering: the list endpoint's result is a map, so the order in which the database returns rows is not modelled.
- Serializer validation: `serializers.py` is not part of this model. Checking for required fields on create and PUT, rejecting blank values, trimming whitespace and choosing which fields a body may write all depend on it, so they are not modelled. The only validation kept is the 200-character limit that the title column's `max_length` gives the serializer. PUT and PATCH are therefore one update whose body may carry any of title, description and completed.
- User deletion: the owner and both audit users are foreign keys with `on_delete=CASCADE` (`models.py:7`, `base_model.py:14` and `base_model.py:21`), so deleting a user deletes, outright, every Todo the user owns, created or last updated. Users are never deleted in the model, and "rows are never removed" holds only for the requests the views serve.
- Form data: the multipart entry logs `request.POST` as a string given with the request. The framework fills `request.POST` only for a POST whose body it parses as a form, so a multipart PUT or PATCH, or a Content-Type that only mentions the multipart type, logs an empty form. Which bodies the framework parses is not modelled.
- Authentication: JWT and bearer tokens are an optional caller id. Token issuing and verification are not modelled.
- UUIDs: key generation is a counter. Key text that is not a UUID is a separate malformed case.
- Time: the wall clock in the ORM's saves is a counter that ticks once per save. The middleware's `datetime.now()` is a parameter, and its duration is the difference of two readings.
- Library calls: `json.loads` and the lenient UTF-8 decoding are oracles. A request body that is not valid UTF-8 makes `json.loads` raise `UnicodeDecodeError` rather than `JSONDecodeError`, so it escapes the hook. The oracle's two outcomes do not model that.
- Log text: entries are recorded by kind and payload. The f-string rendering, including how dicts and bytes are printed, and the `logging` module's handlers and sinks are not modelled.
- The exception raised by `process_response` for a missing start time is recorded only by name.
- Routing and the admin site: `urls.py` registers the router only, and `admin.py` configures the admin list view only. Neither is modelled, so a key that the router's pattern refuses, and the 404 the URL resolver then gives, are outside the model.

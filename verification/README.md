# Work boards and tasks — a Dafny model

This project models the `boards` application of a small task-management web
service. Authenticated users own **work boards**. Each board holds **tasks**, and
each task has a title, a description, a status (`ToDo`, `InProgress` or
`Completed`), and optionally an assigned user. The service exposes two REST view
sets, each a full model view set. The modelled actions are:

- **boards**: list, retrieve, create, destroy, plus the `add_task` action;
- **tasks**: list, retrieve, plus the `update_status` and `assign_user` actions.

A user only ever sees their own boards and the tasks on their own boards. A
permission class lets safe methods through and lets writes through only for the
object's owner.

The model is pure and functional. The database is a `Store` value: a set of
user ids, a map from board id to `Board`, a map from task id to `Task`, one id
counter per table, and a creation clock. Each request is a function that takes
a store, the caller's user id and the request body, and returns
`Result<Store>` (or `Result<Board>` / `Result<Task>` for reads). An `Err`
carries an `Error` that stands for the HTTP response the view would send:

| Error | response |
|---|---|
| `Required` | 400, "Status is required" / "User ID is required" |
| `Invalid` | 400, serializer errors or "Invalid status" |
| `UserNotFound` | 400, "User not found" |
| `NotFound` | 404, the object is outside the caller's queryset |
| `Forbidden` | 403, the object permission refused |
| `ServerError` | 500, an uncaught Python exception |

Request body fields are `Value`s: absent, JSON `null`, an integer or a string.
Python truthiness (`not x`) is modelled by `Values.Truthy`. The title and
description columns become DRF character fields. These strip leading and
trailing whitespace (every character for which Python's `str.isspace` holds).
The title is then checked for blankness and `max_length=200`. Both fields
reject a value holding U+0000. A choice field accepts keys only. A primary-key related field treats `""` as null and
rejects unknown ids and strings Python's `int()` cannot read.

Modules, in dependency order:

- `Outcomes`: `Option`, `Error`, `Result`.
- `Values`: request values, truthiness, `str.strip`, and `int()` on strings.
- `Models`: `Status`, `Board`, `Task`, `Store`, and the store invariant `Wf`.
  `Wf` says that every task's board exists, every assignee exists, every
  owner exists, titles are valid, ids lie below the counters, and task
  creation time increases with task id.
- `Serializers`: `WorkBoardSerializer` / `TaskSerializer` input validation.
- `Cascades`: the `on_delete` rules (board → tasks CASCADE; owner → boards
  CASCADE; assignee → `SET_NULL`).
- `Views`: the permission class, querysets, listings and every view action.
- `Findings`: the two view paths as the code is written, where the code
  crashes (see Findings below).
- `Properties`: lemmas relating several operations: invariant preservation,
  isolation between users, idempotence, append-at-end listings, cascades.
- `Session`: a whole create-board → add-task → complete-task flow.

## Model

| member | source | states |
|---|---|---|
| Values.Truthy | task_management/boards/views.py:55 | a field value is falsy exactly when it is missing, null, `0` or `""`, as Python's `not` treats it at views.py:55 and views.py:72 |
| Values.ParseInt | task_management/boards/views.py:76 | a string converts to an id when and only when it holds no U+001C..U+001F and, once stripped of whitespace and of one leading sign, it is ASCII digits with single underscores between them, at most 4300 digits (non-ASCII digits aside, see Left out); a negative result needs a leading minus |
| Values.TrimKeepsNul | task_management/boards/models.py:5-6 | stripping never removes U+0000: the stripped text holds one exactly when the input does |
| Values.ParseDecimal | task_management/boards/views.py:76 | a user id written as its decimal string, with any whitespace `int()` skips around it, looks up the same id as the integer itself when it has at most 4300 digits, and reads as nothing when it has more |
| Values.ParseSigned | task_management/boards/views.py:76 | `+n` reads as `n` and `-n` as its negation, whatever whitespace `int()` skips surrounds them, within the same 4300-digit limit |
| Values.ParseValue | task_management/boards/views.py:76 | whatever string is read, the number is the one its digit characters spell, negated when the stripped string starts with a minus |
| Values.ParseGrouped | task_management/boards/views.py:76 | an underscore between two runs of digits does not change the number read |
| Values.ParseIgnoresPadding | task_management/boards/views.py:76 | whitespace `int()` skips (the `str.isspace` set less U+001C..U+001F) around a string that neither starts nor ends with whitespace does not change what is read |
| Values.ParseAlphabet | task_management/boards/views.py:76 | a string that reads as a number holds only digits, underscores, signs and whitespace `int()` skips |
| Values.ParseRejectsNonDigit | task_management/boards/views.py:76 | a string holding any other character, U+001C..U+001F included, is not an integer id, so the lookup cannot succeed |
| Values.Trim | task_management/boards/serializers.py:21-23 | stripped text is no longer than the input, has no whitespace at either end, and is empty exactly when the input is all whitespace |
| Values.TrimKeepsMiddle | task_management/boards/serializers.py:21-23 | stripping removes only leading and trailing whitespace: the result is a contiguous slice of the input with only whitespace around it |
| Values.TrimUnpadded | task_management/boards/serializers.py:21-23 | text without leading or trailing whitespace is stored unchanged |
| Values.TrimIdempotent | task_management/boards/serializers.py:21-23 | stripping twice is the same as stripping once |
| Values.TrimPadded | task_management/boards/serializers.py:21-23 | stripping whitespace-only padding off a string that neither starts nor ends with whitespace gives that string back |
| Models.StatusFromKey | task_management/boards/models.py:15-19 | a status is recognised exactly when the text is one of the three stored keys |
| Models.StatusKeyRoundTrip | task_management/boards/models.py:15-19 | the stored key of every status reads back as that status |
| Models.StatusLabelsRejected | task_management/boards/models.py:15-19 | display labels are not keys: "To Do" and "In Progress" are rejected, and a label is accepted only where it equals its key ("Completed") |
| Models.EmptyStore | task_management/boards/models.py:4-27 | a store with users and no boards or tasks satisfies the invariant |
| Serializers.CleanTitle | task_management/boards/models.py:5 | a title is accepted iff it is present, not blank after stripping, at most 200 characters once stripped, and free of U+0000; the stored title is the stripped text |
| Serializers.UnpaddedTitleAccepted | task_management/boards/models.py:21 | any title of 1 to 200 characters with no surrounding whitespace and no U+0000 is accepted and stored verbatim |
| Serializers.NulTitleRejected | task_management/boards/models.py:21 | a title holding U+0000 anywhere is rejected, however it is padded |
| Serializers.CleanDescription | task_management/boards/models.py:6 | a missing description is stored empty; a given one is accepted iff it holds no U+0000, and is stored stripped, possibly blank |
| Serializers.CleanStatus | task_management/boards/models.py:23 | a missing status defaults to `ToDo`; a given one is accepted iff it is a choice key |
| Serializers.CleanAssignee | task_management/boards/serializers.py:13-19 | missing, null and empty-string ids give no assignee; an integer or a string `int()` reads is accepted iff it names an existing user, and that user becomes the assignee |
| Serializers.ValidateBoard | task_management/boards/serializers.py:26-32 | board input is valid iff its title and its description are; the stored fields are the cleaned ones |
| Serializers.ValidateTask | task_management/boards/serializers.py:11-23 | task input is valid iff title, description, status and assignee id each are; on success the title is the stripped title, the status is the given key or the default, and the assignee is the user the id names |
| Serializers.ReadOnlyFieldsIgnored | task_management/boards/serializers.py:11-28 | changing the read-only `assigned_to`, `work_board`, `owner` or `tasks` fields of a body never changes validation |
| Cascades.RemoveBoard | task_management/boards/models.py:25 | deleting a board deletes exactly the tasks on it and leaves every other board and task untouched |
| Cascades.Unassign | task_management/boards/models.py:24 | a deleted assignee is replaced by null and any other assignee is kept |
| Cascades.DeleteUser | task_management/boards/models.py:9-25 | deleting a user deletes the user's boards and their tasks, clears the user from surviving tasks, and changes nothing else |
| Views.HasObjectPermission | task_management/boards/views.py:9-15 | safe methods are always allowed; a write is allowed iff the caller owns the board, or the board holding the task |
| Views.ListBoards | task_management/boards/views.py:23-24 | the board list holds exactly the caller's boards, in increasing id order |
| Views.ListTasks | task_management/boards/views.py:45-46 | the task list holds exactly the tasks on the caller's boards, ordered by creation time |
| Views.BoardTasks | task_management/boards/serializers.py:27 | a board's nested task list holds exactly that board's tasks, ordered by creation time |
| Views.BoardForRequest | task_management/boards/views.py:19-24 | a board detail request succeeds iff the caller owns the board, and is otherwise a 404, never a 403 |
| Views.TaskForRequest | task_management/boards/views.py:41-46 | a task detail request succeeds iff the task is on one of the caller's boards, and is otherwise a 404 |
| Views.CreateBoard | task_management/boards/views.py:26-27 | board creation succeeds iff the title and description are valid; the new board gets the next id, the stripped title and the caller as owner, and nothing else changes |
| Views.AddTask | task_management/boards/views.py:31-37 | 404 unless the caller owns the board, else 400 unless the body is valid; on success the new task gets the next id, sits on the URL's board, and carries the stripped title and description and the given or default status and assignee; other tasks are unchanged |
| Views.DestroyBoard | task_management/boards/views.py:19-24 | destroying succeeds iff the caller owns the board, and then removes the board and its tasks |
| Views.UpdateStatus | task_management/boards/views.py:50-63 | 404 outside the caller's scope, then 400 "required" for a falsy status, then 400 "invalid" for a non-key; on success only that task's status changes, to the given key |
| Views.AssignUser | task_management/boards/views.py:67-81 | 404 outside scope, then 400 "required" for a falsy id, then 500 for a string `int()` cannot read, then 400 "user not found"; on success only that task's assignee changes, to the requested user |
| Findings.HasObjectPermissionAsWritten | task_management/boards/views.py:10-15 | the guard as written: safe methods pass; a write on a board compares owners; a write on a task raises (a task has no `owner`) |
| Findings.BoardGuardAgrees | task_management/boards/views.py:15 | on boards, the guard as written and the corrected guard give the same answer for every method |
| Findings.UpdateStatusAsWritten | task_management/boards/views.py:50-63 | as written, `update_status` is a 500 for every task in the caller's scope and a 404 otherwise |
| Findings.AssignUserAsWritten | task_management/boards/views.py:67-81 | as written, `assign_user` is a 500 for every task in the caller's scope and a 404 otherwise |
| Findings.TaskWriteGuardFinding | task_management/boards/views.py:15 | for the board owner's own task and a valid request, the code as written fails while the corrected guard stores the status or assignee |
| Findings.CallKeywords | task_management/boards/serializers.py:36 | a Python call succeeds iff no keyword is given both explicitly and by `**` expansion |
| Findings.CreateBoardAsWritten | task_management/boards/serializers.py:34-37 | as written, board creation is a 500 for every valid body (the owner keyword is passed twice), and a 400 otherwise |
| Findings.CreateBoardFinding | task_management/boards/views.py:26-27 | for every valid body, creation as written fails while the corrected creation stores a board owned by the caller |
| Properties.ScopedObjectsPassGuard | task_management/boards/views.py:9-15 | every object a caller can reach through its queryset passes the object permission, so the 403 branch is unreachable; a write on a task outside the caller's scope would be refused |
| Properties.GetAgreesWithList | task_management/boards/views.py:23-24 | retrieving a board or task succeeds iff its id is in the caller's list |
| Properties.UsersIsolated | task_management/boards/views.py:45-46 | two different users' board lists and task lists share no id |
| Properties.TasksAreTasksOfOwnBoards | task_management/boards/views.py:46 | a task is in the caller's list iff it is in the nested task list of one of the caller's boards |
| Properties.CreateBoardPreservesWf | task_management/boards/models.py:9 | creating a board for an existing user keeps the store invariant |
| Properties.CreateBoardAppends | task_management/boards/views.py:26-27 | after creation the new board is appended to the caller's list, and other users' lists and all task lists are unchanged |
| Properties.CreateBoardOwnerFromCaller | task_management/boards/serializers.py:28 | the owner of a created board is the caller whatever owner the body names |
| Properties.AddTaskPreservesWf | task_management/boards/models.py:25 | adding a task keeps the store invariant |
| Properties.AddTaskAppends | task_management/boards/models.py:32-33 | a new task gets a fresh id and is appended to the end of the caller's task list and of the board's nested list |
| Properties.AddTaskLeavesOthers | task_management/boards/views.py:45-46 | adding a task leaves every other user's task list unchanged |
| Properties.AddTaskBoardFromUrl | task_management/boards/views.py:35 | the new task's board is the URL's board whatever `work_board` the body names |
| Properties.UpdateStatusPreservesWf | task_management/boards/models.py:23 | updating a status keeps the store invariant |
| Properties.AnyStatusReachable | task_management/boards/views.py:58-63 | from any status, any of the three keys can be set: there is no transition order |
| Properties.StatusLabelsInvalid | task_management/boards/views.py:58-59 | sending the labels "To Do" or "In Progress" is a 400 "invalid" |
| Properties.UpdateStatusIdempotent | task_management/boards/views.py:61-62 | sending the same status twice gives the same store as sending it once |
| Properties.AssignUserPreservesWf | task_management/boards/models.py:24 | assigning a user keeps the store invariant |
| Properties.AssignUserIdempotent | task_management/boards/views.py:76-78 | assigning the same user twice gives the same store as assigning once |
| Properties.FalsyUserIdIsMissing | task_management/boards/views.py:72-73 | the ids `0`, `""` and `null` are all reported as missing, before any lookup |
| Properties.ReassignOverwrites | task_management/boards/views.py:77 | a second assignment replaces the first |
| Properties.RemoveBoardPreservesWf | task_management/boards/models.py:25 | the board cascade keeps the store invariant |
| Properties.DestroyBoardCascades | task_management/boards/models.py:25 | after destroying a board the invariant holds, the board is gone from the caller's list, every task that was on it is a 404, and every other task reads as before |
| Properties.DeleteUserPreservesWf | task_management/boards/models.py:9-25 | deleting a user keeps the store invariant |
| Properties.DeleteUserCascades | task_management/boards/models.py:24-25 | after deleting a user the user has no boards or tasks, no task is assigned to them, and every surviving task keeps its other fields |
| Session.CompleteOwnTask | task_management/boards/views.py:50-63 | a board owner can mark any of their tasks completed, and retrieving it then shows `Completed` |
| Session.SessionFlow | task_management/boards/views.py:26-63 | after creating a board and adding a task without a status, the task reads back as `ToDo`, another user gets a 404 for the board, and the owner can complete the task |

## Notes on the code's behaviour

- `add_task` validates the body with the full task serializer. So the body may
  set `status` (keys only) and `assigned_to_id`; the status is `ToDo` only when
  the body leaves it out.
- A write on another user's board or task is a 404 rather than a 403. Every
  object lookup goes through a queryset already filtered to the caller, so the
  permission class never refuses (`Properties.ScopedObjectsPassGuard`).
- `assign_user` with a string id that `int()` cannot read raises an uncaught
  `ValueError` in the ORM lookup. That is a 500, not a 400 "User not found".
  A string `int()` can read is looked up as that number: `" 5"` finds user 5,
  and `"-1"` finds nobody, which is a 400. `int()` skips only
  `" \t\n\v\f\r"` among ASCII characters, so `"\x1c5"` is a 500, although
  `str.strip` would remove the U+001C. A string of more than 4300 digits is a
  500 too, because `int()` refuses to convert it.
- Titles are stripped of surrounding whitespace before validation, so an
  all-whitespace title is rejected as blank.
- The task write guard and board creation both crash (see Findings).

## Left out

- URL routing, authentication and `IsAuthenticated`: the caller is a user id
  given as a parameter. Lemmas that need the caller to exist state it as a
  precondition.
- Response bodies and JSON rendering: only success and the kind of error are
  modelled, not the serialized data or messages.
- `__str__` and `UserSerializer`: presentation only.
- `created_at` / `updated_at`: a store clock that increases on every insert
  stands in for `created_at`. `updated_at` has no observable effect on any
  modelled operation, so it is omitted.
- The generic task create, update and destroy actions, and the generic board
  update: these are framework defaults outside the `boards` code itself.
  Board destroy is modelled because its cascade is the application's own.
- Database transactions, concurrency, and id reuse: ids come from counters
  that only grow.
- JSON booleans, floats, lists and objects as field values, and non-string
  titles, descriptions or statuses: request values are absent, null, integer
  or string only.
- Values.ParseInt: Python's `int()` also accepts decimal digits outside ASCII
  (Arabic-Indic, full-width and so on); a string holding them is treated as
  unreadable here.
- Views.AssignUser: a `user_id` string of non-ASCII decimal digits is a 500
  in the model, where Python would look up the number.
- Serializers.CleanAssignee: a string of non-ASCII decimal digits is rejected
  as `Invalid`, where DRF would look up the number.
- Values.ParseRejectsNonDigit: non-ASCII decimal digits count as "any other
  character", although `int()` reads them.
- The 4300-digit limit (`Values.MaxStrDigits`) is CPython's default. A deployment
  can change it (`PYTHONINTMAXSTRDIGITS`, `sys.set_int_max_str_digits`), and
  Python releases older than the limit have none.
- JSON integers over 4300 digits: parsing the request body fails before any
  view runs; integer field values are taken as already parsed.
- Lone surrogate code points: DRF's character fields also reject them
  (`ProhibitSurrogateCharactersValidator`), but a Dafny `char` cannot hold
  one, so no modelled string contains one.
- Serializers.ValidateTask: DRF reports every failing field at once; the model
  reports a single `Invalid`.
- Serializers.CleanTitle: a missing title is folded into `Invalid` rather than
  a separate "required" message.
- Views.ListBoards: the board queryset has no declared ordering; the model
  lists boards in id order.
- Task ordering ties: two tasks created at the same timestamp have no defined
  order; the model's clock never repeats a value.

## Findings

| source | as written | input that shows it | evidently intended | confidence | as-written member | corrected member |
|---|---|---|---|---|---|---|
| task_management/boards/views.py:15 | the object permission reads `obj.owner`, but a `Task` has no `owner` field, so every PATCH on a task raises `AttributeError` | the owner of board 1 sends `PATCH /api/tasks/1/update_status/` with `{"status": "Completed"}` for a task on board 1 | a task's owner is its board's owner, so the board owner may update the task | not executed | Findings.UpdateStatusAsWritten, Findings.AssignUserAsWritten, Findings.TaskWriteGuardFinding | Views.HasObjectPermission, Views.UpdateStatus, Views.AssignUser |
| task_management/boards/views.py:27 | `perform_create` passes `owner` to `save`, which puts it into `validated_data`; `create` then calls `WorkBoard.objects.create(owner=user, **validated_data)` with `owner` twice, which raises `TypeError` | an authenticated user sends `POST /api/workboards/` with `{"title": "Sprint 1"}` | the board is created with the caller as owner | not executed | Findings.CreateBoardAsWritten, Findings.CreateBoardFinding | Views.CreateBoard |

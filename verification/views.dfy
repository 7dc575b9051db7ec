/** The two view sets: the object permission, the per-user querysets, and the actions on boards
    and tasks. Each action is a function from the store to a new store or an error. The caller is
    an authenticated user id supplied from outside. */
module Views {
  import opened Outcomes
  import opened Values
  import opened Models
  import opened Serializers
  import opened Cascades

  datatype Method = Get | Head | Options | Post | Put | Patch | Delete

  /** `permissions.SAFE_METHODS`. */
  predicate IsSafe(m: Method) {
    m == Get || m == Head || m == Options
  }

  /** The object a permission check is asked about. */
  datatype Target = BoardTarget(board: Board) | TaskTarget(task: Task)

  /** Whose request may write `obj`: a board's owner, or the owner of the board a task is on. */
  function WriteOwner(s: Store, obj: Target): Option<UserId> {
    match obj
    case BoardTarget(board) => Some(board.owner)
    case TaskTarget(task) => if task.board in s.boards then Some(s.boards[task.board].owner) else None
  }

  /** `IsOwnerOrReadOnly.has_object_permission`, reading a task's owner through its board. */
  function HasObjectPermission(s: Store, m: Method, caller: UserId, obj: Target): (ok: bool)
    ensures IsSafe(m) ==> ok
    ensures !IsSafe(m) ==> (ok <==> WriteOwner(s, obj) == Some(caller))
  {
    IsSafe(m) || WriteOwner(s, obj) == Some(caller)
  }

  // ---------------------------------------------------------------- querysets

  /** `WorkBoard.objects.filter(owner=user)` as a membership test. */
  predicate OwnsBoard(s: Store, u: UserId, b: BoardId) {
    b in s.boards && s.boards[b].owner == u
  }

  /** `Task.objects.filter(work_board__owner=user)` as a membership test. */
  predicate SeesTask(s: Store, u: UserId, t: TaskId) {
    t in s.tasks && OwnsBoard(s, u, s.tasks[t].board)
  }

  /** The boards of `u` with a key below `n`, in key order. */
  function BoardsBelow(s: Store, u: UserId, n: nat): (r: seq<BoardId>)
    ensures forall i :: 0 <= i < |r| ==> r[i] < n && OwnsBoard(s, u, r[i])
    ensures forall b: BoardId :: b < n && OwnsBoard(s, u, b) ==> b in r
    ensures forall i, j :: 0 <= i < j < |r| ==> r[i] < r[j]
  {
    if n == 0 then []
    else
      var r := BoardsBelow(s, u, n - 1);
      if OwnsBoard(s, u, n - 1) then r + [n - 1] else r
  }

  /** `WorkBoardViewSet.get_queryset`: exactly the boards `u` owns, each once, in key order. */
  function ListBoards(s: Store, u: UserId): (r: seq<BoardId>)
    requires Wf(s)
    ensures forall b :: b in r <==> OwnsBoard(s, u, b)
    ensures forall i, j :: 0 <= i < j < |r| ==> r[i] < r[j]
  {
    BoardsBelow(s, u, s.nextBoard)
  }

  /** Which tasks a task listing selects: those on boards of a user, or those on one board. */
  datatype TaskScope = OwnedBy(user: UserId) | OnBoard(board: BoardId)

  predicate InScope(s: Store, scope: TaskScope, t: TaskId)
    requires t in s.tasks
  {
    match scope
    case OwnedBy(u) => OwnsBoard(s, u, s.tasks[t].board)
    case OnBoard(b) => s.tasks[t].board == b
  }

  /** The tasks in `scope` with a key below `n`, in key order. */
  function TasksBelow(s: Store, scope: TaskScope, n: nat): (r: seq<TaskId>)
    ensures forall i :: 0 <= i < |r| ==> r[i] < n && r[i] in s.tasks && InScope(s, scope, r[i])
    ensures forall t: TaskId :: t < n && t in s.tasks && InScope(s, scope, t) ==> t in r
    ensures forall i, j :: 0 <= i < j < |r| ==> r[i] < r[j]
  {
    if n == 0 then []
    else
      var r := TasksBelow(s, scope, n - 1);
      if n - 1 in s.tasks && InScope(s, scope, n - 1) then r + [n - 1] else r
  }

  /** `TaskViewSet.get_queryset`: exactly the tasks on boards `u` owns, in ascending creation order
      (`Meta.ordering = ['created_at']`). */
  function ListTasks(s: Store, u: UserId): (r: seq<TaskId>)
    requires Wf(s)
    ensures forall t :: t in r <==> SeesTask(s, u, t)
    ensures forall i, j :: 0 <= i < j < |r| ==> r[i] in s.tasks && r[j] in s.tasks && s.tasks[r[i]].created < s.tasks[r[j]].created
  {
    TasksBelow(s, OwnedBy(u), s.nextTask)
  }

  /** The nested, read-only `tasks` of a serialized board: the tasks on it, in creation order. */
  function BoardTasks(s: Store, b: BoardId): (r: seq<TaskId>)
    requires Wf(s)
    ensures forall t :: t in r <==> t in s.tasks && s.tasks[t].board == b
    ensures forall i, j :: 0 <= i < j < |r| ==> r[i] in s.tasks && r[j] in s.tasks && s.tasks[r[i]].created < s.tasks[r[j]].created
  {
    TasksBelow(s, OnBoard(b), s.nextTask)
  }

  // ---------------------------------------------------------------- get_object

  /** `get_object` on the board view set: look the key up in the caller's queryset (404 when it is
      not there), then ask the object permission (403 when it refuses, which never happens here). */
  function BoardForRequest(s: Store, caller: UserId, m: Method, b: BoardId): (r: Result<Board>)
    ensures r.Ok? <==> OwnsBoard(s, caller, b)
    ensures r.Ok? ==> r.value == s.boards[b]
    ensures r.Err? ==> r.error == NotFound
  {
    if !OwnsBoard(s, caller, b) then Err(NotFound)
    else if !HasObjectPermission(s, m, caller, BoardTarget(s.boards[b])) then Err(Forbidden)
    else Ok(s.boards[b])
  }

  /** `get_object` on the task view set, with the same two steps. */
  function TaskForRequest(s: Store, caller: UserId, m: Method, t: TaskId): (r: Result<Task>)
    ensures r.Ok? <==> SeesTask(s, caller, t)
    ensures r.Ok? ==> r.value == s.tasks[t]
    ensures r.Err? ==> r.error == NotFound
  {
    if !SeesTask(s, caller, t) then Err(NotFound)
    else if !HasObjectPermission(s, m, caller, TaskTarget(s.tasks[t])) then Err(Forbidden)
    else Ok(s.tasks[t])
  }

  /** `GET /api/workboards/{id}/`. */
  function GetBoard(s: Store, caller: UserId, b: BoardId): Result<Board> {
    BoardForRequest(s, caller, Get, b)
  }

  /** `GET /api/tasks/{id}/`. */
  function GetTask(s: Store, caller: UserId, t: TaskId): Result<Task> {
    TaskForRequest(s, caller, Get, t)
  }

  // ---------------------------------------------------------------- board actions

  /** `perform_create` with `WorkBoardSerializer.create`: a valid body becomes a new board under the
      next key whose owner is the caller; nothing else in the store changes. */
  function CreateBoard(s: Store, caller: UserId, input: BoardInput): (r: Result<Store>)
    ensures r.Ok? <==> BoardInputValid(input)
    ensures r.Err? ==> r.error == Invalid
    ensures r.Ok? ==>
      && r.value.boards.Keys == s.boards.Keys + {s.nextBoard}
      && r.value.boards[s.nextBoard].owner == caller
      && r.value.boards[s.nextBoard].title == Trim(input.title.value)
      && r.value.boards[s.nextBoard].description == CleanDescription(input.description).value
      && (forall b :: b in s.boards && b != s.nextBoard ==> r.value.boards[b] == s.boards[b])
      && r.value.tasks == s.tasks && r.value.users == s.users
  {
    var f :- ValidateBoard(input);
    var id := s.nextBoard;
    Ok(s.(boards := s.boards[id := Board(f.title, f.description, caller, s.clock)],
          nextBoard := id + 1,
          clock := s.clock + 1))
  }

  /** `add_task`: the board must be in the caller's queryset (else 404, whatever the body); then a
      valid body becomes one new task on that board under the next key; an invalid one creates nothing. */
  function AddTask(s: Store, caller: UserId, b: BoardId, input: TaskInput): (r: Result<Store>)
    ensures !OwnsBoard(s, caller, b) ==> r == Err(NotFound)
    ensures OwnsBoard(s, caller, b) && !TaskInputValid(s.users, input) ==> r == Err(Invalid)
    ensures r.Ok? <==> OwnsBoard(s, caller, b) && TaskInputValid(s.users, input)
    ensures r.Ok? ==> r.value.tasks.Keys == s.tasks.Keys + {s.nextTask}
    ensures r.Ok? ==> forall t :: t in s.tasks && t != s.nextTask ==> r.value.tasks[t] == s.tasks[t]
    ensures r.Ok? ==>
      var task := r.value.tasks[s.nextTask];
      && task.board == b
      && task.title == Trim(input.title.value)
      && task.description == CleanDescription(input.description).value
      && (input.status.None? ==> task.status == DefaultStatus)
      && (input.status.Some? ==> task.status.Key() == input.status.value)
      && task.assignee == CleanAssignee(s.users, input.assignedToId).value
      && r.value.boards == s.boards && r.value.users == s.users
  {
    if BoardForRequest(s, caller, Post, b).Err? then Err(NotFound)
    else match ValidateTask(s.users, input)
      case Err(e) => Err(e)
      case Ok(f) =>
        var id := s.nextTask;
        Ok(s.(tasks := s.tasks[id := Task(f.title, f.description, f.status, f.assignee, b, s.clock)],
              nextTask := id + 1,
              clock := s.clock + 1))
  }

  /** `DELETE /api/workboards/{id}/`: the board in the caller's queryset is deleted with its tasks. */
  function DestroyBoard(s: Store, caller: UserId, b: BoardId): (r: Result<Store>)
    ensures r.Ok? <==> OwnsBoard(s, caller, b)
    ensures r.Err? ==> r.error == NotFound
    ensures r.Ok? ==> r.value == RemoveBoard(s, b)
  {
    var board :- BoardForRequest(s, caller, Delete, b);
    Ok(RemoveBoard(s, b))
  }

  // ---------------------------------------------------------------- task actions

  /** `s'` differs from `s` at most in the status and assignee of task `t`. */
  ghost predicate OnlyTaskStateChanged(s: Store, s': Store, t: TaskId) {
    && s'.users == s.users && s'.boards == s.boards
    && s'.nextBoard == s.nextBoard && s'.nextTask == s.nextTask && s'.clock == s.clock
    && s'.tasks.Keys == s.tasks.Keys
    && t in s.tasks
    && (forall x :: x in s.tasks && x != t ==> s'.tasks[x] == s.tasks[x])
    && s'.tasks[t].(status := s.tasks[t].status, assignee := s.tasks[t].assignee) == s.tasks[t]
  }

  /** The status a `status` body value names: a string equal to a choice key, and nothing else. */
  function StatusOfValue(v: Value): Option<Status> {
    match v
    case Str(k) => StatusFromKey(k)
    case _ => None
  }

  /** The body of `update_status` once the task is found: a falsy value is missing, a value that is
      not a choice key is invalid, and otherwise it becomes the task's status. */
  function SetStatus(s: Store, t: TaskId, v: Value): Result<Store>
    requires t in s.tasks
  {
    if !Truthy(v) then Err(Required)
    else match StatusOfValue(v)
      case None => Err(Invalid)
      case Some(st) => Ok(s.(tasks := s.tasks[t := s.tasks[t].(status := st)]))
  }

  /** `PATCH /api/tasks/{id}/update_status/`. */
  function UpdateStatus(s: Store, caller: UserId, t: TaskId, v: Value): (r: Result<Store>)
    ensures !SeesTask(s, caller, t) ==> r == Err(NotFound)
    ensures SeesTask(s, caller, t) && !Truthy(v) ==> r == Err(Required)
    ensures SeesTask(s, caller, t) && Truthy(v) && StatusOfValue(v).None? ==> r == Err(Invalid)
    ensures r.Ok? <==> SeesTask(s, caller, t) && v.Str? && StatusFromKey(v.s).Some?
    ensures r.Ok? ==>
      && OnlyTaskStateChanged(s, r.value, t)
      && r.value.tasks[t].status.Key() == v.s
      && r.value.tasks[t].assignee == s.tasks[t].assignee
  {
    var task :- TaskForRequest(s, caller, Patch, t);
    SetStatus(s, t, v)
  }

  /** The id `User.objects.get(id=...)` compares with: an integer, or a string of digits the ORM
      converts; for any other string the ORM raises ValueError. */
  function RequestedId(v: Value): Option<UserId> {
    match v
    case Int(n) => Some(n)
    case Str(k) => ParseInt(k)
    case _ => None
  }

  /** The body of `assign_user` once the task is found: a falsy value is missing, an unconvertible
      one raises (uncaught), an id of no user is "User not found", and otherwise the user becomes the
      assignee, replacing any earlier one. */
  function SetAssignee(s: Store, t: TaskId, v: Value): Result<Store>
    requires t in s.tasks
  {
    if !Truthy(v) then Err(Required)
    else match RequestedId(v)
      case None => Err(ServerError)
      case Some(id) =>
        if id in s.users then Ok(s.(tasks := s.tasks[t := s.tasks[t].(assignee := Some(id))]))
        else Err(UserNotFound)
  }

  /** `PATCH /api/tasks/{id}/assign_user/`. */
  function AssignUser(s: Store, caller: UserId, t: TaskId, v: Value): (r: Result<Store>)
    ensures !SeesTask(s, caller, t) ==> r == Err(NotFound)
    ensures SeesTask(s, caller, t) && !Truthy(v) ==> r == Err(Required)
    ensures SeesTask(s, caller, t) && Truthy(v) && RequestedId(v).None? ==> r == Err(ServerError)
    ensures SeesTask(s, caller, t) && Truthy(v) && RequestedId(v).Some? && RequestedId(v).value !in s.users ==> r == Err(UserNotFound)
    ensures r.Ok? <==> SeesTask(s, caller, t) && Truthy(v) && RequestedId(v).Some? && RequestedId(v).value in s.users
    ensures r.Ok? ==>
      && OnlyTaskStateChanged(s, r.value, t)
      && r.value.tasks[t].assignee == RequestedId(v)
      && r.value.tasks[t].status == s.tasks[t].status
  {
    var task :- TaskForRequest(s, caller, Patch, t);
    SetAssignee(s, t, v)
  }
}

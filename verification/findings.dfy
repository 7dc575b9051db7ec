/** Two places where the views, as written, do not do what they evidently intend. The members here
    follow the code as written; Views holds the corrected behaviour the rest of the model uses. */
module Findings {
  import opened Outcomes
  import opened Values
  import opened Models
  import opened Serializers
  import opened Views

  // ---------------------------------------------------------------- the task write guard

  /** What `IsOwnerOrReadOnly` finds as `obj.owner`: a board has that attribute, a task does not. */
  function OwnerAttribute(obj: Target): Option<UserId> {
    match obj
    case BoardTarget(board) => Some(board.owner)
    case TaskTarget(_) => None
  }

  /** `has_object_permission` as written: on an unsafe request for a task, reading the missing
      attribute raises AttributeError, which the view does not catch. */
  function HasObjectPermissionAsWritten(m: Method, caller: UserId, obj: Target): (r: Result<bool>)
    ensures IsSafe(m) ==> r == Ok(true)
    ensures !IsSafe(m) && obj.TaskTarget? ==> r == Err(ServerError)
  {
    if IsSafe(m) then Ok(true)
    else match OwnerAttribute(obj)
      case None => Err(ServerError)
      case Some(owner) => Ok(owner == caller)
  }

  /** On boards the guard as written and the corrected guard agree. */
  lemma BoardGuardAgrees(s: Store, m: Method, caller: UserId, board: Board)
    ensures HasObjectPermissionAsWritten(m, caller, BoardTarget(board)) == Ok(HasObjectPermission(s, m, caller, BoardTarget(board)))
  {
  }

  /** `get_object` on the task view set with the guard as written. */
  function TaskForRequestAsWritten(s: Store, caller: UserId, m: Method, t: TaskId): Result<Task> {
    if !SeesTask(s, caller, t) then Err(NotFound)
    else match HasObjectPermissionAsWritten(m, caller, TaskTarget(s.tasks[t]))
      case Err(e) => Err(e)
      case Ok(permitted) => if permitted then Ok(s.tasks[t]) else Err(Forbidden)
  }

  /** `update_status` as written never gets past `get_object`: its own task yields a server error. */
  function UpdateStatusAsWritten(s: Store, caller: UserId, t: TaskId, v: Value): (r: Result<Store>)
    ensures r == if SeesTask(s, caller, t) then Err(ServerError) else Err(NotFound)
  {
    match TaskForRequestAsWritten(s, caller, Patch, t)
    case Err(e) => Err(e)
    case Ok(_) => UpdateStatus(s, caller, t, v)
  }

  /** `assign_user` as written fails the same way. */
  function AssignUserAsWritten(s: Store, caller: UserId, t: TaskId, v: Value): (r: Result<Store>)
    ensures r == if SeesTask(s, caller, t) then Err(ServerError) else Err(NotFound)
  {
    match TaskForRequestAsWritten(s, caller, Patch, t)
    case Err(e) => Err(e)
    case Ok(_) => AssignUser(s, caller, t, v)
  }

  /** The owner of a board setting one of its tasks to a valid status: as written a server error,
      corrected a success that stores the status. Likewise for assigning an existing user. The
      corrected paths are those of `UpdateStatus` and `AssignUser`, which the rest of the model uses. */
  lemma TaskWriteGuardFinding(s: Store, caller: UserId, t: TaskId, st: Status, assignee: UserId)
    requires SeesTask(s, caller, t)
    requires assignee in s.users && assignee != 0
    ensures UpdateStatusAsWritten(s, caller, t, Str(st.Key())) == Err(ServerError)
    ensures UpdateStatus(s, caller, t, Str(st.Key())).Ok?
    ensures UpdateStatus(s, caller, t, Str(st.Key())).value.tasks[t].status == st
    ensures AssignUserAsWritten(s, caller, t, Int(assignee)) == Err(ServerError)
    ensures AssignUser(s, caller, t, Int(assignee)).Ok?
    ensures AssignUser(s, caller, t, Int(assignee)).value.tasks[t].assignee == Some(assignee)
  {
    StatusKeyRoundTrip(st);
  }

  // ---------------------------------------------------------------- the owner keyword

  /** The keyword arguments of a call `f(a=..., **kwargs)`: a name given both ways makes Python
      raise TypeError before `f` runs. */
  function CallKeywords(explicit: set<string>, spread: set<string>): (r: Result<set<string>>)
    ensures r.Ok? <==> explicit !! spread
    ensures r.Ok? ==> r.value == explicit + spread
  {
    if explicit !! spread then Ok(explicit + spread) else Err(ServerError)
  }

  /** The keys of `serializer.validated_data` for a valid board body. */
  function BoardValidatedKeys(input: BoardInput): set<string> {
    {"title"} + (if input.description.Some? then {"description"} else {})
  }

  /** Board creation as written: `perform_create` calls `serializer.save(owner=user)`, which adds
      `owner` to `validated_data`; `WorkBoardSerializer.create` then calls
      `WorkBoard.objects.create(owner=user, **validated_data)`, naming `owner` twice. Had the call
      gone through, the outcome would be that of `CreateBoard`. */
  function CreateBoardAsWritten(s: Store, caller: UserId, input: BoardInput): (r: Result<Store>)
    ensures r == if ValidateBoard(input).Ok? then Err(ServerError) else Err(Invalid)
  {
    match ValidateBoard(input)
    case Err(e) => Err(e)
    case Ok(_) =>
      match CallKeywords({"owner"}, BoardValidatedKeys(input) + {"owner"})
      case Err(e) => Err(e)
      case Ok(_) => CreateBoard(s, caller, input)
  }

  /** Any valid body, such as `{"title": "Sprint 1"}`: as written a server error, corrected a new
      board owned by the caller. */
  lemma CreateBoardFinding(s: Store, caller: UserId, input: BoardInput)
    requires ValidateBoard(input).Ok?
    ensures CreateBoardAsWritten(s, caller, input) == Err(ServerError)
    ensures CreateBoard(s, caller, input).Ok?
    ensures CreateBoard(s, caller, input).value.boards[s.nextBoard].owner == caller
  {
  }
}

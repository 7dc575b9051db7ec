/** The request bodies of board and task creation and how `WorkBoardSerializer` and
    `TaskSerializer` turn them into column values. A body field the serializer marks read-only,
    or does not list, is carried in the input but never read. */
module Serializers {
  import opened Outcomes
  import opened Values
  import opened Models

  /** Body of `POST /api/workboards/`. `owner` and `tasks` are read-only fields. */
  datatype BoardInput = BoardInput(title: Option<string>, description: Option<string>, owner: Value, tasks: Value)

  /** Body of `POST /api/workboards/{id}/add_task/`. `assigned_to` is read-only and `work_board`
      is not a field of the serializer. */
  datatype TaskInput = TaskInput(
    title: Option<string>,
    description: Option<string>,
    status: Option<string>,
    assignedToId: Value,
    assignedTo: Value,
    workBoard: Value)

  datatype BoardFields = BoardFields(title: string, description: string)

  datatype TaskFields = TaskFields(title: string, description: string, status: Status, assignee: Option<UserId>)

  /** The title field (a DRF `CharField`): required, stripped, then not blank, at most 200
      characters, and free of U+0000. */
  function CleanTitle(v: Option<string>): (r: Result<string>)
    ensures r.Ok? <==> v.Some? && !AllSpace(v.value) && |Trim(v.value)| <= MaxTitleLength && NulFree(v.value)
    ensures r.Err? ==> r.error == Invalid
    ensures r.Ok? ==> ValidTitle(r.value) && r.value == Trim(v.value)
  {
    match v
    case None => Err(Invalid)
    case Some(t) =>
      TrimKeepsNul(t);
      var c := Trim(t);
      if c == [] || |c| > MaxTitleLength || !NulFree(c) then Err(Invalid) else Ok(c)
  }

  /** A title without surrounding whitespace, of at most 200 characters and free of U+0000 is
      accepted as it is. */
  lemma UnpaddedTitleAccepted(t: string)
    requires t != [] && |t| <= MaxTitleLength && !IsSpace(t[0]) && !IsSpace(t[|t| - 1]) && NulFree(t)
    ensures CleanTitle(Some(t)) == Ok(t)
  {
    TrimUnpadded(t);
  }

  /** A title holding U+0000 anywhere is rejected, however it is padded. */
  lemma NulTitleRejected(t: string, i: nat)
    requires i < |t| && t[i] == '\0'
    ensures CleanTitle(Some(t)) == Err(Invalid)
  {
  }

  /** The description field (a `TextField` with `blank=True`): optional, stripped, may be blank, and
      free of U+0000; an absent one is stored empty. */
  function CleanDescription(v: Option<string>): (r: Result<string>)
    ensures r.Ok? <==> v.None? || NulFree(v.value)
    ensures r.Err? ==> r.error == Invalid
    ensures r.Ok? && v.None? ==> r.value == ""
    ensures r.Ok? && v.Some? ==> r.value == Trim(v.value) && NulFree(r.value)
  {
    match v
    case None => Ok("")
    case Some(d) =>
      TrimKeepsNul(d);
      var c := Trim(d);
      if NulFree(c) then Ok(c) else Err(Invalid)
  }

  /** The status field of `TaskSerializer`: optional with default `ToDo`; a given value must be a choice key. */
  function CleanStatus(v: Option<string>): (r: Result<Status>)
    ensures v.None? ==> r == Ok(DefaultStatus)
    ensures r.Err? ==> r.error == Invalid
    ensures v.Some? ==> (r.Ok? <==> exists st: Status :: st.Key() == v.value)
    ensures v.Some? && r.Ok? ==> r.value.Key() == v.value
  {
    match v
    case None => Ok(DefaultStatus)
    case Some(k) =>
      match StatusFromKey(k)
      case Some(st) => Ok(st)
      case None => Err(Invalid)
  }

  /** `assigned_to_id`: optional, null allowed (an empty string counts as null); otherwise a primary
      key that must name an existing user, and a non-numeric string is of the wrong type. */
  function CleanAssignee(users: set<UserId>, v: Value): (r: Result<Option<UserId>>)
    ensures v == Absent || v == Null || v == Str("") ==> r == Ok(None)
    ensures r.Err? ==> r.error == Invalid
    ensures v.Int? ==> (r.Ok? <==> v.n in users)
    ensures v.Str? && v.s != "" ==> (r.Ok? <==> ParseInt(v.s).Some? && ParseInt(v.s).value in users)
    ensures v.Int? && r.Ok? ==> r.value == Some(v.n)
    ensures v.Str? && v.s != "" && r.Ok? ==> r.value == ParseInt(v.s)
    ensures r.Ok? && r.value.Some? ==> r.value.value in users
  {
    match v
    case Absent => Ok(None)
    case Null => Ok(None)
    case Int(n) => if n in users then Ok(Some(n)) else Err(Invalid)
    case Str(s) =>
      if s == "" then Ok(None)
      else match ParseInt(s)
        case None => Err(Invalid)
        case Some(n) => if n in users then Ok(Some(n)) else Err(Invalid)
  }

  /** The input fields `WorkBoardSerializer` writes are both valid. */
  predicate BoardInputValid(input: BoardInput) {
    CleanTitle(input.title).Ok? && CleanDescription(input.description).Ok?
  }

  /** `WorkBoardSerializer` validation: title and description are checked; `owner` and `tasks` are
      read-only and never looked at. */
  function ValidateBoard(input: BoardInput): (r: Result<BoardFields>)
    ensures r.Ok? <==> BoardInputValid(input)
    ensures r.Err? ==> r.error == Invalid
    ensures r.Ok? ==> ValidTitle(r.value.title) && r.value.title == Trim(input.title.value)
    ensures r.Ok? ==> r.value.description == CleanDescription(input.description).value
  {
    var title :- CleanTitle(input.title);
    var description :- CleanDescription(input.description);
    Ok(BoardFields(title, description))
  }

  /** The input fields `TaskSerializer` writes are all valid. */
  predicate TaskInputValid(users: set<UserId>, input: TaskInput) {
    && CleanTitle(input.title).Ok?
    && CleanDescription(input.description).Ok?
    && CleanStatus(input.status).Ok?
    && CleanAssignee(users, input.assignedToId).Ok?
  }

  /** `TaskSerializer` validation: title, description, status and assignee are each checked; a task
      is built only when all pass. */
  function ValidateTask(users: set<UserId>, input: TaskInput): (r: Result<TaskFields>)
    ensures r.Ok? <==> TaskInputValid(users, input)
    ensures r.Err? ==> r.error == Invalid
    ensures r.Ok? ==> ValidTitle(r.value.title)
    ensures r.Ok? ==> input.title.Some? && r.value.title == Trim(input.title.value)
    ensures r.Ok? ==> r.value.description == CleanDescription(input.description).value
    ensures r.Ok? && input.status.None? ==> r.value.status == DefaultStatus
    ensures r.Ok? && input.status.Some? ==> r.value.status.Key() == input.status.value
    ensures r.Ok? ==> r.value.assignee == CleanAssignee(users, input.assignedToId).value
    ensures r.Ok? && r.value.assignee.Some? ==> r.value.assignee.value in users
  {
    var title :- CleanTitle(input.title);
    var description :- CleanDescription(input.description);
    var status :- CleanStatus(input.status);
    var assignee :- CleanAssignee(users, input.assignedToId);
    Ok(TaskFields(title, description, status, assignee))
  }

  /** Read-only and unlisted body fields have no effect on what the serializers accept or write. */
  lemma ReadOnlyFieldsIgnored(users: set<UserId>, b1: BoardInput, b2: BoardInput, t1: TaskInput, t2: TaskInput)
    requires b1.title == b2.title && b1.description == b2.description
    requires t1.title == t2.title && t1.description == t2.description && t1.status == t2.status
    requires t1.assignedToId == t2.assignedToId
    ensures ValidateBoard(b1) == ValidateBoard(b2)
    ensures ValidateTask(users, t1) == ValidateTask(users, t2)
  {
  }
}

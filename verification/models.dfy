/** The records of the board store: work boards, the tasks on them, and the store holding both
    together with the users they refer to. Timestamps are replaced by a creation clock. */
module Models {
  import opened Outcomes
  import opened Values

  type UserId = int
  type BoardId = nat
  type TaskId = nat

  /** `max_length` of the title columns of both boards and tasks. */
  const MaxTitleLength: nat := 200

  /** `Task.STATUS_CHOICES`: a closed enum; the key is what is stored, the label is for display. */
  datatype Status = ToDo | InProgress | Completed {

    function Key(): string {
      match this
      case ToDo => "ToDo"
      case InProgress => "InProgress"
      case Completed => "Completed"
    }

    function Label(): string {
      match this
      case ToDo => "To Do"
      case InProgress => "In Progress"
      case Completed => "Completed"
    }
  }

  /** The status a task gets when none is given. */
  const DefaultStatus: Status := ToDo

  /** Membership of a string in `dict(Task.STATUS_CHOICES)`: the keys of the choices, not their labels. */
  function StatusFromKey(k: string): (r: Option<Status>)
    ensures r.Some? ==> r.value.Key() == k
    ensures r.None? ==> forall st: Status :: st.Key() != k
  {
    if k == "ToDo" then Some(ToDo)
    else if k == "InProgress" then Some(InProgress)
    else if k == "Completed" then Some(Completed)
    else None
  }

  /** Every choice key is recognised as its own status. */
  lemma StatusKeyRoundTrip(st: Status)
    ensures StatusFromKey(st.Key()) == Some(st)
  {
  }

  /** A label is recognised only where it coincides with its key, which is the case for `Completed` alone. */
  lemma StatusLabelsRejected(st: Status)
    ensures StatusFromKey(st.Label()).Some? <==> st == Completed
    ensures StatusFromKey("To Do") == None && StatusFromKey("In Progress") == None
  {
  }

  /** `WorkBoard`: `created` is the creation clock reading standing in for `created_at`. */
  datatype Board = Board(title: string, description: string, owner: UserId, created: nat)

  /** `Task`: exactly one board, one status, and an optional assignee. */
  datatype Task = Task(
    title: string,
    description: string,
    status: Status,
    assignee: Option<UserId>,
    board: BoardId,
    created: nat)

  /** The database: user ids, the two tables keyed by primary key, the next primary key of each
      table, and a clock that every creation advances. */
  datatype Store = Store(
    users: set<UserId>,
    boards: map<BoardId, Board>,
    tasks: map<TaskId, Task>,
    nextBoard: BoardId,
    nextTask: TaskId,
    clock: nat)

  /** A title the serializers store: non-empty, at most 200 characters, free of U+0000. */
  predicate ValidTitle(t: string) {
    0 < |t| <= MaxTitleLength && NulFree(t)
  }

  ghost predicate BoardWf(s: Store, b: BoardId)
    requires b in s.boards
  {
    var board := s.boards[b];
    && b < s.nextBoard
    && board.owner in s.users
    && board.created < s.clock
    && ValidTitle(board.title)
  }

  ghost predicate TaskWf(s: Store, t: TaskId)
    requires t in s.tasks
  {
    var task := s.tasks[t];
    && t < s.nextTask
    && task.board in s.boards
    && (task.assignee.Some? ==> task.assignee.value in s.users)
    && task.created < s.clock
    && ValidTitle(task.title)
  }

  /** Primary keys grow with creation time, so key order is `created_at` order. */
  ghost predicate CreationOrdered(s: Store) {
    forall t1, t2 :: t1 in s.tasks && t2 in s.tasks && t1 < t2 ==> s.tasks[t1].created < s.tasks[t2].created
  }

  /** Referential integrity of the store: every board's owner exists, every task is on an existing
      board and its assignee (if any) exists; keys lie below the next key; titles are valid. */
  ghost predicate Wf(s: Store) {
    && (forall b :: b in s.boards ==> BoardWf(s, b))
    && (forall t :: t in s.tasks ==> TaskWf(s, t))
    && CreationOrdered(s)
  }

  /** A fresh database holding only the given users. */
  function EmptyStore(users: set<UserId>): (s: Store)
    ensures Wf(s) && s.users == users && s.boards == map[] && s.tasks == map[]
  {
    Store(users, map[], map[], 0, 0, 0)
  }
}

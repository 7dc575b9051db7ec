/** Properties relating the operations to each other and to the store's integrity: every operation
    keeps the store well-formed, the querysets isolate users, listings follow creation order,
    status and assignment writes are idempotent, and the cascades leave no dangling reference. */
module Properties {
  import opened Outcomes
  import opened Values
  import opened Models
  import opened Serializers
  import opened Cascades
  import opened Views

  // ---------------------------------------------------------------- guard and querysets

  /** Everything in a caller's querysets passes the object permission for every method, so the
      guard never turns a found object into a 403; outside them a write is refused. */
  lemma ScopedObjectsPassGuard(s: Store, u: UserId, m: Method, b: BoardId, t: TaskId)
    requires Wf(s)
    ensures b in ListBoards(s, u) ==> HasObjectPermission(s, m, u, BoardTarget(s.boards[b]))
    ensures t in ListTasks(s, u) ==> HasObjectPermission(s, m, u, TaskTarget(s.tasks[t]))
    ensures !IsSafe(m) && t in s.tasks && t !in ListTasks(s, u) ==> !HasObjectPermission(s, m, u, TaskTarget(s.tasks[t]))
  {
  }

  /** Fetching one object succeeds exactly for the objects the listing shows. */
  lemma GetAgreesWithList(s: Store, u: UserId, b: BoardId, t: TaskId)
    requires Wf(s)
    ensures GetBoard(s, u, b).Ok? <==> b in ListBoards(s, u)
    ensures GetTask(s, u, t).Ok? <==> t in ListTasks(s, u)
  {
  }

  /** Two different users never see a common board or task. */
  lemma UsersIsolated(s: Store, u1: UserId, u2: UserId)
    requires Wf(s) && u1 != u2
    ensures forall b :: b in ListBoards(s, u1) ==> b !in ListBoards(s, u2)
    ensures forall t :: t in ListTasks(s, u1) ==> t !in ListTasks(s, u2)
  {
  }

  /** A user's tasks are the tasks of the user's boards: the task listing is the concatenation of
      the board listings' nested tasks, up to order. */
  lemma TasksAreTasksOfOwnBoards(s: Store, u: UserId, t: TaskId)
    requires Wf(s)
    ensures t in ListTasks(s, u) <==> exists b :: b in ListBoards(s, u) && t in BoardTasks(s, b)
  {
    if t in ListTasks(s, u) {
      var b := s.tasks[t].board;
      assert b in ListBoards(s, u) && t in BoardTasks(s, b);
    }
  }

  // ---------------------------------------------------------------- listings under change

  /** A listing below `n` depends only on which tasks below `n` exist and whether they are in scope. */
  lemma {:induction false} TasksBelowFrame(s: Store, s': Store, scope: TaskScope, n: nat)
    requires forall t :: t < n ==> (t in s.tasks <==> t in s'.tasks)
    requires forall t :: t < n && t in s.tasks ==> (InScope(s', scope, t) <==> InScope(s, scope, t))
    ensures TasksBelow(s', scope, n) == TasksBelow(s, scope, n)
  {
    if n > 0 {
      TasksBelowFrame(s, s', scope, n - 1);
    }
  }

  /** Inserting task `n` on top of the tasks below `n` appends it to every listing whose scope it is in. */
  lemma TaskInsertedBelow(s: Store, s': Store, scope: TaskScope, n: nat)
    requires n !in s.tasks && n in s'.tasks
    requires forall t :: t < n ==> (t in s.tasks <==> t in s'.tasks)
    requires forall t :: t < n && t in s.tasks ==> (InScope(s', scope, t) <==> InScope(s, scope, t))
    ensures TasksBelow(s', scope, n + 1) == TasksBelow(s, scope, n) + (if InScope(s', scope, n) then [n] else [])
  {
    TasksBelowFrame(s, s', scope, n);
  }

  lemma {:induction false} BoardsBelowFrame(s: Store, s': Store, u: UserId, n: nat)
    requires forall b :: b < n ==> (b in s.boards <==> b in s'.boards)
    requires forall b :: b < n && b in s.boards ==> s'.boards[b] == s.boards[b]
    ensures BoardsBelow(s', u, n) == BoardsBelow(s, u, n)
  {
    if n > 0 {
      BoardsBelowFrame(s, s', u, n - 1);
    }
  }

  // ---------------------------------------------------------------- board creation

  lemma CreateBoardPreservesWf(s: Store, caller: UserId, input: BoardInput)
    requires Wf(s) && caller in s.users
    requires CreateBoard(s, caller, input).Ok?
    ensures Wf(CreateBoard(s, caller, input).value)
  {
    var s' := CreateBoard(s, caller, input).value;
    assert forall b :: b in s'.boards ==> BoardWf(s', b);
    assert forall t :: t in s'.tasks ==> TaskWf(s', t);
  }

  /** Inserting a board under the next key, with the tasks unchanged, appends it to its owner's
      board listing and leaves every other listing alone. */
  lemma ListingsAfterBoardInsert(s: Store, s': Store, u: UserId)
    requires Wf(s) && Wf(s')
    requires s.nextBoard !in s.boards && s.nextBoard in s'.boards && s'.nextBoard == s.nextBoard + 1
    requires s'.tasks == s.tasks && s'.nextTask == s.nextTask
    requires forall b :: b in s'.boards <==> b in s.boards || b == s.nextBoard
    requires forall b :: b in s.boards ==> s'.boards[b] == s.boards[b]
    ensures ListBoards(s', u) == ListBoards(s, u) + (if s'.boards[s.nextBoard].owner == u then [s.nextBoard] else [])
    ensures ListTasks(s', u) == ListTasks(s, u)
  {
    BoardsBelowFrame(s, s', u, s.nextBoard);
    TasksBelowFrame(s, s', OwnedBy(u), s.nextTask);
  }

  /** A created board is new and is the last of its creator's boards; it appears in no one else's
      listing, and no task listing changes. */
  lemma CreateBoardAppends(s: Store, caller: UserId, other: UserId, input: BoardInput)
    requires Wf(s) && caller in s.users && other != caller
    requires CreateBoard(s, caller, input).Ok?
    ensures var s' := CreateBoard(s, caller, input).value;
      && Wf(s')
      && s.nextBoard !in s.boards
      && |s'.boards| == |s.boards| + 1
      && ListBoards(s', caller) == ListBoards(s, caller) + [s.nextBoard]
      && ListBoards(s', other) == ListBoards(s, other)
      && ListTasks(s', caller) == ListTasks(s, caller)
      && ListTasks(s', other) == ListTasks(s, other)
  {
    var s' := CreateBoard(s, caller, input).value;
    CreateBoardPreservesWf(s, caller, input);
    assert s.nextBoard !in s.boards;
    assert s'.boards.Keys == s.boards.Keys + {s.nextBoard};
    ListingsAfterBoardInsert(s, s', caller);
    ListingsAfterBoardInsert(s, s', other);
  }

  /** The `owner` and `tasks` fields of a board body have no effect on the result. */
  lemma CreateBoardOwnerFromCaller(s: Store, caller: UserId, input: BoardInput, owner: Value, tasks: Value)
    ensures CreateBoard(s, caller, input.(owner := owner, tasks := tasks)) == CreateBoard(s, caller, input)
  {
  }

  // ---------------------------------------------------------------- task creation

  lemma AddTaskPreservesWf(s: Store, caller: UserId, b: BoardId, input: TaskInput)
    requires Wf(s)
    requires AddTask(s, caller, b, input).Ok?
    ensures Wf(AddTask(s, caller, b, input).value)
  {
    var s' := AddTask(s, caller, b, input).value;
    assert s.nextTask !in s.tasks;
    assert forall x :: x in s'.boards ==> BoardWf(s', x);
    assert forall t :: t in s'.tasks ==> TaskWf(s', t);
  }

  /** Facts about the store after `add_task` that the listing lemmas need, stated without `AddTask`. */
  lemma AddTaskShape(s: Store, caller: UserId, b: BoardId, input: TaskInput)
    requires Wf(s)
    requires AddTask(s, caller, b, input).Ok?
    ensures var s' := AddTask(s, caller, b, input).value;
      && Wf(s')
      && s.nextTask !in s.tasks && s.nextTask in s'.tasks
      && s'.nextTask == s.nextTask + 1 && s'.boards == s.boards
      && s'.tasks[s.nextTask].board == b && OwnsBoard(s, caller, b)
      && (forall t :: t in s'.tasks <==> t in s.tasks || t == s.nextTask)
      && (forall t :: t in s.tasks ==> s'.tasks[t] == s.tasks[t])
  {
    AddTaskPreservesWf(s, caller, b, input);
    assert s.nextTask !in s.tasks;
  }

  /** Inserting a task under the next key, with the boards unchanged, appends it to the listing of
      its board's owner and to its board's nested tasks, and leaves every other listing alone. */
  lemma ListingsAfterInsert(s: Store, s': Store, u: UserId, b: BoardId)
    requires Wf(s) && Wf(s')
    requires s.nextTask !in s.tasks && s.nextTask in s'.tasks && s'.nextTask == s.nextTask + 1
    requires s'.boards == s.boards
    requires forall t :: t in s'.tasks <==> t in s.tasks || t == s.nextTask
    requires forall t :: t in s.tasks ==> s'.tasks[t] == s.tasks[t]
    ensures ListTasks(s', u) == ListTasks(s, u) + (if OwnsBoard(s, u, s'.tasks[s.nextTask].board) then [s.nextTask] else [])
    ensures BoardTasks(s', b) == BoardTasks(s, b) + (if s'.tasks[s.nextTask].board == b then [s.nextTask] else [])
  {
    TaskInsertedBelow(s, s', OwnedBy(u), s.nextTask);
    TaskInsertedBelow(s, s', OnBoard(b), s.nextTask);
  }

  /** An added task is new and is the last task of its owner's listing and of its board's nested
      tasks. */
  lemma AddTaskAppends(s: Store, caller: UserId, b: BoardId, input: TaskInput)
    requires Wf(s)
    requires AddTask(s, caller, b, input).Ok?
    ensures var s' := AddTask(s, caller, b, input).value;
      && Wf(s')
      && s.nextTask !in s.tasks
      && |s'.tasks| == |s.tasks| + 1
      && ListTasks(s', caller) == ListTasks(s, caller) + [s.nextTask]
      && BoardTasks(s', b) == BoardTasks(s, b) + [s.nextTask]
  {
    var s' := AddTask(s, caller, b, input).value;
    AddTaskShape(s, caller, b, input);
    assert s'.tasks.Keys == s.tasks.Keys + {s.nextTask};
    ListingsAfterInsert(s, s', caller, b);
  }

  /** Adding a task leaves every other user's task listing as it was. */
  lemma AddTaskLeavesOthers(s: Store, caller: UserId, other: UserId, b: BoardId, input: TaskInput)
    requires Wf(s) && other != caller
    requires AddTask(s, caller, b, input).Ok?
    ensures var s' := AddTask(s, caller, b, input).value;
      Wf(s') && ListTasks(s', other) == ListTasks(s, other)
  {
    var s' := AddTask(s, caller, b, input).value;
    AddTaskShape(s, caller, b, input);
    ListingsAfterInsert(s, s', other, b);
  }

  /** No task body can choose a task's board: `assigned_to` and `work_board` in the body have no effect. */
  lemma AddTaskBoardFromUrl(s: Store, caller: UserId, b: BoardId, input: TaskInput, assignedTo: Value, workBoard: Value)
    ensures AddTask(s, caller, b, input.(assignedTo := assignedTo, workBoard := workBoard)) == AddTask(s, caller, b, input)
  {
  }

  // ---------------------------------------------------------------- status

  lemma UpdateStatusPreservesWf(s: Store, caller: UserId, t: TaskId, v: Value)
    requires Wf(s)
    requires UpdateStatus(s, caller, t, v).Ok?
    ensures Wf(UpdateStatus(s, caller, t, v).value)
  {
    var s' := UpdateStatus(s, caller, t, v).value;
    assert forall x :: x in s'.boards ==> BoardWf(s', x);
    assert forall x :: x in s'.tasks ==> TaskWf(s', x);
  }

  /** The status is a flat enum: from any status, a request naming any key moves the task there. */
  lemma AnyStatusReachable(s: Store, caller: UserId, t: TaskId, st: Status)
    requires SeesTask(s, caller, t)
    ensures UpdateStatus(s, caller, t, Str(st.Key())).Ok?
    ensures UpdateStatus(s, caller, t, Str(st.Key())).value.tasks[t].status == st
  {
    StatusKeyRoundTrip(st);
  }

  /** Labels are not keys: "To Do" and "In Progress" are invalid statuses, and the task is kept. */
  lemma StatusLabelsInvalid(s: Store, caller: UserId, t: TaskId)
    requires SeesTask(s, caller, t)
    ensures UpdateStatus(s, caller, t, Str(ToDo.Label())) == Err(Invalid)
    ensures UpdateStatus(s, caller, t, Str(InProgress.Label())) == Err(Invalid)
  {
    StatusLabelsRejected(ToDo);
  }

  /** Setting a status twice is the same as setting it once. */
  lemma UpdateStatusIdempotent(s: Store, caller: UserId, t: TaskId, v: Value)
    requires UpdateStatus(s, caller, t, v).Ok?
    ensures var s' := UpdateStatus(s, caller, t, v).value;
      UpdateStatus(s', caller, t, v) == Ok(s')
  {
    var s' := UpdateStatus(s, caller, t, v).value;
    var s'' := UpdateStatus(s', caller, t, v);
    assert s''.Ok?;
    assert s''.value.tasks == s'.tasks;
  }

  // ---------------------------------------------------------------- assignment

  lemma AssignUserPreservesWf(s: Store, caller: UserId, t: TaskId, v: Value)
    requires Wf(s)
    requires AssignUser(s, caller, t, v).Ok?
    ensures Wf(AssignUser(s, caller, t, v).value)
  {
    var s' := AssignUser(s, caller, t, v).value;
    assert forall x :: x in s'.boards ==> BoardWf(s', x);
    assert forall x :: x in s'.tasks ==> TaskWf(s', x);
  }

  /** Assigning the same user twice is the same as assigning once. */
  lemma AssignUserIdempotent(s: Store, caller: UserId, t: TaskId, v: Value)
    requires AssignUser(s, caller, t, v).Ok?
    ensures var s' := AssignUser(s, caller, t, v).value;
      AssignUser(s', caller, t, v) == Ok(s')
  {
    var s' := AssignUser(s, caller, t, v).value;
    var s'' := AssignUser(s', caller, t, v);
    assert s''.Ok?;
    assert s''.value.tasks == s'.tasks;
  }

  /** Truthiness, not presence, decides "User ID is required": id 0 and "" count as missing even
      when a user with id 0 exists. */
  lemma FalsyUserIdIsMissing(s: Store, caller: UserId, t: TaskId)
    requires SeesTask(s, caller, t)
    ensures AssignUser(s, caller, t, Int(0)) == Err(Required)
    ensures AssignUser(s, caller, t, Str("")) == Err(Required)
    ensures AssignUser(s, caller, t, Null) == Err(Required)
  {
  }

  /** Re-assignment overwrites: whoever was assigned before, the named user is assigned after. */
  lemma ReassignOverwrites(s: Store, caller: UserId, t: TaskId, previous: UserId, next: UserId)
    requires SeesTask(s, caller, t) && s.tasks[t].assignee == Some(previous)
    requires next in s.users && next != 0
    ensures AssignUser(s, caller, t, Int(next)).Ok?
    ensures AssignUser(s, caller, t, Int(next)).value.tasks[t].assignee == Some(next)
  {
  }

  // ---------------------------------------------------------------- deletion

  lemma RemoveBoardPreservesWf(s: Store, b: BoardId)
    requires Wf(s)
    ensures Wf(RemoveBoard(s, b))
  {
    var s' := RemoveBoard(s, b);
    assert forall x :: x in s'.boards ==> BoardWf(s', x);
    assert forall x :: x in s'.tasks ==> TaskWf(s', x);
  }

  /** After a board is destroyed none of its tasks can be fetched, and every other task its owner
      could fetch still can be. */
  lemma DestroyBoardCascades(s: Store, caller: UserId, b: BoardId, t: TaskId)
    requires Wf(s)
    requires DestroyBoard(s, caller, b).Ok?
    ensures var s' := DestroyBoard(s, caller, b).value;
      && Wf(s')
      && (t in s.tasks && s.tasks[t].board == b ==> GetTask(s', caller, t) == Err(NotFound))
      && (t in s.tasks && s.tasks[t].board != b ==> GetTask(s', caller, t) == GetTask(s, caller, t))
      && b !in ListBoards(s', caller)
  {
    RemoveBoardPreservesWf(s, b);
  }

  lemma DeleteUserPreservesWf(s: Store, u: UserId)
    requires Wf(s)
    ensures Wf(DeleteUser(s, u))
  {
    var s' := DeleteUser(s, u);
    forall x | x in s'.boards
      ensures BoardWf(s', x)
    {
      assert BoardWf(s, x);
    }
    forall x | x in s'.tasks
      ensures TaskWf(s', x)
    {
      assert TaskWf(s, x);
      assert s.tasks[x].board in s'.boards;
    }
  }

  /** After a user is deleted they own no board and see no task, and every surviving task that was
      assigned to them is exactly as before except that it has no assignee. */
  lemma DeleteUserCascades(s: Store, u: UserId, t: TaskId)
    requires Wf(s)
    ensures var s' := DeleteUser(s, u);
      && Wf(s')
      && ListBoards(s', u) == []
      && ListTasks(s', u) == []
      && (t in s'.tasks && s.tasks[t].assignee == Some(u) ==> s'.tasks[t] == s.tasks[t].(assignee := None))
      && (t in s.tasks && s.tasks[t].assignee != Some(u) && s.tasks[t].board in s'.boards ==> s'.tasks[t] == s.tasks[t])
  {
    DeleteUserPreservesWf(s, u);
    var s' := DeleteUser(s, u);
    BoardsBelowEmpty(s', u, s'.nextBoard);
    TasksBelowEmpty(s', OwnedBy(u), s'.nextTask);
  }

  /** A listing selects nothing when nothing is in its scope. */
  lemma {:induction false} BoardsBelowEmpty(s: Store, u: UserId, n: nat)
    requires forall b :: !OwnsBoard(s, u, b)
    ensures BoardsBelow(s, u, n) == []
  {
    if n > 0 {
      BoardsBelowEmpty(s, u, n - 1);
    }
  }

  lemma {:induction false} TasksBelowEmpty(s: Store, scope: TaskScope, n: nat)
    requires forall t :: t in s.tasks ==> !InScope(s, scope, t)
    ensures TasksBelow(s, scope, n) == []
  {
    if n > 0 {
      TasksBelowEmpty(s, scope, n - 1);
    }
  }
}

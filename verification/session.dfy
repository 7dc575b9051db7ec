/** A typical session: a user creates a board and adds a task to it, which
    starts as `ToDo`; another user cannot fetch the board; the owner completes the task. */
module Session {
  import opened Outcomes
  import opened Values
  import opened Models
  import opened Serializers
  import opened Views

  /** An owner sets a task of theirs `Completed` and then fetches it as such. */
  lemma CompleteOwnTask(s: Store, alice: UserId, t: TaskId)
    requires SeesTask(s, alice, t)
    ensures UpdateStatus(s, alice, t, Str("Completed")).Ok?
    ensures var s' := UpdateStatus(s, alice, t, Str("Completed")).value;
      GetTask(s', alice, t).Ok? && GetTask(s', alice, t).value.status == Completed
  {
    assert StatusFromKey("Completed") == Some(Completed);
    var s' := UpdateStatus(s, alice, t, Str("Completed")).value;
    assert s'.boards == s.boards && t in s'.tasks && s'.tasks[t].board == s.tasks[t].board;
    assert SeesTask(s', alice, t);
  }

  /** The session on any well-formed store: `alice` creates a board from `board` and adds a task
      from `task`, which has no status; the task is `ToDo` and `alice` can fetch it; `bob` cannot
      fetch the board; `alice` sets the task `Completed` and fetches it as such. */
  lemma SessionFlow(s: Store, s1: Store, s2: Store, alice: UserId, bob: UserId, board: BoardInput, task: TaskInput)
    requires Wf(s) && alice in s.users && alice != bob
    requires CreateBoard(s, alice, board) == Ok(s1)
    requires AddTask(s1, alice, s.nextBoard, task) == Ok(s2)
    requires task.status.None?
    ensures GetTask(s2, alice, s1.nextTask).Ok? && GetTask(s2, alice, s1.nextTask).value.status == ToDo
    ensures GetBoard(s2, bob, s.nextBoard) == Err(NotFound)
    ensures UpdateStatus(s2, alice, s1.nextTask, Str("Completed")).Ok?
    ensures var s3 := UpdateStatus(s2, alice, s1.nextTask, Str("Completed")).value;
      GetTask(s3, alice, s1.nextTask).Ok? && GetTask(s3, alice, s1.nextTask).value.status == Completed
  {
    assert s1.boards[s.nextBoard].owner == alice;
    assert s2.boards == s1.boards;
    assert OwnsBoard(s2, alice, s.nextBoard) && !OwnsBoard(s2, bob, s.nextBoard);
    assert s2.tasks[s1.nextTask].board == s.nextBoard;
    assert SeesTask(s2, alice, s1.nextTask);
    CompleteOwnTask(s2, alice, s1.nextTask);
  }
}

/** The `on_delete` rules: deleting a board cascades to its tasks; deleting a user cascades to the
    boards they own (and so to those boards' tasks) and sets `assigned_to` to null on the tasks
    assigned to them. */
module Cascades {
  import opened Outcomes
  import opened Models

  /** The tasks that survive deleting every board in `gone`. */
  function TasksOffBoards(tasks: map<TaskId, Task>, gone: set<BoardId>): (r: map<TaskId, Task>)
    ensures forall t :: t in r <==> t in tasks && tasks[t].board !in gone
    ensures forall t :: t in r ==> r[t] == tasks[t]
  {
    map t | t in tasks && tasks[t].board !in gone :: tasks[t]
  }

  /** `WorkBoard.delete()`: the board goes, and with it (CASCADE) every task on it. */
  function RemoveBoard(s: Store, b: BoardId): (r: Store)
    ensures r.boards.Keys == s.boards.Keys - {b}
    ensures forall x :: x in r.boards ==> r.boards[x] == s.boards[x]
    ensures forall t :: t in r.tasks <==> t in s.tasks && s.tasks[t].board != b
    ensures forall t :: t in r.tasks ==> r.tasks[t] == s.tasks[t]
    ensures r.users == s.users && r.nextBoard == s.nextBoard && r.nextTask == s.nextTask && r.clock == s.clock
  {
    s.(boards := s.boards - {b}, tasks := TasksOffBoards(s.tasks, {b}))
  }

  /** The boards a user owns. */
  function OwnedBoards(s: Store, u: UserId): (r: set<BoardId>)
    ensures forall b :: b in r <==> b in s.boards && s.boards[b].owner == u
  {
    set b | b in s.boards && s.boards[b].owner == u
  }

  /** A task as it stands after its assignee `u` is deleted: SET_NULL on `assigned_to`. */
  function Unassign(task: Task, u: UserId): (r: Task)
    ensures r.assignee == (if task.assignee == Some(u) then None else task.assignee)
    ensures r.(assignee := task.assignee) == task
  {
    if task.assignee == Some(u) then task.(assignee := None) else task
  }

  /** `User.delete()`: the user's boards go (CASCADE), their tasks with them (CASCADE), and every
      remaining task assigned to the user loses its assignee (SET_NULL). */
  function DeleteUser(s: Store, u: UserId): (r: Store)
    ensures r.users == s.users - {u}
    ensures r.boards.Keys == s.boards.Keys - OwnedBoards(s, u)
    ensures forall b :: b in r.boards ==> r.boards[b] == s.boards[b]
    ensures forall t :: t in r.tasks <==> t in s.tasks && s.tasks[t].board !in OwnedBoards(s, u)
    ensures forall t :: t in r.tasks ==> r.tasks[t] == Unassign(s.tasks[t], u)
    ensures forall t :: t in r.tasks ==> r.tasks[t].assignee != Some(u)
    ensures r.nextBoard == s.nextBoard && r.nextTask == s.nextTask && r.clock == s.clock
  {
    var owned := OwnedBoards(s, u);
    var kept := TasksOffBoards(s.tasks, owned);
    s.(users := s.users - {u},
       boards := s.boards - owned,
       tasks := map t | t in kept :: Unassign(kept[t], u))
  }
}

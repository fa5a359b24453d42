/**
 * The HTTP API's in-memory task store: an array of tasks and the counter
 * that numbers them, changed by the create, patch and delete routes. A route
 * answers with a response value whose variant stands for its HTTP status.
 * The request's id is taken as an already parsed integer and the current
 * time as a parameter.
 */
module TaskApi {
  import opened Tasks

  /** A task as the API stores it. `status` is `None` when a patch sent no
      status; a missing description or priority arrives as "". */
  datatype StoredTask = StoredTask(
    id: int,
    title: string,
    description: string,
    priority: string,
    status: Option<string>,
    createdAt: int,
    completedAt: Option<int>)

  datatype Response =
    | Created(task: StoredTask)
    | Found(task: StoredTask)
    | Listing(count: nat, tasks: seq<StoredTask>)
    | Deleted(message: string)
    | BadRequest(error: string)
    | NotFound(error: string)

  /** The HTTP status each response is sent with. */
  function StatusCode(r: Response): (code: nat)
    ensures code == 201 <==> r.Created?
    ensures code == 400 <==> r.BadRequest?
    ensures code == 404 <==> r.NotFound?
    ensures code == 200 <==> r.Found? || r.Listing? || r.Deleted?
  {
    match r
    case Created(_) => 201
    case BadRequest(_) => 400
    case NotFound(_) => 404
    case _ => 200
  }

  /** `i` is the first position of `tasks` holding id `id`, the one `find`
      and `findIndex` pick. */
  ghost predicate IsFirst(tasks: seq<StoredTask>, id: int, i: int) {
    0 <= i < |tasks| && tasks[i].id == id && forall k :: 0 <= k < i ==> tasks[k].id != id
  }

  /** Ids strictly increase along the array, so each id is held at most once. */
  ghost predicate IdsIncreasing(tasks: seq<StoredTask>) {
    forall i, j :: 0 <= i < j < |tasks| ==> tasks[i].id < tasks[j].id
  }

  /** In an array with increasing ids, a position holding an id is the first
      one holding it. */
  lemma OnlyPositionIsFirst(tasks: seq<StoredTask>, id: int, i: int)
    requires IdsIncreasing(tasks)
    requires 0 <= i < |tasks| && tasks[i].id == id
    ensures IsFirst(tasks, id, i)
    ensures forall j :: 0 <= j < |tasks| && j != i ==> tasks[j].id != id
  {
  }

  class TaskStore {
    var tasks: seq<StoredTask>
    /** The id the next created task receives. */
    var nextId: int

    /** Every id is below the counter and ids increase along the array. */
    ghost predicate Valid()
      reads this
    {
      nextId >= 1 && IdsIncreasing(tasks) && forall i :: 0 <= i < |tasks| ==> 1 <= tasks[i].id < nextId
    }

    constructor ()
      ensures Valid()
      ensures tasks == [] && nextId == 1
    {
      tasks := [];
      nextId := 1;
    }

    /** `tasks.findIndex(t => t.id === id)`: the first position holding the
        id, or -1. */
    method FindIndex(id: int) returns (index: int)
      ensures -1 <= index < |tasks|
      ensures index >= 0 ==> IsFirst(tasks, id, index)
      ensures index == -1 <==> forall k :: 0 <= k < |tasks| ==> tasks[k].id != id
    {
      index := 0;
      while index < |tasks|
        invariant 0 <= index <= |tasks|
        invariant forall k :: 0 <= k < index ==> tasks[k].id != id
      {
        if tasks[index].id == id {
          return;
        }
        index := index + 1;
      }
      index := -1;
    }

    /** GET /api/tasks: the count and every task, in creation order. */
    method GetAll() returns (r: Response)
      ensures r == Listing(|tasks|, tasks)
    {
      r := Listing(|tasks|, tasks);
    }

    /** POST /api/tasks. An empty title is refused and changes nothing;
        otherwise the task gets the counter as id, the defaults '' and
        'medium', status 'pending', and goes to the end of the array. */
    method Create(title: string, description: string, priority: string, now: int) returns (r: Response)
      requires Valid()
      modifies this
      ensures Valid()
      ensures title == "" ==>
        && r == BadRequest("Task title is required")
        && tasks == old(tasks) && nextId == old(nextId)
      ensures title != "" ==>
        && r.Created?
        && r.task == StoredTask(
             old(nextId), title,
             description,
             if priority == "" then "medium" else priority,
             Some("pending"), now, None)
        && tasks == old(tasks) + [r.task]
        && nextId == old(nextId) + 1
    {
      if title == "" {
        return BadRequest("Task title is required");
      }
      var newTask := StoredTask(
        nextId,
        title,
        description,
        if priority != "" then priority else "medium",
        Some("pending"),
        now,
        None);
      nextId := nextId + 1;
      tasks := tasks + [newTask];
      r := Created(newTask);
    }

    /** GET /api/tasks/:id: the first task with the id, or not found. */
    method Find(id: int) returns (r: Response)
      ensures r.Found? || r.NotFound?
      ensures r.NotFound? <==> forall k :: 0 <= k < |tasks| ==> tasks[k].id != id
      ensures r.NotFound? ==> r.error == "Task not found"
      ensures r.Found? ==> exists i :: IsFirst(tasks, id, i) && r.task == tasks[i]
    {
      var index := FindIndex(id);
      if index == -1 {
        return NotFound("Task not found");
      }
      r := Found(tasks[index]);
    }

    /** PATCH /api/tasks/:id: sets the status of the first task with the id,
        and its completion time when the status is 'completed'; no other
        task changes. */
    method Patch(id: int, status: Option<string>, now: int) returns (r: Response)
      requires Valid()
      modifies this`tasks
      ensures Valid()
      ensures r.NotFound? <==> forall k :: 0 <= k < |old(tasks)| ==> old(tasks)[k].id != id
      ensures r.NotFound? ==> r.error == "Task not found" && tasks == old(tasks)
      ensures !r.NotFound? ==> r.Found? && exists i ::
        && IsFirst(old(tasks), id, i)
        && var t := old(tasks)[i];
           && r.task == t.(status := status, completedAt := if status == Some("completed") then Some(now) else t.completedAt)
           && tasks == old(tasks)[i := r.task]
    {
      var index := FindIndex(id);
      if index == -1 {
        return NotFound("Task not found");
      }
      var task := tasks[index];
      task := task.(status := status);
      if status == Some("completed") {
        task := task.(completedAt := Some(now));
      }
      tasks := tasks[index := task];
      r := Found(task);
    }

    /** DELETE /api/tasks/:id: removes the first task with the id and keeps
        the others in order. */
    method Delete(id: int) returns (r: Response)
      requires Valid()
      modifies this`tasks
      ensures Valid()
      ensures r.NotFound? <==> forall k :: 0 <= k < |old(tasks)| ==> old(tasks)[k].id != id
      ensures r.NotFound? ==> r.error == "Task not found" && tasks == old(tasks)
      ensures !r.NotFound? ==> r == Deleted("Task deleted successfully") && exists i ::
        && IsFirst(old(tasks), id, i)
        && tasks == old(tasks)[..i] + old(tasks)[i + 1..]
      ensures forall t :: t in tasks ==> t in old(tasks) && t.id != id
    {
      var index := FindIndex(id);
      if index == -1 {
        return NotFound("Task not found");
      }
      OnlyPositionIsFirst(tasks, id, index);
      tasks := tasks[..index] + tasks[index + 1..];
      r := Deleted("Task deleted successfully");
    }
  }
}

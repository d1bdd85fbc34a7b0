/** The service's global state as an object: the task list and the ID
    counter are fields that the operations update in place. Each method is
    proved to do what the corresponding function of TaskModel says. */
module Store {
  import opened Wrappers
  import opened TaskModel

  class TaskStore {
    var tasks: seq<Task>
    var currentID: int

    /** The store's value. */
    function Model(): State
      reads this
    {
      State(tasks, currentID)
    }

    ghost predicate Valid()
      reads this
    {
      TaskModel.Valid(Model())
    }

    /** The two global variables as declared: an empty (nil) list and the
        counter at 1. */
    constructor ()
      ensures Valid()
      ensures Model() == Initial()
    {
      tasks := [];
      currentID := 1;
    }

    /** `getTasks`: the list in insertion order, nothing changed. */
    method List() returns (resp: Response)
      ensures resp == Response(StatusOK, TaskListJson(tasks))
      ensures resp == GetTasks(Model()).response
    {
      resp := Response(StatusOK, TaskListJson(tasks));
    }

    /** `createTask`, given the decoded body or None when decoding failed. */
    method Create(body: Option<Task>) returns (resp: Response)
      requires Valid()
      modifies this
      ensures Valid()
      ensures resp == CreateTask(old(Model()), body).response
      ensures Model() == CreateTask(old(Model()), body).state
    {
      CreateKeepsValid(Model(), body);
      if body.None? {
        resp := Response(StatusBadRequest, ErrorText(DecodeFailed));
        return;
      }
      var task := body.value;
      task := task.(id := currentID);
      currentID := currentID + 1;
      tasks := tasks + [task];
      resp := Response(StatusCreated, TaskJson(task));
    }

    /** `updateTask`, given the parsed ID and the decoded body. The search
        is the source's loop over the list. */
    method Update(id: Option<int>, body: Option<Task>) returns (resp: Response)
      requires Valid()
      modifies this
      ensures Valid()
      ensures resp == UpdateTask(old(Model()), id, body).response
      ensures Model() == UpdateTask(old(Model()), id, body).state
    {
      UpdateKeepsValid(Model(), id, body);
      if id.None? {
        resp := Response(StatusBadRequest, ErrorText(InvalidId));
        return;
      }
      if body.None? {
        resp := Response(StatusBadRequest, ErrorText(DecodeFailed));
        return;
      }
      var i := 0;
      while i < |tasks|
        invariant 0 <= i <= |tasks|
        invariant tasks == old(tasks) && currentID == old(currentID)
        invariant forall j :: 0 <= j < i ==> tasks[j].id != id.value
      {
        if tasks[i].id == id.value {
          tasks := tasks[i := tasks[i].(title := body.value.title, completed := body.value.completed)];
          resp := Response(StatusOK, TaskJson(tasks[i]));
          return;
        }
        i := i + 1;
      }
      resp := Response(StatusNotFound, ErrorText(NotFound));
    }

    /** `deleteTask`, given the parsed ID. The search is the source's loop;
        the found task is spliced out of the list. */
    method Delete(id: Option<int>) returns (resp: Response)
      requires Valid()
      modifies this
      ensures Valid()
      ensures resp == DeleteTask(old(Model()), id).response
      ensures Model() == DeleteTask(old(Model()), id).state
    {
      DeleteKeepsValid(Model(), id);
      if id.None? {
        resp := Response(StatusBadRequest, ErrorText(InvalidId));
        return;
      }
      var i := 0;
      while i < |tasks|
        invariant 0 <= i <= |tasks|
        invariant tasks == old(tasks) && currentID == old(currentID)
        invariant forall j :: 0 <= j < i ==> tasks[j].id != id.value
      {
        if tasks[i].id == id.value {
          tasks := tasks[..i] + tasks[i + 1..];
          resp := Response(StatusNoContent, Empty);
          return;
        }
        i := i + 1;
      }
      resp := Response(StatusNotFound, ErrorText(NotFound));
    }
  }
}

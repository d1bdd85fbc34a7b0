/** The two HTTP handlers over the shared store. Writing the response
    (headers, JSON encoding) is not modelled: each handler returns the
    response it would send. */
module Server {
  import opened Wrappers
  import opened TaskModel
  import opened Routing
  import opened Store

  /** `handleTasks`, registered for `/tasks`. */
  method HandleTasks(store: TaskStore, verb: string, body: Option<Task>) returns (resp: Response)
    requires store.Valid()
    modifies store
    ensures store.Valid()
    ensures resp == Handle(old(store.Model()), Request(Collection, verb, None, body)).response
    ensures store.Model() == Handle(old(store.Model()), Request(Collection, verb, None, body)).state
  {
    match Dispatch(Collection, verb)
    case List => resp := store.List();
    case Create => resp := store.Create(body);
    case _ => resp := Response(StatusMethodNotAllowed, ErrorText(MethodNotSupported));
  }

  /** `handleTask`, registered for `/tasks/`; `id` is the parsed path
      segment after the prefix. */
  method HandleTask(store: TaskStore, verb: string, id: Option<int>, body: Option<Task>)
    returns (resp: Response)
    requires store.Valid()
    modifies store
    ensures store.Valid()
    ensures resp == Handle(old(store.Model()), Request(Item, verb, id, body)).response
    ensures store.Model() == Handle(old(store.Model()), Request(Item, verb, id, body)).state
  {
    match Dispatch(Item, verb)
    case Update => resp := store.Update(id, body);
    case Delete => resp := store.Delete(id);
    case _ => resp := Response(StatusMethodNotAllowed, ErrorText(MethodNotSupported));
  }

  /** A client session: the empty store lists no tasks; creating twice
      hands out IDs 1 and 2; a body that fails to decode (on create or
      update), an unparsable ID (on update or delete) and an update of a
      missing ID are refused and change nothing; an update of a stored ID
      rewrites it. */
  method CreateAndUpdateSession(milk: Task, bread: Task, edit: Task)
  {
    var store := new TaskStore();
    var r := store.List();
    assert r == Response(StatusOK, TaskListJson([]));
    r := store.Create(Some(milk));
    assert r.body.task.id == 1;
    r := store.Create(Some(bread));
    assert r.body.task.id == 2;
    assert store.tasks == [milk.(id := 1), bread.(id := 2)];
    var before := store.Model();
    r := store.Create(None);
    assert r.status == StatusBadRequest && store.Model() == before;
    r := store.Update(None, Some(edit));
    assert r.status == StatusBadRequest && store.Model() == before;
    r := store.Update(Some(1), None);
    assert r.status == StatusBadRequest && store.Model() == before;
    r := store.Delete(None);
    assert r.status == StatusBadRequest && store.Model() == before;
    r := store.Update(Some(999), Some(edit));
    assert r.status == StatusNotFound && store.Model() == before;
    r := store.Update(Some(1), Some(edit));
    assert r == Response(StatusOK, TaskJson(Task(1, edit.title, edit.completed)));
  }

  /** A client session through the handlers: deleting a stored ID twice
      answers 204 then 404; a refused method changes nothing. */
  method DeleteSession(milk: Task, other: string)
    requires other !in {"GET", "POST"}
  {
    var store := new TaskStore();
    var r := HandleTasks(store, "POST", Some(milk));
    assert store.tasks == [milk.(id := 1)];
    r := HandleTask(store, "DELETE", Some(1), None);
    assert r.status == StatusNoContent && store.tasks == [];
    r := HandleTask(store, "DELETE", Some(1), None);
    assert r.status == StatusNotFound;
    r := HandleTasks(store, other, Some(milk));
    assert r.status == StatusMethodNotAllowed && store.tasks == [] && store.currentID == 2;
  }
}

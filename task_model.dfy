/** The values of the task service: a task record, the store's state (the
    ordered task list and the ID counter), the responses a request can
    produce, and the four operations as functions from the old state to a
    response and a new state. */
module TaskModel {
  import opened Wrappers

  /** A task as the service stores and returns it (main.go, `Task`). */
  datatype Task = Task(id: int, title: string, completed: bool)

  /** The global state of the service: the task list in insertion order and
      the counter that supplies the next ID. */
  datatype State = State(tasks: seq<Task>, nextId: int)

  /** Both global variables as the process starts: no tasks, counter at 1. */
  function Initial(): State
  {
    State([], 1)
  }

  const StatusOK := 200
  const StatusCreated := 201
  const StatusNoContent := 204
  const StatusBadRequest := 400
  const StatusNotFound := 404
  const StatusMethodNotAllowed := 405

  /** Why a request was refused; each kind carries its own plain-text
      message in the service. */
  datatype Reason = DecodeFailed | InvalidId | NotFound | MethodNotSupported

  datatype Body =
    | TaskJson(task: Task)
    | TaskListJson(tasks: seq<Task>)
    | Empty
    | ErrorText(reason: Reason)

  datatype Response = Response(status: int, body: Body)

  /** What one request does: the response sent and the state left behind. */
  datatype Outcome = Outcome(response: Response, state: State)

  function Refuse(s: State, status: int, reason: Reason): Outcome
  {
    Outcome(Response(status, ErrorText(reason)), s)
  }

  // ---------------------------------------------------------------------
  // The store invariant

  predicate IdsBelow(ts: seq<Task>, bound: int)
  {
    forall i :: 0 <= i < |ts| ==> ts[i].id < bound
  }

  predicate IdsIncreasing(ts: seq<Task>)
  {
    forall i, j :: 0 <= i < j < |ts| ==> ts[i].id < ts[j].id
  }

  predicate IdsDistinct(ts: seq<Task>)
  {
    forall i, j :: 0 <= i < |ts| && 0 <= j < |ts| && i != j ==> ts[i].id != ts[j].id
  }

  /** Every stored ID was handed out by the counter: it is below the counter,
      and IDs grow strictly along the list. */
  predicate Valid(s: State)
  {
    && 1 <= s.nextId
    && IdsBelow(s.tasks, s.nextId)
    && IdsIncreasing(s.tasks)
  }

  // ---------------------------------------------------------------------
  // Searching, overwriting and splicing the task list

  /** The index of the first task carrying `id`, as the handlers' loops find
      it, or None when no task carries it. */
  function FirstIndex(ts: seq<Task>, id: int): (r: Option<nat>)
    ensures r.Some? ==> r.value < |ts| && ts[r.value].id == id
    ensures r.Some? ==> forall j :: 0 <= j < r.value ==> ts[j].id != id
    ensures r.None? <==> forall j :: 0 <= j < |ts| ==> ts[j].id != id
  {
    if ts == [] then None
    else if ts[0].id == id then Some(0)
    else
      match FirstIndex(ts[1..], id)
      case None => None
      case Some(k) => Some(k + 1)
  }

  /** The list with the title and completion flag of task `i` replaced by
      those of `t`; the ID of task `i` and every other task stay. */
  function Overwrite(ts: seq<Task>, i: nat, t: Task): (r: seq<Task>)
    requires i < |ts|
    ensures |r| == |ts|
    ensures r[i] == Task(ts[i].id, t.title, t.completed)
    ensures forall j :: 0 <= j < |ts| && j != i ==> r[j] == ts[j]
  {
    ts[i := ts[i].(title := t.title, completed := t.completed)]
  }

  /** The list without task `i`, the others in their old order. */
  function Removed(ts: seq<Task>, i: nat): (r: seq<Task>)
    requires i < |ts|
    ensures |r| == |ts| - 1
    ensures forall j :: 0 <= j < i ==> r[j] == ts[j]
    ensures forall j :: i <= j < |r| ==> r[j] == ts[j + 1]
    ensures multiset(r) + multiset{ts[i]} == multiset(ts)
  {
    assert ts == ts[..i] + [ts[i]] + ts[i + 1..];
    ts[..i] + ts[i + 1..]
  }

  // ---------------------------------------------------------------------
  // The four operations

  /** GET /tasks: the whole list, state untouched. */
  function GetTasks(s: State): Outcome
  {
    Outcome(Response(StatusOK, TaskListJson(s.tasks)), s)
  }

  /** POST /tasks, given the decoded body or None when decoding failed. */
  function CreateTask(s: State, body: Option<Task>): Outcome
  {
    match body
    case None => Refuse(s, StatusBadRequest, DecodeFailed)
    case Some(t) =>
      var created := t.(id := s.nextId);
      Outcome(Response(StatusCreated, TaskJson(created)),
              State(s.tasks + [created], s.nextId + 1))
  }

  /** PUT /tasks/{id}, given the parsed ID and the decoded body. The ID is
      checked before the body. */
  function UpdateTask(s: State, id: Option<int>, body: Option<Task>): Outcome
  {
    if id.None? then Refuse(s, StatusBadRequest, InvalidId)
    else if body.None? then Refuse(s, StatusBadRequest, DecodeFailed)
    else
      match FirstIndex(s.tasks, id.value)
      case None => Refuse(s, StatusNotFound, NotFound)
      case Some(i) =>
        var ts := Overwrite(s.tasks, i, body.value);
        Outcome(Response(StatusOK, TaskJson(ts[i])), s.(tasks := ts))
  }

  /** DELETE /tasks/{id}, given the parsed ID. */
  function DeleteTask(s: State, id: Option<int>): Outcome
  {
    if id.None? then Refuse(s, StatusBadRequest, InvalidId)
    else
      match FirstIndex(s.tasks, id.value)
      case None => Refuse(s, StatusNotFound, NotFound)
      case Some(i) =>
        Outcome(Response(StatusNoContent, Empty), s.(tasks := Removed(s.tasks, i)))
  }

  // ---------------------------------------------------------------------
  // Properties of the store

  lemma InitialIsValid()
    ensures Valid(Initial()) && Initial().tasks == []
  {
  }

  /** Strictly increasing IDs are pairwise distinct. */
  lemma IncreasingIdsAreDistinct(ts: seq<Task>)
    requires IdsIncreasing(ts)
    ensures IdsDistinct(ts)
  {
    forall i, j | 0 <= i < |ts| && 0 <= j < |ts| && i != j
      ensures ts[i].id != ts[j].id
    {
      if i < j { assert ts[i].id < ts[j].id; } else { assert ts[j].id < ts[i].id; }
    }
  }

  /** In a valid list the search for a stored task's ID finds exactly that
      task: the first match is the only one. */
  lemma FirstIndexOfStored(ts: seq<Task>, i: nat)
    requires IdsIncreasing(ts) && i < |ts|
    ensures FirstIndex(ts, ts[i].id) == Some(i)
  {
  }

  /** The counter's value is not yet the ID of any stored task. */
  lemma NextIdIsUnused(s: State)
    requires Valid(s)
    ensures FirstIndex(s.tasks, s.nextId).None?
  {
    forall j | 0 <= j < |s.tasks| ensures s.tasks[j].id != s.nextId {
      assert s.tasks[j].id < s.nextId;
    }
  }

  /** Listing changes nothing and returns the list in insertion order. */
  lemma GetTasksChangesNothing(s: State)
    ensures GetTasks(s).state == s
    ensures GetTasks(s).response == Response(StatusOK, TaskListJson(s.tasks))
  {
  }

  /** A successful create stamps the counter's old value on the task
      (whatever ID the client sent), advances the counter by one and appends
      the task; the new task is then the one an update or delete of that ID
      would find. A failed decode changes nothing. */
  lemma CreateAppendsStampedTask(s: State, body: Option<Task>)
    requires Valid(s)
    ensures body.None? ==> CreateTask(s, body) == Refuse(s, StatusBadRequest, DecodeFailed)
    ensures body.Some? ==>
      var o := CreateTask(s, body);
      var t := Task(s.nextId, body.value.title, body.value.completed);
      && o.response == Response(StatusCreated, TaskJson(t))
      && o.state.nextId == s.nextId + 1
      && o.state.tasks == s.tasks + [t]
      && FirstIndex(o.state.tasks, s.nextId) == Some(|s.tasks|)
  {
    if body.Some? {
      var o := CreateTask(s, body);
      CreateKeepsValid(s, body);
      FirstIndexOfStored(o.state.tasks, |s.tasks|);
    }
  }

  /** Two successful creates in a row hand out consecutive IDs. */
  lemma ConsecutiveCreates(s: State, a: Task, b: Task)
    ensures
      var o1 := CreateTask(s, Some(a));
      var o2 := CreateTask(o1.state, Some(b));
      && o1.response.body.task.id == s.nextId
      && o2.response.body.task.id == s.nextId + 1
      && o2.state.tasks == s.tasks + [o1.response.body.task, o2.response.body.task]
  {
  }

  lemma CreateKeepsValid(s: State, body: Option<Task>)
    requires Valid(s)
    ensures Valid(CreateTask(s, body).state)
  {
  }

  /** A successful update rewrites title and completion flag of the first
      task with the ID, keeps that task's ID, every other task, the length
      and the counter, and returns the rewritten task. Otherwise nothing
      changes: an unparsable ID is reported before the body is looked at. */
  lemma UpdateRewritesFoundTask(s: State, id: Option<int>, body: Option<Task>)
    ensures id.None? ==> UpdateTask(s, id, body) == Refuse(s, StatusBadRequest, InvalidId)
    ensures id.Some? && body.None? ==>
      UpdateTask(s, id, body) == Refuse(s, StatusBadRequest, DecodeFailed)
    ensures id.Some? && body.Some? && FirstIndex(s.tasks, id.value).None? ==>
      UpdateTask(s, id, body) == Refuse(s, StatusNotFound, NotFound)
    ensures id.Some? && body.Some? && FirstIndex(s.tasks, id.value).Some? ==>
      var i := FirstIndex(s.tasks, id.value).value;
      var o := UpdateTask(s, id, body);
      && o.state.nextId == s.nextId
      && |o.state.tasks| == |s.tasks|
      && o.state.tasks[i] == Task(id.value, body.value.title, body.value.completed)
      && (forall j :: 0 <= j < |s.tasks| && j != i ==> o.state.tasks[j] == s.tasks[j])
      && o.response == Response(StatusOK, TaskJson(o.state.tasks[i]))
  {
  }

  lemma UpdateKeepsValid(s: State, id: Option<int>, body: Option<Task>)
    requires Valid(s)
    ensures Valid(UpdateTask(s, id, body).state)
  {
    var o := UpdateTask(s, id, body);
    if o.state != s {
      var i := FirstIndex(s.tasks, id.value).value;
      var ts := o.state.tasks;
      forall a, b | 0 <= a < b < |ts| ensures ts[a].id < ts[b].id {
        assert ts[a].id == s.tasks[a].id && ts[b].id == s.tasks[b].id;
      }
    }
  }

  /** A successful delete removes exactly the first task with the ID: one
      task fewer, the rest in their old order, the counter unchanged.
      Otherwise nothing changes. */
  lemma DeleteRemovesFoundTask(s: State, id: Option<int>)
    ensures id.None? ==> DeleteTask(s, id) == Refuse(s, StatusBadRequest, InvalidId)
    ensures id.Some? && FirstIndex(s.tasks, id.value).None? ==>
      DeleteTask(s, id) == Refuse(s, StatusNotFound, NotFound)
    ensures id.Some? && FirstIndex(s.tasks, id.value).Some? ==>
      var i := FirstIndex(s.tasks, id.value).value;
      var o := DeleteTask(s, id);
      && o.response == Response(StatusNoContent, Empty)
      && o.state.nextId == s.nextId
      && o.state.tasks == s.tasks[..i] + s.tasks[i + 1..]
      && multiset(o.state.tasks) + multiset{s.tasks[i]} == multiset(s.tasks)
  {
  }

  lemma DeleteKeepsValid(s: State, id: Option<int>)
    requires Valid(s)
    ensures Valid(DeleteTask(s, id).state)
  {
    var o := DeleteTask(s, id);
    if o.state != s {
      var i := FirstIndex(s.tasks, id.value).value;
      var ts := o.state.tasks;
      forall a, b | 0 <= a < b < |ts| ensures ts[a].id < ts[b].id {
        var a', b' := if a < i then a else a + 1, if b < i then b else b + 1;
        assert ts[a] == s.tasks[a'] && ts[b] == s.tasks[b'];
      }
    }
  }

  /** After a successful delete no task carries the ID any more, so deleting
      it a second time answers 404 and changes nothing. */
  lemma DeleteTwiceIsNotFound(s: State, id: int)
    requires Valid(s)
    ensures
      var o := DeleteTask(s, Some(id));
      o.response.status == StatusNoContent ==>
        && FirstIndex(o.state.tasks, id).None?
        && DeleteTask(o.state, Some(id)) == Refuse(o.state, StatusNotFound, NotFound)
  {
    var o := DeleteTask(s, Some(id));
    if o.response.status == StatusNoContent {
      var i := FirstIndex(s.tasks, id).value;
      var ts := o.state.tasks;
      IncreasingIdsAreDistinct(s.tasks);
      forall j | 0 <= j < |ts| ensures ts[j].id != id {
        var j' := if j < i then j else j + 1;
        assert ts[j] == s.tasks[j'] && j' != i;
      }
    }
  }
}

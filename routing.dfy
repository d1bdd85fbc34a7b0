/** Method dispatch of the two handlers, one request as one atomic step,
    and runs of requests from the initial state. */
module Routing {
  import opened Wrappers
  import opened TaskModel

  /** The two registered paths: the collection `/tasks` and the item path
      `/tasks/{id}`. */
  datatype Route = Collection | Item

  datatype Operation = List | Create | Update | Delete | MethodNotAllowed

  /** The path and HTTP method that select each operation. */
  function RouteOf(op: Operation): Route
    requires !op.MethodNotAllowed?
  {
    if op.List? || op.Create? then Collection else Item
  }

  function VerbOf(op: Operation): string
    requires !op.MethodNotAllowed?
  {
    match op
    case List => "GET"
    case Create => "POST"
    case Update => "PUT"
    case Delete => "DELETE"
  }

  /** The methods each path accepts. */
  function Allowed(route: Route): set<string>
  {
    match route
    case Collection => {"GET", "POST"}
    case Item => {"PUT", "DELETE"}
  }

  /** The switch of `handleTasks` and `handleTask`: an accepted method
      selects the one operation made for that path and method; any other
      method is refused. */
  function Dispatch(route: Route, verb: string): (op: Operation)
    ensures op.MethodNotAllowed? <==> verb !in Allowed(route)
    ensures !op.MethodNotAllowed? ==> RouteOf(op) == route && VerbOf(op) == verb
  {
    match route
    case Collection =>
      if verb == "GET" then List
      else if verb == "POST" then Create
      else MethodNotAllowed
    case Item =>
      if verb == "PUT" then Update
      else if verb == "DELETE" then Delete
      else MethodNotAllowed
  }

  /** Every operation is reached by its own path and method. */
  lemma DispatchSelectsEveryOperation(op: Operation)
    requires !op.MethodNotAllowed?
    ensures Dispatch(RouteOf(op), VerbOf(op)) == op
  {
    match op
    case List =>
    case Create =>
    case Update =>
    case Delete =>
  }

  /** One request after path parsing and body decoding: `id` is the parsed
      path segment of an item request (None when it is not an integer) and
      `body` the decoded JSON body (None when decoding fails). */
  datatype Request = Request(route: Route, verb: string, id: Option<int>, body: Option<Task>)

  /** What one request does to the state. */
  function Handle(s: State, req: Request): Outcome
  {
    match Dispatch(req.route, req.verb)
    case List => GetTasks(s)
    case Create => CreateTask(s, req.body)
    case Update => UpdateTask(s, req.id, req.body)
    case Delete => DeleteTask(s, req.id)
    case MethodNotAllowed => Refuse(s, StatusMethodNotAllowed, MethodNotSupported)
  }

  /** The statuses a request can get; a refused request changes nothing,
      and 405 is given exactly to the methods a path does not accept. */
  lemma HandleStatuses(s: State, req: Request)
    ensures Handle(s, req).response.status in
      {StatusOK, StatusCreated, StatusNoContent, StatusBadRequest, StatusNotFound, StatusMethodNotAllowed}
    ensures Handle(s, req).response.status >= StatusBadRequest ==> Handle(s, req).state == s
    ensures Handle(s, req).response.status == StatusMethodNotAllowed <==>
      req.verb !in Allowed(req.route)
  {
  }

  lemma HandleKeepsValid(s: State, req: Request)
    requires Valid(s)
    ensures Valid(Handle(s, req).state)
    ensures Handle(s, req).state.nextId >= s.nextId
  {
    match Dispatch(req.route, req.verb)
    case List =>
    case Create => CreateKeepsValid(s, req.body);
    case Update => UpdateKeepsValid(s, req.id, req.body);
    case Delete => DeleteKeepsValid(s, req.id);
    case MethodNotAllowed =>
  }

  /** The state after serving `reqs` one after another. */
  function Run(s: State, reqs: seq<Request>): State
    decreases |reqs|
  {
    if reqs == [] then s else Run(Handle(s, reqs[0]).state, reqs[1..])
  }

  /** Every sequence of requests keeps the invariant, and the counter never
      goes back. */
  lemma {:induction false} RunKeepsValid(s: State, reqs: seq<Request>)
    requires Valid(s)
    ensures Valid(Run(s, reqs)) && Run(s, reqs).nextId >= s.nextId
    decreases |reqs|
  {
    if reqs != [] {
      HandleKeepsValid(s, reqs[0]);
      RunKeepsValid(Handle(s, reqs[0]).state, reqs[1..]);
    }
  }

  /** One request never stores a task under an ID the counter has passed
      and no task carries. */
  lemma HandleKeepsIdAbsent(s: State, req: Request, id: int)
    requires Valid(s) && id < s.nextId && FirstIndex(s.tasks, id).None?
    ensures FirstIndex(Handle(s, req).state.tasks, id).None?
  {
    var s' := Handle(s, req).state;
    match Dispatch(req.route, req.verb)
    case Update =>
      if s' != s {
        forall j | 0 <= j < |s'.tasks| ensures s'.tasks[j].id != id {
          assert s'.tasks[j].id == s.tasks[j].id;
        }
      }
    case Delete =>
      if s' != s {
        var i := FirstIndex(s.tasks, req.id.value).value;
        forall j | 0 <= j < |s'.tasks| ensures s'.tasks[j].id != id {
          var j' := if j < i then j else j + 1;
          assert s'.tasks[j] == s.tasks[j'];
        }
      }
    case _ =>
  }

  /** An ID that was handed out and is no longer stored never comes back:
      no later request stores a task with it. */
  lemma {:induction false} RemovedIdNeverReturns(s: State, reqs: seq<Request>, id: int)
    requires Valid(s) && id < s.nextId && FirstIndex(s.tasks, id).None?
    ensures FirstIndex(Run(s, reqs).tasks, id).None?
    decreases |reqs|
  {
    if reqs != [] {
      HandleKeepsValid(s, reqs[0]);
      HandleKeepsIdAbsent(s, reqs[0], id);
      RemovedIdNeverReturns(Handle(s, reqs[0]).state, reqs[1..], id);
    }
  }

  /** Starting from the initial state every reachable state is valid. */
  lemma ReachableIsValid(reqs: seq<Request>)
    ensures Valid(Run(Initial(), reqs))
  {
    RunKeepsValid(Initial(), reqs);
  }
}

# Task list service: a verified model

The service keeps tasks (an integer ID, a title, a completion flag) in memory and serves four HTTP operations.
- `GET /tasks` lists them.
- `POST /tasks` creates one.
- `PUT /tasks/{id}` updates one.
- `DELETE /tasks/{id}` deletes one.

Its state is two global variables: the ordered task list and an ID counter that starts at 1.

The model has five modules:

- `Wrappers` defines `Option`. It is the result of the two parsing steps the model takes as inputs: the integer parse of the `{id}` path segment and the JSON decoding of the body.
- `TaskModel` holds the values:
  - `Task` and `State`, plus `Response` with the status code and a body (a task, the list, empty, or an error reason);
  - the four operations as functions from a state to an `Outcome` (the response plus the new state): `GetTasks`, `CreateTask`, `UpdateTask`, `DeleteTask`;
  - the list helpers they use: `FirstIndex`, `Overwrite`, `Removed`;
  - the store invariant `Valid`: the counter is at least 1, every stored ID is below it, and IDs strictly increase along the list (so they are distinct);
  - lemmas for each operation's effect, its error cases and invariant preservation.
- `Routing` covers the handlers' method switch as `Dispatch`, one request as the atomic step `Handle`, and runs of requests from the initial state as `Run`. Its lemmas show that every reachable state is valid and that an ID is never reissued once its task is gone.
- `Store` has the class `TaskStore`. Its fields `tasks` and `currentID` are the two globals.
  - `Create`, `Update` and `Delete` update the fields in place; `Update` and `Delete` use the source's search loop.
  - `List` changes nothing (it has no modifies clause).
  - Each method is proved to produce exactly the response and new state of the matching `TaskModel` function.
- `Server` has `HandleTasks` and `HandleTask`, the two registered handlers, proved equal to `Routing.Handle`. It also has two client sessions whose assertions follow from the contracts alone:
  - `CreateAndUpdateSession`:
    - the empty store lists no tasks;
    - two creates get IDs 1 and 2;
    - a failed decode on create or update, and an unparsable ID on update or delete, each answer 400 and change nothing;
    - an update of a missing ID answers 404 and changes nothing;
    - an update of ID 1 answers 200 with the rewritten task.
  - `DeleteSession`: deleting a stored ID answers 204 and then 404; a method `/tasks` does not accept answers 405 and changes nothing.

Each request is one atomic step. The model does not include:
- the HTTP server;
- header and body writing;
- JSON encoding and decoding;
- `strconv.Atoi`.

## Model

| member | source | states |
|---|---|---|
| TaskModel.FirstIndex | main.go:106-107 | the found index holds a task with the ID and no earlier task has it; None exactly when no task has the ID |
| TaskModel.Overwrite | main.go:108-109 | same length; the task at the index keeps its ID and takes the new title and completion flag; every other task is unchanged |
| TaskModel.Removed | main.go:134 | one element fewer; tasks before the index are unchanged, later ones shift down by one; the multiset loses exactly the removed task |
| TaskModel.InitialIsValid | main.go:18-21 | the empty list with the counter at 1 satisfies the store invariant |
| TaskModel.IncreasingIdsAreDistinct | main.go:76-79 | IDs strictly increasing in list order are pairwise distinct |
| TaskModel.FirstIndexOfStored | main.go:106-107 | in a valid list, searching for a stored task's ID finds that task's own index |
| TaskModel.NextIdIsUnused | main.go:76-77 | in a valid store no task carries the counter's current value |
| TaskModel.GetTasksChangesNothing | main.go:60-63 | listing answers 200 with the whole list in order and leaves the state as it was |
| TaskModel.CreateAppendsStampedTask | main.go:66-85 | a failed decode answers 400 and changes nothing; on success the reply is 201 with the client title and flag under the old counter value (a client ID is overwritten), the counter grows by exactly 1, the list is the old list plus that task, which a search for its ID finds at the end |
| TaskModel.ConsecutiveCreates | main.go:76-79 | two creates in a row get IDs n and n+1 and append both tasks in that order |
| TaskModel.CreateKeepsValid | main.go:76-79 | create preserves the store invariant |
| TaskModel.UpdateRewritesFoundTask | main.go:88-119 | an unparsable ID answers 400 InvalidId before the body is looked at; a decode failure answers 400; a missing ID answers 404; all three change nothing; otherwise the first task with the ID gets the new title and flag and keeps its ID, while the other tasks, the length and the counter stay; the reply is 200 with the rewritten task |
| TaskModel.UpdateKeepsValid | main.go:106-109 | update preserves the store invariant |
| TaskModel.DeleteRemovesFoundTask | main.go:122-143 | an unparsable ID answers 400 and a missing ID answers 404, both changing nothing; otherwise the reply is 204, the list is `tasks[..i] + tasks[i+1..]` for the first match `i`, exactly that task leaves the multiset, and the counter stays |
| TaskModel.DeleteKeepsValid | main.go:132-134 | delete preserves the store invariant |
| TaskModel.DeleteTwiceIsNotFound | main.go:132-142 | after a successful delete no task carries the ID, so deleting it again answers 404 and changes nothing |
| Routing.Dispatch | main.go:34-57 | a method not accepted by the path (GET/POST on `/tasks`, PUT/DELETE on `/tasks/{id}`) gives MethodNotAllowed, and only then; otherwise the chosen operation is the one belonging to that path and method |
| Routing.DispatchSelectsEveryOperation | main.go:34-57 | each of the four operations is selected by its own path and method |
| Routing.HandleStatuses | main.go:34-143 | a request answers 200, 201, 204, 400, 404 or 405; any refused request (400 and up) leaves the state as it was; 405 is given exactly when the path does not accept the method |
| Routing.HandleKeepsValid | main.go:34-57 | every request preserves the store invariant and never lowers the counter |
| Routing.HandleKeepsIdAbsent | main.go:76-79 | a request never stores a task under an ID that is below the counter and not present |
| Routing.RunKeepsValid | main.go:18-21 | any sequence of requests keeps the invariant and never lowers the counter |
| Routing.RemovedIdNeverReturns | main.go:76-77 | an ID handed out earlier that is no longer stored is never stored again by any later sequence of requests |
| Routing.ReachableIsValid | main.go:18-21 | every state reachable from the initial one is valid |
| Store.TaskStore.constructor | main.go:18-21 | the store starts with no tasks and the counter at 1, and is valid |
| Store.TaskStore.List | main.go:60-63 | answers 200 with the current list and changes nothing |
| Store.TaskStore.Create | main.go:66-85 | keeps the invariant; response and new fields are exactly those of `CreateTask` on the old state |
| Store.TaskStore.Update | main.go:88-119 | keeps the invariant; the in-place loop's response and new fields are exactly those of `UpdateTask` on the old state |
| Store.TaskStore.Delete | main.go:122-143 | keeps the invariant; the loop-and-splice response and new fields are exactly those of `DeleteTask` on the old state |
| Server.HandleTasks | main.go:34-44 | keeps the invariant; response and new state are those of `Handle` for a `/tasks` request |
| Server.HandleTask | main.go:47-57 | keeps the invariant; response and new state are those of `Handle` for a `/tasks/{id}` request |

## Left out

- HTTP server setup, `ListenAndServe` and the start-up message (main.go:23-31): I/O plumbing.
- JSON encoding of responses, and the `Content-Type` header: the model returns the response body as a value.
  - Go encodes the initial nil slice as `null`, not as an empty array.
  - After the last task is deleted the slice is empty but not nil and encodes as `[]`.
  - The model returns the empty sequence in both cases.
- JSON decoding of request bodies: each body is an input that is either the decoded `Task` or a decode failure.
  - The text of the decoder's error message is reduced to the reason `DecodeFailed`.
  - Fields missing from the JSON arrive as the decoded task's zero values, already inside that input.
- `strconv.Atoi` and the prefix slicing of the path (main.go:90-91, main.go:124-125): the parsed ID is an `Option<int>`, with None for a segment that is not an integer.
- Path routing by the HTTP library, which sends `/tasks` to one handler and `/tasks/...` to the other: this is the `Route`, given as an input.
- Concurrency: the source does not lock the shared list and counter. Each request is modelled as one atomic step, and races are not modelled.
- Overflow of the counter (a Go `int`): the counter is an unbounded integer.

# CurveFitter task records: a Dafny model

CurveFitter lets a user save, list, re-prioritise and delete "curve-fit task"
records. A record holds a coordinate set, a curve family and a priority flag.
This project models the record lifecycle across the HTTP boundary, in four parts:

- **Store** (`store.dfy`, from `src/backend/db.js`): the module-level PouchDB
  database. It is a class holding a map from `_id` to `{_id, task}`. Its methods
  are add (overwrites), load (fails for a missing id), modify, delete and list
  (every live record exactly once, in an order the engine chooses).
- **Service** (`http.dfy`, `service.dfy`, from `src/backend/server.js`): the four
  Express handlers and the route table. Each handler writes a shared response
  object (status, body pieces, `end` calls) and reaches the store. Each one is
  proved equal to, or described by, a specification (the functions `Create`,
  `Delete`, `Update` and the predicate `ReadAllReply`). Lemmas prove the properties of those functions, including the
  per-record lifecycle: Absent, then Active via create, Active via update (only
  the priority changes), then Absent via delete.
- **Proxy** (`server_proxy.dfy`, from `src/frontend/ServerProxy.js`): the local id
  guard, the requests the proxy builds, and the rule "success iff status 200".
  What `fetch` settles to is an input.
- **Recents view** (`recents_view.dfy`, from `src/frontend/CFRecentsView.js`): the
  shared event register (`subscribe`, `#publish`), `#parse`, the `Task`
  constructor, the fields each list item derives from its task, the `:` split on
  a click, `#getTasks`, the `#save` text, the task list's local state and the
  `instance()` singleton.
- **Integration** (`integration.dfy`): properties that need both sides of the
  boundary.

Inputs that the code cannot see are parameters:
- the id from `generateUniqueID` (`Env.freshId`);
- whether the database medium can be reached: `reachable` for awaited calls, and `writeReachable` for the un-awaited removal or write that delete and update make after their load;
- what the persistent database already holds when it is opened;
- whether `index.html` can be read;
- what `fetch` settles to (`HttpOutcome`);
- what `JSON.parse` returns on the text `#save` builds;
- the fallback id `Math.random().toString(36)` in `Task`.

JSON objects are maps from member name to string, since every member this
application writes is a string, and `undefined` is `Option.None`. Calls the
source does not await are made in line. Their outcome never reaches the response,
which the code decides before that outcome is known.

Behaviour of the code that its comments, or a reader, might not expect:

- A create under an id already in use replaces that record (`CreateOverwritesOnCollision`). Nothing checks for collisions.
- A create answers 200 whether or not the store write succeeds. The write is not awaited.
- An empty-string id passes the service's `undefined`/`null` check. It fails at the store with 500, not 400 (`EmptyIdReachesStore`). The proxy's own guard stops `""` before any request is sent.
- An unmatched method on a known route gets `send("Not Implemented")`, which carries status 200.
- On success, read-all ends its response twice: `json` ends it, then `end()` is called again. Every other handler branch ends it exactly once.
- `modifyRecent` follows its doc comment, so it fails for an id that is not stored. In the service it is only called after a successful load, so this choice changes nothing there.

## Model

| member | source | states |
|---|---|---|
| `Store.RecentStore.constructor` | src/backend/db.js:29 | opening the named database gives a store holding exactly what it already held, filed by `_id` |
| `Store.RecentStore.AddRecentTask` | src/backend/db.js:31-46 | stores exactly `{_id: name, task}` and replaces any record under that id; a medium that cannot be reached leaves the store as it was and fails |
| `Store.RecentStore.LoadRecent` | src/backend/db.js:76-91 | returns the document filed under the name, whose `_id` is that name, and fails with NotFound when there is none; reads only |
| `Store.RecentStore.ModifyRecent` | src/backend/db.js:93-108 | replaces the document with the same `_id` and leaves every other id alone; fails when the id is not stored |
| `Store.RecentStore.DeleteRecentTask` | src/backend/db.js:62-74 | removes the document's id and keeps the rest; the removal's outcome (NotFound for a missing document) is what the caller never sees |
| `Store.RecentStore.LoadRecentTasks` | src/backend/db.js:48-60 | lists every live record exactly once (same count, distinct ids, each as stored); reads only; fails when the medium cannot be reached |
| `Store.RemovedIdNoLongerLoads` | src/backend/db.js:62-91 | after a removal, loading that id fails and loading any other id gives what it gave before |
| `Store.PutThenGet` | src/backend/db.js:31-46 | a load after an add of the same name returns exactly the document added |
| `Records.WithPriority` | src/backend/server.js:74 | assigning `task.priority` sets that member (or drops it for `undefined`) and keeps every other member |
| `Service.SaveRecentToDB` | src/backend/server.js:22-38 | no body: 400 and no store access; otherwise the body is stored as `{_id: freshId, task: body}` and the response ends with 200 and no body, whatever the write does; a synchronous throw gives 500 |
| `Service.DeleteRecentFromDB` | src/backend/server.js:43-60 | missing id: 400 and no store access; a failed load: 500; a successful load: 200 `deleted with success: <id>`, and the removal, which may itself fail and leave the record |
| `Service.UpdateRecentFromDB` | src/backend/server.js:65-85 | missing id: 400; a failed load: 500 and no change; a successful load: 200 `modified with success: <id>`, and the loaded doc with its priority set is stored back unless that write fails |
| `Service.GetRecentsFromDB` | src/backend/server.js:91-104 | 200 with the full listing (each record once) as JSON, or 500 with the error page and the failure |
| `Service.Route` | src/backend/server.js:116-176 | PUT /update, DELETE /delete, POST /create, GET /all and GET / get their handlers; another method on those paths gets Not Implemented; any other path gets 404 |
| `Service.Handle` | src/backend/server.js:109-176 | update takes `id` and `priority` from the query, delete takes `id` from the query, create takes the body; Not Implemented is a 200 `send`; a 404 says `Not found: <path>` |
| `Service.HandlersAnswerOnce` | src/backend/server.js:22-85 | create, delete and update each answer with exactly one of 200, 400, 500 and call `end` once |
| `Service.BadRequestIffMissingInput` | src/backend/server.js:22-85 | the answer is 400 exactly when the body (create) or id (delete, update) is missing, and then the store is untouched |
| `Service.CreateReplyIndependentOfStore` | src/backend/server.js:28-31 | the create response is the same whatever the store holds, whatever id is drawn and whether the write succeeds |
| `Service.DeleteReplyIndependentOfRemoval` | src/backend/server.js:49-53 | the delete reply does not depend on whether the un-awaited removal goes through; when it does not, 200 is sent and the record stays |
| `Service.UpdateReplyIndependentOfWrite` | src/backend/server.js:72-78 | the update reply does not depend on whether the un-awaited write goes through; when it does not, 200 is sent and the store is unchanged |
| `Service.AbsentIdFailsLoad` | src/backend/server.js:49-83 | deleting or updating an id that is not stored answers a bare 500 and leaves the store unchanged, whatever the medium does |
| `Service.EmptyIdReachesStore` | src/backend/server.js:43-85 | an empty-string id is not a 400: it reaches the store and, being absent, is answered 500 with nothing changed |
| `Service.ReadAllStatus` | src/backend/server.js:91-104 | read-all is 200 exactly when the medium can be reached and 500 otherwise; on success the single body piece is the listing and the response is ended twice |
| `Service.UpdateChangesOnlyPriority` | src/backend/server.js:72-79 | updating an existing id answers 200, keeps every id, keeps `_id`, coordinates, family and every member but priority, and sets priority |
| `Service.UpdateIdempotent` | src/backend/server.js:72-79 | repeating the same update leaves the same store and answer as doing it once |
| `Service.DeleteThenDeleteAgain` | src/backend/server.js:49-58 | deleting an existing id answers 200, the record is gone, the others are unchanged, and a second delete of it is a 500 that changes nothing |
| `Service.CreateOverwritesOnCollision` | src/backend/server.js:28-30 | a create under an id already stored answers 200 and replaces that record, with no new id |
| `Service.ServiceFollowsLifecycle` | src/backend/server.js:22-85 | one successful intent (every store call goes through) moves the addressed record as the Absent/Active lifecycle says and leaves every other record as it was |
| `Service.IntentFollowsOrKeepsLifecycle` | src/backend/server.js:22-85 | in every environment (synchronous throw, unreachable medium, failed un-awaited write) an intent either moves the addressed record as the lifecycle says or leaves it as it was, and never changes another record |
| `Service.RunFollowsLifecycle` | src/backend/server.js:22-85 | over any sequence of successful intents to one id, the record follows the lifecycle and other records never change |
| `Service.AbsentStaysAbsentWithoutCreate` | src/backend/server.js:43-85 | without a create, an absent record stays absent through any updates and deletes |
| `Service.UpdatesKeepCoordinatesAndFamily` | src/backend/server.js:72-79 | an active record keeps its coordinates and family through any number of updates |
| `ServerProxy.GetAll` | src/frontend/ServerProxy.js:11-22 | sends GET /all; returns the body text of any response, whatever its status, `[]` on a transport failure, never `null` |
| `ServerProxy.SaveRecent` | src/frontend/ServerProxy.js:28-47 | a text that does not parse rejects with no request; otherwise POST /create with the parsed object as body, returning the body text or `[]` |
| `ServerProxy.DeleteRecent` | src/frontend/ServerProxy.js:53-79 | a request is sent exactly for a non-empty string id other than "undefined" (undefined, null and values without a length send nothing; the view passes only strings); true exactly when that request got status 200 |
| `ServerProxy.UpdateRecent` | src/frontend/ServerProxy.js:86-118 | same guard and success rule; the request is PUT /update with id and stringified priority in the body and an empty query |
| `RecentsView.Subscribed` | src/frontend/CFRecentsView.js:56-62 | subscribing appends the handler to the event's list (an empty list for an unseen event); every other event's list is unchanged |
| `RecentsView.EventRegister.Subscribe` | src/frontend/CFRecentsView.js:109-114 | the register afterwards is exactly the old one with the handler appended to the event |
| `RecentsView.CFRecentsView.Subscribe` | src/frontend/CFRecentsView.js:56-62 | the view's subscribe changes the shared register exactly as above |
| `RecentsView.Publish` | src/frontend/CFRecentsView.js:64-68 | publishing calls every handler registered for the event, in subscription order, with the same data; nothing for an unseen event |
| `RecentsView.PublishInSubscriptionOrder` | src/frontend/CFRecentsView.js:56-68 | after a run of subscriptions, publishing calls the earlier handlers and then the new ones in the order they subscribed |
| `RecentsView.SubscribeAllLeavesOtherEvents` | src/frontend/CFRecentsView.js:56-62 | subscriptions to one event never change what another event delivers |
| `RecentsView.NewTask` | src/frontend/CFRecentsView.js:246-256 | a given id is kept, an undefined id gets the fallback, so a task always has an id; the other three fields are copied |
| `RecentsView.Parse` | src/frontend/CFRecentsView.js:236-240 | one task per wire record, same length and order, id = `_id`, and coordinates, family and priority from the record's task |
| `RecentsView.GetTasks` | src/frontend/CFRecentsView.js:204-211 | `null` gives `[]`; the listing's JSON gives its parse; anything else, including the `[]` a failed `getAll` returns, makes the parse throw |
| `RecentsView.MakeTaskItem` | src/frontend/CFRecentsView.js:171-198 | the checkbox is checked iff priority is "true"; the label is coordinates `:` family; the checkbox, label and delete button all carry the task's id as text |
| `RecentsView.Items` | src/frontend/CFRecentsView.js:122 | one item per task, in order |
| `RecentsView.BeforeColon` | src/frontend/CFRecentsView.js:132-134 | the result is the longest prefix of the text that has no colon: the text before the first `:`, or all of it |
| `RecentsView.ClickRecents` | src/frontend/CFRecentsView.js:129-137 | the data passed on has a single member, coordinates, holding the text before the first colon |
| `RecentsView.ClickGivesBackCoordinates` | src/frontend/CFRecentsView.js:129-137 | clicking an item's label passes on that task's coordinates, provided they hold no colon |
| `RecentsView.SaveText` | src/frontend/CFRecentsView.js:220 | the text starts with the `coordinates` member holding the task's coordinates in string form and ends with `"priority" : "false" }` |
| `RecentsView.SaveTextAsksForNoPriority` | src/frontend/CFRecentsView.js:220 | the text `#save` builds always ends with `"priority" : "false" }`, whatever the task's own priority |
| `RecentsView.SaveResultAsWritten` | src/frontend/CFRecentsView.js:221-228 | the as-written test: success only for a resolved value whose `status` can be read; a caught rejection is never success |
| `RecentsView.SaveNeverReportsSuccess` | src/frontend/CFRecentsView.js:217-230 | as written, `#save` reports success for no value `saveRecent` can settle to, so not even after a 200 |
| `RecentsView.SaveSucceeded` | src/frontend/CFRecentsView.js:217-230 | the intended `#save`: success exactly when the text parsed and the answer was status 200 |
| `RecentsView.TaskList.constructor` | src/frontend/CFRecentsView.js:94-97 | the list starts with no tasks and subscribes its handler to `add-to-recents` |
| `RecentsView.TaskList.Render` | src/frontend/CFRecentsView.js:116-127 | the tasks become what `#getTasks` resolves to, with one list item per task; a rejection changes nothing |
| `RecentsView.TaskList.AddToRecents` | src/frontend/CFRecentsView.js:99-107 | always starts `#save` with its text and appends the task and its item, since the un-awaited promise is truthy; before the first render the push throws |
| `RecentsView.CFRecentsView.constructor` | src/frontend/CFRecentsView.js:20-22 | the view keeps the shared register |
| `RecentsView.RecentsViewSlot.Instance` | src/frontend/CFRecentsView.js:13-18 | the first call constructs the view; every later call returns that same object |
| `Integration.UiUpdateIsAlwaysRefused` | src/frontend/ServerProxy.js:99-107 | the update the proxy sends reaches the update handler with no query id, so it is answered 400, the store is untouched and the proxy reports failure |
| `Integration.CorrectedUpdateSetsPriority` | src/backend/server.js:116-120 | with id and priority in the query, updating an existing record succeeds, sets its priority and keeps its coordinates and family |
| `Integration.UiDeleteRemovesRecord` | src/frontend/ServerProxy.js:65-72 | the delete the proxy sends removes an existing record, and the 200 makes the proxy report success |
| `Integration.UnsavedTaskIsNeverSentForDeletion` | src/frontend/ServerProxy.js:58-60 | a task without an id shows "undefined" as its buttons' id, and the guard refuses it, so no request is sent |
| `Integration.CreatedRecordIsListed` | src/frontend/CFRecentsView.js:236-240 | after a create, the parsed listing holds a task with the new id and the submitted coordinates, family and priority |
| `Integration.CorrectedSaveReportsAcceptedCreate` | src/frontend/CFRecentsView.js:221-225 | the service's answer to every accepted create is one that the intended `#save` reads as success |

## Left out

- DOM construction, rendering, `alert`, `location.reload` and the click wiring in `src/frontend/CFRecentsView.js`, and all of `src/frontend/app.js`. These are user-interface plumbing.
- Express setup, logging, body parsing (the request body is an input: `None` stands for an absent body, whether the parser leaves it `undefined` or `{}` depends on the Express version), static file serving and `app.listen`. The static middleware also answers `/` before the `/` route does, and the model keeps only the route. Express matches paths case-insensitively, ignores a trailing slash and sends HEAD to GET routes; `Service.Route` compares paths exactly.
- `generateUniqueID`: its id is an input, and no freshness is claimed. It drops the first five characters of a base-36 float rather than producing five characters, and that is not modelled because it relies on floating point.
- Response headers and content types. Some `writeHead` calls pass a string, which Node takes as the reason phrase; the model keeps only the status.
- PouchDB revisions (`_rev`), conflicts and listing order. `ListsExactly` leaves the order open.
- `Store.RecentStore.constructor`: a reopened database may already hold records; what it holds is an input, and how it got there (an earlier run) is not modelled.
- Promise scheduling. Un-awaited store calls are made in line, before the response is written. Node's reaction to an unhandled rejection is not modelled.
- `Service.SaveRecentToDB`: the synchronous throw is an input (`syncThrow`), taken to happen before the store is reached. Since `addRecentTask` is async, the source cannot actually throw there.
- JSON text: parsing and stringifying are not modelled. `ServerProxy.UpdateRecent` takes the body text it builds as the object it denotes, which holds only when the id needs no JSON escaping. `ServerProxy.DeleteRecent` takes `?id=<id>` as the query `{id}`, which holds only when the id needs no URL encoding. Neither is encoded in the source.
- `Events.js`, `CFResultsView.js` and `CFGenerateView.js` are not part of this model. Handlers are known by name, `displayResults` is represented by the data handed to it, and the payload `add-to-recents` carries is any task object.
- `#publish`'s handlers are not run. If one throws, the handlers after it are not called, and the model does not capture that.

## Findings

| source | as written | input that shows it | evidently intended | confidence | as-written member | corrected member |
|---|---|---|---|---|---|---|
| src/frontend/ServerProxy.js:100-106 | `updateRecent` sends `id` and `priority` in a JSON body, but the `/update` route reads them from `request.query` (src/backend/server.js:119) | `updateRecent("abc12", true)`: PUT /update with an empty query, answered 400, so every priority toggle fails | put `id` and `priority` in the query string | high; not executed | `Integration.UiUpdateIsAlwaysRefused` | `Integration.CorrectedUpdateSetsPriority` |
| src/frontend/CFRecentsView.js:221-225 | `#save` reads `.status` from what `saveRecent` resolves to, which is body text or `[]`, so no `status` exists | any save, even one the service answers 200 | judge success by the HTTP status of the create request | high; not executed | `RecentsView.SaveNeverReportsSuccess` | `RecentsView.SaveSucceeded` |

In both rows the view and proxy members (`ServerProxy.UpdateRecent`,
`RecentsView.TaskList.AddToRecents`) model the code as written. `#addToRecents`
tests the promise, not the result of `#save`, so it appends with either version.

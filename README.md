# node-crud-api in Dafny

node-crud-api is a small HTTP service that keeps an in-memory list of users.
Each user has a `username`, an `age`, a list of `hobbies` and a generated
UUID `id`. The service offers create, read, update and delete on
`/api/users` and `/api/users/{id}`. It runs in one of two modes:

- **Single process.** One server's dispatcher parses the route, calls a
  controller over a `Store`, and maps every thrown error to a plain-text
  status.
- **Cluster.** A primary process forks one worker per extra core, each on
  its own port. A round-robin balancer forwards client requests to the
  workers. A worker does not touch the data: it sends an *Intent* message
  to the primary. The primary runs the request against the one shared
  controller and answers with a *Reply*, which the worker renders as the
  HTTP response. The primary also keeps a pid-to-port registry of its
  workers and respawns a worker when one exits.

This project models the logic of both modes and proves properties of the
model:

- **Values.**
  - JSON is `Json.Json`; objects are maps.
  - Thrown values are `Errors.Error`.
  - `JSON.parse` is an outcome supplied with the text (`Json.ParseOutcome`).
  - What a response writer leaves on `http.ServerResponse` is a
    `HttpTypes.Response` value.
- **Pure parts** (validators, the route parser, the UUID pattern, the error
  mappings, Intent and Reply construction and rendering) are functions and
  predicates.
- **Stateful parts** are classes proved against specification functions:
  - `UserStore.Store`, with its `findIndex` loop;
  - `Controllers.Controller`;
  - the primary's `Primary.ActiveWorkers` registry, with its `createWorkers`
    loop;
  - the worker's `WorkerDispatcher.WorkerProcess`, with its outbox and its
    one-shot listeners;
  - the balancer's `Balancer.RoundRobin` cursor.
- **Oracles become parameters:**
  - the UUID `randomUUID` would generate is `newId`;
  - the pid `cluster.fork` would report is an `Option<int>`;
  - the values of the `ErrorType` and `ErrorMessage` string enums, which
    their users import from src/types/errors.ts although that file does not
    export them, are an `Errors.StringEnums` parameter.

Where one part of the code contradicts another, or does less than its
names promise, the model follows the code that actually runs on each path:

- **The five error classes are not `HTTPError`s.** They extend `Error`
  directly (src/types/errors.ts:1-29), while the single-process
  `handleError` (src/dispatcher.ts:18-32) and the `ErrorResponses` table
  (src/types/response.ts:15-65) give them 400 and 404. So the cluster paths
  (`getErrorResponse` at src/multi.ts:46-54, and `sendErrorResponse` in the
  worker) answer them with 500 and the error's message.
- **Error replies have no `type` field.** The primary never sets one
  (src/multi.ts:46-54, 88), but the worker's `isParentMessage` demands one
  (src/helpers/validators.ts:46-47). So every error reply is rejected, and
  the worker ends such a response with no status and no body
  (src/worker-dispatcher.ts:19-20, 31-34), although lines 22-24 of that file
  are written to render it as text.
- **Malformed messages get a reply.** Every non-numeric worker message,
  malformed or not, is caught and answered (src/multi.ts:57-61, 87-88,
  120-121); none is dropped.
- **An unknown route in cluster mode is 500.** A worker rejects an unknown
  route locally (src/worker-dispatcher.ts:41, 71-72) with 500 'Request to
  non-existing endpoint', where the single-process server answers 404
  (src/dispatcher.ts:25-26).
- **A respawned worker is never answered.** `handleWorkerExit` forks and
  registers a replacement (src/multi.ts:28-34) but, unlike `createWorkers`
  (src/multi.ts:113-124), attaches no `'message'` listener to it. The
  balancer keeps routing to that port, and every Intent the replacement
  sends goes unanswered. See "## Findings".
- **The worker's error handler is imported under the wrong name.**
  src/worker-dispatcher.ts imports `sendErrorResponse` from
  `./error-handler.js`, which exports only `handleError`. That function has
  the same three branches as `sendErrorResponse` of src/helpers/response.ts,
  but takes its arguments the other way round: `handleError(err, res)`
  (src/error-handler.ts:6) against `sendErrorResponse(res, err)`
  (src/helpers/response.ts:21), so even under the right name it would not
  fit the call `sendErrorResponse(res, err)` at src/worker-dispatcher.ts:72.
  The model gives the worker the behaviour of `sendErrorResponse`.
- **multi.ts calls the controller with the wrong signature.** It calls the
  controller as `(endpoint, userId[, body])`, while src/controller.ts takes
  `(endpointData, res)`. `Primary.ActOnWorkerMessage` therefore takes the
  controller's answer (the data returned, or the error thrown) as a
  parameter.

## Model

| member | source | states |
|---|---|---|
| HttpTypes.ParseMethod | src/types/http.ts:1-6 | a string names a method iff it is one of 'GET', 'POST', 'PUT', 'DELETE', and the method read back has that name |
| HttpTypes.ParseMethodName | src/types/http.ts:1-6 | every method's name parses back to that method |
| HttpTypes.PlaintextResponse | src/helpers/response.ts:5-9 | the response has the given status, `text/plain` and the text as body |
| HttpTypes.JSONResponse | src/helpers/response.ts:11-19 | `application/json` and the status are always set; the body is written iff the data is present and truthy, and is then that data |
| Uuid.ValidateUUIDShape | src/helpers/uuid.ts:3 | the 8-4-4-4-12 pattern accepts a string iff it has length 36, '-' at indices 8, 13, 18 and 23, and a lower-case hex digit everywhere else |
| Uuid.ValidUuidLength | src/helpers/uuid.ts:3 | an accepted id has length 36 and no '/', so it fits a one-segment route |
| Uuid.UpperCaseRejected | src/helpers/uuid.ts:3 | any string holding an upper-case hex digit 'A'-'F' is rejected |
| Uuid.TestUuidAccepted | src/helpers/uuid.ts:3 | the fixed test UUID is accepted |
| Uuid.NibblesUnchecked | src/helpers/uuid.ts:3 | the version and variant nibbles (indices 14 and 19) are not checked: an accepted UUID stays accepted with any hex digits there |
| Uuid.InvalidRejected | src/helpers/uuid.ts:3 | 'invalid' is rejected |
| Users.DecodeDto | src/helpers/users.ts:3-22 | a typed payload is read off a value iff `validateUserDto` accepts it |
| Users.AcceptsDtoWithExtraKeys | src/helpers/users.ts:3-22 | an object with string `username`, number `age` and string-array `hobbies` is accepted whatever other keys it has, `id` among them, and reads back as that payload |
| Users.AcceptedIsDtoWithExtraKeys | src/helpers/users.ts:3-22 | conversely, every accepted value is such an object: its payload fields are among its own keys |
| Users.RejectsNonObjects | src/helpers/users.ts:5-6 | null, arrays, strings, numbers and booleans are rejected |
| Users.PayloadExamples | src/helpers/users.ts:15-16 | an empty `hobbies` array is accepted; a payload without `hobbies`, or with only `age`, is rejected |
| Users.UserFields | src/store.ts:24-27 | the stored record's `id` is the record's id, whatever the payload says; every other payload field is kept |
| Validators.DecodeWorkerMessage | src/helpers/validators.ts:25-38 | a typed message is read off a value iff `isWorkerMessage` accepts it, with the method and endpoint the value names; `userId` and `body` are unchecked |
| Validators.SuccessNeedsOnlyStatus | src/helpers/validators.ts:57-79 | a 'success' reply passes iff its status is one of 200, 201, 204, 400, 404, 500; nothing else of its response is looked at |
| Validators.ErrorNeedsTypeAndMessage | src/helpers/validators.ts:40-55 | an accepted 'error' reply has a valid status, and a `type` and a `message` from their enums |
| Validators.OtherResultRejected | src/helpers/validators.ts:65-79 | a `result` other than 'success' and 'error' is rejected |
| Validators.RepliesAgainstIsParentMessage | src/helpers/validators.ts:40-79 | a success reply as the primary builds it passes iff its status is valid; an error reply never passes, whatever the enums hold |
| Validators.UuidV4RegexShape | src/helpers/validators.ts:7 | the validators' own copy of the UUID pattern, read group by group, accepts exactly the 36-character strings with '-' at 8, 13, 18 and 23 and lower-case hex digits elsewhere |
| Validators.SharedGuards | src/helpers/validators.ts:81-108 | the validators' own guards agree with the helpers: `isUserId` is `validateUUID` on strings and false on every other value; `isUserDto` accepts exactly what `validateUserDto` accepts |
| Validators.EnumMembersAreStrings | src/helpers/validators.ts:9-15 | a non-string is never a member of a string enum |
| Endpoints.TrailingSegmentAfterSlash | src/helpers/endpoints.ts:13 | the last-segment match of a path that ends in '/' plus a slash-free segment is that segment |
| Endpoints.ParseEndpoint | src/helpers/endpoints.ts:4-22 | a path parses iff it is `/api/users`, `/api/users/` or `/api/users/` plus a non-empty slash-free segment; everything else throws `InvalidEndpointError`; the two cases are disjoint; USERS has a null id; USERS_WITH_ID has exactly the segment, never empty and without '/' |
| Endpoints.ParseUserIdPath | src/helpers/endpoints.ts:12-19 | `/api/users/` plus any non-empty slash-free s is USERS_WITH_ID with id s |
| Endpoints.RouteExamples | src/helpers/endpoints.ts:4-22 | '/not/exists' and '/api/users/a/b' throw; '/api/users/invalid' parses, because the id format is not checked here |
| UserStore.IndexOf | src/store.ts:64 | `findIndex` gives the first index whose id matches, or -1 exactly when none does |
| UserStore.Locate | src/store.ts:59-71 | an ill-formed id throws `InvalidUUIDError`; a well-formed id no record has throws `UserNotFoundError`; otherwise the first matching index |
| UserStore.Lookup | src/store.ts:13-17 | the record found has the id asked for; failures are those of the search |
| UserStore.Create | src/store.ts:19-32 | an invalid payload throws `InvalidUserDataError` and changes nothing; otherwise exactly one record is appended, with the generated id replacing any client `id`, and earlier records stay |
| UserStore.Update | src/store.ts:34-51 | the payload is validated before the id; on success only the matched slot changes, it keeps its id and takes the payload's fields over its own, and the length is unchanged |
| UserStore.Delete | src/store.ts:53-57 | removes exactly the first record with the id, keeping the order of the rest; the length drops by one; failures change nothing |
| UserStore.IdErrors | src/store.ts:59-71 | for get, update and delete alike: an ill-formed id is `InvalidUUIDError`, a well-formed absent id is `UserNotFoundError`, and the list is unchanged |
| UserStore.CreateReadDelete | src/store.ts:13-57 | after a create, reading the new id returns the created record; deleting it restores the old list, and reading it again is `UserNotFoundError` |
| UserStore.CreateKeepsIdsUnique | src/store.ts:24-29 | with a fresh generated id, ids stay pairwise distinct through a create |
| UserStore.UpdateKeepsIds | src/store.ts:42-48 | an update keeps every record's id, so it keeps ids distinct |
| UserStore.DeleteKeepsIdsUnique | src/store.ts:53-57 | a delete keeps ids distinct |
| UserStore.DeletedIdIsGone | src/store.ts:53-71 | with distinct ids, a deleted id is not found afterwards |
| UserStore.Store.constructor | src/store.ts:7 | the store starts with the list it is given |
| UserStore.Store.GetAll | src/store.ts:9-11 | returns the current list |
| UserStore.Store.FindUserIndexByUserId | src/store.ts:59-71 | the linear search loop computes `Locate`: the first matching index, or the id errors |
| UserStore.Store.GetUserById | src/store.ts:13-17 | computes `Lookup` and changes nothing |
| UserStore.Store.CreateUser | src/store.ts:19-32 | the result and the new list are those of `Create` on the old list |
| UserStore.Store.UpdateUser | src/store.ts:34-51 | the result and the new list are those of `Update` on the old list |
| UserStore.Store.DeleteUser | src/store.ts:53-57 | the result and the new list are those of `Delete` on the old list |
| Controllers.UsersJson | src/controller.ts:14 | the list body is an array holding every record, in store order |
| Controllers.HandleGet | src/controller.ts:10-22 | USERS is 200 with the whole list; USERS_WITH_ID is 200 with the record, or the store's id error; every success is 200 with a JSON body, and the only errors are `InvalidUUIDError` and `UserNotFoundError` |
| Controllers.HandlePost | src/controller.ts:24-32 | a route other than USERS throws `InvalidEndpointError` before the body is parsed, with the store unchanged; an unparsable body throws its syntax error; a create is 201 with the new record |
| Controllers.HandlePut | src/controller.ts:34-42 | requires USERS_WITH_ID; an update is 200 with the updated record; failures leave the store as `Update` does |
| Controllers.HandleDelete | src/controller.ts:44-51 | requires USERS_WITH_ID; a delete is 204 with no body and removes one record; a failure leaves the store unchanged |
| Controllers.NullIdIsInvalidUuid | src/controller.ts:18 | a null id becomes '' and so fails with `InvalidUUIDError` (get and delete) |
| Controllers.EmptyStoreListsEmptyArray | src/controller.ts:11-14 | listing an empty store is 200 with the array `[]` |
| Controllers.Controller.constructor | src/controller.ts:8 | a controller owns a fresh, empty store |
| Controllers.Controller.Get | src/controller.ts:10-22 | answers as `HandleGet` and changes nothing, so repeated gets with no write in between are identical |
| Controllers.Controller.Post | src/controller.ts:24-32 | the answer and the new store are those of `HandlePost` |
| Controllers.Controller.Put | src/controller.ts:34-42 | the answer and the new store are those of `HandlePut` |
| Controllers.Controller.Delete | src/controller.ts:44-51 | the answer and the new store are those of `HandleDelete` |
| Dispatcher.HandleError | src/dispatcher.ts:18-32 | `InvalidUUIDError`, `InvalidUserDataError` and `InvalidHTTPMethodError` are 400, `UserNotFoundError` and `InvalidEndpointError` are 404, each with 'Error: ' plus its message; anything else is 400 'Error: Unknown error'; never 500 |
| Dispatcher.UnknownRoute | src/dispatcher.ts:38 | the route is parsed first: an unknown route is 404 'Error: Request to non-existing endpoint' whatever the method, and the store is unchanged |
| Dispatcher.UnsupportedMethod | src/dispatcher.ts:63-65 | another method on a known route is 400 'Error: Invalid HTTP method', and the store is unchanged |
| Dispatcher.BadBodyIsUnknownError | src/dispatcher.ts:46-56 | for a POST to `/api/users` and a PUT to `/api/users/{id}` alike, an unparsable or unreadable body is 400 'Error: Unknown error', not 500, and the store is untouched |
| Dispatcher.BodyReadOnlyForPostAndPut | src/dispatcher.ts:40-66 | for methods other than POST and PUT the outcome does not depend on the body |
| Dispatcher.CreateRequest | src/dispatcher.ts:46-50 | a POST to `/api/users` with a valid payload is 201 with the new record, which is appended |
| Dispatcher.IdRequest | src/dispatcher.ts:38 | a well-formed id routes to USERS_WITH_ID with that id |
| Dispatcher.ReadExisting | src/dispatcher.ts:41-44 | on any store holding a well-formed id, GET of that id is 200 with the first record holding it, and the store is unchanged |
| Dispatcher.UpdateExisting | src/dispatcher.ts:52-56 | on any store holding a well-formed id, PUT of a valid payload is 200 with the merged record, which keeps the id and replaces the first record holding it; no other record changes |
| Dispatcher.DeleteExisting | src/dispatcher.ts:58-61 | on any store holding a well-formed id, DELETE is 204 with an empty body and removes exactly the first record holding it, keeping the order of the rest |
| Dispatcher.ReadMissing | src/dispatcher.ts:41-44 | on any store where no record holds a well-formed id, GET of it is 404 'Error: User not found' and the store is unchanged |
| Dispatcher.ReadSingleton | src/dispatcher.ts:41-44 | on the store holding only one record, GET of its id is 200 with that record |
| Dispatcher.UpdateSingleton | src/dispatcher.ts:52-56 | on the store holding only one record, PUT of a valid payload leaves the store holding only the merged record |
| Dispatcher.DeleteSingleton | src/dispatcher.ts:58-61 | on the store holding only one record, DELETE of its id is 204 and empties the store |
| Dispatcher.CrudScenario | src/__tests__/http-server.test.ts:33-78 | list, create, read, update, delete, read on a fresh store give 200 `[]`, 201, 200, 200, 204, 404 |
| Dispatcher.Dispatch | src/dispatcher.ts:34-70 | the response and the new store are those of the specification `Dispatched` on the old store |
| ResponseTable.TableEntries | src/types/response.ts:15-64 | every error type is a key; each entry's `type` is its key; `UserNotFoundError` and `InvalidEndpointError` are 404, the other four 400; none is 500 |
| ResponseTable.TableSize | src/types/response.ts:15-64 | the table has exactly six keys; `SyntaxError` reuses the `InvalidUserDataError` message |
| WorkerTypes.ParentMessageJson | src/types/worker.ts:16-18 | a serialised reply has `result` 'success' or 'error' to match its kind, a `response`, and no `type` in the response |
| Primary.GetErrorResponse | src/multi.ts:46-54 | an `HTTPError` keeps its status and message; another `Error` is 500 with its message; a non-`Error` is 500 with `ErrorMessage.UnknownError` |
| Primary.ParseWorkerMessage | src/multi.ts:37-44 | bad JSON throws the syntax error; a value failing `isWorkerMessage` throws `ServerError` 'Worker message have invalid format'; otherwise the typed message |
| Primary.ActOnWorkerMessage | src/multi.ts:56-90 | a success reply comes exactly from a well-formed string message the controller answered; GET 200, POST 201, PUT 200, DELETE 204 with data null; every other reply is `getErrorResponse` of some thrown value |
| Primary.FailureReplies | src/multi.ts:57-61 | a non-string, bad JSON, a bad shape and a controller error each get an error reply: 500 'Worker message have invalid format', 500 with the parse error, the format error again, and `getErrorResponse` of the controller's error |
| Primary.ReplyAcceptedIffSuccess | src/multi.ts:56-90 | the worker's `isParentMessage` accepts a reply iff it is a success reply |
| Primary.OnWorkerMessage | src/multi.ts:115-122 | a numeric message resolves readiness; every other message is answered with `actOnWorkerMessage` |
| Primary.OneReplyPerMessage | src/multi.ts:115-122 | over a run of messages, numeric ones get no reply and every other one exactly one; the last reply answers the last such message |
| Primary.RepliesPrefix | src/multi.ts:115-122 | the replies to a prefix of a run of messages are a prefix of the replies to the whole run |
| Primary.RepliesInOrder | src/multi.ts:115-122 | the reply to each non-numeric message is the one numbered by the non-numeric messages up to it, so replies go out in message order |
| Primary.RespawnOnSamePort | src/multi.ts:22-34 | in the registry only: for a known pid with a port, the replacement is forked on that port and gets it, the dead pid is gone, other entries are unchanged, and with a fresh new pid every port keeps its count |
| Primary.NoPortNoRespawn | src/multi.ts:22-27 | a pid without a port (absent, or port 0) loses its entry; nothing is forked and nothing else changes |
| Primary.UnknownPidUnchanged | src/multi.ts:16-20 | an undefined or zero dead pid leaves the registry unchanged |
| Primary.UnknownNewPid | src/multi.ts:28-33 | a replacement whose pid is falsy is forked but not registered |
| Primary.WorkerPorts | src/multi.ts:101-105 | `numCores`-1 ports, the j-th being `basePort`+j+1 |
| Primary.WorkerPortRange | src/multi.ts:101-105 | no worker is forked on `basePort`; all ports lie between `basePort` and `basePort`+`numCores`; none is forked when `numCores` is at most 1 |
| Primary.RegisteredEntries | src/multi.ts:107-112 | after the loop, every entry is an old one or maps to a forked port; old entries no fork reported keep their port |
| Primary.RegisteredPort | src/multi.ts:107-112 | a forked worker with a truthy pid that no later fork reports again is registered on its own port |
| Primary.RegisteredServed | src/multi.ts:107-124 | every worker `createWorkers` registers is one it attached a `'message'` listener to, so registered workers stay answered |
| Primary.RespawnUnserved | src/multi.ts:28-34 | as written: a respawned worker with a fresh pid is registered on the dead worker's port but has no listener, so the registry holds a worker whose Intents are never answered |
| Primary.CorrectedRespawnServed | src/multi.ts:28-34 | corrected: a respawn that attaches a listener to the worker it forks keeps every registered worker answered, the replacement included |
| Primary.ActiveWorkers.constructor | src/multi.ts:131 | the registry starts empty and no worker has a listener |
| Primary.ActiveWorkers.HandleWorkerExit | src/multi.ts:15-35 | the new registry and the forked port are those of `ExitStep` on the old registry; no listener is attached to the replacement |
| Primary.ActiveWorkers.CreateWorkers | src/multi.ts:92-127 | forks on exactly `WorkerPorts`, in order; the loop leaves the registry as `Registered` over the reported pids, with a listener on every forked worker, so an answered registry stays answered |
| WorkerDispatcher.IntentJson | src/worker-dispatcher.ts:11-13 | a serialised Intent has a `userId` key iff it carries one, and a `body` key iff it carries one |
| WorkerDispatcher.BuildIntent | src/worker-dispatcher.ts:43-69 | an Intent is built iff the method is one of the four and, for POST and PUT, the body was read; GET and DELETE carry the id and no body, POST the body and no id, PUT both; an unknown method throws `InvalidHTTPMethodError` |
| WorkerDispatcher.SendErrorResponse | src/helpers/response.ts:21-29 | an `HTTPError` keeps its status and message; another `Error` is 500 with its message; anything else is 500 'Unknown error' |
| WorkerDispatcher.ActOnParentMessage | src/worker-dispatcher.ts:15-35 | a reply that is not JSON or fails `isParentMessage` ends the response with no status and no body; an accepted reply sets its own status |
| WorkerDispatcher.IntentAccepted | src/worker-dispatcher.ts:11-13 | the primary's `isWorkerMessage` accepts every Intent and reads back its method, endpoint, id and body |
| WorkerDispatcher.LocalRejections | src/worker-dispatcher.ts:39-73 | an unknown route, whatever the method, and then an unsupported method are answered locally, each with 500 and its message |
| WorkerDispatcher.RenderedReplies | src/worker-dispatcher.ts:22-27 | a valid success reply is rendered as JSON with its status and data; every error reply the primary builds is rendered as an ended, empty response |
| WorkerDispatcher.ErrorReplyAsText | src/worker-dispatcher.ts:22-24 | an accepted error reply is rendered as plain text with its status and message |
| WorkerDispatcher.SharedFirstReply | src/worker-dispatcher.ts:70 | as written: with two requests pending, both render the first reply, and the second reply reaches no one |
| WorkerDispatcher.TwoPendingRequests | src/worker-dispatcher.ts:37-74 | as written, on one worker: two accepted requests send their two Intents; the first reply is rendered to both requests and clears every listener, so the second reply is rendered to no one |
| WorkerDispatcher.InOrderPairsReplies | src/worker-dispatcher.ts:70 | corrected: when the oldest pending request takes each reply and replies arrive in Intent order, each request gets exactly its own reply and none is left pending |
| WorkerDispatcher.WorkerProcess.constructor | src/worker-dispatcher.ts:11-13 | no message sent, no listener registered |
| WorkerDispatcher.WorkerProcess.Dispatch | src/worker-dispatcher.ts:37-74 | an accepted request sends exactly one Intent and registers exactly one listener; a rejected one sends nothing, registers nothing and is answered locally by `sendErrorResponse` |
| WorkerDispatcher.WorkerProcess.OnParentMessage | src/worker-dispatcher.ts:70 | every registered one-shot listener fires on the message and is removed |
| Balancer.JsRem | src/balancer-dispatcher.ts:50 | JavaScript `%`: `NaN` exactly for a zero divisor or a `NaN` dividend; the Euclidean remainder for a non-negative dividend |
| Balancer.CursorIsMod | src/balancer-dispatcher.ts:27-50 | from 0, after k updates the cursor is k mod n, so it stays in [0, n); with no workers it is `NaN` from the first update |
| Balancer.RoundRobinTarget | src/balancer-dispatcher.ts:32-37 | the i-th completed dispatch goes to `workerStartPort` + i mod n |
| Balancer.FairShare | src/balancer-dispatcher.ts:27-50 | of m requests each worker gets m div n, or one more for the first m mod n workers |
| Balancer.HandleResponse | src/balancer-dispatcher.ts:6-16 | a missing or zero status, then a missing or empty content type, throws its `ServerError`; otherwise both are copied |
| Balancer.DivModUnique | src/balancer-dispatcher.ts:50 | quotient and remainder are fixed by a == q*n + r with 0 <= r < n |
| Balancer.DivModStep | src/balancer-dispatcher.ts:50 | how k div n and k mod n step from k-1 to k |
| Balancer.RoundRobin.constructor | src/balancer-dispatcher.ts:22-27 | the cursor starts at 0 |
| Balancer.RoundRobin.Dispatch | src/balancer-dispatcher.ts:29-54 | the target is the start port plus the cursor; a request whose body is read writes the body and advances the cursor once; a failed read is 500 locally and leaves the cursor |

## Left out

- Processes, IPC and concurrency. `cluster.fork`, `cluster.on('exit')`, `process.send`, `process.once`, `availableParallelism` and `setupPrimary` are not modelled as such; fork is a pid parameter, a send is an append to `WorkerProcess.outbox`, and a listener is an entry of `WorkerProcess.pending`. Only one interleaving is modelled: requests and messages one at a time.
- `startCluster` (src/multi.ts:129-144) is wiring between the registry, the loop and the balancer and is not modelled beyond those parts; the readiness promises are the numeric-message case of `Primary.OnWorkerMessage`.
- Primary.ActOnWorkerMessage: the controller's answer is a parameter because the calls at src/multi.ts:64-79 do not match the controller of src/controller.ts; the controller of src/controller.ts returns nothing, which would make `data` undefined and drop it from the serialised reply, and that case is not modelled. The `default` branch that throws `InvalidHTTPMethodError` cannot be reached after `isWorkerMessage` and has no counterpart.
- The string values of `ErrorType`, `ErrorMessage` and `Endpoint`, and the classes `HTTPError` and `ServerError`, are imported from src/types/errors.ts and src/types/http.ts, which do not export them; they are a parameter (`StringEnums`), placeholders (`"USERS"`, `"USERS_WITH_ID"`) and constructors of `Errors.Error`. `ServerError` is treated as an `Error` with status 500.
- HTTP framing: sockets, headers other than the status and `Content-Type`, `server.listen`, the `clientError` handler (src/server.ts) and the body buffering of src/helpers/request-body.ts; a body is given as text or as a read failure.
- Upstream proxying in the balancer: `http.request`, `pipe`, and the error callbacks that throw outside the `try` (src/balancer-dispatcher.ts:17-19, 34-46). `Balancer.HandleResponse` states the header checks only; its throw is not caught by the listener's `try`, and what follows from that is not modelled.
- Balancer.RoundRobin.Dispatch: a `NaN` port reaching `http.request` is left as the value `NaN`; what Node then does is not modelled.
- `randomUUID` (src/helpers/uuid.ts:5-7): ids are supplied by the caller.
- Primary.ActiveWorkers: `'message'` listeners are tracked by the pid a worker reports (`listening`); a listener on a worker whose pid is falsy cannot be named and is not recorded, and what the readiness promise of each listener resolves is not modelled.
- `JSON.parse` and `JSON.stringify` internals: parsing is an outcome supplied with the text; key order and floating-point numbers are not modelled (`JNumber` holds an integer), and `typeof age === 'number'` is a kind test.
- Aliasing: `getAll` returns the store's own array in the source; the model returns its value.
- src/index.ts, src/worker.ts, src/helpers/processes.ts, src/helpers/fs-utils.ts, src/error-handler.ts beyond the branch shared with `sendErrorResponse`, and the build and test configuration are not part of this model.

## Findings

| source | as written | input that shows it | evidently intended | confidence | as-written member | corrected member |
|---|---|---|---|---|---|---|
| src/worker-dispatcher.ts:70 | each accepted request registers `process.once('message', ...)`, and every registered one-shot listener fires on the next message from the primary | two requests A and B reach one worker before the primary's first reply: A's reply is rendered to both A and B, and B's reply finds no listener | each reply answers the request whose Intent it belongs to, the oldest pending one when replies come back in order | not executed | WorkerDispatcher.SharedFirstReply | WorkerDispatcher.InOrderPairsReplies |
| src/multi.ts:28-34 | `handleWorkerExit` forks the replacement and registers its port but never calls `newWorker.on('message', ...)` | a registered worker on port p dies and its replacement reports a fresh pid n: n is registered on p, the balancer routes to p, and n's Intents get no reply | the replacement gets the same listener `createWorkers` attaches (src/multi.ts:113-124), so every registered worker is answered | not executed | Primary.RespawnUnserved | Primary.CorrectedRespawnServed |

# Project and task manager with chat: a Dafny model of its rules

The system is a small project/task manager with a chat and notification service.
On the server side it has three Node services (notifications, tasks, projects) and a
single-process API (`server/server.js`) that serves projects and tasks from one
database. On the client side there are React pages. Beneath the Express, Socket.IO
and Mongoose plumbing sit a handful of precise rules, and this project models them:

- **Schemas and stored records**:
  - the zod payload schemas: length bounds, enums, defaults, and stripping versus strict objects;
  - the Mongoose record invariants and defaults (status `todo`, priority `medium`, due date `null`, assignee `""`, timestamps).
- **The publish/subscribe registry** (`PubSubBridge.PubSub`):
  - an in-process table from channel to handlers, matched by exact name;
  - a broker mode that names channels `prefix:channel`, encodes on publish and drops payloads that do not decode.
- **The chat hub** (`ChatService.ChatHub`):
  - socket room membership;
  - the order of `chat:send`: validate, persist, publish, acknowledge. A socket-sent message never comes back as `chat:new`, because the only subscription is the literal `chat:*` and its handler is empty;
  - the history window, and the REST `POST /chat` and `POST /notify` endpoints.
- **The CRUD stores**: `TaskService.TaskStore`, `ProjectService.ProjectStore` and `Monolith.Api`:
  - each is an in-memory table in creation order, with an id counter and a database clock;
  - an id that does not cast gives 400 and a missing record gives 404;
  - a failed validation gives 400 and leaves the table unchanged;
  - lists are newest first;
  - updates are either strict or limited to an allowed-key patch;
  - per-status counts.
- **The client logic**:
  - the task and project form validators;
  - the task table's status filter, and its three stable sorts, proved against a functional insertion sort (`Sorting`);
  - the quick status change and the case-insensitive project search;
  - the bounded toast list and chat list, the title chosen from the path, the search box's target, and chat payload normalisation.

Foreign predicates are parameters or constant fields of the stores:
- `castId` stands for `ObjectId.isValid` plus the cast;
- `isDateTime` stands for zod's datetime check;
- `castDate` stands for Mongoose's date cast;
- `parsesAsDate` stands for `new Date(...)` accepting a string;
- `encode`/`decode` stand for JSON, and for URL encoding in the search box.

Database ids come from a counter, and the database time is a `clock` advanced by `Tick`. Each record is stamped with that clock, so creation order is `createdAt` order, and "newest first" is the reverse of the table.

The shared modules hold helpers that need no row:
- `Wrappers`: Option and Result;
- `Seqs`: filter, reverse, take, keep-last, count, ordering;
- `Text`: trim, lower-case, contains;
- `Json`: payload values and field checks;
- `Http`: status codes, replies and the health report.

## Model

| member | source | states |
|---|---|---|
| ChatValidators.ParseSendMessage | server/services/notifications/src/validators.js:3-7 | accepted iff the payload is an object whose room (1..120), user (1..80) and message (1..1000) are strings within bounds; the value carries those strings; on rejection the issues name exactly the failing fields |
| ChatValidators.SendMessageReparse | server/services/notifications/src/validators.js:3-7 | a parsed chat message, written back and parsed again, gives the same result |
| ChatValidators.ParseType | server/services/notifications/src/validators.js:11 | the type enum accepts exactly info/success/warning/error, and the parsed value names the input |
| ChatValidators.TypeNameRoundTrip | server/services/notifications/src/validators.js:11 | every notification type parses back from its name |
| ChatValidators.ParseNotify | server/services/notifications/src/validators.js:9-14 | accepted iff room 1..120, title 1..120, body at most 500 and type in the enum; an absent type becomes `info` and an absent body `""`; on rejection the issues name exactly the failing room, type, title and body fields |
| ChatValidators.NotifyReparse | server/services/notifications/src/validators.js:9-14 | parsing a notification is idempotent |
| ChatModel.Create | server/services/notifications/src/models.js:3-7 | creation succeeds iff the room is non-empty, the user is 1..80 and the message 1..1000 characters; both timestamps are the current time |
| ChatModel.AcceptedIsStorable | server/services/notifications/src/models.js:4-6 | every message the chat schema accepts satisfies the stored model's constraints |
| PubSubBridge.FullNameInjective | server/services/notifications/src/pubsub.js:16 | distinct channels get distinct `prefix:channel` broker names |
| PubSubBridge.FullNameNotError | server/services/notifications/src/pubsub.js:16 | a broker name is never the emitter's reserved `error` event |
| PubSubBridge.LastIndex | server/services/notifications/src/pubsub.js:19 | the position of the most recent registration of a handler, or -1 exactly when it is not registered |
| PubSubBridge.RemoveLast | server/services/notifications/src/pubsub.js:19 | removing a handler drops exactly one instance of it (the latest) and keeps the others in order; nothing changes when it is absent |
| PubSubBridge.Emit | server/services/notifications/src/pubsub.js:36 | emitting invokes exactly the handlers of that exact name, in subscription order; an unheard `error` event throws |
| PubSubBridge.Receipt | server/services/notifications/src/pubsub.js:10-12 | a broker payload that does not decode is dropped; a decoded payload on any name but `error` runs exactly that name's handlers, in order, with the decoded message; nothing is thrown |
| PubSubBridge.BrokerRoundTrip | server/services/notifications/src/pubsub.js:10-23 | a message published in broker mode and handed back reaches that channel's handlers unchanged, or nobody when none is subscribed, whenever decoding undoes encoding |
| PubSubBridge.PubSub.Name | server/services/notifications/src/pubsub.js:16-22 | broker mode uses `prefix:channel`; in-process mode uses the channel itself |
| PubSubBridge.PubSub.constructor | server/services/notifications/src/pubsub.js:3-4 | a non-empty broker address selects broker mode; the prefix defaults to `swgestor`; the table starts empty |
| PubSubBridge.PubSub.Subscribe | server/services/notifications/src/pubsub.js:15-19 | the handler joins the end of its name's list; in broker mode the receiving connection subscribes to the full name; the returned handle names that handler |
| PubSubBridge.PubSub.Unsubscribe | server/services/notifications/src/pubsub.js:33 | only that handler leaves that name; every other name's list is unchanged |
| PubSubBridge.PubSub.Publish | server/services/notifications/src/pubsub.js:21-24 | in process, the result is the emission to that channel's handlers; in broker mode, the encoded message is appended to the outbox under the full name; the table is unchanged |
| PubSubBridge.PubSub.Receive | server/services/notifications/src/pubsub.js:10-12 | a broker delivery behaves as `Receipt` over the current table |
| ChatService.Members | server/services/notifications/src/index.js:35 | a socket is in a room's audience iff it is connected and has joined that room |
| ChatService.ChatTopicIsBridge | server/services/notifications/src/index.js:50 | `chat:<room>` equals the literal `chat:*` only for the room named `*` |
| ChatService.PublishReachesOnlyBridge | server/services/notifications/src/index.js:50-62 | with the bridge as the only subscription, publishing a room's message reaches no handler, except the empty bridge for room `*` |
| ChatService.BrokerEchoReachesOnlyBridge | server/services/notifications/src/index.js:50-62 | the same holds in broker mode, should a delivery on the message's full channel name arrive (the literal subscription on `chat:*` makes the broker deliver one only for room `*`) |
| ChatService.NewestFirst | server/services/notifications/src/index.js:71 | sorting by createdAt descending keeps the same messages and orders a creation-ordered log newest first |
| ChatService.HistoryLimit | server/services/notifications/src/index.js:70 | the corrected window size: between 1 and 100; 30 when no limit is given, the given limit within 1..100, exactly 100 above it, and 1 for zero |
| ChatService.History | server/services/notifications/src/index.js:68-73 | the window holds only that room's messages, at most the limit: exactly the last `HistoryLimit` of the room's messages, oldest first |
| ChatService.HistoryAscending | server/services/notifications/src/index.js:71-72 | in a log kept in creation order, the window is in ascending createdAt order |
| ChatService.HistoryIsMostRecent | server/services/notifications/src/index.js:71 | every room message left out of the window is no newer than every message in it |
| ChatService.LimitAsWritten | server/services/notifications/src/index.js:70 | the limit as the handler computes it: 30 when absent, the given limit up to 100, exactly 100 above it; zero passes through as zero |
| ChatService.CursorLimit | server/services/notifications/src/index.js:71 | the cursor's `limit(n)`: every row for zero, otherwise the first `n` rows, or all of them when fewer |
| ChatService.HistoryAsWritten | server/services/notifications/src/index.js:68-72 | the history as written equals the corrected window `History` for every limit but zero, and is the whole room, oldest first, for `limit=0` |
| ChatService.LimitZeroReturnsWholeRoom | server/services/notifications/src/index.js:70-71 | as written, `?limit=0` returns all 101 messages of a 101-message room, more than the cap of 100 |
| ChatService.ChatHub.constructor | server/services/notifications/src/index.js:29 | the bus is in broker mode iff the broker address is non-empty; it uses the default prefix; the bridge is registered on `chat:*` |
| ChatService.ChatHub.Join | server/services/notifications/src/index.js:33-37 | an empty room changes nothing; otherwise the room is added to the socket's set, the socket is then in that room's audience, and `joined` is emitted to that socket alone |
| ChatService.ChatHub.Leave | server/services/notifications/src/index.js:39-42 | an empty room is ignored; otherwise just that room leaves the socket's set, so later emissions to that room no longer reach it; nothing is emitted |
| ChatService.ChatHub.Disconnect | server/services/notifications/src/index.js:32 | a disconnected socket is in no room's audience |
| ChatService.ChatHub.ChatSend | server/services/notifications/src/index.js:45-55 | an invalid payload or a failed store gives an error ack, with nothing stored, nothing sent to the broker and no handler run; a valid one stores exactly one message stamped now, publishes it on `chat:<room>` and acks with it; nothing is emitted to sockets |
| ChatService.ChatHub.PostChat | server/services/notifications/src/index.js:76-86 | success iff the payload is valid and the store works: one message stored, `chat:new` emitted to exactly the room's sockets, 201; otherwise 400 with nothing stored or emitted |
| ChatService.ChatHub.PostNotify | server/services/notifications/src/index.js:89-97 | a valid notification is emitted with a timestamp to the room's sockets and answered 201 `ok`; nothing is stored; an invalid one answers 400 and emits nothing |
| ChatService.ChatHub.GetHistory | server/services/notifications/src/index.js:68-73 | the handler as written answers 200: for any limit but zero, the most recent `HistoryLimit` messages of that room (at most 100), oldest first; for `limit=0`, every message of the room; always only that room's stored messages, in ascending createdAt order |
| ChatService.Health | server/services/notifications/src/index.js:66 | the health report is ok, for the service `notifications` |
| TaskModel.ParseStatus | server/services/tasks/src/models.js:7 | the status enum accepts exactly todo/doing/done |
| TaskModel.ParsePriority | server/services/tasks/src/models.js:8 | the priority enum accepts exactly low/medium/high |
| TaskModel.EnumNamesRoundTrip | server/services/tasks/src/models.js:7-8 | every status and priority parses back from its name |
| TaskModel.Build | server/services/tasks/src/models.js:3-11 | creation succeeds iff the title is 1..120, the description at most 600, status and priority (when given) in their enums and the due date (when given) casts; the task is then valid and takes the given fields, the defaults for absent status and priority, and the current time as both timestamps |
| TaskModel.DefaultsApplied | server/services/tasks/src/models.js:7-11 | a task created with only a title is `todo`, `medium`, has a null due date and an empty assignee, and is stamped now |
| TaskModel.StatusCountsSum | server/services/tasks/src/models.js:7 | the todo, doing and done counts of any task list add up to its length |
| TaskValidators.ParseCreateTask | server/services/tasks/src/validators.js:3-11 | accepted iff the payload is an object with a non-empty projectId, a title of 1..120, a description of at most 600 and an assignee of at most 120 (each defaulting to `""`), status and priority in their enums when present, and a due date that is absent, null or a datetime; the value carries those fields |
| TaskValidators.ParseUpdateTask | server/services/tasks/src/validators.js:13-20 | accepted iff every key is one of the six fields and each present field meets its bound; any other key is refused; the patch carries exactly the given fields |
| TaskValidators.EmptyUpdateIsValid | server/services/tasks/src/validators.js:13-19 | `{}` is a valid update, and it yields the empty patch |
| TaskValidators.AcceptedIsStorable | server/services/tasks/src/validators.js:3-11 | every task the create schema accepts passes the task model's validators |
| TaskService.Find | server/services/tasks/src/index.js:53 | the position found holds a task with that id, and none is found only when no task has it |
| TaskService.TableOkAppend | server/services/tasks/src/index.js:41 | appending a valid task with the next id, stamped now, keeps the table's invariant under the following id |
| TaskService.TableOkUpdate | server/services/tasks/src/index.js:53 | replacing a task by a valid one with the same id and creation time, stamped no later than now, keeps the table's invariant |
| TaskService.NewestFirst | server/services/tasks/src/index.js:29 | over a table kept in creation order, exactly the project's tasks, each as often as in the table (multiset equal to the filter), newest createdAt first |
| TaskService.TableOkRemove | server/services/tasks/src/index.js:64 | deleting one task keeps the table's invariant, and no task with its id remains |
| TaskService.CreateInput | server/services/tasks/src/index.js:37 | the path's projectId replaces any projectId in the body; every other body field is kept as it is |
| TaskService.ApplyPatch | server/services/tasks/src/index.js:53 | the fields the patch names take its values (a null due date clears it); every other field keeps its value; the update time is stamped; validity is preserved |
| TaskService.EmptyPatchOnlyStamps | server/services/tasks/src/index.js:53 | the empty patch changes nothing but the update time |
| TaskService.Health | server/services/tasks/src/index.js:23 | the health report is ok, for the service `tasks` |
| TaskService.TaskStore.List | server/services/tasks/src/index.js:26-31 | 400 for an id that does not cast; otherwise exactly the tasks with that projectId, multiset equal to the filter, newest createdAt first |
| TaskService.TaskStore.Create | server/services/tasks/src/index.js:33-46 | 400 `ID inválido` for an id that does not cast; 400 with the schema's issues for a body it refuses, with the table unchanged; otherwise one task is appended: the model's document built from the parsed fields under the path's project id |
| TaskService.TaskStore.Update | server/services/tasks/src/index.js:48-59 | 400 for a bad id or a refused patch, then 404 for a missing task, each leaving the table unchanged; otherwise exactly that task is replaced by the patched one, which is returned |
| TaskService.TaskStore.Delete | server/services/tasks/src/index.js:61-67 | 400 for a bad id and 404 for a missing task, with nothing changed; otherwise the answer is `ok`, that task is removed, the others stay in order, and no task has that id |
| TaskService.TaskStore.Stats | server/services/tasks/src/index.js:69-79 | todo, doing and done are the per-status counts of the scoped tasks and add up to the task count; the scope covers the project's tasks when the query is a valid id and all tasks otherwise; the scope label is `project` whenever a non-empty projectId is given, valid or not |
| ProjectValidators.ParseCreateProject | server/services/projects/src/validators.js:3-6 | accepted iff the name is 1..80 and the description (when present) at most 240; an absent description becomes `""`; on rejection the issues name exactly the failing fields |
| ProjectValidators.CreateProjectReparse | server/services/projects/src/validators.js:3-6 | parsing a project is idempotent |
| ProjectModel.Create | server/services/projects/src/models.js:3-6 | creation succeeds iff the name is 1..80 and the description at most 240; both timestamps are the current time |
| ProjectModel.AcceptedIsStorable | server/services/projects/src/models.js:4-5 | every project the schema accepts satisfies the stored model's constraints |
| ProjectService.TableOkAppend | server/services/projects/src/index.js:33 | appending a valid project with the next id, stamped now, keeps the table's invariant under the following id |
| ProjectService.Find | server/services/projects/src/index.js:43 | the position found holds a project with that id, and none is found only when no project has it |
| ProjectService.Health | server/services/projects/src/index.js:23 | the health report is ok, for the service `projects` |
| ProjectService.ProjectStore.List | server/services/projects/src/index.js:25-28 | every project, each exactly as often as stored, newest createdAt first |
| ProjectService.ProjectStore.Create | server/services/projects/src/index.js:30-38 | 201 iff the schema accepts the body, adding exactly one project built from the parsed fields and stamped now; otherwise 400 with the schema's issues and nothing added |
| ProjectService.ProjectStore.GetById | server/services/projects/src/index.js:40-46 | 400 for an id that does not cast, 404 when no project has it; otherwise 200 with the stored project of that id |
| Monolith.Text | server/server.js:95-100 | a body field is read as text exactly when it is present and a string |
| Monolith.NewTaskFields | server/server.js:93-101 | the new task's fields are the body's strings; a missing, null or empty due date becomes null, as `dueDate or null` does; a missing or empty assignee becomes `""` |
| Monolith.Restrict | server/server.js:116-120 | the patch keeps exactly the allowed keys the body has, with the body's values |
| Monolith.IgnoredKeysDontMatter | server/server.js:116-120 | a key outside the allowed list has no effect on the patch |
| Monolith.PatchChecksPass | server/server.js:121 | the per-key checks all pass exactly when every field of the patch meets its rule |
| Monolith.ValidatePatch | server/server.js:121 | the patch passes iff every value meets its field's rule in the task schema; a passing patch carries the body's title, description and assignee, the parsed status and priority, and for the due date: absent stays absent, null or `""` clears it, any other string sets it |
| Monolith.Health | server/server.js:40 | the API's health answer is ok |
| Monolith.Api.Stats | server/server.js:42-51 | the project and task counts are the table sizes; todo, doing and done are the per-status counts of all tasks and add up to the task count |
| Monolith.Api.ListProjects | server/server.js:56-59 | every project, each exactly as often as stored, newest createdAt first |
| Monolith.Api.CreateProject | server/server.js:61-69 | 201 iff the body's name and description strings satisfy the project schema: one project appended, stamped now; otherwise 400 and nothing added |
| Monolith.Api.GetProject | server/server.js:71-77 | 400 for an id that does not cast, 404 when no project has it; otherwise that project |
| Monolith.Api.ListTasks | server/server.js:82-87 | 400 for an id that does not cast; otherwise exactly that project's tasks, multiset equal to the filter, newest first |
| Monolith.Api.CreateTask | server/server.js:89-107 | 400 for an id that does not cast; any id that casts is accepted, whether or not a project has it; success iff the model accepts the normalised fields, appending exactly the built task; otherwise 400 and nothing added |
| Monolith.Api.BuildPatch | server/server.js:116-120 | the loop's patch has exactly the allowed keys the body has, with the body's values |
| Monolith.Api.UpdateTask | server/server.js:112-127 | 400 for a bad id or a patch the schema refuses, then 404 for a missing task, each leaving the table unchanged; otherwise only that task changes, by the allowed-key patch |
| Monolith.Api.DeleteTask | server/server.js:129-135 | 400 for a bad id and 404 for a missing task, with nothing changed; otherwise `ok`, that task is removed and the others stay in order |
| ClientTasks.ValidateTask | client/src/pages/ProjectDetail.jsx:17-29 | the errors map each field in trouble to its message: a title error iff the trimmed title is empty or over 120 (the length message wins); a description error iff over 600; a date error iff a non-empty date does not parse; status and priority errors iff present and not in their lists; no errors iff the form is acceptable |
| ClientTasks.FormEnumsAccepted | client/src/pages/ProjectDetail.jsx:7-8 | a passing form's status and priority are names the task schema accepts |
| ClientTasks.Rank | client/src/pages/ProjectDetail.jsx:84-85 | high ranks 0, medium 1, low 2, and anything else 9 |
| ClientTasks.ByStatus | client/src/pages/ProjectDetail.jsx:80 | `all` keeps the list as it is; any other filter keeps exactly the tasks with that status, in list order |
| ClientTasks.Filtered | client/src/pages/ProjectDetail.jsx:78-88 | sorting a copy in place yields exactly the filtered tasks in the chosen stable order (`View`), and the list itself is untouched |
| ClientTasks.ViewIsFilteredPermutation | client/src/pages/ProjectDetail.jsx:79-86 | the view is a permutation of the filtered tasks |
| ClientTasks.DueAscOrder | client/src/pages/ProjectDetail.jsx:81 | `dueAsc`: due dates never decrease, and an undated task comes before a dated one only when that date is at or after 9999-12-31 |
| ClientTasks.DueDescOrder | client/src/pages/ProjectDetail.jsx:82 | `dueDesc`: due dates never increase, and an undated task comes before a dated one only when that date is at or before 0000-01-01 |
| ClientTasks.PriorityOrder | client/src/pages/ProjectDetail.jsx:83-86 | `priority`: high before medium before low before anything else |
| ClientTasks.TiesKeepListOrder | client/src/pages/ProjectDetail.jsx:81-85 | tasks with equal sort keys keep their relative list order |
| ClientTasks.QuickStatus | client/src/pages/ProjectDetail.jsx:153 | the task with that id gets the new status; every other task is unchanged |
| ClientTasks.QuickStatusIdempotent | client/src/pages/ProjectDetail.jsx:153 | applying the same quick change twice is the same as applying it once |
| ClientTasks.QuickStatusShowsUnderNewStatus | client/src/pages/ProjectDetail.jsx:153 | after the change, the filter for the new status shows the changed task |
| ClientProjects.ValidateProject | client/src/pages/Projects.jsx:6-12 | the errors map each field in trouble to its message: a name error iff the trimmed name is empty or over 80 (the length message wins); a description error iff over 240; no errors iff neither |
| ClientProjects.Search | client/src/pages/Projects.jsx:37-43 | an empty lower-cased query gives the list unchanged; otherwise exactly the projects whose lower-cased name or description (missing reads as `""`) contains the query |
| ClientProjects.EmptyQueryMatchesAll | client/src/pages/Projects.jsx:38-42 | the empty-query shortcut agrees with filtering: every project matches `""` |
| ClientProjects.SearchIsSubsequence | client/src/pages/Projects.jsx:39 | the result keeps the list's order |
| ClientProjects.SearchIgnoresQueryCase | client/src/pages/Projects.jsx:16 | a query and its lower-cased form find the same projects |
| ClientLayout.Title | client/src/components/Layout.jsx:12-17 | the first matching prefix decides: `/projects/` gives Proyecto, then `/projects` gives Proyectos, then `/chat` gives Chat, and anything else gives Dashboard |
| ClientLayout.AppendToast | client/src/components/Layout.jsx:28-33 | the new toast comes last with a ttl of 4500, after the last four earlier toasts, so at most five remain |
| ClientLayout.RemoveToast | client/src/components/Layout.jsx:19-21 | exactly the toasts with that id are removed |
| ClientLayout.RemoveToastKeepsOrder | client/src/components/Layout.jsx:20 | the remaining toasts keep their order |
| ClientLayout.RemoveUndoesAppend | client/src/components/Layout.jsx:20-32 | removing a just-appended toast with a fresh id leaves the earlier toasts that survived the append |
| ClientLayout.ToastsStayBounded | client/src/components/Layout.jsx:29-32 | any run of notifications leaves at most five toasts |
| ClientLayout.SearchTarget | client/src/components/Layout.jsx:42-47 | a blank query navigates to `/projects`, and only a blank one does |
| ClientLayout.SearchRoundTrip | client/src/components/Layout.jsx:44-46 | when decoding undoes encoding, the projects page reads exactly the trimmed query, and no query for a blank one |
| ClientChat.RoomLabel | client/src/pages/Chat.jsx:5-8 | `global` shows as Global; any other room shows as itself |
| ClientChat.Compose | client/src/pages/Chat.jsx:45-47 | nothing is sent iff the text is blank; otherwise the room, the trimmed name (`Anon` when blank) and the trimmed, non-empty text |
| ClientChat.ChatPageSend | client/src/pages/Chat.jsx:47 | the chat page always sends to the `global` room |
| ClientChat.PanelSend | client/src/components/ChatPanel.jsx:37-39 | the panel sends to its own room |
| ClientChat.ComposedAcceptedIffBounded | client/src/components/ChatPanel.jsx:39 | the server accepts a composed message iff the room, name and text fit their length bounds |
| ClientChat.ChatPageSendAccepted | client/src/pages/Chat.jsx:47 | a chat-page message whose trimmed name and text are short enough is accepted by the server |
| ClientChat.AppendCapped | client/src/pages/Chat.jsx:34 | the new message comes last; at most 200 remain, as a suffix of the old list plus the message; nothing is dropped below the cap |
| ClientChat.TextAfterAck | client/src/components/ChatPanel.jsx:41-45 | the input is cleared on an ok acknowledgement and kept otherwise |
| Sorting.SortByKey | client/src/pages/ProjectDetail.jsx:81-85 | a sort by a numeric key keeps the same length and the same elements |
| Sorting.SortByKeySorted | client/src/pages/ProjectDetail.jsx:81-85 | the sort's keys are ascending |
| Sorting.SortByKeyStable | client/src/pages/ProjectDetail.jsx:81-85 | elements with equal keys keep their relative order |
| Sorting.SortInPlace | client/src/pages/ProjectDetail.jsx:81-85 | the in-place insertion sort leaves the array equal to `SortByKey` of its old contents |
| Sorting.InsertAt | client/src/pages/ProjectDetail.jsx:81-85 | one insertion step puts the element into the sorted prefix, as `InsertLast` specifies, and leaves the rest of the array alone |
| Text.TrimSpec | client/src/pages/ProjectDetail.jsx:19-20 | the trimmed string occurs in the input, has no white space at either end, and is empty iff the input is all white space |
| Text.TrimIdempotent | client/src/pages/Projects.jsx:8-9 | trimming twice is the same as trimming once |
| Text.ToLower | client/src/pages/Projects.jsx:16 | lower-casing keeps the length, maps each character, and leaves no ASCII capital |
| Text.ToLowerIdempotent | client/src/pages/Projects.jsx:16 | lower-casing twice is the same as lower-casing once |
| Text.Contains | client/src/pages/Projects.jsx:40-41 | `includes` holds iff the needle occurs at some position |

## Left out

- The Express, Socket.IO and Mongoose plumbing is not modelled:
  - connections and startup, helmet, cors and compression;
  - `server/shared/mongo.js`, `client/src/api.js` and `client/src/socket.js`.
  - Emissions are recorded as a list of (audience, event) pairs. Socket.IO's own per-socket room is not modelled.
- PubSubBridge.PubSub.Subscribe: Node's EventEmitter also emits `newListener` (and `removeListener` on Unsubscribe) to handlers registered under those names; the model does not, so in-process mode a handler subscribed to a channel named `newListener` or `removeListener` would run here only on publishes to it. The service never subscribes under those names.
- The Redis transport itself is not modelled. Publishing in broker mode appends to an outbox, and deliveries arrive through `Receive`. A broker publish that fails, and so makes `chat:send` ack an error after the message is stored, is not modelled.
- Persistence failures are modelled only in the chat hub, through the `dbUp` flag. The task and project stores assume that the database answers.
- ChatService.ChatHub.ChatSend: an absent `ack` callback, and a `join`/`leave` payload that is not an object (destructuring throws), are not modelled.
- ChatService.ChatHub.PostNotify: the `ts` is the database clock as an integer, not an ISO string.
- ChatService.History: a negative or malformed `limit` (what `parseInt` returns then) is not modelled. The limit is an optional natural number.
- Lengths are counted in characters of `seq<char>`, not in UTF-16 code units. `toLowerCase` is modelled for ASCII letters only.
- Dates are opaque:
  - zod's datetime check, Mongoose's date cast and `new Date` parsing are parameters;
  - client due dates are millisecond timestamps;
  - an invalid date (NaN) in the client's sort comparators is not modelled;
  - TaskService.TaskStore.Create and TaskService.TaskStore.Update: the string zod accepts as a datetime is assumed to cast to a date in the model; both store it as given.
- The URL encoding of the search box is a parameter pair, `encode`/`decode`.
- Ties among equal `createdAt` values: newest-first lists return the later-inserted record first. The database's order among ties is not specified.
- The priority rank looks keys up on a plain object literal, so a priority named like an `Object.prototype` member (such as `toString`) would not rank as 9. `Rank` gives 9 to every other string.
- `/stats` and `/api/stats` run their counts concurrently with `Promise.all`. Here they are computed over one snapshot of the table.
- Monolith.Api.CreateProject: only string values are read from the body; other values are treated as absent. Mongoose would cast numbers and booleans to strings.
- Monolith.Api.CreateTask: non-string values, null included, are treated as absent in the same way, so an absent or null `status`/`priority` gets the default. The schema applies defaults only to a missing value: a null `status` or `priority` is stored as null (or refused, depending on the enum validator), and a null `description` is stored as null. Stored nulls are not modelled. A non-empty non-string `dueDate` or `assignee` is not modelled either.
- Monolith.Api.UpdateTask: a non-string value is refused, except a null due date. The schema itself behaves differently: `description` has only a length bound and `assignee` no validator, and null passes both, so a patch with a null `description` or `assignee` is stored and answered 200 where the model answers 400. A null `status` or `priority` may pass the enum validator too. Mongoose would also cast numbers and booleans. Stored nulls are not modelled.
- Monolith.ValidatePatch: null is accepted for the due date only; a null `description`, `assignee`, `status` or `priority`, which the schema can store, is refused here (see Monolith.Api.UpdateTask).
- Monolith.Api.Stats: `todo + doing + done == tasks` holds because the model stores no null status; a task stored with a null status through the single-process API would be counted in `tasks` and in none of the three.
- Monolith.ValidatePatch: it requires the patch's keys to be allowed ones, which the handler's loop guarantees.
- The client's history load (`loadHistory`), React rendering, hooks, timers, `fmtDate`, Modal, Toasts and Dashboard are not modelled.
- The toast's `id` comes first in the object spread, so a notification payload carrying an `id` would override it. Notification payloads have no `id`, so a toast keeps its fresh id.
- The client form validators return a map from a field to a problem, both datatypes. `Key` gives the JSON key of a field, and `Wording` gives the Spanish text of a problem.
- The client trims titles and names before checking length, and the server checks the untrimmed string. The model keeps each side as written.
- The health-endpoint tests only check the health answers, which `Health` covers.

## Findings

| source | as written | input that shows it | evidently intended | confidence | as-written member | corrected member |
|---|---|---|---|---|---|---|
| server/services/notifications/src/index.js:70-71 | `Math.min(parseInt(limit), 100)` passes 0 through to the cursor, where `limit(0)` means no limit | `GET /chat/r?limit=0` on a room with 101 messages returns all 101 | the window never holds more than 100 messages | not executed | ChatService.LimitZeroReturnsWholeRoom | ChatService.History |

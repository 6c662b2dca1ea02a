# Retro Tasks client: a Dafny model

This project models the logic of a single-page to-do client. The client lists,
creates, renames, completes and deletes tasks against a remote HTTP API. The
model covers five parts:

- **The task store** of the `App` component (`app.dfy`, class `App.TaskStore`).
  It holds the task list, the filter, the `loading` flag, the set of ids with a
  request in flight (`busyIds`) and the visible error. Each handler is split in
  two steps:
  - a *start* step clears the error, raises `loading` or marks the task busy, and
    returns the API operation it issues;
  - a *settle* step receives how that call settled (`Success(v)` or
    `Failure(message)`) and folds it into the state.

  The derived views are pure functions: the filtered list, the counts and the
  `disabled` flags. So are the list updaters: prepend, replace by id and remove
  by id.
- **Inline editing of a task row** (`task_item.dfy`, class
  `TaskItemComponent.TaskItem`). It models the `isEditing`/`draft` state and the
  guard that decides whether `onRename` is called and with which title.
- **The new-task form** (`task_input.dfy`, class `TaskInputComponent.TaskInput`).
  It models `canSubmit` and the submit handler, which clears the field and hands
  the trimmed title to `onAdd`.
- **The REST client** (`api.dfy`, module `Api`). It covers URL joining, the
  configuration-error short-circuit, the classification of a response into a
  value or an `ApiError`, the safe body decoding, and the method, path and body
  of each of `list`, `create`, `update` and `remove`.
- **Base-URL resolution** (`config.dfy`, module `Config`). It chooses
  `REACT_APP_API_BASE` over `REACT_APP_BACKEND_URL`, trims the value and strips
  trailing slashes. An empty result means "unconfigured".

Two modules support these. `text.dfy` holds JavaScript's `String.prototype.trim`
(over ECMAScript's white-space and line-terminator characters) and the decimal
rendering `String(n)` with its inverse. `task_types.dfy` holds the task record.

Foreign calls are parameters of the model:
- `fetch`, `JSON.parse` and `encodeURIComponent` are the fields of an `Api.Host`
  value;
- the two environment variables are an `Config.Env` value.

A call of the client yields an `Api.Exchange`: the request that reached `fetch`,
if any, and the result. With this shape, "no request is sent" can be stated.

The model follows the code as written:
- The store's add and rename handlers send the title as given. Only `TaskInput`
  and `TaskItem` reject blank titles.
- A successful delete leaves the task's id in `busyIds` (see Findings).
- A request rejects with an `ApiError` or with whatever `fetch` itself rejects
  with. The `ApiError` of the configuration check has no status; every other one
  carries the response's status.
- A response body that `JSON.parse` refuses is not an error: it is kept as raw
  text.

## Model

| member | source | states |
|---|---|---|
| `Text.Trim` | todo_frontend/src/config.js:13 | `trim` yields "" exactly when the input is all white space; otherwise the result starts and ends with a non-space character |
| `Text.TrimInfix` | todo_frontend/src/config.js:13 | the trimmed string is a contiguous part of the input with only white space before and after it |
| `Text.TrimIdempotent` | todo_frontend/src/components/TaskInput.jsx:20 | trimming an already trimmed title changes nothing |
| `Text.NatToString` | todo_frontend/src/services/api.js:51 | `String(status)` is a non-empty run of decimal digits without a leading zero; 0 gives exactly "0" |
| `Text.NatToStringRoundTrip` | todo_frontend/src/services/api.js:51 | reading the digits of `String(n)` back gives `n` |
| `Config.Preferred` | todo_frontend/src/config.js:13 | `REACT_APP_API_BASE` when it is set and non-empty, otherwise `REACT_APP_BACKEND_URL`; "" exactly when neither is set and non-empty |
| `Config.StripTrailingSlashes` | todo_frontend/src/config.js:17 | removes exactly the maximal trailing run of `/`: the removed part is all slashes, the rest is a prefix that does not end in `/` |
| `Config.GetApiBaseUrl` | todo_frontend/src/config.js:12-18 | the base never ends with `/`, and base + a run of slashes equals the trimmed preferred value |
| `Config.ApiBaseWins` | todo_frontend/src/config.js:13 | a non-empty `REACT_APP_API_BASE` alone decides the base, whatever `REACT_APP_BACKEND_URL` holds |
| `Config.BlankApiBaseShadowsBackend` | todo_frontend/src/config.js:13-17 | a white-space-only `REACT_APP_API_BASE` still wins and yields "" (unconfigured) |
| `Config.BackendFallback` | todo_frontend/src/config.js:13 | `REACT_APP_BACKEND_URL` is used only when `REACT_APP_API_BASE` is unset or ""; with neither set the base is "" |
| `Config.UnconfiguredIff` | todo_frontend/src/config.js:13-17 | the base is "" exactly when the trimmed preferred value is slashes only (or empty) |
| `Config.StripIdempotent` | todo_frontend/src/config.js:17 | stripping trailing slashes twice is stripping once |
| `TaskTypes.IdText` | todo_frontend/src/services/api.js:77 | `String(id)`: a string id as it is; a numeric id as its decimal digits without a leading zero (id 0 gives exactly "0"), after `-` when negative, which read back to the number |
| `TaskTypes.NumIdTextInjective` | todo_frontend/src/services/api.js:85 | two numeric ids give the same `String(id)` only when they are equal |
| `Api.Ok` | todo_frontend/src/services/api.js:47 | `res.ok` holds exactly for a status in the 2xx range |
| `Api.HttpErrorMessage` | todo_frontend/src/services/api.js:51 | the message is the prefix "API request failed (", the status's digits without a leading zero (status 0 gives exactly "0"), which read back to the status, and `)`; so it is never empty |
| `Api.BuildUrl` | todo_frontend/src/services/api.js:12-17 | the URL is "" exactly when the base is ""; otherwise it is the base, then `/`, then the path, with a leading `/` of the path not doubled |
| `Api.ParseJsonSafely` | todo_frontend/src/services/api.js:19-27 | an empty body reads as `null`, a body `JSON.parse` accepts as its value, any other body as the raw text |
| `Api.Classify` | todo_frontend/src/services/api.js:38-56 | success exactly for an OK response, with the decoded body; a non-OK status fails with that status, the message "API request failed (status)" and the decoded body as details; a rejected fetch propagates |
| `Api.Request` | todo_frontend/src/services/api.js:29-57 | nothing is fetched exactly when no base is configured, and then the call fails with the status-less configuration error; otherwise one request to `buildUrl(path)` is sent and its outcome classified |
| `Api.RouteOf` | todo_frontend/src/services/api.js:60-88 | every endpoint path starts with `/`; only `create` and `update` carry a body |
| `Api.List` | todo_frontend/src/services/api.js:62-65 | GET base + `/tasks`; an array payload is returned as is, any other payload as no tasks; failures propagate unchanged |
| `Api.Create` | todo_frontend/src/services/api.js:68-73 | a request is sent exactly when a base is configured, otherwise the call fails with the configuration error; the request is POST base + `/tasks` with the body `{title}`, and the call settles as its outcome is classified |
| `Api.Update` | todo_frontend/src/services/api.js:76-81 | a request is sent exactly when a base is configured, otherwise the call fails with the configuration error; the request is PATCH base + `TaskPath(id)`, that is `/tasks/` + `encodeURIComponent(String(id))`, with the patch as body, and the call settles as its outcome is classified |
| `Api.Remove` | todo_frontend/src/services/api.js:84-88 | a request is sent exactly when a base is configured, otherwise the call fails with the configuration error; the request is DELETE base + `TaskPath(id)`, that is `/tasks/` + `encodeURIComponent(String(id))`, without a body, and the call settles as its outcome is classified |
| `Api.SentTo` | todo_frontend/src/services/api.js:12-16 | for a path starting with `/`, a sent request goes to exactly the base followed by the path, with the route's method and body |
| `Api.UnconfiguredNeverFetches` | todo_frontend/src/services/api.js:30-36 | with no base every operation fails with the configuration message, no status and no details, and sends nothing |
| `Api.StatuslessMeansUnconfigured` | todo_frontend/src/services/api.js:29-54 | an `ApiError` without a status occurs exactly when the client is unconfigured: every HTTP error carries its status |
| `Api.HttpErrorMessageInjective` | todo_frontend/src/services/api.js:51 | two statuses give the same "API request failed (...)" message only when they are equal |
| `Api.ApiErrorsHaveMessages` | todo_frontend/src/services/api.js:30-53 | every `ApiError` the client raises has a non-empty message; an empty message can only come from a rejection of `fetch` itself |
| `Api.NumIdPathInjective` | todo_frontend/src/services/api.js:77 | with an injective encoder, as `encodeURIComponent` is, two numeric ids address the same `/tasks/...` path only when they are equal |
| `Api.SameResource` | todo_frontend/src/services/api.js:62-88 | list and create use `/tasks`; update and remove of one id use the same path, `/tasks/` + the encoded id |
| `App.WithStatus` | todo_frontend/src/App.js:19-20 | a task is in the selection exactly when it is in the list with the given status |
| `App.WithStatusAppend` | todo_frontend/src/App.js:22-24 | selecting by status keeps relative order (distributes over concatenation) |
| `App.StatusPartition` | todo_frontend/src/App.js:18-20 | active and completed tasks together are the whole list, each task once (lengths and multisets) |
| `App.FilteredTasks` | todo_frontend/src/App.js:22-26 | "active" gives the status selection of the non-completed tasks and "completed" that of the completed ones, each in list order; any other filter gives the whole list |
| `App.ReplaceById` | todo_frontend/src/App.js:77 | same length and order; every task with the id becomes the server's task, every other task is unchanged |
| `App.ReplaceAbsentId` | todo_frontend/src/App.js:90 | replacing an id no task carries leaves the list as it was |
| `App.WithoutId` | todo_frontend/src/App.js:103 | a task remains exactly when it was in the list and has another id |
| `App.WithoutIdAppend` | todo_frontend/src/App.js:103 | removal by id keeps the other tasks in their order |
| `App.WithoutAbsentId` | todo_frontend/src/App.js:103 | removing an id no task carries leaves the list as it was |
| `App.ErrorText` | todo_frontend/src/App.js:37 | the shown error is the thrown message when it is non-empty, and the fallback exactly when it is empty; it is never empty |
| `App.TaskStore.constructor` | todo_frontend/src/App.js:12-16 | no tasks, filter "all", not loading, nothing busy, no error |
| `App.TaskStore.TotalCount` | todo_frontend/src/App.js:18 | the total is the number of active tasks plus the number of completed ones |
| `App.TaskStore.ActiveCount` | todo_frontend/src/App.js:19 | the active count is the length of the "active" selection, at most the total, and 0 exactly when every task is completed |
| `App.TaskStore.CompletedCount` | todo_frontend/src/App.js:18-20 | the completed count is the length of the "completed" selection, 0 exactly when no task is completed, and active + completed == total |
| `App.TaskStore.FilteredView` | todo_frontend/src/App.js:22-26 | the shown list is the active tasks for "active", the completed ones for "completed", and all tasks for any other filter; it never shows a task that is not in the store |
| `App.TaskStore.GlobalDisabled` | todo_frontend/src/App.js:28 | the input, the filters and the retry button are disabled exactly while `loading` is set |
| `App.TaskStore.AnyTaskBusy` | todo_frontend/src/App.js:110 | some task is busy exactly when `busyIds` is not empty |
| `App.TaskStore.ListDisabled` | todo_frontend/src/App.js:153 | the task list is disabled exactly when `loading` is set or some id is busy; it is disabled whenever the input is |
| `App.TaskStore.SetFilter` | todo_frontend/src/App.js:138-142 | changing the filter changes nothing else |
| `App.TaskStore.MarkBusy` | todo_frontend/src/App.js:48-55 | only the membership of the given id changes, to the given value |
| `App.TaskStore.StartLoad` | todo_frontend/src/App.js:30-32 | a load (or retry) sets `loading`, clears the error and disables the list |
| `App.TaskStore.SettleLoad` | todo_frontend/src/App.js:33-41 | an array replaces the list, a non-array empties it, a failure empties it and shows a non-empty error; `loading` ends either way |
| `App.TaskStore.StartAdd` | todo_frontend/src/App.js:57-61 | an add clears the error, sets `loading` and creates the title exactly as given |
| `App.TaskStore.SettleAdd` | todo_frontend/src/App.js:60-67 | the created task is prepended on success; on failure the list is unchanged and an error shown; `loading` ends either way |
| `App.TaskStore.StartToggle` | todo_frontend/src/App.js:70-76 | the error is cleared, the task marked busy (the list is disabled) and the patch holds only `completed`, flipped |
| `App.TaskStore.SettleToggle` | todo_frontend/src/App.js:77-82 | success replaces the tasks with that id by the server's task; failure keeps the list and shows an error; the id leaves the busy set either way |
| `App.TaskStore.StartRename` | todo_frontend/src/App.js:85-89 | the error is cleared, the task marked busy and the patch holds only `title`, as given |
| `App.TaskStore.SettleRename` | todo_frontend/src/App.js:90-95 | as for a toggle, with the rename fallback message |
| `App.TaskStore.StartDelete` | todo_frontend/src/App.js:98-102 | the error is cleared, the task marked busy and a DELETE of its id issued |
| `App.TaskStore.SettleDelete` | todo_frontend/src/App.js:102-107 | success removes exactly the tasks with that id, in order, and leaves the id busy; failure keeps the list, shows an error and releases the id |
| `App.TaskStore.SettleDeleteReleasing` | todo_frontend/src/App.js:98-108 | the intended delete: same list and error updates, and the id is released on success too |
| `App.DeleteLeavesListDisabled` | todo_frontend/src/App.js:98-110 | after adding one task and deleting it successfully, the list is empty yet stays disabled |
| `App.ReleasingDeleteLeavesListEnabled` | todo_frontend/src/App.js:153 | with the releasing delete the same run leaves the list enabled |
| `App.ToggleReplacesWithServerTask` | todo_frontend/src/App.js:70-82 | loading `[{1, "A", false}]` and toggling it with the server echoing `{1, "A", true}` gives `[{1, "A", true}]` and nothing busy |
| `TaskItemComponent.RenameRequest` | todo_frontend/src/components/TaskItem.jsx:39-48 | no rename exactly when the draft is blank or trims to the current title; otherwise the trimmed draft, which differs from the title and has no surrounding white space |
| `TaskItemComponent.RenameRequestTrimmed` | todo_frontend/src/components/TaskItem.jsx:40-47 | a requested title is never blank and is already trimmed |
| `TaskItemComponent.TaskItem.constructor` | todo_frontend/src/components/TaskItem.jsx:12-13 | a row starts out of edit mode with the task's title as draft |
| `TaskItemComponent.TaskItem.Receive` | todo_frontend/src/components/TaskItem.jsx:17-19 | when the task's title changes the draft is reset to it; otherwise the draft is kept |
| `TaskItemComponent.TaskItem.Type` | todo_frontend/src/components/TaskItem.jsx:104 | typing replaces the draft and nothing else |
| `TaskItemComponent.TaskItem.StartEdit` | todo_frontend/src/components/TaskItem.jsx:28-31 | a no-op while disabled, otherwise enters edit mode |
| `TaskItemComponent.TaskItem.CancelEdit` | todo_frontend/src/components/TaskItem.jsx:33-37 | the draft returns to the title and edit mode ends |
| `TaskItemComponent.TaskItem.CommitEdit` | todo_frontend/src/components/TaskItem.jsx:39-51 | `onRename` is called at most once, with what `RenameRequest` gives; a blank draft is reverted to the title; edit mode ends in every branch |
| `TaskItemComponent.TaskItem.HandleEditKeyDown` | todo_frontend/src/components/TaskItem.jsx:53-61 | Enter commits: the rename is what `RenameRequest` gives, a blank draft is reset to the title, any other draft is kept, and edit mode ends; Escape cancels; any other key changes nothing and renames nothing |
| `TaskInputComponent.CanSubmit` | todo_frontend/src/components/TaskInput.jsx:14 | submitting is allowed exactly when the form is enabled and the title holds a non-space character |
| `TaskInputComponent.TaskInput.constructor` | todo_frontend/src/components/TaskInput.jsx:6 | the form starts with an empty title |
| `TaskInputComponent.TaskInput.Type` | todo_frontend/src/components/TaskInput.jsx:39 | typing replaces the title |
| `TaskInputComponent.TaskInput.SetDisabled` | todo_frontend/src/components/TaskInput.jsx:40 | a new `disabled` prop leaves the title alone |
| `TaskInputComponent.TaskInput.HandleSubmit` | todo_frontend/src/components/TaskInput.jsx:16-22 | a refused submit calls no `onAdd` and keeps the title; otherwise `onAdd` gets the trimmed title once, which is non-blank, and the field is already "" |

## Findings

| source | as written | input that shows it | evidently intended | confidence | as-written member | corrected member |
|---|---|---|---|---|---|---|
| todo_frontend/src/App.js:98-108 | `handleDelete` has no `finally`, so a successful delete never removes the id from `busyIds`; `anyTaskBusy` then stays true and the whole task list stays disabled (nothing else ever removes that id) | add a task `{id: 1}`, then delete it with the server answering OK | the id leaves `busyIds` whichever way the delete settles, as in `handleToggle` and `handleRename` | high; not executed | `App.DeleteLeavesListDisabled` | `App.TaskStore.SettleDeleteReleasing` |

The store keeps `App.TaskStore.SettleDelete` as its delete handler, because the
model follows the code as written. `App.TaskStore.SettleDeleteReleasing` is the
intended behaviour. `App.ReleasingDeleteLeavesListEnabled` shows the same run
with it.

## Left out

- Rendering, CSS, focus and refs, including the focus effects of `TaskItem.jsx`
  and `TaskInput.jsx`. They are presentation.
- `Header.jsx`, `TaskList.jsx` and `Filters.jsx`. They only render. The
  `disabled` props they receive are modelled as `App.TaskStore.GlobalDisabled`
  and `App.TaskStore.ListDisabled`.
- HTTP transport. `fetch` is `Api.Host.fetch`. A rejection of `res.text()` is not
  modelled. The `Accept` and `Content-Type` headers are constant and are not part
  of `Api.HttpRequest`.
- `JSON.parse` is `Api.Host.parse` and `encodeURIComponent` is
  `Api.Host.encode`. `JSON.stringify` is not modelled: request bodies stay
  structured `Api.Json` values.
- JSON numbers, and numeric task ids, are integers. Fractional ids and their
  `String` rendering are not modelled.
- `TaskTypes.IdText` renders every integer id as plain decimal digits. JavaScript's
  `String(n)` switches to exponent form from 1e21 in magnitude ("1e+21"), so for
  such ids the real `/tasks/...` path differs from the modelled one.
- `process.env` is the `Config.Env` parameter.
- Async interleaving of overlapping requests and React's batching of functional
  `setState`. Each handler is an atomic start step followed by an atomic settle
  step. The awaits inside `commitEdit` and `handleSubmit` are taken as settled
  before the next event.
- The store's settle steps receive the server's task as an `App` `Task` value.
  The client does not validate the JSON object it stores, and the model does not
  relate that object to `Api.Json`.
- `e?.message` of a rejection that has no message is passed as "".
- `App.test.js` only checks that the title renders.

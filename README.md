# Task tracker core, modelled in Dafny

The system is a small task tracker. A Flask/SQLAlchemy server keeps tasks and their
comments. A React client lists, filters, creates, edits and deletes tasks, and
comments on them. This project models what the two sides decide, as opposed to how
they talk:

- **Record rules.** The validation of `Task` and `Comment` rows, their serialised
  form and the column defaults live in `TaskModel` and `CommentModel`. `validate`
  is a method that appends messages, proved to report exactly the broken rules, in
  order.
- **The server.** `Store.Store` is one class holding the task and comment tables.
  Each route handler of `tasks.py` and `comments.py` is one of its methods. The
  class invariant `Valid` holds:
  - every row is filed under its own id;
  - every comment's task exists;
  - every stored row passed validation.

  Handlers return the status code and the payload or the error. The filtered,
  newest-first listings use `Query.SelectDesc`, a selection loop proved against
  the set it selects.
- **The URL map and the client's requests.** `Routes.Route` is the server's URL
  map. `Api` holds the client's request builders; each builder's contract names
  the handler its request reaches.
- **The client.** `App.Controller` holds the task board's state and handlers, with
  the list transforms as functions. `TaskDetails.CommentPanel` is the comment
  section of the details view. `TaskItem` holds the task card's display helpers.

Three things the system takes from the outside are parameters:

- the current time (`now`);
- the ISO date parser (`parseIso`, returning `None` where the parser raises);
- the settled outcome of each client request (`Api.Reply`).

Each handler is one atomic step.

## Model

| member | source | states |
|---|---|---|
| TaskModel.Validate | backend/app/models/task.py:35-53 | the messages are exactly those of the broken rules (blank title, title over 200 characters, unknown status, unknown priority), each once, in that order; at most 4; empty iff the task is valid |
| TaskModel.WhitespaceTitleBreaksBothRules | backend/app/models/task.py:39-43 | a title of 201 spaces is both blank and over the limit, since the length rule reads the untrimmed title |
| TaskModel.MessageRanks | backend/app/models/task.py:40-51 | the four messages are distinct, ranked 0 to 3 in the order the rules run |
| TaskModel.DefaultsAreValid | backend/app/models/task.py:10-11 | the column defaults `pending` and `medium` are accepted values |
| TaskModel.CommentsOf | backend/app/models/task.py:17 | a comment belongs to the task exactly when its `task_id` is the task's id |
| TaskModel.ToDict | backend/app/models/task.py:22-33 | `comments_count` is the number of attached comments; `due_date` is null iff no due date is set; the other columns are copied |
| TaskModel.NoCommentsCountZero | backend/app/models/task.py:32 | a task with no attached comment reports a count of 0 |
| CommentModel.Validate | backend/app/models/comment.py:29-42 | the messages are exactly those of the broken rules (blank content, content over 1000, author over 100), each once, in order; at most 3; empty iff the comment is valid |
| CommentModel.EmptyAuthorAccepted | backend/app/models/comment.py:39-40 | an absent or empty author never breaks the author rule |
| CommentModel.ToDict | backend/app/models/comment.py:19-27 | the dictionary reports the comment's `task_id` and its other columns unchanged |
| CommentModel.WithColumnDefaults | backend/app/models/comment.py:9 | a missing author is stored as `Anonymous`; a given one, even empty, is kept |
| CommentModel.ColumnDefaultsKeepValid | backend/app/models/comment.py:9 | filling in the default author keeps a valid comment valid |
| Json.Get | backend/app/routes/tasks.py:54 | `data.get(key)` is a string exactly when the key is present with a string value |
| Json.GetOr | backend/app/routes/tasks.py:55-57 | the default applies only to an absent key; an explicit null stays null |
| Json.NoData | backend/app/routes/tasks.py:46 | a null body is no data; a body with any key at all, even one holding null, is data |
| Text.TrimStartSpec | backend/app/models/task.py:39 | the left strip removes the longest all-white-space prefix and nothing else |
| Text.TrimEndSpec | backend/app/models/task.py:39 | the right strip removes the longest all-white-space suffix and nothing else |
| Text.DialectsDiffer | backend/app/models/task.py:39 | Python's white space (for `strip`) and JavaScript's (for `trim`) share the common set but differ both ways: U+001C and U+0085 only for Python, U+FEFF only for JavaScript |
| Text.Strip | backend/app/models/task.py:39 | `strip`/`trim` never lengthens a string and leaves no white space of its runtime at either end |
| Text.IsBlank | frontend/src/components/TaskDetails.js:30 | a string strips to nothing iff every character is white space in that runtime's set |
| Text.ReplaceAll | backend/app/routes/tasks.py:63 | the empty string stays empty; one character becomes `+00:00` if it is `Z` and stays otherwise; no `Z` is left, and no other character is introduced |
| Text.ReplaceAllAppend | backend/app/routes/tasks.py:63 | replacing a concatenation replaces each part, so the one-character cases fix every result |
| Text.ReplaceTrailingZ | backend/app/routes/tasks.py:63 | a timestamp ending in its only `Z` gets `+00:00` in its place and is otherwise unchanged |
| Text.NatToString | frontend/src/services/api.js:53 | an id renders as at least one decimal digit, without a leading zero |
| Text.IntToString | frontend/src/services/api.js:53 | a rendered integer starts with a digit iff it is non-negative |
| Text.ParseNat | backend/app/routes/tasks.py:96 | the `int` path converter accepts exactly the non-empty runs of digits |
| Text.ParseNatToString | backend/app/routes/tasks.py:96 | the converter reads back the number the client rendered |
| Text.IntToStringInjective | frontend/src/services/api.js:53 | distinct ids render differently, negative ones included |
| Text.FirstIndex | frontend/src/components/TaskItem.js:53 | the index of the first occurrence, or the length when there is none |
| Text.ReplaceFirst | frontend/src/components/TaskItem.js:53 | `replace` with a string pattern changes the first occurrence only and keeps the length |
| Query.SelectDesc | backend/app/routes/tasks.py:26 | the loop returns each row that passes the filter exactly once, and no other row, ordered by non-increasing `created_at` |
| Store.FilterActive | backend/app/routes/tasks.py:20-23 | a query filter applies exactly when its argument is truthy: present and not empty |
| Store.Matches | backend/app/routes/tasks.py:20-23 | a listed task has the requested status and the requested priority, for each active filter; with no filter every task is listed |
| Store.DueOf | backend/app/routes/tasks.py:61-63 | an absent or falsy `due_date` means no due date; otherwise it is unparsable iff the ISO parser rejects it after `Z` becomes `+00:00` |
| Store.TaskDraft | backend/app/routes/tasks.py:53-58 | an absent key gives description `''`, status `pending` and priority `medium`; a present key, null included, is taken as given |
| Store.MergeTask | backend/app/routes/tasks.py:143-161 | only the fields whose keys are present change; a present `due_date` sets or clears the date; id and timestamps stay |
| Store.MergeTaskIdempotent | backend/app/routes/tasks.py:143-161 | applying the same update twice equals applying it once |
| Store.AssignTaskFields | backend/app/routes/tasks.py:143-161 | the assignments for the keys present give the merged task, and stop exactly when `due_date` does not parse |
| Store.CommentDraft | backend/app/routes/comments.py:57-61 | the comment takes its `task_id` from the route; the author is `Anonymous` only when the key is absent |
| Store.MergeComment | backend/app/routes/comments.py:131-135 | only `content` and `author` can change, and only when present; `task_id` never does |
| Store.DistinctLength | backend/app/routes/comments.py:28 | a list of distinct ids is as long as the set it enumerates |
| Store.Store.constructor | backend/app/models/task.py:7 | the database starts with no tasks and no comments |
| Store.Store.GetTasks | backend/app/routes/tasks.py:8-32 | 200 with exactly the tasks that match the non-empty filters, each once, newest first; `count` is their number; every listed task has a valid status and priority |
| Store.Store.CreateTask | backend/app/routes/tasks.py:40-87 | 400 for no data, for an unparsable due date or for a failed validation, which carries exactly the broken rules; all of these store nothing; success adds exactly the drafted task under the id the database chose and returns it with 0 comments |
| Store.Store.GetTask | backend/app/routes/tasks.py:96-115 | 404 for an unknown id; otherwise the task and exactly its comments, as many as its `comments_count` |
| Store.Store.UpdateTask | backend/app/routes/tasks.py:123-182 | 404 for an unknown id; 400 for no data, a bad due date or a failed validation, and then nothing is committed; success stores the merged task with `updated_at` refreshed; nothing else changes |
| Store.Store.DeleteTask | backend/app/routes/tasks.py:191-210 | 404 for an unknown id; otherwise the task and, by cascade, exactly its comments go; other tasks and comments are untouched |
| Store.Store.GetTaskStats | backend/app/routes/tasks.py:219-247 | 200 with each count the number of tasks with that value; the status counts and the priority counts each sum to `total_tasks` |
| Store.Store.CommentsFor | backend/app/routes/comments.py:22-23 | exactly the comments of that task, each once, newest first; as many as the set of its comments |
| Store.Store.GetTaskComments | backend/app/routes/comments.py:9-29 | 404 for a missing task; otherwise exactly its comments, newest first, with `count` equal to their number and to the task's `comments_count` |
| Store.Store.CreateComment | backend/app/routes/comments.py:37-80 | 404 for a missing task and 400 for no data or a failed validation, all storing nothing; success adds exactly one comment under the id the database chose (the author default filled) and raises the task's comment count by one |
| Store.Store.GetComment | backend/app/routes/comments.py:89-104 | 404 for an unknown id; otherwise that comment |
| Store.Store.UpdateComment | backend/app/routes/comments.py:112-156 | 404 or 400 without a change; success stores the merged comment, same `task_id`, `updated_at` refreshed |
| Store.Store.DeleteComment | backend/app/routes/comments.py:165-184 | 404 for an unknown id; otherwise exactly that comment is removed |
| Routes.Route | backend/app/routes/tasks.py:8-219 | `GET /tasks`, `POST /tasks` and `GET /tasks/stats` reach the list, create and stats handlers, and nothing else reaches them |
| Routes.RouteReadsIds | backend/app/routes/comments.py:9-165 | a task or comment handler is reached only by its own verb and with the id its `<int:...>` segment reads; a path no rule matches reaches nothing |
| Routes.SignedIdNotMatched | backend/app/routes/tasks.py:96 | a segment starting with a minus sign matches no `<int:...>` rule |
| Routes.RouteIdRoundTrip | backend/app/routes/comments.py:89 | an `<int:...>` rule reads back the number written between its prefix and suffix |
| Routes.StatsIsNotATaskId | backend/app/routes/tasks.py:219 | `/tasks/stats` is not read as a task id and reaches the stats handler |
| Api.TaskParams | frontend/src/services/api.js:44-49 | `status` is sent iff it is non-empty and not `all`, with its value; likewise `priority`; no other key |
| Api.FiltersIndependent | frontend/src/services/api.js:46-47 | the status filter never affects the priority key, and vice versa |
| Api.NoFilterNoParams | frontend/src/services/api.js:44-49 | (`all`, `all`), the default nulls and empty strings give no parameters |
| Api.GetTasks | frontend/src/services/api.js:44-50 | reaches the list handler, with the active filters as query parameters and no body |
| Api.GetTask | frontend/src/services/api.js:52-54 | reaches the handler of task `id` for a non-negative id and no handler for a negative one; no body |
| Api.CreateTask | frontend/src/services/api.js:56-58 | reaches the create handler with the task data as body |
| Api.UpdateTask | frontend/src/services/api.js:60-62 | reaches the update handler of task `id` (none for a negative id) with the changes as body |
| Api.DeleteTask | frontend/src/services/api.js:64-66 | reaches the delete handler of task `id` (none for a negative id); no body |
| Api.GetTaskStats | frontend/src/services/api.js:68-70 | reaches the stats handler, not the handler of a task named `stats` |
| Api.GetTaskComments | frontend/src/services/api.js:73-75 | reaches the comment list of task `taskId` (none for a negative id); no body |
| Api.CreateComment | frontend/src/services/api.js:77-79 | reaches the comment-create handler of task `taskId` (none for a negative id) with the comment data as body |
| Api.GetComment | frontend/src/services/api.js:81-83 | reaches the handler of comment `commentId` (none for a negative id); no body |
| Api.UpdateComment | frontend/src/services/api.js:85-87 | reaches the update handler of comment `commentId` (none for a negative id) with the changes as body |
| Api.DeleteComment | frontend/src/services/api.js:89-91 | reaches the delete handler of comment `commentId` (none for a negative id); no body |
| Api.TaskPathRoutes | frontend/src/services/api.js:52-66 | `/tasks/{id}` reaches the get, update and delete handlers of task `id`, or nothing when `id` is negative |
| Api.NegativeTaskPath | frontend/src/services/api.js:53 | `/tasks/-n` matches none of the server's rules |
| Api.TaskCommentsPathRules | frontend/src/services/api.js:74 | `/tasks/{id}/comments` matches the comment-list rule with `id` and no other rule |
| Api.TaskCommentsPathRoutes | frontend/src/services/api.js:73-79 | `/tasks/{id}/comments` reaches the list and create handlers of that task's comments, or nothing when `id` is negative |
| Api.CommentPathRules | frontend/src/services/api.js:82 | `/comments/{id}` matches the comment rule with `id` and no other rule |
| Api.CommentPathRoutes | frontend/src/services/api.js:81-91 | `/comments/{id}` reaches the get, update and delete handlers of comment `id`, or nothing when `id` is negative |
| Api.OutsideTasks | frontend/src/services/api.js:81-91 | a `/comments/...` path matches none of the `/tasks` rules |
| Api.TaskPathInjective | frontend/src/services/api.js:52-66 | distinct task ids give distinct paths |
| Api.CommentPathInjective | frontend/src/services/api.js:81-91 | distinct comment ids give distinct paths |
| TaskItem.StatusColor | frontend/src/components/TaskItem.js:13-20 | total: a known status gets `status-<status>`; anything else, null included, gets `status-pending`; the details view repeats this mapping at TaskDetails.js lines 59-66 |
| TaskItem.PriorityColor | frontend/src/components/TaskItem.js:22-29 | total: a known priority gets `priority-<priority>`; anything else gets `priority-medium`; the details view repeats this mapping at TaskDetails.js lines 68-75 |
| TaskItem.StatusColorsDistinct | frontend/src/components/TaskItem.js:13-20 | distinct known statuses get distinct classes |
| TaskItem.PriorityColorsDistinct | frontend/src/components/TaskItem.js:22-29 | distinct known priorities get distinct classes |
| TaskItem.DescriptionPreview | frontend/src/components/TaskItem.js:40-47 | an empty description is hidden; over 100 characters it shows the first 100 and `...` (length 103); otherwise it is shown whole |
| TaskItem.StatusLabel | frontend/src/components/TaskItem.js:53 | same length; a character changes only if it is the first `_`, and then to a space; the first `_` always does |
| TaskItem.LabelChangesOnlyFirst | frontend/src/components/TaskItem.js:53 | with the first `_` at `k`, the label has a space at `k` and every other character of the status, later underscores included |
| TaskItem.PluralSuffix | frontend/src/components/TaskItem.js:68 | `s` for every count but 1, and nothing for 1 |
| TaskItem.CommentsCountLine | frontend/src/components/TaskItem.js:66-70 | shown iff the count is positive; it starts with the icon and the number and ends in `s` iff the count is not 1 |
| TaskItem.OnStatusSelect | frontend/src/components/TaskItem.js:31-33 | the event carries the task's id and the selected value |
| TaskItem.StatusOptionsAreValid | frontend/src/components/TaskItem.js:89-91 | every option of the status menu is a status the server accepts |
| App.ReplaceById | frontend/src/App.js:70-72 | same length and order; entries with that id become the returned task, the others are unchanged |
| App.ReplaceByIdKeepsIds | frontend/src/App.js:70-72 | when the returned task keeps its id, every position keeps its id |
| App.ReplaceByIdIdempotent | frontend/src/App.js:70-72 | replacing twice equals replacing once |
| App.RemoveById | frontend/src/App.js:87 | the result holds exactly the entries whose id differs |
| App.RemoveByIdAppend | frontend/src/App.js:87 | filtering keeps the remaining entries in their order |
| App.RemoveByIdAbsent | frontend/src/App.js:87 | a list without that id is unchanged |
| App.RemoveAfterPrepend | frontend/src/App.js:57 | deleting a task just prepended restores the previous list |
| App.StatusPayload | frontend/src/App.js:109 | the body holds the status alone, and the server takes it as data |
| App.StatusChangeStaysValid | frontend/src/App.js:108-110 | a status chosen from the menu changes only the status of a valid task on the server and keeps it valid |
| App.LoadFailed | frontend/src/App.js:42 | the banner is the error's message, verbatim, between `Failed to load tasks: ` and `. Please try again.` |
| App.Controller.constructor | frontend/src/App.js:9-22 | empty list, loading, no error, every modal closed, no selection, both filters `all` |
| App.Controller.LoadTasks | frontend/src/App.js:30-46 | asks with both filters; success replaces the list and clears the error; failure keeps the list and sets the message; `loading` ends false |
| App.Controller.CreateTask | frontend/src/App.js:54-65 | success puts the returned task first, the old list after it, closes the create modal and clears the error; failure keeps the list, sets the error and re-raises |
| App.Controller.UpdateTask | frontend/src/App.js:67-81 | success replaces by id, keeping length and order, closes the editor and clears the selection; failure keeps the list, sets the error and re-raises |
| App.Controller.DeleteTask | frontend/src/App.js:83-96 | unconfirmed: no request, no change; success removes that id, closes the details and clears the selection; failure keeps the list and sets the error |
| App.Controller.ChangeStatus | frontend/src/App.js:108-110 | exactly the update of that task with the body `{status: value}` |
| App.Controller.ViewTask | frontend/src/App.js:98-101 | selects the task and opens the details view |
| App.Controller.EditTask | frontend/src/App.js:103-106 | selects the task and opens the editor |
| App.Controller.EditFromDetails | frontend/src/App.js:268-271 | closes the details view and opens the editor on the same selection |
| App.Controller.CloseEditModal | frontend/src/App.js:253-256 | closes the editor and clears the selection |
| App.Controller.CloseDetailsModal | frontend/src/App.js:264-267 | closes the details view and clears the selection |
| App.Controller.SetCreateModal | frontend/src/App.js:220 | toggles the create dialog alone |
| App.Controller.SetAboutModal | frontend/src/App.js:121 | toggles the about dialog alone |
| App.Controller.DismissError | frontend/src/App.js:148 | clears the error alone |
| App.Controller.SetStatusFilter | frontend/src/App.js:49-52 | sets the filter; a reload is due iff the value changed |
| App.Controller.SetPriorityFilter | frontend/src/App.js:49-52 | sets the filter; a reload is due iff the value changed |
| TaskDetails.SubmittedAuthor | frontend/src/components/TaskDetails.js:36 | the typed author if non-empty, otherwise `Anonymous`; never empty |
| TaskDetails.CommentBody | frontend/src/components/TaskDetails.js:34-37 | the body holds exactly the untrimmed content and the chosen author, and the server takes it as data |
| TaskDetails.SubmitEnabled | frontend/src/components/TaskDetails.js:148 | the button is enabled iff nothing is in flight and some character of the content is not JavaScript white space |
| TaskDetails.SubmittedCommentHasContent | frontend/src/components/TaskDetails.js:30-37 | what the panel sends reaches the server as data, stored under the panel's author and task; the server finds it blank iff every character is Python white space |
| TaskDetails.PanelAndServerDisagree | frontend/src/components/TaskDetails.js:30 | content `U+001C` enables the button and the server refuses it as blank; content `U+FEFF` keeps the button disabled although the server would accept it |
| TaskDetails.CommentPanel.constructor | frontend/src/components/TaskDetails.js:5-9 | no comments, empty inputs, loading, not adding |
| TaskDetails.CommentPanel.LoadComments | frontend/src/components/TaskDetails.js:15-25 | asks for the task's comments; success replaces the list, failure keeps it; `loadingComments` ends false |
| TaskDetails.CommentPanel.AddComment | frontend/src/components/TaskDetails.js:27-47 | blank content: no request and no change; otherwise sends the untrimmed content with the chosen author; success prepends and clears both inputs, failure keeps them; `addingComment` ends false |
| TaskDetails.CommentPanel.SetNewComment | frontend/src/components/TaskDetails.js:139 | the content input holds the typed value |
| TaskDetails.CommentPanel.SetCommentAuthor | frontend/src/components/TaskDetails.js:132 | the author input holds the typed value |

## Left out

- JSON values other than strings and null are not modelled. A number or boolean in a text field, and a body that is not an object, are out. A body that is missing or is not JSON makes `get_json` raise, which ends in a 500 (see the exception paths below).
- Exception paths are not modelled: the 500 responses, database failures and `rollback`.
- Time is an integer instant, `datetime.utcnow` is the `now` parameter, and `datetime.fromisoformat` is the `parseIso` parameter. The `isoformat` rendering of dates is not modelled.
- Store.Store.GetTasks: rows with equal `created_at` are promised only a non-increasing order. Their relative order is left to the database.
- Store.Store.GetTask: the order of the inlined comments is not promised. The relationship sets none.
- Rows are values in maps. SQLAlchemy object identity, the session and autoflush are not modelled. A handler that fails after changing a loaded row commits nothing, so the model leaves its tables unchanged.
- Routes.RouteId accepts any non-empty run of ASCII digits, leading zeros included. The converter's treatment of other digit characters is not modelled.
- Text.IsSpace fixes the white-space sets of Python 3's `str.isspace` and of ECMAScript's `trim` as they stand. Later Unicode versions that add or remove space separators are not tracked.
- TaskDetails.SubmittedCommentHasContent: does not promise that the server accepts every comment the panel lets through. Content made only of characters Python strips and JavaScript keeps (U+001C to U+001F, U+0085) passes the panel and gets a 400, as TaskDetails.PanelAndServerDisagree shows.
- Store.Store.CreateTask and Store.Store.CreateComment take the new row's id as the parameter `newId`: any positive id not in use. How the database picks it is not modelled. SQLite, the default database, hands out one more than the highest id in use, so an id comes back after its newest row is deleted; the model allows exactly that.
- Lengths and `substring` count characters. JavaScript counts UTF-16 code units instead, which differs for characters outside the Basic Multilingual Plane.
- Text.IntToString renders ids as mathematical integers. JavaScript's rendering of numbers beyond 2^53 is not modelled.
- Asynchronous completion order is not modelled, so a slow reply cannot overtake a newer one. That covers stale refreshes, comment loads and the unawaited status-change update.
- Both reload effects of `App` run on mount, so the mount loads twice. The model has one `LoadTasks` per event.
- The rejection that App.Controller.ChangeStatus leaves unhandled is not modelled as an output.
- `window.confirm` is the `confirmed` parameter of App.Controller.DeleteTask.
- Rendering is not modelled: the JSX markup, `formatDate` (locale formatting), TaskList and the About view.
- TaskModal, the form behind create and edit, is not part of this model.
- Client and server plumbing are not modelled: axios configuration, base URL, headers, timeout and logging interceptors, the Flask app factory, CORS, and the health and init endpoints.

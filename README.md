# Task list client: model and proofs

This project models the client side of a small personal task manager in Dafny. A signed-in user keeps a list of tasks (`_id`, `title`, `completed`). Every change goes to a remote store over four REST calls. The local list changes only after the store answers.

Two parts of the client are modelled:

- **The request layer** (`src/services/todoService.js`), in module `TodoService`. `getAuthHeader` builds the headers from the stored session token. Each of the four calls (`getAllTodos`, `createTodo`, `updateTodo`, `deleteTodo`) is split in two pure functions:
  - one builds the request: HTTP verb, URL, body and headers;
  - one hands the outcome back: the response body unchanged, or the failure rethrown.

  `RequestFor` maps each `Operation` to its request.
- **The task-list component** (`src/components/TodoList.jsx`), in module `TodoListComponent`. Class `TodoList` has six fields, one for each `useState` hook. Each event handler is a method that changes those fields.
  - The remote outcome is a parameter (`Result<T>`: `Ok(value)` or `Err(failure)`).
  - The answer to `window.confirm` is a boolean parameter.
  - `FetchTodos` and `ToggleTodo` always call the service and return the `Operation` they asked for. `HandleSubmit`, `DeleteTodo`, `HandleEdit` and `EditKeyDown` return `Some` operation, or `None` when they made no remote call, so "no remote call" is something the contracts can state. The purely local handlers (`ChangeInput`, `StartEditing`, `ChangeEditValue`, `CancelEditing`) return nothing.

The new-list expressions live in module `TodoOps`, with lemmas about them: spread-append, `map` replace-by-id and `filter` remove-by-id. JavaScript's `String.prototype.trim` and the truthiness test `!s.trim()` live in module `Text`. `Outcomes` holds `Option`, `Result` and the opaque `Failure`.

On these points the model follows the code:

- Loading and deleting do not clear the edit state.
- No handler resets `error`. Once set, it stays set, possibly with a later message.
- `startEditing` and `toggleTodo` do not check that the record is in the list.
- Toggling a missing id sends the update anyway. On success this changes nothing locally.
- The draft is kept when editing is cancelled with Escape. Only `editingId` is cleared.
- A create or edit sends the text untrimmed. Trimming is used only for the blank test.
- With no stored token, the Authorization header is the literal text `Bearer null`, the way a template literal renders `null` (`TokenText`).

The methods `ToggleScenario`, `BlankSubmitScenario`, `SubmitScenario`, `EditScenario` and `DeleteScenario` are client code. They exercise the handlers' contracts on concrete lists. They are verified, not executed.

## Model

| member | source | states |
|---|---|---|
| Text.TrimStart | src/components/TodoList.jsx:32 | The result is a suffix of the input, everything dropped is whitespace, and the result does not start with whitespace (the leading half of `trim()`). |
| Text.TrimEnd | src/components/TodoList.jsx:76 | The result is a prefix of the input, everything dropped is whitespace, and the result does not end with whitespace (the trailing half of `trim()`). |
| Text.Trim | src/components/TodoList.jsx:32 | `trim()` never lengthens the string, and a non-empty result neither starts nor ends with whitespace. |
| Text.IsBlank | src/components/TodoList.jsx:76 | The guard `!s.trim()` used by both `handleSubmit` and `handleEdit`: the trimmed text is empty. Its meaning, every character is whitespace, is the lemma on the next row. |
| Text.BlankIffAllWhitespace | src/components/TodoList.jsx:32 | The guard `!inputValue.trim()` holds exactly when every character is ECMAScript whitespace or a line terminator, in both directions. |
| Text.VisibleIsNotBlank | src/components/TodoList.jsx:76 | A draft with any non-whitespace character passes the blank guard. |
| TodoService.TokenText | src/services/todoService.js:6-9 | A stored token renders as itself; a missing token (`null` from local storage) renders as the text "null". |
| TodoService.GetAuthHeader | src/services/todoService.js:5-13 | Authorization is exactly "Bearer " followed by the token's text, with no check of the token; Content-Type is always "application/json". |
| TodoService.AuthorizationRoundTrip | src/services/todoService.js:9 | Reading the credential back out of the header gives the stored token's text intact. |
| TodoService.StoredTokensNeverCollide | src/services/todoService.js:9 | Two different stored tokens never produce the same header set. |
| TodoService.MissingTokenSendsNullText | src/services/todoService.js:6-9 | With no local check, a missing token sends `Bearer null`, the same header as a stored token whose text is "null". |
| TodoService.CollectionUrl | src/services/todoService.js:18 | The collection URL is the base URL followed by exactly `/api/v1/todos`. |
| TodoService.ItemUrl | src/services/todoService.js:43 | The item URL is the collection URL, then "/", then exactly the id. |
| TodoService.ItemUrlRoundTrip | src/services/todoService.js:56 | The id can be read back from the item URL it was built into. |
| TodoService.ItemUrlInjective | src/services/todoService.js:43 | Two different ids never target the same URL. |
| TodoService.GetAllTodosRequest | src/services/todoService.js:18 | getAllTodos is a GET of `/api/v1/todos` with no body and the auth header. |
| TodoService.CreateTodoRequest | src/services/todoService.js:28-32 | createTodo is a POST to the collection whose body is `{ title }` with the title unmodified, plus the auth header. |
| TodoService.UpdateTodoRequest | src/services/todoService.js:42-46 | updateTodo is a PUT to a URL naming exactly `id`, carrying `updates` unmodified, plus the auth header. |
| TodoService.DeleteTodoRequest | src/services/todoService.js:56 | deleteTodo is a DELETE of a URL naming exactly `id`, with no body, plus the auth header. |
| TodoService.RequestFor | src/services/todoService.js:15-62 | Every one of the four operations attaches the same header set; update and delete of an id target that id's item URL; fetch and create target the collection; fetch is a bodiless GET, create a POST of `{ title }`, update a PUT of `updates`, delete a bodiless DELETE. |
| TodoService.ReturnData | src/services/todoService.js:17-23 | A resolved call yields `response.data` unchanged; a rejected call is rethrown with its failure unchanged and never becomes a value (the same code is at lines 27-37 and 41-51). |
| TodoService.ReturnNothing | src/services/todoService.js:55-60 | deleteTodo resolves with nothing exactly when the call resolves, and rethrows the failure unchanged otherwise. |
| TodoOps.Append | src/components/TodoList.jsx:35 | The new list is the old list, in order, followed by exactly the one returned record. |
| TodoOps.ReplaceById | src/components/TodoList.jsx:49 | Same length; every record with the id becomes the server record; every other record stays at its position. |
| TodoOps.RemoveById | src/components/TodoList.jsx:59 | A record is kept exactly when it was present and its `_id` differs from `id`. |
| TodoOps.ReplaceMissingIdIsIdentity | src/components/TodoList.jsx:49 | Replacing an id that no record carries leaves the list unchanged. |
| TodoOps.RemoveMissingIdIsIdentity | src/components/TodoList.jsx:59 | Deleting an id that no record carries leaves the list unchanged. |
| TodoOps.RemoveByIdDistributes | src/components/TodoList.jsx:59 | Remove-by-id distributes over concatenation, so the kept records keep their original order. |
| TodoOps.ReplaceByIdDistributes | src/components/TodoList.jsx:81 | Replace-by-id distributes over concatenation; it acts on each record on its own. |
| TodoOps.RemoveByIdLength | src/components/TodoList.jsx:59 | Deleting shortens the list by exactly the number of records with that id. |
| TodoOps.CountIdOfUnique | src/components/TodoList.jsx:59 | In a list with unique ids, an id occurs once if present and zero times if not. |
| TodoOps.RemovePresentUniqueShrinksByOne | src/components/TodoList.jsx:59 | With unique ids, deleting a present id removes exactly one record. |
| TodoOps.RemoveByIdIdempotent | src/components/TodoList.jsx:59 | Deleting the same id twice is the same as deleting it once. |
| TodoOps.ReplaceByIdIdempotent | src/components/TodoList.jsx:81 | Applying the same server record twice is the same as applying it once, whatever that record's own id. |
| TodoOps.RemoveUndoesAppend | src/components/TodoList.jsx:35 | Deleting a freshly created record, whose id was not already in the list, restores the list from before the create. |
| TodoOps.RemoveAfterReplace | src/components/TodoList.jsx:49 | Deleting an id after an update of that id (same id in the server record) gives the same list as deleting it directly. |
| TodoOps.ReplaceKeepsUniqueIds | src/components/TodoList.jsx:81 | An update whose server record keeps the id keeps the list's ids unique. |
| TodoListComponent.TodoList.constructor | src/components/TodoList.jsx:7-12 | The initial hook values: empty list, empty input, loading, no error, not editing, empty draft. |
| TodoListComponent.TodoList.FetchTodos | src/components/TodoList.jsx:18-28 | Success replaces the list wholesale; failure keeps it and sets "Failed to fetch todos"; either way loading becomes false; the input and edit state are untouched. |
| TodoListComponent.TodoList.ChangeInput | src/components/TodoList.jsx:130 | The input field's text becomes the typed value and nothing else changes. |
| TodoListComponent.TodoList.HandleSubmit | src/components/TodoList.jsx:30-42 | Blank input: no call and no state change. Otherwise the untrimmed input is sent. Success appends exactly the returned record and clears the input. Failure keeps list and input and sets "Failed to create todo". |
| TodoListComponent.TodoList.ToggleTodo | src/components/TodoList.jsx:44-53 | Sends `completed: !completed`. Success replaces the records with that id by the server record. Failure sets "Failed to update todo" and keeps the list. Nothing else changes. |
| TodoListComponent.TodoList.DeleteTodo | src/components/TodoList.jsx:55-66 | Unconfirmed: no call, no change. Confirmed: sends the delete; success removes exactly the records with that id; failure keeps the list and sets "Failed to delete todo". Edit state untouched either way. |
| TodoListComponent.TodoList.StartEditing | src/components/TodoList.jsx:68-73 | Confirmed: the record's id becomes the single edited id and its title the draft, replacing any edit in progress. Unconfirmed: no change. Nothing else is touched. |
| TodoListComponent.TodoList.ChangeEditValue | src/components/TodoList.jsx:160 | The draft becomes the typed value and nothing else changes. |
| TodoListComponent.TodoList.CancelEditing | src/components/TodoList.jsx:163 | Edit mode ends; the draft, list, input, loading flag and error stay as they were. |
| TodoListComponent.TodoList.HandleEdit | src/components/TodoList.jsx:75-88 | Blank draft: no call and no change, edit mode stays. Otherwise the untrimmed draft is sent as the title. Success replaces the records with that id and ends edit mode. Failure keeps the list, the edited id and the draft and sets "Failed to update todo". |
| TodoListComponent.TodoList.EditKeyDown | src/components/TodoList.jsx:161-164 | Enter behaves as `handleEdit`. Escape ends edit mode without a call and keeps the draft. Any other key changes nothing. |

## Left out

- Login and registration forms (`src/components/Login.jsx`, `src/components/Register.jsx`): form state, navigation and notifications. Their only logic reads the HTTP client's error shapes, which are not part of this model. Writing the token to local storage is I/O.
- Rendering, toast notifications and `console.error`: presentation and logging.
- `handleLogout`: it only removes the token from local storage and redirects the browser.
- The HTTP client and the `VITE_API_URL` environment variable. They are foreign code. The base URL is the `apiUrl` parameter, and the stored token is the `token` parameter (`None` when nothing is stored). The model describes which request is sent, not how it travels.
- The server's answer is taken to be a well-formed record (or list of records) of the `Todo` shape. The client never checks this.
- Asynchronous interleaving: each handler reads the list as of its render, so overlapping calls can lose updates. The model is sequential: each method acts on the current fields.
- The mount effect: the component calls `fetchTodos` once after it is constructed. In the model these are two steps a caller takes, `constructor` then `FetchTodos`.
- `e.preventDefault()` in `handleSubmit`: a browser event side effect.
- The model states no invariant that `editingId` names a record in the list: deleting and loading leave `editingId` as it is.
- Strings: Dafny's `string` holds Unicode scalar values, while JavaScript strings are UTF-16 code units. `trim()` is unaffected, since every code point it strips is in the Basic Multilingual Plane, but a title holding a lone surrogate cannot be represented.

/** The task-list component: its six pieces of hook state as the fields of a
    class, and each event handler as a method. Every remote call is an input
    (`response`, the outcome the service call settles with), every
    confirmation dialog a boolean, and each handler returns the service
    operation it invoked, or `None` when it made no remote call. */
module TodoListComponent {
  import opened Outcomes
  import opened Text
  import opened TodoService
  import opened TodoOps

  const FetchError: string := "Failed to fetch todos"
  const CreateError: string := "Failed to create todo"
  const UpdateError: string := "Failed to update todo"
  const DeleteError: string := "Failed to delete todo"

  /** The keys the inline edit field reacts to. */
  datatype Key = Enter | Escape | OtherKey

  class TodoList {
    var todos: seq<Todo>
    var inputValue: string
    var loading: bool
    /** The banner message; `None` is `null`. */
    var error: Option<string>
    /** The id being edited; `None` is `null`, so at most one id is edited at a time. */
    var editingId: Option<string>
    var editValue: string

    /** The initial hook values. */
    constructor ()
      ensures todos == [] && inputValue == "" && loading && error == None
      ensures editingId == None && editValue == ""
    {
      todos := [];
      inputValue := "";
      loading := true;
      error := None;
      editingId := None;
      editValue := "";
    }

    /** `fetchTodos`, run once on mount: success replaces the list wholesale,
        failure keeps it and sets the fetch error; either way loading ends.
        Editing state is left as it is. */
    method FetchTodos(response: Result<seq<Todo>>) returns (call: Operation)
      modifies this
      ensures call == GetAllTodos
      ensures !loading
      ensures response.Ok? ==> todos == response.value && error == old(error)
      ensures response.Err? ==> todos == old(todos) && error == Some(FetchError)
      ensures inputValue == old(inputValue)
      ensures editingId == old(editingId) && editValue == old(editValue)
    {
      call := GetAllTodos;
      match response
      case Ok(data) =>
        todos := data;
        loading := false;
      case Err(_) =>
        error := Some(FetchError);
        loading := false;
    }

    /** The new-task field's `onChange`. */
    method ChangeInput(value: string)
      modifies this
      ensures inputValue == value
      ensures todos == old(todos) && loading == old(loading) && error == old(error)
      ensures editingId == old(editingId) && editValue == old(editValue)
    {
      inputValue := value;
    }

    /** `handleSubmit`: a blank input makes no call and changes nothing;
        otherwise the input, untrimmed, is sent, and on success the returned
        record is appended and the input cleared, while on failure only the
        create error is set. */
    method HandleSubmit(response: Result<Todo>) returns (call: Option<Operation>)
      modifies this
      ensures IsBlank(old(inputValue)) ==> call == None && unchanged(this)
      ensures !IsBlank(old(inputValue)) ==> call == Some(CreateTodo(old(inputValue)))
      ensures !IsBlank(old(inputValue)) && response.Ok? ==>
        todos == Append(old(todos), response.value) && inputValue == "" && error == old(error)
      ensures !IsBlank(old(inputValue)) && response.Err? ==>
        todos == old(todos) && inputValue == old(inputValue) && error == Some(CreateError)
      ensures loading == old(loading)
      ensures editingId == old(editingId) && editValue == old(editValue)
    {
      if IsBlank(inputValue) {
        return None;
      }
      call := Some(CreateTodo(inputValue));
      match response
      case Ok(newTodo) =>
        todos := Append(todos, newTodo);
        inputValue := "";
      case Err(_) =>
        error := Some(CreateError);
    }

    /** `toggleTodo(id, completed)`: sends `completed: !completed`; on success
        every record with that id becomes the store's record, on failure only
        the update error is set. */
    method ToggleTodo(id: string, completed: bool, response: Result<Todo>) returns (call: Operation)
      modifies this
      ensures call == UpdateTodo(id, Updates(None, Some(!completed)))
      ensures response.Ok? ==> todos == ReplaceById(old(todos), id, response.value) && error == old(error)
      ensures response.Err? ==> todos == old(todos) && error == Some(UpdateError)
      ensures inputValue == old(inputValue) && loading == old(loading)
      ensures editingId == old(editingId) && editValue == old(editValue)
    {
      call := UpdateTodo(id, Updates(None, Some(!completed)));
      match response
      case Ok(updatedTodo) =>
        todos := ReplaceById(todos, id, updatedTodo);
      case Err(_) =>
        error := Some(UpdateError);
    }

    /** `deleteTodo(id)`: without confirmation nothing happens; once confirmed
        the delete is sent, and on success exactly the records with that id go,
        on failure only the delete error is set. Editing state is not touched. */
    method DeleteTodo(id: string, confirmed: bool, response: Result<()>) returns (call: Option<Operation>)
      modifies this
      ensures !confirmed ==> call == None && unchanged(this)
      ensures confirmed ==> call == Some(Operation.DeleteTodo(id))
      ensures confirmed && response.Ok? ==> todos == RemoveById(old(todos), id) && error == old(error)
      ensures confirmed && response.Err? ==> todos == old(todos) && error == Some(DeleteError)
      ensures inputValue == old(inputValue) && loading == old(loading)
      ensures editingId == old(editingId) && editValue == old(editValue)
    {
      if !confirmed {
        return None;
      }
      call := Some(Operation.DeleteTodo(id));
      match response
      case Ok(_) =>
        todos := RemoveById(todos, id);
      case Err(_) =>
        error := Some(DeleteError);
    }

    /** `startEditing(todo)`: once confirmed, the record becomes the one being
        edited and its title the draft, replacing any edit in progress. */
    method StartEditing(todo: Todo, confirmed: bool)
      modifies this
      ensures confirmed ==> editingId == Some(todo.id) && editValue == todo.title
      ensures !confirmed ==> editingId == old(editingId) && editValue == old(editValue)
      ensures todos == old(todos) && inputValue == old(inputValue)
      ensures loading == old(loading) && error == old(error)
    {
      if confirmed {
        editingId := Some(todo.id);
        editValue := todo.title;
      }
    }

    /** The edit field's `onChange`: the draft follows the field. */
    method ChangeEditValue(value: string)
      modifies this
      ensures editValue == value
      ensures todos == old(todos) && inputValue == old(inputValue)
      ensures loading == old(loading) && error == old(error) && editingId == old(editingId)
    {
      editValue := value;
    }

    /** Escape in the edit field: leaves edit mode, keeping the draft text. */
    method CancelEditing()
      modifies this
      ensures editingId == None
      ensures editValue == old(editValue) && todos == old(todos) && inputValue == old(inputValue)
      ensures loading == old(loading) && error == old(error)
    {
      editingId := None;
    }

    /** `handleEdit(id)`: a blank draft makes no call and keeps edit mode;
        otherwise the draft, untrimmed, is sent as the new title, and on success
        every record with that id becomes the store's record and edit mode
        ends, while on failure the edit mode and draft stay. */
    method HandleEdit(id: string, response: Result<Todo>) returns (call: Option<Operation>)
      modifies this
      ensures IsBlank(old(editValue)) ==> call == None && unchanged(this)
      ensures !IsBlank(old(editValue)) ==> call == Some(UpdateTodo(id, Updates(Some(old(editValue)), None)))
      ensures !IsBlank(old(editValue)) && response.Ok? ==>
        todos == ReplaceById(old(todos), id, response.value) && editingId == None && error == old(error)
      ensures !IsBlank(old(editValue)) && response.Err? ==>
        todos == old(todos) && editingId == old(editingId) && error == Some(UpdateError)
      ensures editValue == old(editValue) && inputValue == old(inputValue) && loading == old(loading)
    {
      if IsBlank(editValue) {
        return None;
      }
      call := Some(UpdateTodo(id, Updates(Some(editValue), None)));
      match response
      case Ok(updatedTodo) =>
        todos := ReplaceById(todos, id, updatedTodo);
        editingId := None;
      case Err(_) =>
        error := Some(UpdateError);
    }

    /** The edit field's `onKeyDown` for the record `id`: Enter commits,
        Escape cancels, any other key does nothing. */
    method EditKeyDown(key: Key, id: string, response: Result<Todo>) returns (call: Option<Operation>)
      modifies this
      ensures key.Escape? ==>
        call == None && editingId == None && todos == old(todos) && error == old(error)
      ensures key.OtherKey? ==> call == None && unchanged(this)
      ensures key.Enter? && IsBlank(old(editValue)) ==> call == None && unchanged(this)
      ensures key.Enter? && !IsBlank(old(editValue)) ==>
        call == Some(UpdateTodo(id, Updates(Some(old(editValue)), None)))
      ensures key.Enter? && !IsBlank(old(editValue)) && response.Ok? ==>
        todos == ReplaceById(old(todos), id, response.value) && editingId == None && error == old(error)
      ensures key.Enter? && !IsBlank(old(editValue)) && response.Err? ==>
        todos == old(todos) && editingId == old(editingId) && error == Some(UpdateError)
      ensures editValue == old(editValue) && inputValue == old(inputValue) && loading == old(loading)
    {
      match key
      case Enter =>
        call := HandleEdit(id, response);
      case Escape =>
        CancelEditing();
        call := None;
      case OtherKey =>
        call := None;
    }
  }

  /** Toggling takes the store's record, not a local flip. */
  method ToggleScenario()
  {
    var milk := Todo("1", "buy milk", false);
    var list := new TodoList();
    var call := list.FetchTodos(Ok([milk]));
    assert list.todos == [milk] && !list.loading;
    var up := list.ToggleTodo("1", false, Ok(Todo("1", "buy milk", true)));
    assert up == UpdateTodo("1", Updates(None, Some(true)));
    assert list.todos == [Todo("1", "buy milk", true)];
  }

  /** A blank title is never sent. */
  method BlankSubmitScenario(created: Todo)
  {
    var list := new TodoList();
    list.ChangeInput("  \t");
    BlankIffAllWhitespace("  \t");
    var sent := list.HandleSubmit(Ok(created));
    assert sent == None && list.todos == [];
  }

  /** A real title is sent as typed and the store's record is appended. */
  method SubmitScenario(created: Todo)
  {
    var list := new TodoList();
    list.ChangeInput("write spec");
    VisibleIsNotBlank("write spec", 0);
    var sent := list.HandleSubmit(Ok(created));
    assert sent == Some(CreateTodo("write spec"));
    assert list.todos == [created] && list.inputValue == "";
  }

  /** Renaming through the inline editor: a failed attempt keeps edit mode and
      the draft, and its error stays after the retry succeeds. */
  method EditScenario(boom: Failure)
  {
    var stored := Todo("2", "write spec", false);
    var list := new TodoList();
    list.StartEditing(stored, true);
    list.ChangeEditValue("write spec v2");
    VisibleIsNotBlank("write spec v2", 0);
    var sent := list.EditKeyDown(Enter, "2", Err(boom));
    assert list.editingId == Some("2") && list.editValue == "write spec v2";
    sent := list.EditKeyDown(Enter, "2", Ok(Todo("2", "write spec v2", false)));
    assert list.editingId == None && list.error == Some(UpdateError);
  }

  /** Deleting one of two records keeps the other. */
  method DeleteScenario()
  {
    var a, b := Todo("1", "buy milk", false), Todo("2", "write spec", false);
    var list := new TodoList();
    var call := list.FetchTodos(Ok([a, b]));
    var sent := list.DeleteTodo("1", false, Ok(()));
    assert sent == None && list.todos == [a, b];
    sent := list.DeleteTodo("1", true, Ok(()));
    assert list.todos == [b];
  }
}

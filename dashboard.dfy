/** The dashboard page (src/pages/Dashboard.jsx in the front end): its state cells and the
    handlers that update them from the answers of the todo API. */
module Dashboard {
  import opened Basics
  import opened Strings
  import opened TodoModel
  import opened ClientAuth
  import opened ClientApp

  const FetchFailed: string := "Failed to fetch todos"
  const AddFailed: string := "Failed to add todo"
  const UpdateFailed: string := "Failed to update todo"
  const DeleteFailed: string := "Failed to delete todo"

  /** What an awaited API call gives the handler: the response data, or a thrown error. */
  datatype ApiResult<T> = Received(data: T) | Failed

  /** `todos.map((todo) => todo._id === id ? t : todo)`. */
  function ReplaceById(todos: seq<Todo>, id: TodoId, t: Todo): (r: seq<Todo>)
    ensures |r| == |todos|
    ensures forall k :: 0 <= k < |todos| && todos[k].id != id ==> r[k] == todos[k]
    ensures forall k :: 0 <= k < |todos| && todos[k].id == id ==> r[k] == t
  {
    if todos == [] then []
    else [if todos[0].id == id then t else todos[0]] + ReplaceById(todos[1..], id, t)
  }

  /** `todos.filter((todo) => todo._id !== id)`. */
  function RemoveById(todos: seq<Todo>, id: TodoId): (r: seq<Todo>)
    ensures |r| <= |todos|
    ensures forall x :: x in r <==> x in todos && x.id != id
  {
    if todos == [] then []
    else (if todos[0].id == id then [] else [todos[0]]) + RemoveById(todos[1..], id)
  }

  /** Both list updates work piece by piece. */
  lemma ReplaceConcat(a: seq<Todo>, b: seq<Todo>, id: TodoId, t: Todo)
    ensures ReplaceById(a + b, id, t) == ReplaceById(a, id, t) + ReplaceById(b, id, t)
  {
    var l, r := ReplaceById(a + b, id, t), ReplaceById(a, id, t) + ReplaceById(b, id, t);
    forall k | 0 <= k < |l|
      ensures l[k] == r[k]
    {
      if k < |a| {
        assert (a + b)[k] == a[k];
      } else {
        assert (a + b)[k] == b[k - |a|];
      }
    }
  }

  lemma {:induction false} RemoveConcat(a: seq<Todo>, b: seq<Todo>, id: TodoId)
    ensures RemoveById(a + b, id) == RemoveById(a, id) + RemoveById(b, id)
  {
    if a != [] {
      assert (a + b)[1..] == a[1..] + b;
      RemoveConcat(a[1..], b, id);
    } else {
      assert a + b == b;
    }
  }

  /** A list without the id is left as it is by either update. */
  lemma {:induction false} AbsentIdUntouched(todos: seq<Todo>, id: TodoId, t: Todo)
    requires forall x :: x in todos ==> x.id != id
    ensures ReplaceById(todos, id, t) == todos
    ensures RemoveById(todos, id) == todos
  {
    if todos != [] {
      AbsentIdUntouched(todos[1..], id, t);
    }
  }

  /** The dashboard's state cells, taken together. */
  datatype Cells = Cells(todos: seq<Todo>, newTodo: string, loading: bool, error: string,
                         editingId: Option<TodoId>, editText: string)

  class DashboardPage {
    var todos: seq<Todo>
    var newTodo: string
    var loading: bool
    var error: string
    var editingId: Option<TodoId>
    var editText: string

    function State(): Cells
      reads this
    {
      Cells(todos, newTodo, loading, error, editingId, editText)
    }

    /** The first render: no todos, an empty input, loading, no error, not editing. */
    constructor ()
      ensures State() == Cells([], "", true, "", None, "")
    {
      todos, newTodo, loading, error, editingId, editText := [], "", true, "", None, "";
    }

    /** `fetchTodos`: the list becomes the response, or the error is set; either way loading
        ends. */
    method FetchTodos(response: ApiResult<seq<Todo>>)
      modifies this
      ensures response.Received? ==> State() == old(State()).(todos := response.data, loading := false)
      ensures response.Failed? ==> State() == old(State()).(error := FetchFailed, loading := false)
    {
      match response {
        case Received(data) =>
          todos := data;
        case Failed =>
          error := FetchFailed;
      }
      loading := false;
    }

    /** The input's `onChange`. */
    method TypeNewTodo(text: string)
      modifies this
      ensures State() == old(State()).(newTodo := text)
    {
      newTodo := text;
    }

    /** `handleAddTodo`: a blank input sends nothing and changes nothing; otherwise the input
        is posted as the title, and the created todo goes first and the input is cleared, or
        the error is set. `sent` is the posted title. */
    method AddTodo(response: ApiResult<Todo>) returns (sent: Option<string>)
      modifies this
      ensures Trim(old(newTodo)) == "" ==> sent == None && State() == old(State())
      ensures Trim(old(newTodo)) != "" ==> sent == Some(old(newTodo))
      ensures Trim(old(newTodo)) != "" && response.Received? ==>
        State() == old(State()).(todos := [response.data] + old(todos), newTodo := "")
      ensures Trim(old(newTodo)) != "" && response.Failed? ==> State() == old(State()).(error := AddFailed)
    {
      if Trim(newTodo) == "" {
        return None;
      }
      sent := Some(newTodo);
      match response {
        case Received(data) =>
          todos := [data] + todos;
          newTodo := "";
        case Failed =>
          error := AddFailed;
      }
    }

    /** `handleToggleComplete(id, completed)`: sends the negation of `completed`; the answer
        replaces the todo with that id, or the error is set. */
    method ToggleComplete(id: TodoId, completed: bool, response: ApiResult<Todo>) returns (sent: bool)
      modifies this
      ensures sent == !completed
      ensures response.Received? ==> State() == old(State()).(todos := ReplaceById(old(todos), id, response.data))
      ensures response.Failed? ==> State() == old(State()).(error := UpdateFailed)
    {
      sent := !completed;
      match response {
        case Received(data) =>
          todos := ReplaceById(todos, id, data);
        case Failed =>
          error := UpdateFailed;
      }
    }

    /** `handleDelete(id)`: on success the todo with that id is dropped and the rest keep
        their order; otherwise the error is set. */
    method Delete(id: TodoId, response: ApiResult<()>)
      modifies this
      ensures response.Received? ==> State() == old(State()).(todos := RemoveById(old(todos), id))
      ensures response.Failed? ==> State() == old(State()).(error := DeleteFailed)
    {
      match response {
        case Received(_) =>
          todos := RemoveById(todos, id);
        case Failed =>
          error := DeleteFailed;
      }
    }

    /** `handleEdit(todo)`: editing starts with the todo's id and title. */
    method Edit(todo: Todo)
      modifies this
      ensures State() == old(State()).(editingId := Some(todo.id), editText := todo.title)
    {
      editingId := Some(todo.id);
      editText := todo.title;
    }

    /** The edit field's `onChange`. */
    method TypeEditText(text: string)
      modifies this
      ensures State() == old(State()).(editText := text)
    {
      editText := text;
    }

    /** `handleCancelEdit`: editing ends and the text is cleared. */
    method CancelEdit()
      modifies this
      ensures State() == old(State()).(editingId := None, editText := "")
    {
      editingId := None;
      editText := "";
    }

    /** `handleSaveEdit(id)`: blank text sends nothing and changes nothing; otherwise the text
        is sent as the title, and the answer replaces the todo and ends editing, or the error
        is set and editing goes on. `sent` is the title sent. */
    method SaveEdit(id: TodoId, response: ApiResult<Todo>) returns (sent: Option<string>)
      modifies this
      ensures Trim(old(editText)) == "" ==> sent == None && State() == old(State())
      ensures Trim(old(editText)) != "" ==> sent == Some(old(editText))
      ensures Trim(old(editText)) != "" && response.Received? ==>
        State() == old(State()).(todos := ReplaceById(old(todos), id, response.data), editingId := None, editText := "")
      ensures Trim(old(editText)) != "" && response.Failed? ==> State() == old(State()).(error := UpdateFailed)
    {
      if Trim(editText) == "" {
        return None;
      }
      sent := Some(editText);
      match response {
        case Received(data) =>
          todos := ReplaceById(todos, id, data);
          editingId := None;
          editText := "";
        case Failed =>
          error := UpdateFailed;
      }
    }
  }

  /** `handleLogout`: the token is removed and the application's cell cleared, so the guard
      sends the browser to the login form. */
  method Logout(b: Browser, app: AppState)
    modifies b, app
    ensures b.storage == old(b.storage) - {TokenKey} && b.pathname == old(b.pathname)
    ensures !b.IsAuthenticated() && !app.isAuthenticated
    ensures app.Render("/") == Redirect("/login")
  {
    b.RemoveToken();
    app.OnLogout();
  }
}

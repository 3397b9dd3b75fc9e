/** The todo document of models/Todo.js: a required title that the schema setter trims,
    `completed` defaulting to false, a required owner reference, and a creation time kept
    by the store. */
module TodoModel {
  import opened Basics
  import opened Strings
  import opened UserModel

  /** The `_id` of a todo; a natural number stands for the ObjectId. */
  type TodoId = nat

  /** A saved todo. `createdAt` is the store's clock at insertion (the `timestamps` option). */
  datatype Todo = Todo(id: TodoId, title: string, completed: bool, owner: UserId, createdAt: nat)

  /** What validation guarantees of every saved todo: a non-empty title with nothing to trim. */
  predicate WellFormed(t: Todo) {
    t.title != "" && Trimmed(t.title)
  }

  /** The message of the validation error that `save()` throws for an empty title. */
  const TitleRequiredError: string := "Todo validation failed: title: Path `title` is required."

  /** Validation on save: the failing paths in schema order. `title` is required, and a
      required string fails when it is empty; `user` is required. */
  function TodoErrors(title: Option<string>, owner: Option<UserId>): (errs: seq<string>)
    ensures errs == [] <==> title.Some? && title.value != "" && owner.Some?
    ensures "title" in errs <==> title.None? || title.value == ""
    ensures "user" in errs <==> owner.None?
  {
    (if title.None? || title.value == "" then ["title"] else [])
    + (if owner.None? then ["user"] else [])
  }

  /** `new Todo({ title, completed, user }).save()`, with the id and the creation time chosen
      by the store: the `trim` setter applies to the title, `completed` takes its default when
      absent, and validation either accepts the document or names the failing paths. */
  function NewTodo(id: TodoId, createdAt: nat, title: Option<string>, completed: Option<bool>, owner: Option<UserId>)
    : (r: Result<Todo, seq<string>>)
    ensures r.Ok? <==> title.Some? && Trim(title.value) != "" && owner.Some?
    ensures r.Ok? ==> && WellFormed(r.value)
                      && r.value.title == Trim(title.value)
                      && r.value.completed == (completed.Some? && completed.value)
                      && r.value.owner == owner.value
                      && r.value.id == id && r.value.createdAt == createdAt
    ensures r.Err? ==> ("title" in r.error <==> title.None? || Trim(title.value) == "")
    ensures r.Err? ==> ("user" in r.error <==> owner.None?)
  {
    var t := if title.Some? then Some(Trim(title.value)) else None;
    var errs := TodoErrors(t, owner);
    if errs != [] then Err(errs)
    else Ok(Todo(id, t.value, if completed.Some? then completed.value else false, owner.value, createdAt))
  }

  /** A title with nothing to trim is stored exactly as given. */
  lemma NewTodoKeepsTrimmedTitle(id: TodoId, createdAt: nat, title: string, owner: UserId)
    requires title != "" && Trimmed(title)
    ensures NewTodo(id, createdAt, Some(title), None, Some(owner)) == Ok(Todo(id, title, false, owner, createdAt))
  {
    TrimOfTrimmed(title);
  }

  /** A blank title, one made only of white space, is rejected whatever else is given. */
  lemma NewTodoRejectsBlank(id: TodoId, createdAt: nat, title: string, completed: Option<bool>, owner: Option<UserId>)
    requires AllSpace(title)
    ensures NewTodo(id, createdAt, Some(title), completed, owner).Err?
  {
    TrimEmptyIffAllSpace(title);
  }

  /** Assigning the fields that were supplied to a saved todo and saving it again: the title
      goes through the `trim` setter, and an empty result fails validation, which leaves the
      stored document as it was. */
  function Revise(t: Todo, title: Option<string>, completed: Option<bool>): (r: Result<Todo, string>)
    requires WellFormed(t)
    ensures r.Err? <==> title.Some? && Trim(title.value) == ""
    ensures r.Err? ==> r.error == TitleRequiredError
    ensures r.Ok? ==> && WellFormed(r.value)
                      && r.value.id == t.id && r.value.owner == t.owner && r.value.createdAt == t.createdAt
                      && r.value.title == (if title.Some? then Trim(title.value) else t.title)
                      && r.value.completed == (if completed.Some? then completed.value else t.completed)
  {
    var newTitle := if title.Some? then Trim(title.value) else t.title;
    var newCompleted := if completed.Some? then completed.value else t.completed;
    if newTitle == "" then Err(TitleRequiredError)
    else Ok(t.(title := newTitle, completed := newCompleted))
  }

  /** Supplying nothing changes nothing. */
  lemma ReviseNothing(t: Todo)
    requires WellFormed(t)
    ensures Revise(t, None, None) == Ok(t)
  {
  }

  /** Sending the same update twice has the effect of sending it once. */
  lemma ReviseIdempotent(t: Todo, title: Option<string>, completed: Option<bool>)
    requires WellFormed(t)
    requires Revise(t, title, completed).Ok?
    ensures Revise(Revise(t, title, completed).value, title, completed) == Revise(t, title, completed)
  {
    if title.Some? {
      TrimIdempotent(title.value);
    }
  }
}

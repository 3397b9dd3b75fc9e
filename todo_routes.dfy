/** The todo router of routes/todos.js over the todo collection: every route runs behind
    `authenticate`, and every query is scoped to the authenticated user. */
module TodoRoutes {
  import opened Basics
  import opened Strings
  import opened UserModel
  import opened TodoModel
  import opened AuthMiddleware

  /** The JSON bodies the router writes. */
  datatype Body =
    | Todos(todos: seq<Todo>)      // `res.json(todos)`
    | One(todo: Todo)              // `res.json(todo)`
    | Message(message: string)     // `{ message }`
    | Failure(error: string)       // `{ error }`
    | Invalid(paths: seq<string>)  // `{ errors: errors.array() }`, one entry per failing field
    | PassedOn                     // no route matched: `next()`, and the application's 404 handler answers

  const NotFoundError: string := "Todo not found"
  const DeletedMessage: string := "Todo deleted successfully"

  /** Insertion order is creation order: ids and creation times strictly increase. */
  predicate Chronological(todos: seq<Todo>) {
    forall i, j :: 0 <= i < j < |todos| ==> todos[i].createdAt < todos[j].createdAt && todos[i].id < todos[j].id
  }

  /** In a chronological collection the last todo is the newest, and what comes before it is
      chronological too. */
  lemma LastIsNewest(todos: seq<Todo>)
    requires todos != []
    ensures Chronological(todos) ==> Chronological(todos[..|todos| - 1])
    ensures Chronological(todos) ==> forall t :: t in todos[..|todos| - 1] ==> t.createdAt < todos[|todos| - 1].createdAt
  {
  }

  /** `Todo.find({ user }).sort({ createdAt: -1 })` over a collection kept in insertion order:
      exactly the owner's todos, latest insertion first. */
  function Listing(todos: seq<Todo>, owner: UserId): (r: seq<Todo>)
    ensures |r| <= |todos|
    ensures forall t :: t in r <==> t in todos && t.owner == owner
  {
    if todos == [] then [] else
      var n := |todos| - 1;
      assert todos == todos[..n] + [todos[n]];
      (if todos[n].owner == owner then [todos[n]] else []) + Listing(todos[..n], owner)
  }

  /** Over a chronological collection the listing is strictly newest first. */
  lemma {:induction false} ListingNewestFirst(todos: seq<Todo>, owner: UserId)
    requires Chronological(todos)
    ensures forall i, j :: 0 <= i < j < |Listing(todos, owner)| ==> Listing(todos, owner)[i].createdAt > Listing(todos, owner)[j].createdAt
  {
    if todos != [] {
      var n := |todos| - 1;
      var front, last := todos[..n], todos[n];
      var rest := Listing(front, owner);
      var head := if last.owner == owner then [last] else [];
      assert Listing(todos, owner) == head + rest;
      LastIsNewest(todos);
      ListingNewestFirst(front, owner);
      assert forall t :: t in rest ==> t.createdAt < last.createdAt;
      PrependNewest(last, head, rest);
    }
  }

  /** Putting a todo newer than all of a newest-first list in front keeps it newest first. */
  lemma PrependNewest(last: Todo, head: seq<Todo>, rest: seq<Todo>)
    requires head == [] || head == [last]
    requires forall t :: t in rest ==> t.createdAt < last.createdAt
    requires forall i, j :: 0 <= i < j < |rest| ==> rest[i].createdAt > rest[j].createdAt
    ensures forall i, j :: 0 <= i < j < |head + rest| ==> (head + rest)[i].createdAt > (head + rest)[j].createdAt
  {
    var r := head + rest;
    forall i, j | 0 <= i < j < |r|
      ensures r[i].createdAt > r[j].createdAt
    {
      assert r[j] == rest[j - |head|];
      if i >= |head| {
        assert r[i] == rest[i - |head|];
      }
    }
  }

  /** The listing of one todo. */
  lemma ListingSingle(t: Todo, owner: UserId)
    ensures Listing([t], owner) == if t.owner == owner then [t] else []
  {
    assert [t][..0] == [];
  }

  /** The listing of a collection in two parts is the later part's listing, then the earlier's. */
  lemma {:induction false} ListingConcat(a: seq<Todo>, b: seq<Todo>, owner: UserId)
    ensures Listing(a + b, owner) == Listing(b, owner) + Listing(a, owner)
    decreases |b|
  {
    if b == [] {
      assert a + b == a;
    } else {
      var n := |b| - 1;
      assert (a + b)[..|a + b| - 1] == a + b[..n];
      ListingConcat(a, b[..n], owner);
    }
  }

  /** The listing seen after appending `t`: `t` first when the owner is `t`'s, else as before. */
  lemma ListingAppend(todos: seq<Todo>, t: Todo, owner: UserId)
    ensures Listing(todos + [t], owner) == (if t.owner == owner then [t] else []) + Listing(todos, owner)
  {
    ListingConcat(todos, [t], owner);
    ListingSingle(t, owner);
  }

  /** Replacing the todo at `i` by one of the same owner: only that owner's listing changes. */
  lemma ListingReplace(todos: seq<Todo>, i: nat, t: Todo, owner: UserId)
    requires i < |todos| && t.owner == todos[i].owner
    ensures Listing(todos[i := t], owner) == Listing(todos[i + 1..], owner) + (if t.owner == owner then [t] else []) + Listing(todos[..i], owner)
    ensures owner != t.owner ==> Listing(todos[i := t], owner) == Listing(todos, owner)
  {
    var after := todos[i := t];
    assert after[..i] == todos[..i] && after[i + 1..] == todos[i + 1..];
    ListingSplit(after, i, owner);
    ListingSingle(t, owner);
    if owner != t.owner {
      ListingSplit(todos, i, owner);
      ListingSingle(todos[i], owner);
    }
  }

  /** Removing the todo at `i`: other owners' listings do not change. */
  lemma ListingRemove(todos: seq<Todo>, i: nat, owner: UserId)
    requires i < |todos|
    ensures Listing(todos[..i] + todos[i + 1..], owner) == Listing(todos[i + 1..], owner) + Listing(todos[..i], owner)
    ensures owner != todos[i].owner ==> Listing(todos[..i] + todos[i + 1..], owner) == Listing(todos, owner)
  {
    ListingConcat(todos[..i], todos[i + 1..], owner);
    if owner != todos[i].owner {
      ListingSkip(todos, i, owner);
    }
  }

  /** A todo of someone else's contributes nothing to the owner's listing. */
  lemma ListingSkip(todos: seq<Todo>, i: nat, owner: UserId)
    requires i < |todos| && owner != todos[i].owner
    ensures Listing(todos, owner) == Listing(todos[i + 1..], owner) + Listing(todos[..i], owner)
  {
    ListingSplit(todos, i, owner);
    ListingSingle(todos[i], owner);
    var la, lb := Listing(todos[..i], owner), Listing(todos[i + 1..], owner);
    assert lb + [] + la == lb + la;
  }

  /** The listing of a collection around position `i`. */
  lemma ListingSplit(todos: seq<Todo>, i: nat, owner: UserId)
    requires i < |todos|
    ensures Listing(todos, owner) == Listing(todos[i + 1..], owner) + Listing([todos[i]], owner) + Listing(todos[..i], owner)
  {
    var a, b := todos[..i], todos[i + 1..];
    assert todos == (a + [todos[i]]) + b;
    ListingConcat(a + [todos[i]], b, owner);
    ListingConcat(a, [todos[i]], owner);
  }

  /** `Todo.findOne({ _id: id, user: owner })`: the position of the todo with that id, if the
      owner owns it. */
  function FindOwned(todos: seq<Todo>, id: TodoId, owner: UserId): (r: Option<nat>)
    ensures r.Some? ==> r.value < |todos| && todos[r.value].id == id && todos[r.value].owner == owner
    ensures r.None? <==> forall k :: 0 <= k < |todos| ==> !(todos[k].id == id && todos[k].owner == owner)
  {
    if todos == [] then None
    else if todos[|todos| - 1].id == id && todos[|todos| - 1].owner == owner then Some(|todos| - 1)
    else
      var r := FindOwned(todos[..|todos| - 1], id, owner);
      assert r.None? ==> forall k :: 0 <= k < |todos| - 1 ==> todos[..|todos| - 1][k] == todos[k];
      r
  }

  /** Ids are unique in a chronological collection, so the todo found is the one with that id. */
  lemma FindOwnedUnique(todos: seq<Todo>, k: nat, owner: UserId)
    requires Chronological(todos) && k < |todos| && todos[k].owner == owner
    ensures FindOwned(todos, todos[k].id, owner) == Some(k)
  {
  }

  /** Casting the `:id` path parameter: ids travel as their decimal numerals, and anything
      else fails the cast. Exactly the numerals of ids are accepted. */
  function ParseId(s: string): (r: Option<TodoId>)
    ensures r.Some? ==> Decimal(r.value) == s
    ensures r.None? ==> forall n: TodoId :: Decimal(n) != s
  {
    if IsNumeral(s) then
      DecimalOfParse(s);
      Some(ParseDecimal(s))
    else None
  }

  /** The id a client puts in the path is the id the server reads back. */
  lemma ParseIdOfDecimal(n: TodoId)
    ensures ParseId(Decimal(n)) == Some(n)
  {
    DecimalInjective(ParseId(Decimal(n)).value, n);
  }

  /** The message of the cast error `findOne` throws for a malformed id. */
  function CastError(s: string): string {
    "Cast to ObjectId failed for value \"" + s + "\" (type string) at path \"_id\" for model \"Todo\""
  }

  /** Inside a successful request every todo of one owner other than the caller stays where it was. */
  ghost predicate OthersUnchanged(before: seq<Todo>, after: seq<Todo>, caller: UserId) {
    forall o: UserId :: o != caller ==> Listing(after, o) == Listing(before, o)
  }

  /** A request that appends a todo of the caller's changes no one else's listing. */
  lemma OthersAfterAppend(todos: seq<Todo>, t: Todo, caller: UserId)
    requires t.owner == caller
    ensures OthersUnchanged(todos, todos + [t], caller)
  {
    forall o: UserId | o != caller
      ensures Listing(todos + [t], o) == Listing(todos, o)
    {
      ListingAppend(todos, t, o);
    }
  }

  /** Neither does one that replaces a todo of the caller's by another of the caller's. */
  lemma OthersAfterReplace(todos: seq<Todo>, i: nat, t: Todo, caller: UserId)
    requires i < |todos| && todos[i].owner == caller && t.owner == caller
    ensures OthersUnchanged(todos, todos[i := t], caller)
  {
    forall o: UserId | o != caller
      ensures Listing(todos[i := t], o) == Listing(todos, o)
    {
      ListingReplace(todos, i, t, o);
    }
  }

  /** Nor one that removes a todo of the caller's. */
  lemma OthersAfterRemove(todos: seq<Todo>, i: nat, caller: UserId)
    requires i < |todos| && todos[i].owner == caller
    ensures OthersUnchanged(todos, todos[..i] + todos[i + 1..], caller)
  {
    forall o: UserId | o != caller
      ensures Listing(todos[..i] + todos[i + 1..], o) == Listing(todos, o)
    {
      ListingRemove(todos, i, o);
    }
  }

  /** What the store keeps true of its collection: creation order, todos that passed
      validation, and ids and creation times below the two counters. */
  ghost predicate Sound(todos: seq<Todo>, nextId: TodoId, clock: nat) {
    && Chronological(todos)
    && forall i :: 0 <= i < |todos| ==> WellFormed(todos[i]) && todos[i].id < nextId && todos[i].createdAt < clock
  }

  /** Saving a new todo with the next id at the current time keeps the collection sound. */
  lemma SoundAppend(todos: seq<Todo>, nextId: TodoId, clock: nat, t: Todo)
    requires Sound(todos, nextId, clock)
    requires WellFormed(t) && t.id == nextId && t.createdAt == clock
    ensures Sound(todos + [t], nextId + 1, clock + 1)
  {
  }

  /** Revising a todo in place, keeping its id and creation time, keeps it sound. */
  lemma SoundReplace(todos: seq<Todo>, nextId: TodoId, clock: nat, i: nat, t: Todo)
    requires Sound(todos, nextId, clock) && i < |todos|
    requires WellFormed(t) && t.id == todos[i].id && t.createdAt == todos[i].createdAt
    ensures Sound(todos[i := t], nextId, clock)
  {
  }

  /** Removing a todo keeps the rest sound. */
  lemma SoundRemove(todos: seq<Todo>, nextId: TodoId, clock: nat, i: nat)
    requires Sound(todos, nextId, clock) && i < |todos|
    ensures Sound(todos[..i] + todos[i + 1..], nextId, clock)
  {
    var rest := todos[..i] + todos[i + 1..];
    assert forall k :: 0 <= k < |rest| ==> rest[k] == if k < i then todos[k] else todos[k + 1];
  }

  /** The requests the router serves, with the body fields it reads. */
  datatype Request =
    | ListTodos                                                     // GET /
    | CreateTodo(title: Option<string>)                             // POST /
    | UpdateTodo(id: string, title: Option<string>, completed: Option<bool>)  // PUT /:id
    | DeleteTodo(id: string)                                        // DELETE /:id
    | Unrouted                                                      // anything else under the mount

  /** The todo collection, in insertion order, with the next id and the next creation time. */
  class TodoStore {
    var todos: seq<Todo>
    var nextId: TodoId
    var clock: nat

    ghost predicate Valid()
      reads this
    {
      Sound(todos, nextId, clock)
    }

    constructor ()
      ensures Valid() && todos == []
    {
      todos, nextId, clock := [], 0, 0;
    }

    /** GET `/`: the caller's todos, newest first. Nothing changes. */
    method List(caller: UserId) returns (reply: Reply<Body>)
      requires Valid()
      ensures reply.status == 200 && reply.body.Todos?
      ensures forall t :: t in reply.body.todos <==> t in todos && t.owner == caller
      ensures forall i, j :: 0 <= i < j < |reply.body.todos| ==> reply.body.todos[i].createdAt > reply.body.todos[j].createdAt
      ensures reply.body.todos == Listing(todos, caller)
    {
      var listing := Listing(todos, caller);
      ListingNewestFirst(todos, caller);
      reply := Reply(200, Todos(listing));
    }

    /** POST `/`: `body('title').trim().notEmpty()` rejects a missing or blank title with 400
        and creates nothing; otherwise the trimmed title is saved as a new todo of the
        caller's, not completed, and returned with 201. */
    method Create(caller: UserId, title: Option<string>) returns (reply: Reply<Body>)
      requires Valid()
      modifies this
      ensures Valid()
      ensures title.None? || Trim(title.value) == "" ==>
        reply == Reply(400, Invalid(["title"])) && todos == old(todos) && nextId == old(nextId) && clock == old(clock)
      ensures title.Some? && Trim(title.value) != "" ==>
        var t := Todo(old(nextId), Trim(title.value), false, caller, old(clock));
        && todos == old(todos) + [t] && reply == Reply(201, One(t))
      ensures OthersUnchanged(old(todos), todos, caller)
    {
      if title.None? || Trim(title.value) == "" {
        reply := Reply(400, Invalid(["title"]));
        return;
      }
      // the validator's sanitiser already trimmed the title; the schema setter trims it again
      var sanitised := Trim(title.value);
      TrimIdempotent(title.value);
      var saved := NewTodo(nextId, clock, Some(sanitised), None, Some(caller));
      var t := saved.value;
      OthersAfterAppend(todos, t, caller);
      SoundAppend(todos, nextId, clock, t);
      todos := todos + [t];
      nextId := nextId + 1;
      clock := clock + 1;
      reply := Reply(201, One(t));
    }

    /** PUT `/:id`: a malformed id fails with 500; an id the caller does not own answers 404;
        otherwise the supplied fields are assigned and the todo saved, which fails with 500
        when the title is blank. Failures change nothing; success changes that one todo. */
    method Update(caller: UserId, id: string, title: Option<string>, completed: Option<bool>) returns (reply: Reply<Body>)
      requires Valid()
      modifies this
      ensures Valid() && nextId == old(nextId) && clock == old(clock)
      ensures ParseId(id).None? ==> reply == Reply(500, Failure(CastError(id))) && todos == old(todos)
      ensures ParseId(id).Some? && FindOwned(old(todos), ParseId(id).value, caller).None? ==>
        reply == Reply(404, Failure(NotFoundError)) && todos == old(todos)
      ensures ParseId(id).Some? && FindOwned(old(todos), ParseId(id).value, caller).Some? ==>
        var i := FindOwned(old(todos), ParseId(id).value, caller).value;
        match Revise(old(todos)[i], title, completed)
        case Err(e) => reply == Reply(500, Failure(e)) && todos == old(todos)
        case Ok(t) => reply == Reply(200, One(t)) && todos == old(todos)[i := t]
      ensures OthersUnchanged(old(todos), todos, caller)
    {
      var key := ParseId(id);
      if key.None? {
        reply := Reply(500, Failure(CastError(id)));
        return;
      }
      var found := FindOwned(todos, key.value, caller);
      if found.None? {
        reply := Reply(404, Failure(NotFoundError));
        return;
      }
      var i := found.value;
      match Revise(todos[i], title, completed) {
        case Err(e) =>
          reply := Reply(500, Failure(e));
        case Ok(t) =>
          OthersAfterReplace(todos, i, t, caller);
          SoundReplace(todos, nextId, clock, i, t);
          todos := todos[i := t];
          reply := Reply(200, One(t));
      }
    }

    /** DELETE `/:id`: a malformed id fails with 500; an id the caller does not own answers
        404 and changes nothing; otherwise exactly that todo is removed and the rest keep
        their order. */
    method Delete(caller: UserId, id: string) returns (reply: Reply<Body>)
      requires Valid()
      modifies this
      ensures Valid() && nextId == old(nextId) && clock == old(clock)
      ensures ParseId(id).None? ==> reply == Reply(500, Failure(CastError(id))) && todos == old(todos)
      ensures ParseId(id).Some? && FindOwned(old(todos), ParseId(id).value, caller).None? ==>
        reply == Reply(404, Failure(NotFoundError)) && todos == old(todos)
      ensures ParseId(id).Some? && FindOwned(old(todos), ParseId(id).value, caller).Some? ==>
        var i := FindOwned(old(todos), ParseId(id).value, caller).value;
        reply == Reply(200, Message(DeletedMessage)) && todos == old(todos)[..i] + old(todos)[i + 1..]
      ensures OthersUnchanged(old(todos), todos, caller)
    {
      var key := ParseId(id);
      if key.None? {
        reply := Reply(500, Failure(CastError(id)));
        return;
      }
      var found := FindOwned(todos, key.value, caller);
      if found.None? {
        reply := Reply(404, Failure(NotFoundError));
        return;
      }
      var i := found.value;
      OthersAfterRemove(todos, i, caller);
      SoundRemove(todos, nextId, clock, i);
      todos := todos[..i] + todos[i + 1..];
      reply := Reply(200, Message(DeletedMessage));
    }

    /** The router: `authenticate` first, answering 401 and changing nothing unless it passes;
        then the route, for the authenticated user, or the application's 404 when none
        matches. No route answers 401 of its own, and a request never changes the listing of
        any other user. */
    method Handle(header: Option<string>, verify: string -> Option<UserId>, findById: UserId -> Lookup<StoredUser>, request: Request)
      returns (reply: Reply<Body>)
      requires Valid()
      modifies this
      ensures Valid()
      ensures reply.status == 401 <==> !Decide(header, verify, findById).Pass?
      ensures !Decide(header, verify, findById).Pass? ==>
        && reply == Reply(401, Failure(RejectionMessage(Decide(header, verify, findById))))
        && todos == old(todos) && nextId == old(nextId) && clock == old(clock)
      ensures Decide(header, verify, findById).Pass? ==>
        OthersUnchanged(old(todos), todos, Decide(header, verify, findById).user.id)
      ensures request.ListTodos? && Decide(header, verify, findById).Pass? ==>
        reply == Reply(200, Todos(Listing(todos, Decide(header, verify, findById).user.id))) && todos == old(todos)
    {
      var verdict := Decide(header, verify, findById);
      if !verdict.Pass? {
        reply := Reply(401, Failure(RejectionMessage(verdict)));
        return;
      }
      var caller := verdict.user.id;
      match request {
        case ListTodos =>
          reply := List(caller);
        case CreateTodo(title) =>
          reply := Create(caller, title);
        case UpdateTodo(id, title, completed) =>
          reply := Update(caller, id, title, completed);
        case DeleteTodo(id) =>
          reply := Delete(caller, id);
        case Unrouted =>
          reply := Reply(404, PassedOn);
      }
    }
  }
}

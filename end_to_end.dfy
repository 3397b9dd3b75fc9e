/** The client and the server together: the token the client attaches is the one the server's
    middleware accepts, and the dashboard's list stays exactly the caller's listing on the
    server through every handler, whether the request succeeds or fails. */
module EndToEnd {
  import opened Basics
  import opened Strings
  import opened UserModel
  import opened Tokens
  import opened TodoModel
  import opened AuthMiddleware
  import opened TodoRoutes
  import opened ClientAuth
  import opened ClientApi
  import opened Dashboard

  /** A token the server issued and the client stored is attached as `Bearer <token>`, and
      the middleware lets that request through as its user. */
  lemma StoredTokenPasses<U>(s: Signer, id: UserId, findById: UserId -> Lookup<U>, u: U,
                             storage: map<string, string>, config: Config)
    requires SoundSigner(s) && findById(id) == Found(u)
    requires StoredAt(storage, TokenKey) == Some(s.sign(id))
    ensures var c := WithToken(config, StoredAt(storage, TokenKey));
            && AuthorizationHeader in c.headers
            && Decide(Some(c.headers[AuthorizationHeader]), s.verify, findById) == Pass(u)
  {
    IssuedTokenPasses(s, id, findById, u);
  }

  /** A request sent without a stored token carries no `Authorization` header of the
      client's making, so the server answers 401 `Authentication required`. */
  lemma NoTokenNoHeader(config: Config, verify: string -> Option<UserId>, findById: UserId -> Lookup<StoredUser>)
    requires AuthorizationHeader !in config.headers
    ensures AuthorizationHeader !in WithToken(config, None).headers
    ensures Decide(None, verify, findById) == Missing
  {
  }

  /** The caller's listing around one of the caller's todos: the newer ones, the todo, the
      older ones. */
  lemma ListingAround(s: seq<Todo>, i: nat, owner: UserId)
    requires i < |s| && s[i].owner == owner
    ensures Listing(s, owner) == Listing(s[i + 1..], owner) + [s[i]] + Listing(s[..i], owner)
  {
    ListingReplace(s, i, s[i], owner);
    assert s[i := s[i]] == s;
  }

  /** In a chronological collection no other todo has the id of the one at `i`. */
  lemma OthersLackId(s: seq<Todo>, i: nat, owner: UserId)
    requires Chronological(s) && i < |s|
    ensures forall x :: x in Listing(s[i + 1..], owner) ==> x.id != s[i].id
    ensures forall x :: x in Listing(s[..i], owner) ==> x.id != s[i].id
  {
    forall x | x in Listing(s[i + 1..], owner)
      ensures x.id != s[i].id
    {
      var k :| 0 <= k < |s[i + 1..]| && s[i + 1..][k] == x;
      assert x == s[i + 1 + k];
    }
    forall x | x in Listing(s[..i], owner)
      ensures x.id != s[i].id
    {
      var k :| 0 <= k < |s[..i]| && s[..i][k] == x;
      assert x == s[k];
    }
  }

  /** Replacing by id on the client mirrors replacing the todo on the server. */
  lemma ListingAfterUpdate(s: seq<Todo>, i: nat, t: Todo, owner: UserId)
    requires Chronological(s) && i < |s| && s[i].owner == owner
    requires t.id == s[i].id && t.owner == owner
    ensures ReplaceById(Listing(s, owner), s[i].id, t) == Listing(s[i := t], owner)
  {
    var after, before := Listing(s[i + 1..], owner), Listing(s[..i], owner);
    ListingAround(s, i, owner);
    ListingReplace(s, i, t, owner);
    OthersLackId(s, i, owner);
    AbsentIdUntouched(after, s[i].id, t);
    AbsentIdUntouched(before, s[i].id, t);
    ReplaceConcat(after + [s[i]], before, s[i].id, t);
    ReplaceConcat(after, [s[i]], s[i].id, t);
    assert ReplaceById([s[i]], s[i].id, t) == [t];
  }

  /** Removing by id on the client mirrors deleting the todo on the server. */
  lemma ListingAfterDelete(s: seq<Todo>, i: nat, owner: UserId)
    requires Chronological(s) && i < |s| && s[i].owner == owner
    ensures RemoveById(Listing(s, owner), s[i].id) == Listing(s[..i] + s[i + 1..], owner)
  {
    ListingAround(s, i, owner);
    OthersLackId(s, i, owner);
    RemoveMiddle(Listing(s[i + 1..], owner), s[i], Listing(s[..i], owner));
    ListingRemove(s, i, owner);
  }

  /** Removing the id of the one todo in the middle leaves the two sides. */
  lemma RemoveMiddle(a: seq<Todo>, x: Todo, b: seq<Todo>)
    requires forall y :: y in a ==> y.id != x.id
    requires forall y :: y in b ==> y.id != x.id
    ensures RemoveById(a + [x] + b, x.id) == a + b
  {
    AbsentIdUntouched(a, x.id, x);
    AbsentIdUntouched(b, x.id, x);
    RemoveConcat(a + [x], b, x.id);
    RemoveConcat(a, [x], x.id);
    assert RemoveById([x], x.id) == [] by {
      assert [x][1..] == [];
    }
    assert RemoveById(a + [x], x.id) == a;
  }

  /** How axios hands a reply to the page: a 2xx answer resolves with its data, anything
      else throws. */
  function TodoResult(reply: Reply<Body>): (r: ApiResult<Todo>)
    ensures r.Received? <==> 200 <= reply.status < 300 && reply.body.One?
  {
    if 200 <= reply.status < 300 && reply.body.One? then Received(reply.body.todo) else Failed
  }

  function TodosResult(reply: Reply<Body>): (r: ApiResult<seq<Todo>>)
    ensures r.Received? <==> 200 <= reply.status < 300 && reply.body.Todos?
  {
    if 200 <= reply.status < 300 && reply.body.Todos? then Received(reply.body.todos) else Failed
  }

  function EmptyResult(reply: Reply<Body>): (r: ApiResult<()>)
    ensures r.Received? <==> 200 <= reply.status < 300
  {
    if 200 <= reply.status < 300 then Received(()) else Failed
  }

  /** The page shows exactly the caller's todos on the server, newest first. */
  ghost predicate Mirrors(page: DashboardPage, store: TodoStore, caller: UserId)
    reads page, store
  {
    page.todos == Listing(store.todos, caller)
  }

  /** The first load: `GET /api/todos`, then `fetchTodos` with its answer. */
  method LoadRoundTrip(store: TodoStore, page: DashboardPage, caller: UserId)
    requires store.Valid()
    modifies page
    ensures Mirrors(page, store, caller) && !page.loading
  {
    var reply := store.List(caller);
    page.FetchTodos(TodosResult(reply));
  }

  /** Adding a todo: when the page posts its input, the server creates the todo and the
      page puts the answer first, which is where the server's listing has it. */
  method AddRoundTrip(store: TodoStore, page: DashboardPage, caller: UserId)
    requires store.Valid() && Mirrors(page, store, caller)
    modifies store, page
    ensures store.Valid() && Mirrors(page, store, caller)
    ensures Trim(old(page.newTodo)) == "" ==> store.todos == old(store.todos)
    ensures Trim(old(page.newTodo)) != "" ==> |store.todos| == |old(store.todos)| + 1 && page.newTodo == ""
  {
    var result: ApiResult<Todo> := Failed;
    if Trim(page.newTodo) != "" {
      var reply := store.Create(caller, Some(page.newTodo));
      result := TodoResult(reply);
      ListingAppend(old(store.todos), reply.body.todo, caller);
    }
    var _ := page.AddTodo(result);
  }

  /** Toggling a todo: the server flips `completed` of the caller's todo with that id, or
      answers 404; the page replaces the todo by id, or keeps its list. */
  method ToggleRoundTrip(store: TodoStore, page: DashboardPage, caller: UserId, id: TodoId, completed: bool)
    requires store.Valid() && Mirrors(page, store, caller)
    modifies store, page
    ensures store.Valid() && Mirrors(page, store, caller)
  {
    ParseIdOfDecimal(id);
    var reply := store.Update(caller, Decimal(id), None, Some(!completed));
    var _ := page.ToggleComplete(id, completed, TodoResult(reply));
    var found := FindOwned(old(store.todos), id, caller);
    if found.Some? {
      var i := found.value;
      var t := Revise(old(store.todos)[i], None, Some(!completed)).value;
      ListingAfterUpdate(old(store.todos), i, t, caller);
    }
  }

  /** Saving an edit: a non-blank text is sent as the title and the server stores it
      trimmed, or answers 404; the page replaces the todo by id, or keeps its list. */
  method SaveEditRoundTrip(store: TodoStore, page: DashboardPage, caller: UserId, id: TodoId)
    requires store.Valid() && Mirrors(page, store, caller)
    modifies store, page
    ensures store.Valid() && Mirrors(page, store, caller)
  {
    if Trim(page.editText) == "" {
      var _ := page.SaveEdit(id, Failed);
      return;
    }
    ParseIdOfDecimal(id);
    var title := page.editText;
    var reply := store.Update(caller, Decimal(id), Some(title), None);
    var _ := page.SaveEdit(id, TodoResult(reply));
    var found := FindOwned(old(store.todos), id, caller);
    if found.Some? {
      var i := found.value;
      var t := Revise(old(store.todos)[i], Some(title), None).value;
      ListingAfterUpdate(old(store.todos), i, t, caller);
    }
  }

  /** Deleting a todo: the server removes the caller's todo with that id, or answers 404;
      the page drops the todo by id, or keeps its list. */
  method DeleteRoundTrip(store: TodoStore, page: DashboardPage, caller: UserId, id: TodoId)
    requires store.Valid() && Mirrors(page, store, caller)
    modifies store, page
    ensures store.Valid() && Mirrors(page, store, caller)
  {
    ParseIdOfDecimal(id);
    var reply := store.Delete(caller, Decimal(id));
    page.Delete(id, EmptyResult(reply));
    var found := FindOwned(old(store.todos), id, caller);
    if found.Some? {
      ListingAfterDelete(old(store.todos), found.value, caller);
    }
  }
}

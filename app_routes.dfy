/** Request dispatch in src/app.js: the CORS middleware, the favicon routes, the literal
    routes of the application, the two mounted routers and the 404 handler, with Express 4's
    default matching (letters compared without regard to case, one trailing slash allowed). */
module AppRoutes {
  import opened Basics
  import opened Strings
  import TodoRoutes

  /** `app.get` also answers HEAD. */
  predicate IsGet(verb: string) {
    verb == "GET" || verb == "HEAD"
  }

  /** A literal route (every route here is written in lower case) matches its own path in
      any letter case, and, unless it already ends with one, the same path with one trailing
      slash. */
  predicate PathIs(path: string, route: string) {
    || ToLower(path) == route
    || (route != "" && route[|route| - 1] != '/' && ToLower(path) == route + "/")
  }

  /** `app.use(prefix, router)`: the path the router sees, when the prefix matches at a
      segment boundary. A slash right after the prefix is consumed only when another slash or
      the end follows it, and an empty remainder is seen as `/`. */
  function Mount(path: string, prefix: string): (rest: Option<string>)
    ensures rest.Some? ==> rest.value != "" && rest.value[0] == '/'
    ensures rest.Some? ==> |prefix| <= |path| && ToLower(path[..|prefix|]) == prefix
  {
    var p := |prefix|;
    if !(p <= |path| && ToLower(path[..p]) == prefix) then None
    else if p == |path| then Some("/")
    else if path[p] != '/' then None
    else if p + 1 == |path| then Some("/")
    else if path[p + 1] == '/' then Some(path[p + 1..])
    else Some(path[p..])
  }

  /** The `/:id` route: one non-empty segment, optionally followed by a slash. */
  function ParamOf(rest: string): (id: Option<string>)
    ensures id.Some? ==> id.value != "" && (forall k :: 0 <= k < |id.value| ==> id.value[k] != '/')
    ensures id.Some? ==> rest == "/" + id.value || rest == "/" + id.value + "/"
  {
    if |rest| < 2 || rest[0] != '/' then None
    else
      var seg := if rest[|rest| - 1] == '/' then rest[1..|rest| - 1] else rest[1..];
      if seg != "" && forall k :: 0 <= k < |seg| ==> seg[k] != '/' then
        assert rest[|rest| - 1] == '/' ==> rest == "/" + seg + "/";
        assert rest[|rest| - 1] != '/' ==> rest == "/" + seg;
        Some(seg)
      else None
  }

  /** Who answers a request. */
  datatype Endpoint =
    | Preflight                       // `cors()`: any OPTIONS request ends with 204
    | Favicon                         // GET /favicon.ico and /favicon.png: 204, no body
    | ApiDocs | Root | Liveness | HealthReport  // GET /api-docs, /, /health, /health-checks
    | Register | Login                // POST /api/auth/register, /api/auth/login
    | Todo(request: TodoRoutes.Request)  // anything under /api/todos, behind `authenticate`
    | NotFound                        // the 404 handler

  /** The endpoints registered before the routers: the CORS preflight, the favicon routes
      and the four literal GET routes, tried in that order. */
  function FixedRoute(verb: string, path: string): (e: Option<Endpoint>)
    ensures e.Some? ==> (verb == "OPTIONS" && e.value == Preflight) || (IsGet(verb) && (e.value.Favicon? || e.value.ApiDocs? || e.value.Root? || e.value.Liveness? || e.value.HealthReport?))
    ensures verb == "OPTIONS" ==> e == Some(Preflight)
  {
    if verb == "OPTIONS" then Some(Preflight)
    else if IsGet(verb) && (PathIs(path, "/favicon.ico") || PathIs(path, "/favicon.png")) then Some(Favicon)
    else if IsGet(verb) && PathIs(path, "/api-docs") then Some(ApiDocs)
    else if IsGet(verb) && PathIs(path, "/") then Some(Root)
    else if IsGet(verb) && PathIs(path, "/health") then Some(Liveness)
    else if IsGet(verb) && PathIs(path, "/health-checks") then Some(HealthReport)
    else None
  }

  /** The endpoint for a verb and a path, in the order the application registers them. */
  function Route(verb: string, path: string): (e: Endpoint)
    ensures e.Favicon? || e.ApiDocs? || e.Root? || e.Liveness? || e.HealthReport? ==> IsGet(verb)
    ensures e.Register? || e.Login? ==> verb == "POST"
    ensures e.Todo? ==> Mount(path, "/api/todos").Some?
    ensures e.Todo? && e.request.UpdateTodo? ==> verb == "PUT"
    ensures e.Todo? && e.request.DeleteTodo? ==> verb == "DELETE"
  {
    if FixedRoute(verb, path).Some? then FixedRoute(verb, path).value
    else if Mount(path, "/api/auth").Some? then
      var rest := Mount(path, "/api/auth").value;
      if verb == "POST" && PathIs(rest, "/register") then Register
      else if verb == "POST" && PathIs(rest, "/login") then Login
      else NotFound
    else if Mount(path, "/api/todos").Some? then
      Todo(TodoRequestOf(verb, Mount(path, "/api/todos").value))
    else NotFound
  }

  /** A path whose lower-cased form differs from a route at one position of the route is
      not that route. */
  lemma MissesRoute(path: string, route: string, k: nat)
    requires k < |route| && k < |path| && LowerChar(path[k]) != route[k]
    ensures !PathIs(path, route)
  {
    assert ToLower(path)[k] == LowerChar(path[k]);
    assert (route + "/")[k] == route[k];
  }

  /** A path under `/api/`, in any letter case, is none of the fixed endpoints (except for
      a preflight). */
  lemma ApiPathIsNotFixed(verb: string, path: string)
    requires verb != "OPTIONS"
    requires |path| >= 5 && LowerChar(path[1]) == 'a' && LowerChar(path[4]) == '/'
    ensures FixedRoute(verb, path).None?
  {
    MissesRoute(path, "/favicon.ico", 1);
    MissesRoute(path, "/favicon.png", 1);
    MissesRoute(path, "/api-docs", 4);
    MissesRoute(path, "/health", 1);
    MissesRoute(path, "/health-checks", 1);
    assert |ToLower(path)| >= 5;
  }

  /** The todo router's choice of route for the path it sees; the request body's fields are
      left empty here and filled in by the caller. */
  function TodoRequestOf(verb: string, rest: string): (r: TodoRoutes.Request)
    ensures r.UpdateTodo? ==> verb == "PUT" && ParamOf(rest) == Some(r.id)
    ensures r.DeleteTodo? ==> verb == "DELETE" && ParamOf(rest) == Some(r.id)
    ensures r.ListTodos? ==> IsGet(verb) && rest == "/"
    ensures r.CreateTodo? ==> verb == "POST" && rest == "/"
  {
    if PathIs(rest, "/") then
      if IsGet(verb) then TodoRoutes.ListTodos
      else if verb == "POST" then TodoRoutes.CreateTodo(None)
      else TodoRoutes.Unrouted
    else match ParamOf(rest)
      case Some(id) =>
        if verb == "PUT" then TodoRoutes.UpdateTodo(id, None, None)
        else if verb == "DELETE" then TodoRoutes.DeleteTodo(id)
        else TodoRoutes.Unrouted
      case None => TodoRoutes.Unrouted
  }

  /** The body of the 404 handler's answer. */
  datatype NotFoundBody = NotFoundBody(error: string, message: string, path: string, verb: string)

  /** `res.status(404).json(...)` for a request nothing else answered. */
  function NotFoundReply(verb: string, path: string): (r: Reply<NotFoundBody>)
    ensures r.status == 404 && r.body.error == "Route not found"
    ensures r.body.path == path && r.body.verb == verb
    ensures Contains(r.body.message, verb + " " + path)
  {
    var message := "The requested endpoint " + verb + " " + path + " does not exist";
    assert message == "The requested endpoint " + (verb + " " + path) + " does not exist";
    ContainsPrefixed("The requested endpoint ", verb + " " + path, " does not exist");
    Reply(404, NotFoundBody("Route not found", message, path, verb))
  }

  /** A favicon request is answered with 204 and no body, before anything else is tried,
      in any letter case and with or without a trailing slash. */
  lemma FaviconAnswered(verb: string, path: string)
    requires IsGet(verb)
    requires PathIs(path, "/favicon.ico") || PathIs(path, "/favicon.png")
    ensures Route(verb, path) == Favicon
  {
    assert FixedRoute(verb, path) == Some(Favicon);
  }

  /** A prefix that differs from the path at one position does not mount it. */
  lemma MountMisses(path: string, prefix: string, k: nat)
    requires k < |prefix| <= |path| && LowerChar(path[k]) != prefix[k]
    ensures Mount(path, prefix).None?
  {
    assert ToLower(path[..|prefix|])[k] == LowerChar(path[k]);
  }

  /** A lower-case prefix followed by a slash and more than one character mounts the rest. */
  lemma MountLowerPrefix(prefix: string, rest: string)
    requires forall k :: 0 <= k < |prefix| ==> LowerChar(prefix[k]) == prefix[k]
    requires |rest| >= 2 && rest[0] == '/' && rest[1] != '/'
    ensures Mount(prefix + rest, prefix) == Some(rest)
  {
    var path := prefix + rest;
    assert path[..|prefix|] == prefix;
    LowerMatches(prefix, prefix);
    assert path[|prefix|..] == rest;
  }

  /** `/api/todos/<id>` reaches the todo router as `/<id>`. */
  lemma MountTodoId(id: string, path: string)
    requires id != "" && id[0] != '/'
    requires path == "/api/todos/" + id
    ensures Mount(path, "/api/todos") == Some("/" + id)
  {
    var prefix := "/api/todos";
    assert forall k :: 0 <= k < |prefix| ==> LowerChar(prefix[k]) == prefix[k];
    assert prefix + ("/" + id) == path;
    MountLowerPrefix(prefix, "/" + id);
  }

  /** A prefix matched in any letter case, then a slash and another character, mounts the rest. */
  lemma MountPrefix(path: string, prefix: string)
    requires |prefix| + 2 <= |path| && ToLower(path[..|prefix|]) == prefix
    requires path[|prefix|] == '/' && path[|prefix| + 1] != '/'
    ensures Mount(path, prefix) == Some(path[|prefix|..])
  {
  }

  /** Within the todo router, a GET for `/<id>` matches no route. */
  lemma GetIdUnrouted(id: string)
    requires id != "" && forall k :: 0 <= k < |id| ==> id[k] != '/'
    ensures TodoRequestOf("GET", "/" + id) == TodoRoutes.Unrouted
  {
    assert ("/" + id)[1..] == id;
    assert ParamOf("/" + id) == Some(id);
    assert |ToLower("/" + id)| >= 2;
  }

  /** The advertised `GET /api/todos/:id` has no handler: the todo router matches none of its
      routes, so after `authenticate` (which answers 401 without a passing token) the request
      falls through to the 404 handler. */
  lemma TodoByIdIsUnrouted(id: string, path: string)
    requires id != "" && forall k :: 0 <= k < |id| ==> id[k] != '/'
    requires path == "/api/todos/" + id
    ensures Route("GET", path) == Todo(TodoRoutes.Unrouted)
  {
    assert path[1] == 'a' && path[4] == '/' && path[5] == 't';
    ApiPathIsNotFixed("GET", path);
    MountMisses(path, "/api/auth", 5);
    MountTodoId(id, path);
    GetIdUnrouted(id);
  }

  /** `/api/auth/profile` reaches the account router as `/profile`. */
  lemma MountProfile(path: string)
    requires path == "/api/auth/profile"
    ensures Mount(path, "/api/auth") == Some(path[9..])
    ensures LowerChar(path[1]) == 'a' && LowerChar(path[4]) == '/' && LowerChar(path[10]) == 'p'
  {
    var prefix := path[..9];
    assert forall k :: 0 <= k < 9 ==> LowerChar(prefix[k]) == prefix[k];
    LowerMatches(prefix, "/api/auth");
    MountPrefix(path, "/api/auth");
  }

  /** The advertised `GET /api/auth/profile` has no handler either: the 404 handler answers. */
  lemma ProfileIsNotFound(path: string)
    requires path == "/api/auth/profile"
    ensures Route("GET", path) == NotFound
  {
    MountProfile(path);
    ApiPathIsNotFixed("GET", path);
    MissesRoute(path[9..], "/register", 1);
    MissesRoute(path[9..], "/login", 1);
  }

  /** Lower-casing, checked position by position. */
  lemma LowerMatches(s: string, lower: string)
    requires |s| == |lower| && forall k :: 0 <= k < |s| ==> LowerChar(s[k]) == lower[k]
    ensures ToLower(s) == lower
  {
  }
}

# Todo service with JWT authentication: a Dafny model

This project models the core of a small todo service. It has two parts:

- An Express/Mongoose back end. It keeps a per-user todo collection behind a bearer-token middleware, and a user registry with register and login routes.
- A React client. It stores the token, attaches it to every request, guards its routes, and keeps the dashboard's list of todos.

The model follows the source file by file, one Dafny module per file:

| module | source |
|---|---|
| `TodoModel`, `TodoRoutes` | `models/Todo.js`, `routes/todos.js`. The collection is a class `TodoStore` over a sequence of todos in insertion order. |
| `UserModel`, `AuthRoutes` | `models/User.js`, `routes/auth.js`. The classes are `UserDocument` and `UserStore`. |
| `Tokens`, `AuthMiddleware` | `middleware/auth.js`. It covers token extraction, the four-way verdict, and the `authenticate` method over a request/response `Exchange`. |
| `Database`, `HealthChecks`, `AppRoutes` | `src/app.js`. It covers `connectDB` with its module-level flag, the masking of the connection string, the `/health-checks` handler, and request dispatch with the 404 handler. |
| `NetlifyFunction` | `netlify/functions/api.js`. It covers the serverless entry point and its `dbConnected` flag. |
| `Logger` | `utils/logger.js`. It covers level selection, record building and the console line. |
| `ClientAuth`, `ClientApi`, `ClientApp`, `Dashboard` | the front end's `utils/auth.js`, `utils/api.js`, `App.jsx`, `pages/Dashboard.jsx`. |
| `EndToEnd` | the two sides together. |

`Basics` holds `Option`, `Result` and a `Reply` (status code and JSON body). `Strings` holds JavaScript's white space and `trim`, ASCII case mapping, decimal numerals, `includes` and `join`.

The libraries the source calls are parameters:

- bcrypt is a `Hasher` function: `hash` stands for bcrypt with one fixed salt, and `Compare` for `bcrypt.compare`. Like bcrypt, a sound hasher reads only the first 72 characters of a password. The 60-character digest shape is a separate assumption (`BcryptShaped`): no function has digests of one fixed length and still separates every password of up to 72 characters.
- `jwt.sign`/`jwt.verify` are a `Signer` pair.
- `isEmail` is a predicate. A sound check accepts only addresses that hold an `@`; an accepted address may start with white space such as U+3000, which the schema's `trim` setter then removes.
- `JSON.stringify` is a function.

What the model assumes of each is a ghost predicate (`SoundHasher`, `SoundSigner`, `SoundEmailCheck`) named in the `requires` of the lemmas that rely on it.

The inputs of one connect attempt are values:

- the driver's `readyState`;
- the environment;
- how `mongoose.connect` settles.

The document store is a sequence kept in insertion order. Its ids are counters, and a logical clock supplies `createdAt`.

The client's handlers receive the awaited API answer as an `ApiResult` input. The `EndToEnd` module connects those answers to the server's methods. There it is proved that the dashboard's list stays equal to the caller's server listing through load, add, toggle, edit and delete, whether each request succeeds or fails.

Paths in the table below are relative to the repository root.

## Model

| member | source | states |
|---|---|---|
| TodoModel.TodoErrors | apps/backend/src/models/Todo.js:6-19 | validation passes exactly when the title is present and non-empty and the owner is present; `title` is reported exactly when the title is missing or empty, and `user` exactly when the owner is missing |
| TodoModel.NewTodo | apps/backend/src/models/Todo.js:6-19 | a new todo is accepted exactly when the trimmed title is non-empty and the owner is given; the saved todo has the trimmed title, `completed` false unless given, and the given owner; a rejection names exactly the failing paths |
| TodoModel.NewTodoKeepsTrimmedTitle | apps/backend/src/models/Todo.js:9-14 | a title with nothing to trim is stored as given, with `completed` defaulting to false |
| TodoModel.NewTodoRejectsBlank | apps/backend/src/models/Todo.js:6-9 | a title made only of white space is rejected |
| TodoModel.Revise | apps/backend/src/routes/todos.js:120-123 | assigning the supplied fields fails exactly when a supplied title trims to nothing, with Mongoose's required-path message; otherwise id, owner and creation time are kept, each field changes only if supplied, and the result is still valid |
| TodoModel.ReviseNothing | apps/backend/src/routes/todos.js:120-121 | an update that supplies no field leaves the todo as it was |
| TodoModel.ReviseIdempotent | apps/backend/src/routes/todos.js:120-123 | sending the same update twice has the effect of sending it once |
| TodoRoutes.Listing | apps/backend/src/routes/todos.js:25-27 | the listing holds exactly the owner's todos and is no longer than the collection |
| TodoRoutes.ListingNewestFirst | apps/backend/src/routes/todos.js:25-27 | over a chronological collection the listing is strictly newest first |
| TodoRoutes.LastIsNewest | apps/backend/src/models/Todo.js:21-23 | in a collection kept in creation order, the last todo is newer than every earlier one |
| TodoRoutes.ListingSingle | apps/backend/src/routes/todos.js:25 | a one-todo collection lists that todo exactly when it is the owner's |
| TodoRoutes.ListingConcat | apps/backend/src/routes/todos.js:25-27 | the listing of a later batch comes before the listing of an earlier one |
| TodoRoutes.ListingAppend | apps/backend/src/routes/todos.js:67-71 | a newly saved todo heads its owner's listing and changes no other owner's listing |
| TodoRoutes.ListingReplace | apps/backend/src/routes/todos.js:120-123 | replacing a todo in place replaces it at its position in its owner's listing and leaves other owners' listings alone |
| TodoRoutes.ListingSkip | apps/backend/src/routes/todos.js:25 | a todo of another user's contributes nothing to the owner's listing |
| TodoRoutes.ListingRemove | apps/backend/src/routes/todos.js:152-155 | removing a todo drops it from its owner's listing and leaves other owners' listings alone |
| TodoRoutes.FindOwned | apps/backend/src/routes/todos.js:111-114 | `findOne({ _id, user })` finds a todo with that id owned by the caller, and finds none exactly when there is none |
| TodoRoutes.FindOwnedUnique | apps/backend/src/routes/todos.js:111-114 | in a chronological collection the caller's todo with a given id is found at its own position |
| TodoRoutes.ParseId | apps/backend/src/routes/todos.js:111-113 | an id parameter is read as the number whose numeral it is, and is rejected when it is the numeral of no number |
| TodoRoutes.ParseIdOfDecimal | apps/backend/src/routes/todos.js:111-113 | the numeral of an id reads back as that id |
| TodoRoutes.OthersAfterAppend | apps/backend/src/routes/todos.js:67-71 | saving a todo of the caller's leaves every other user's listing unchanged |
| TodoRoutes.OthersAfterReplace | apps/backend/src/routes/todos.js:111-123 | revising a todo of the caller's leaves every other user's listing unchanged |
| TodoRoutes.OthersAfterRemove | apps/backend/src/routes/todos.js:152-155 | deleting a todo of the caller's leaves every other user's listing unchanged |
| TodoRoutes.SoundAppend | apps/backend/src/models/Todo.js:6-23 | a valid todo saved with the next id at the current time keeps the collection chronological and valid |
| TodoRoutes.SoundReplace | apps/backend/src/routes/todos.js:120-123 | a valid revision that keeps id and creation time keeps the collection chronological and valid |
| TodoRoutes.SoundRemove | apps/backend/src/routes/todos.js:152-155 | removing any todo keeps the collection chronological and valid |
| TodoRoutes.TodoStore.List | apps/backend/src/routes/todos.js:23-28 | GET answers 200 with exactly the caller's todos, newest first |
| TodoRoutes.TodoStore.Create | apps/backend/src/routes/todos.js:57-77 | a missing or blank title answers 400 and creates nothing; otherwise one todo with the trimmed title, the caller as owner and `completed` false is appended and returned with 201; no other user's listing changes |
| TodoRoutes.TodoStore.Update | apps/backend/src/routes/todos.js:109-128 | a malformed id answers 500 and an id the caller does not own answers 404, both changing nothing; otherwise only that todo takes the supplied fields (200), or a blank title answers 500 and changes nothing; no other user's listing changes |
| TodoRoutes.TodoStore.Delete | apps/backend/src/routes/todos.js:150-165 | a malformed id answers 500 and an id the caller does not own answers 404, both changing nothing; otherwise exactly that todo is removed, the rest keep their order, and the answer is 200 with the deletion message |
| TodoRoutes.TodoStore.Handle | apps/backend/src/routes/todos.js:9 | every todo route runs behind `authenticate`: the answer is 401 exactly when the verdict is not a pass, and then nothing changes; a passing request never changes another user's listing |
| UserModel.SetEmail | apps/backend/src/models/User.js:7-13 | the stored address is lower case and has nothing to trim |
| UserModel.SetEmailIdempotent | apps/backend/src/models/User.js:11-12 | normalising a normalised address changes nothing |
| UserModel.ValidationErrors | apps/backend/src/models/User.js:7-18 | saving fails exactly when the address is missing or empty or the password is missing or shorter than eight characters, naming exactly those paths |
| UserModel.PreSaveNeverPlain | apps/backend/src/models/User.js:27-34 | after the hook, a new or changed password is a digest that differs from the plain text |
| UserModel.PreSaveDigestLength | apps/backend/src/models/User.js:27-34 | with bcrypt's digest shape, a new or changed password is stored as 60 characters |
| UserModel.SoundHasherSatisfiable | apps/backend/src/models/User.js:31-32 | some hasher meets what the model assumes of bcrypt: digests differ from the plain text and agree exactly when the first 72 characters do |
| UserModel.PreSaveKeepsDigest | apps/backend/src/models/User.js:29 | saving again with the password untouched does not hash the digest a second time |
| UserModel.CompareSavedPassword | apps/backend/src/models/User.js:38-40 | comparing a candidate with the saved digest succeeds exactly when the candidate agrees with the hashed password on bcrypt's first 72 characters; for passwords of at most 72 characters, exactly when it is that password |
| UserModel.CompareIgnoresTail | apps/backend/src/models/User.js:38-40 | two passwords longer than 72 characters that share their first 72 characters both match the same saved digest |
| UserModel.UserDocument.constructor | apps/backend/src/models/User.js:7-16 | a new document applies the address setters and counts a given password as modified |
| UserModel.UserDocument.SetPassword | apps/backend/src/models/User.js:29 | assigning a password marks it modified and changes nothing else |
| UserModel.UserDocument.Save | apps/backend/src/models/User.js:27-34 | a failed validation changes nothing; a successful save stores the digest when the password was new or modified and keeps it otherwise, and clears the modified mark |
| UserModel.UserDocument.ToJson | apps/backend/src/models/User.js:43-47 | the serialised user has no `password` and keeps every other field with its value |
| UserModel.ComparePasswordOfSaved | apps/backend/src/models/User.js:38-40 | a document's `comparePassword` against its saved digest succeeds exactly when the candidate agrees with the hashed password on the first 72 characters |
| AuthRoutes.NormalizeEmail | apps/backend/src/routes/auth.js:14 | the normalised address is lower case and as long as the input |
| AuthRoutes.QueryEmail | apps/backend/src/models/User.js:11-12 | the address both routes look up and store, normalised and passed through the path's setters, is lower case and has nothing to trim |
| AuthRoutes.NormalizedEmailIsStored | apps/backend/src/routes/auth.js:28-35 | the address looked up is the address stored, since the setters leave it unchanged; an address with no white space at its ends is just the normalised one |
| AuthRoutes.AcceptedEmailNonEmpty | apps/backend/src/routes/auth.js:14 | an accepted address is never stored empty |
| AuthRoutes.LeadingSpaceFindsStoredUser | apps/backend/src/routes/auth.js:81 | white space (such as U+3000) before an address in stored form is dropped, so the lookup finds the user stored under that address |
| AuthRoutes.RegisterErrors | apps/backend/src/routes/auth.js:12-16 | registration input fails exactly when the address is invalid or the password is shorter than eight characters, naming exactly those fields |
| AuthRoutes.LoginErrors | apps/backend/src/routes/auth.js:65-69 | login input fails exactly when the address is invalid or the password is absent |
| AuthRoutes.FindByEmail | apps/backend/src/routes/auth.js:28 | the lookup finds a user with that address, and finds none exactly when there is none |
| AuthRoutes.ValidUsersAppend | apps/backend/src/models/User.js:10 | appending a user with a new, non-empty address keeps the addresses unique and every stored password the digest of its secret |
| AuthRoutes.UserStore.Register | apps/backend/src/routes/auth.js:17-52 | invalid input answers 400 naming the fields; an address already stored answers 400 `Email already registered` and changes nothing; otherwise exactly one user with the address as the setters store it and the hashed password is added and 201 returns a token for it and only `{ id, email }` |
| AuthRoutes.UserStore.Insert | apps/backend/src/routes/auth.js:35-36 | saving a new user with an unused normalised address appends exactly one user, with the next id, that address and the digest of the password, and keeps the collection valid |
| AuthRoutes.UserStore.Login | apps/backend/src/routes/auth.js:70-108 | invalid input answers 400; the user is looked up by the address as the setters cast it; every 401 has the identical body `Invalid credentials`, for an unknown address and for a wrong password alike; the right password answers 200 with a token and `{ id, email }` |
| AuthRoutes.LoginSucceedsIffRegisteredPassword | apps/backend/src/routes/auth.js:88-92 | a stored user's password check succeeds exactly when the candidate agrees with the registered secret on the first 72 characters; for secrets and candidates of at most 72 characters, exactly when it is that secret |
| AuthMiddleware.ExtractToken | apps/backend/src/middleware/auth.js:12 | there is a token exactly when there is a header, and the token has nothing to trim |
| AuthMiddleware.ExtractBearer | apps/backend/src/middleware/auth.js:12 | `Bearer` in any case, then white space, then `t` gives `t` trimmed |
| AuthMiddleware.ExtractBuiltHeader | apps/backend/src/middleware/auth.js:12 | `Bearer <t>` gives back `t` when `t` has nothing to trim |
| AuthMiddleware.ExtractWithoutScheme | apps/backend/src/middleware/auth.js:12 | a header without the scheme and white space is itself the token, trimmed |
| AuthMiddleware.Decide | apps/backend/src/middleware/auth.js:12-35 | the token is missing exactly when there is no header or nothing is left after the scheme; with a token, the request passes exactly when it verifies and its user is found, and then it carries that user; it is an unknown user exactly when it verifies and no user has its id; it is invalid exactly when it does not verify or the lookup fails |
| AuthMiddleware.IssuedTokenPasses | apps/backend/src/middleware/auth.js:12-35 | a token the server issued for an existing user, sent as `Bearer <token>`, passes with that user |
| AuthMiddleware.Exchange.Send | apps/backend/src/middleware/auth.js:38-40 | a response is written only if none was written before |
| AuthMiddleware.Authenticate | apps/backend/src/middleware/auth.js:6-42 | a pass sets `req.user`, calls `next` once and writes nothing; every other verdict writes its 401 message (unless a response was already written) and neither sets the user nor calls `next` |
| Database.ConnectSpec | apps/backend/src/app.js:259-321 | already connected does nothing; `readyState` 1 adopts the connection; `readyState` 2 returns without connecting and without setting the flag; a missing URI throws with the flag down; otherwise `mongoose.connect` is called once and the flag is set exactly when it succeeds |
| Database.MongoConnector.ConnectDB | apps/backend/src/app.js:257-321 | the flag, the count of connect calls and the outcome are those of `ConnectSpec` |
| Database.FailedConnectRetries | apps/backend/src/app.js:292-320 | a failed connect leaves the flag down, so the next call with the URI set connects again |
| Database.ConnectedStaysQuiet | apps/backend/src/app.js:260-263 | once connected, no later call connects again and the flag stays up |
| Database.AtMostOneSuccess | apps/backend/src/app.js:257-321 | whatever the inputs, at most one connect ever succeeds |
| Database.MatchAt | apps/backend/src/app.js:289 | a match of `//user:password@` at a position has a non-empty user without `:` and a non-empty password without `@` |
| Database.FirstMatch | apps/backend/src/app.js:289 | the leftmost position where the pattern matches, or none anywhere |
| Database.FirstMatchFrom | apps/backend/src/app.js:289 | a search from any earlier start finds the first match |
| Database.RedactUri | apps/backend/src/app.js:289 | a string without the pattern is logged unchanged; otherwise the first match's password becomes `***` and everything else is kept |
| Database.RedactStandardUri | apps/backend/src/app.js:289 | `scheme//user:password@rest` is logged as `scheme//user:***@rest` |
| Database.ConnectionHint | apps/backend/src/app.js:306-317 | the hint is chosen by the first of `authentication failed`, `ENOTFOUND` or `getaddrinfo`, and `timeout` that the message contains |
| HealthChecks.DatabaseCheckFor | apps/backend/src/app.js:160-188 | `readyState` 1 is "ok", 2 is "warning", and anything else or an exception is "error" |
| HealthChecks.MissingOf | apps/backend/src/app.js:192 | a variable is reported exactly when it is required and unset or empty |
| HealthChecks.MissingRequired | apps/backend/src/app.js:191-192 | missing variables are reported as `MONGODB_URI` before `JWT_SECRET` |
| HealthChecks.StatusCodeFor | apps/backend/src/app.js:211 | the code is 503 exactly when the status is neither "ok" nor "degraded" |
| HealthChecks.HealthChecks | apps/backend/src/app.js:134-214 | the database and environment entries are as above; the overall status is "degraded" exactly when the database check is "error" or a variable is missing, and "ok" otherwise; so the status code is always 200 and the 503 branch is never taken |
| AppRoutes.Mount | apps/backend/src/app.js:217-218 | a mounted router is reached only when the path starts with the prefix in any letter case, and the path it sees starts with `/` |
| AppRoutes.ParamOf | apps/backend/src/routes/todos.js:109 | `/:id` takes one non-empty segment without `/`, optionally followed by a slash |
| AppRoutes.FixedRoute | apps/backend/src/app.js:53-214 | the routes registered before the routers answer every preflight, and otherwise only GET (and HEAD) with one of the fixed endpoints |
| AppRoutes.ApiPathIsNotFixed | apps/backend/src/app.js:57-214 | a non-preflight request under `/api/` is answered by none of the fixed endpoints |
| AppRoutes.Route | apps/backend/src/app.js:53-218 | the fixed endpoints answer only GET (and HEAD), register and login only POST; a request reaches the todo router only under `/api/todos`, and there an update needs PUT and a deletion DELETE |
| AppRoutes.TodoRequestOf | apps/backend/src/routes/todos.js:23-150 | the todo router lists only on GET `/`, creates only on POST `/`, updates only on PUT `/:id` and deletes only on DELETE `/:id`, with the id taken from the one path segment |
| AppRoutes.NotFoundReply | apps/backend/src/app.js:229-254 | the 404 answer names the method and the path, and its message contains both |
| AppRoutes.FaviconAnswered | apps/backend/src/app.js:57-63 | favicon requests are answered before anything else, in any letter case, with or without a trailing slash |
| AppRoutes.MountTodoId | apps/backend/src/app.js:218 | `/api/todos/<id>` reaches the todo router as `/<id>` |
| AppRoutes.GetIdUnrouted | apps/backend/src/routes/todos.js:23-150 | the todo router has no GET route for `/<id>` |
| AppRoutes.TodoByIdIsUnrouted | apps/backend/src/app.js:114 | the advertised `GET /api/todos/:id` reaches the todo router but matches none of its routes; with a passing token it falls through to the 404 handler, and otherwise `authenticate` answers 401 |
| AppRoutes.ProfileIsNotFound | apps/backend/src/app.js:109 | the advertised `GET /api/auth/profile`, as written there, has no handler: the 404 handler answers |
| NetlifyFunction.MainAsWritten | apps/backend/netlify/functions/api.js:12-32 | `connectDB` is called exactly while the flag is down, and a failure leaves the flag down |
| NetlifyFunction.AsWrittenFlagOutlivesConnection | apps/backend/netlify/functions/api.js:14-17 | as written, an invocation that finds the flag down and a connection still in progress (left by an earlier, cut-off connect in a reused container) raises the flag with nothing connected, and the next invocation dispatches without calling `connectDB` |
| NetlifyFunction.Main | apps/backend/netlify/functions/api.js:12-32 | corrected (see Findings): `connectDB` is called exactly while the flag is down; a failure leaves the flag down; the flag never claims a connection the helper lacks; once up it stays up and nothing is called |
| NetlifyFunction.MainAgreesWithAsWritten | apps/backend/netlify/functions/api.js:14-17 | the corrected entry point differs from the written one only when an invocation finds the flag down while a connection is in progress |
| NetlifyFunction.FailureRetries | apps/backend/netlify/functions/api.js:18-27 | after a failed connect the next invocation calls `connectDB` again, and with the URI set that call connects |
| NetlifyFunction.MainOf | apps/backend/netlify/functions/api.js:12-32 | for either version, `connectDB` is called exactly while the flag is down, a raised flag dispatches and changes nothing, and a successful connect raises the flag; the corrected version keeps the flag honest |
| NetlifyFunction.ConnectedNeverReconnects | apps/backend/netlify/functions/api.js:14-17 | as written and corrected alike, once the flag is up no invocation calls `connectDB` again and nothing changes |
| NetlifyFunction.AtMostOneConnect | apps/backend/netlify/functions/api.js:12-32 | as written from any state, and corrected from any state whose flag is honest, at most one connect succeeds across any sequence of invocations, and none when the helper is already connected |
| NetlifyFunction.ApiFunction.Invoke | apps/backend/netlify/functions/api.js:12-32 | as written: a failed connect answers 500 with `Database connection failed` and the error's message without calling the handler; otherwise the answer is exactly the handler's; the flag is raised whenever `connectDB` resolves, and the flags follow `MainAsWritten` |
| NetlifyFunction.ApiFunction.InvokeCorrected | apps/backend/netlify/functions/api.js:12-32 | corrected (see Findings): the same answers, but the flag is raised only when the helper holds a connection, so it stays honest; the flags follow `Main` |
| Logger.LevelFor | apps/backend/src/utils/logger.js:57-63 | error exactly from 500, warn exactly from 400 to 499, http exactly below 400 |
| Logger.LevelForMonotone | apps/backend/src/utils/logger.js:57-63 | a higher status code is never logged at a less severe level |
| Logger.DefaultThresholdDropsSuccess | apps/backend/src/utils/logger.js:17 | at the default threshold `info`, a request log is written exactly when the status is 400 or more |
| Logger.LogRequest | apps/backend/src/utils/logger.js:47-64 | the request is logged as `HTTP Request` at the level its status code selects, which the default threshold writes exactly when the status is 400 or more, with the status code in the record |
| Logger.Get | apps/backend/src/utils/logger.js:47-89 | a lookup finds nothing exactly when the key is absent |
| Logger.GetAt | apps/backend/src/utils/logger.js:47-89 | in a record with unique keys, each key finds the value stored with it |
| Logger.Put | apps/backend/src/utils/logger.js:70 | assigning a property keeps the existing keys in place and adds a new key last |
| Logger.GetPut | apps/backend/src/utils/logger.js:70 | after assigning a property, its key finds the new value and every other key finds what it found before |
| Logger.Spread | apps/backend/src/utils/logger.js:70 | a spread keeps the base keys first, in order, and keeps keys unique |
| Logger.GetSpread | apps/backend/src/utils/logger.js:70 | after a spread, a key of the spread finds the spread's value and any other key finds the base value |
| Logger.Tagged | apps/backend/src/utils/logger.js:67-80 | the `logDB`/`logAuth` record starts with its tag key and carries every detail with its value; the tag keeps its value unless a detail of the same name replaces it |
| Logger.ErrorRecord | apps/backend/src/utils/logger.js:83-89 | the `logError` record carries every context field with its value, and the error's message and stack unless the context replaces them; with no context it is exactly the message and the stack |
| Logger.RequestRecord | apps/backend/src/utils/logger.js:48-55 | the request record has the six keys in order; its url is `originalUrl` when that is non-empty and `url` otherwise; it carries the status code |
| Logger.DurationReadsBack | apps/backend/src/utils/logger.js:52 | the logged duration is a numeral followed by `ms`, and the numeral reads back as the duration |
| Logger.Open | apps/backend/src/utils/logger.js:34 | a colour's opening escape sequence ends with `m` |
| Logger.LevelTag | apps/backend/src/utils/logger.js:5 | the intended level tag is the upper-case level name, between the colour's opening and closing sequences when colours are on |
| Logger.AsWrittenUppersOpen | apps/backend/src/utils/logger.js:5 | as written, with colours on, the last character of the opening sequence is printed as `M` |
| Logger.IntendedKeepsOpen | apps/backend/src/utils/logger.js:5 | the intended tag starts with the opening sequence intact, ending in `m` |
| Logger.AsWrittenTagBreaksEscape | apps/backend/src/utils/logger.js:5 | as written, with colours on, the opening sequence of the printed level ends with `M` instead of `m`; the intended tag keeps `m` |
| Logger.TagsAgreeWithoutColour | apps/backend/src/utils/logger.js:5 | without colours the written and the intended tags are the same |
| Logger.FormatLine | apps/backend/src/utils/logger.js:4-13 | the line starts with `timestamp [LEVEL]: message` |
| Logger.FormatLineReadsBack | apps/backend/src/utils/logger.js:4-13 | when the timestamp, tag and message hold no newline, the first line is exactly `timestamp [LEVEL]: message`, a newline follows exactly when there is at least one metadata key, and what follows it is the metadata's JSON |
| Logger.ConsoleLine | apps/backend/src/utils/logger.js:32-40 | corrected (see Findings): the console line starts with the timestamp and the intended tag, and holds the upper-case level inside intact colour sequences |
| Logger.ConsoleLineAsWritten | apps/backend/src/utils/logger.js:32-40 | as written: the console line starts with the timestamp and the printed tag, and with colours on the character that ends the level's opening sequence is `M` |
| ClientAuth.StoredAt | apps/frontend/src/utils/auth.js:5-7 | reading a key gives its stored value, or null exactly when the key is absent |
| ClientAuth.Browser.Token | apps/frontend/src/utils/auth.js:5-7 | `getToken` gives the value under `todo_token`, or null exactly when there is none |
| ClientAuth.Browser.SetToken | apps/frontend/src/utils/auth.js:10-12 | after `setToken(t)`, `getToken` gives `t` and the user counts as logged in exactly when `t` is non-empty; only `todo_token` changes |
| ClientAuth.Browser.RemoveToken | apps/frontend/src/utils/auth.js:15-17 | after `removeToken`, `getToken` gives null and the user is logged out; only `todo_token` changes |
| ClientAuth.SetTouchesOnlyTokenKey | apps/frontend/src/utils/auth.js:2-12 | setting the token leaves every other key as it was |
| ClientAuth.RemoveTouchesOnlyTokenKey | apps/frontend/src/utils/auth.js:2-17 | removing the token leaves every other key as it was |
| ClientApi.WithToken | apps/frontend/src/utils/api.js:16-22 | with a truthy token, `Authorization` is `Bearer <token>` and nothing else changes; otherwise the configuration is returned unchanged |
| ClientApi.InterceptError | apps/frontend/src/utils/api.js:27-42 | every error is rejected again unchanged; a 401 outside the login page and not for the login endpoint removes the token and goes to `/login`; anything else changes nothing |
| ClientApi.OnlyUnauthorizedRedirects | apps/frontend/src/utils/api.js:30 | only a 401 can remove the token or redirect |
| ClientApi.LoginFailureStays | apps/frontend/src/utils/api.js:33-35 | a 401 for a request to the login endpoint never redirects |
| ClientApi.NoRedirectLoop | apps/frontend/src/utils/api.js:32-37 | after one redirect the browser is on `/login`, where no 401 redirects again |
| ClientApp.DropTrailingSlashes | apps/frontend/src/App.jsx:17-53 | a path without its trailing slashes is a prefix of it, followed only by slashes |
| ClientApp.ScreenFor | apps/frontend/src/App.jsx:17-53 | `/login` and `/register` show their form when logged out and redirect to `/` when logged in; `/` shows the dashboard when logged in and redirects to `/login` when logged out; any other path shows the not-found page |
| ClientApp.RedirectSettles | apps/frontend/src/App.jsx:17-50 | a redirect lands on the dashboard or the login form, never on another redirect |
| ClientApp.UnknownPathIgnoresLogin | apps/frontend/src/App.jsx:53 | any other path shows the not-found page whether logged in or not |
| ClientApp.LowerFixed | apps/frontend/src/App.jsx:17-53 | a lower-case route lower-cases to itself |
| ClientApp.AppState.constructor | apps/frontend/src/App.jsx:11 | at page load the cell is "a non-empty token is stored" |
| ClientApp.AppState.OnLogin | apps/frontend/src/App.jsx:23 | logging in sets the cell |
| ClientApp.AppState.OnRegister | apps/frontend/src/App.jsx:35 | registering sets the cell |
| ClientApp.AppState.OnLogout | apps/frontend/src/App.jsx:45 | logging out clears the cell |
| Dashboard.ReplaceById | apps/frontend/src/pages/Dashboard.jsx:46 | every todo with the id is replaced, the others stay at their positions, and the length is kept |
| Dashboard.RemoveById | apps/frontend/src/pages/Dashboard.jsx:55 | exactly the todos without the id remain |
| Dashboard.ReplaceConcat | apps/frontend/src/pages/Dashboard.jsx:46 | replacing by id works part by part |
| Dashboard.RemoveConcat | apps/frontend/src/pages/Dashboard.jsx:55 | removing by id works part by part and keeps the order |
| Dashboard.AbsentIdUntouched | apps/frontend/src/pages/Dashboard.jsx:46-55 | a list without the id is left as it is by both updates |
| Dashboard.DashboardPage.constructor | apps/frontend/src/pages/Dashboard.jsx:6-11 | the first render has no todos, an empty input, loading on, no error and no edit |
| Dashboard.DashboardPage.FetchTodos | apps/frontend/src/pages/Dashboard.jsx:17-26 | the list becomes the answer, or the error is set with the list kept; loading ends either way; nothing else changes |
| Dashboard.DashboardPage.TypeNewTodo | apps/frontend/src/pages/Dashboard.jsx:115 | typing changes only the input |
| Dashboard.DashboardPage.AddTodo | apps/frontend/src/pages/Dashboard.jsx:28-39 | a blank input sends nothing and changes nothing; otherwise the input is sent, and the answer goes first with the others kept in order and the input cleared, or the error is set with the list kept |
| Dashboard.DashboardPage.ToggleComplete | apps/frontend/src/pages/Dashboard.jsx:41-50 | the negated flag is sent; the answer replaces only the todo with that id, or the error is set with the list kept |
| Dashboard.DashboardPage.Delete | apps/frontend/src/pages/Dashboard.jsx:52-59 | success drops the todo with that id and keeps the rest in order; failure sets the error with the list kept |
| Dashboard.DashboardPage.Edit | apps/frontend/src/pages/Dashboard.jsx:61-64 | editing starts with the todo's id and title; nothing else changes |
| Dashboard.DashboardPage.TypeEditText | apps/frontend/src/pages/Dashboard.jsx:140 | typing changes only the edit text |
| Dashboard.DashboardPage.CancelEdit | apps/frontend/src/pages/Dashboard.jsx:66-69 | cancelling clears the edited id and the text; nothing else changes |
| Dashboard.DashboardPage.SaveEdit | apps/frontend/src/pages/Dashboard.jsx:71-84 | blank text sends nothing and changes nothing; otherwise the text is sent, and the answer replaces the todo and ends editing, or the error is set with the list and the edit kept |
| Dashboard.Logout | apps/frontend/src/pages/Dashboard.jsx:86-89 | logging out removes the token and clears the cell, so `/` then redirects to `/login` |
| EndToEnd.StoredTokenPasses | apps/frontend/src/utils/api.js:16-22 | a token the server issued and the client stored is attached as `Bearer <token>`, and the middleware lets the request through as its user |
| EndToEnd.NoTokenNoHeader | apps/frontend/src/utils/api.js:18-20 | without a stored token no `Authorization` header is added, and the middleware answers `Authentication required` |
| EndToEnd.ListingAround | apps/backend/src/routes/todos.js:25-27 | the caller's listing around one of the caller's todos is the newer ones, that todo, then the older ones |
| EndToEnd.OthersLackId | apps/backend/src/models/Todo.js:21-23 | in a collection kept in creation order no other todo shares a todo's id |
| EndToEnd.ListingAfterUpdate | apps/frontend/src/pages/Dashboard.jsx:46 | replacing by id on the client gives the server's listing after the update |
| EndToEnd.ListingAfterDelete | apps/frontend/src/pages/Dashboard.jsx:55 | removing by id on the client gives the server's listing after the deletion |
| EndToEnd.RemoveMiddle | apps/frontend/src/pages/Dashboard.jsx:55 | removing the id of the single todo in the middle leaves both sides |
| EndToEnd.TodoResult | apps/frontend/src/pages/Dashboard.jsx:33-34 | a 2xx answer with a todo resolves with it, and anything else throws |
| EndToEnd.TodosResult | apps/frontend/src/pages/Dashboard.jsx:19-20 | a 2xx answer with a list resolves with it, and anything else throws |
| EndToEnd.EmptyResult | apps/frontend/src/pages/Dashboard.jsx:54 | a 2xx answer resolves, and anything else throws |
| EndToEnd.LoadRoundTrip | apps/frontend/src/pages/Dashboard.jsx:17-26 | after the first load the page shows exactly the caller's server listing |
| EndToEnd.AddRoundTrip | apps/frontend/src/pages/Dashboard.jsx:28-39 | after an add the page still shows exactly the caller's server listing; a blank input creates nothing and a sent one creates exactly one todo |
| EndToEnd.ToggleRoundTrip | apps/frontend/src/pages/Dashboard.jsx:41-50 | after a toggle, for any id, the page still shows exactly the caller's server listing |
| EndToEnd.SaveEditRoundTrip | apps/frontend/src/pages/Dashboard.jsx:71-84 | after saving an edit, for any id, the page still shows exactly the caller's server listing |
| EndToEnd.DeleteRoundTrip | apps/frontend/src/pages/Dashboard.jsx:52-59 | after a delete, for any id, the page still shows exactly the caller's server listing |

## Left out

- Wall-clock values are not modelled: timestamps, `updatedAt`, uptime, `Date.now` durations and the health report's memory figures. `createdAt` is a logical clock that strictly increases, so ties between todos created in the same millisecond are not modelled.
- Failures of Mongoose queries and saves other than the validation and cast errors modelled here are not modelled. Neither is the `catch` blocks' 500 answer written only when no response was sent (`routes/auth.js` 53-57 and 109-114, `routes/todos.js` 29-31 and 73-74). These are exceptions raised by the database driver, which the model does not include.
- The JSON body parser and the error-handling middleware (`app.js` 54 and 221-226) are left out. Neither is request-specific logic.
- Swagger loading, the `/api-docs`, `/` and `/health` bodies, and `startServer` are left out. They are dynamic imports, constants and process start-up. `AppRoutes.Route` models which of them answers a request.
- bcrypt, JWT, `isEmail`, `JSON.stringify` and winston's transports are abstract functions.
- AuthRoutes.NormalizeEmail: only the lower-casing of `normalizeEmail()` is modelled. Its provider-specific rewrites, such as removing dots in Gmail addresses, are foreign library behaviour.
- Characters stand for bytes in bcrypt's 72-byte limit: a password with multi-byte UTF-8 characters reaches the limit sooner than the model says.
- Case mapping is ASCII only. String lengths count characters, while JavaScript counts UTF-16 code units; the two differ for characters outside the Basic Multilingual Plane.
- Express's matching is that of Express 4: case-insensitive, with an optional trailing slash. React Router's matching is case-insensitive and ignores trailing slashes. Percent-decoding of paths is not modelled.
- A `completed` value that Mongoose casts from a non-boolean (such as `"true"`) is not modelled; `completed` is a boolean or absent.
- A `title` that is not a string is not modelled; `title` is a string or absent. In the source a JSON `null` passes `!== undefined` (`routes/todos.js` 120) and fails the required validator with a 500 answer, and a number is cast to a string.
- A `password` that is not a string is not modelled; `password` is a string or absent. At login, `exists()` (`routes/auth.js` 67) lets a JSON `null` or a number through, and for a stored address `bcrypt.compare` then throws and the route answers 500 (`routes/auth.js` 109-113).
- An unset `JWT_SECRET` is not modelled: `jwt.sign` then throws after `user.save()` (`routes/auth.js` 36-43), so the user is stored and the answer is 500. The `Signer` is total.
- The ObjectId format is not modelled. An id parameter is a decimal numeral, and anything else is the cast error.
- UserModel.ValidationErrors does not model the unique index on `email` as a save-time error. The index is modelled as the `ValidUsers` invariant that `UserStore.Register` keeps.
- bcrypt's random salt is not modelled: `hash` is one fixed function, so two hashes of the same password are equal in the model and differ in the source. `Compare` gives the relation `bcrypt.compare` gives, whatever the salt.
- Logger.Put: keys keep insertion order. JavaScript lists integer-like keys such as `"0"` first, in ascending order, so the order claims of `Put`, `Spread` and `Tagged` hold only for other keys. The keys the routes pass are never integer-like.
- AuthRoutes.ValidUsers does not restate that stored addresses are normalised. `NormalizedEmailIsStored` proves that for each address as it is stored.
- Winston's merging of `defaultMeta` and of a `message` key into the logged line, `logInfo`/`logWarn`/`logDebug` and the `timestamp` format are left out. They pass their arguments to winston unchanged, or belong to winston itself.
- The axios success interceptor is the identity and is left out.
- The request logger middleware (`middleware/requestLogger.js`), `src/index.js` and the `api/` wrappers are not part of this model.
- Concurrent invocations and requests are not modelled. Each handler runs to completion before the next one starts; a connection in progress is the input `readyState` 2.

## Findings

| source | as written | input that shows it | evidently intended | confidence | as-written member | corrected member |
|---|---|---|---|---|---|---|
| apps/backend/netlify/functions/api.js:14-17 | `dbConnected` is set to true whenever `connectDB` returns, including when it returned at once because a connection was in progress (`app.js` 272-277) | a reused container whose earlier connect was cut off while in progress, so the next invocation meets `readyState` 2 with the flag down, and that connection then fails: the flag stays up with nothing connected, and no later invocation calls `connectDB` | the flag follows whether the helper actually holds a connection, so a later invocation retries | low: it needs a connection still in progress when an invocation finds the flag down, which a genuine cold start (`readyState` 0) does not give; not executed | NetlifyFunction.AsWrittenFlagOutlivesConnection | NetlifyFunction.Main |
| apps/backend/src/utils/logger.js:5 | `level.toUpperCase()` runs after `colorize({ all: true })` (line 34) has wrapped the level in colour escape sequences | `logger.error(...)` with colours on: the level `ESC[31merror ESC[39m` prints as `ESC[31MERROR ESC[39M`, whose `M` ends a different control sequence, not a colour change | the upper-case level name, coloured | medium: `colorize` turns colours on by itself, with no option in the source, so every console line is affected wherever colours are shown; not executed | Logger.AsWrittenTagBreaksEscape | Logger.LevelTag |

/** The account routes of routes/auth.js over the user collection: `/register` creates a
    user and signs a token for it, `/login` checks the credentials and signs a token. */
module AuthRoutes {
  import opened Basics
  import opened Strings
  import opened UserModel
  import opened Tokens

  /** The user as the responses show it: `{ id, email }`, with no password. */
  datatype PublicUser = PublicUser(id: UserId, email: string)

  /** The JSON bodies the two routes write. */
  datatype Body =
    | Session(message: string, token: string, user: PublicUser)  // `{ message, token, user }`
    | Failure(error: string)                                      // `{ error }`
    | Invalid(paths: seq<string>)                                 // `{ errors: errors.array() }`, by field

  const AlreadyRegistered: string := "Email already registered"
  const InvalidCredentials: string := "Invalid credentials"
  const Registered: string := "User registered successfully"
  const LoggedIn: string := "Login successful"

  /** What the model relies on about the `isEmail` validator: an accepted address holds an
      `@`. Its local part may still start with white space such as U+3000, which the
      validator's Unicode local-part class admits. */
  ghost predicate SoundEmailCheck(isEmail: string -> bool) {
    forall e :: isEmail(e) ==> '@' in e
  }

  /** `normalizeEmail()`, as far as the model follows it: the address is lower-cased. */
  function NormalizeEmail(e: string): (r: string)
    ensures |r| == |e| && ToLower(r) == r
  {
    ToLowerIdempotent(e);
    ToLower(e)
  }

  /** The address both routes work with: `normalizeEmail()`, then the `email` path's setters,
      which Mongoose applies to a `findOne` filter value as it does to a new document. */
  function QueryEmail(e: string): (r: string)
    ensures Trimmed(r) && ToLower(r) == r
  {
    SetEmail(NormalizeEmail(e))
  }

  /** The address looked up is the address stored: the setters leave it unchanged. An
      address without white space at its ends is the normalised address itself. */
  lemma NormalizedEmailIsStored(e: string)
    ensures SetEmail(QueryEmail(e)) == QueryEmail(e)
    ensures Trimmed(e) ==> QueryEmail(e) == NormalizeEmail(e)
  {
    SetEmailIdempotent(NormalizeEmail(e));
    var n := NormalizeEmail(e);
    if Trimmed(e) && e != [] {
      assert n[0] == LowerChar(e[0]) && n[|n| - 1] == LowerChar(e[|e| - 1]);
      TrimOfTrimmed(n);
    }
  }

  /** An accepted address keeps its `@` through normalising and the setters, so it is never
      stored empty. */
  lemma AcceptedEmailNonEmpty(isEmail: string -> bool, e: string)
    requires SoundEmailCheck(isEmail) && isEmail(e)
    ensures QueryEmail(e) != ""
  {
    var k :| 0 <= k < |e| && e[k] == '@';
    var n := NormalizeEmail(e);
    assert n[k] == '@';
    TrimEmptyIffAllSpace(n);
  }

  /** White space before an address in its stored form (an ideographic space U+3000, say,
      which `isEmail` accepts in a local part) is dropped by the setters, so the lookup
      finds the user stored under that address. */
  lemma LeadingSpaceFindsStoredUser(w: string, t: string)
    requires AllSpace(w) && Trimmed(t) && ToLower(t) == t
    ensures QueryEmail(w + t) == t
  {
    assert ToLower(w) == w by {
      forall i | 0 <= i < |w|
        ensures ToLower(w)[i] == w[i]
      {
        assert IsSpace(w[i]);
      }
    }
    ToLowerAppend(w, t);
    TrimSkipsSpace(w, t);
    TrimOfTrimmed(t);
  }

  /** The validators of `/register`, in chain order: a valid `email`, and a `password` of
      at least eight characters (an absent field is checked as the empty string). */
  function RegisterErrors(isEmail: string -> bool, email: Option<string>, password: Option<string>): (errs: seq<string>)
    ensures "email" in errs <==> email.None? || !isEmail(email.value)
    ensures "password" in errs <==> password.None? || |password.value| < MinPasswordLength
    ensures errs == [] <==> email.Some? && isEmail(email.value) && password.Some? && |password.value| >= MinPasswordLength
  {
    (if email.None? || !isEmail(email.value) then ["email"] else [])
    + (if password.None? || |password.value| < MinPasswordLength then ["password"] else [])
  }

  /** The validators of `/login`: a valid `email`, and a `password` that merely exists. */
  function LoginErrors(isEmail: string -> bool, email: Option<string>, password: Option<string>): (errs: seq<string>)
    ensures "email" in errs <==> email.None? || !isEmail(email.value)
    ensures "password" in errs <==> password.None?
    ensures errs == [] <==> email.Some? && isEmail(email.value) && password.Some?
  {
    (if email.None? || !isEmail(email.value) then ["email"] else [])
    + (if password.None? then ["password"] else [])
  }

  /** `User.findOne({ email })` over the collection in insertion order. */
  function FindByEmail(users: seq<StoredUser>, email: string): (r: Option<nat>)
    ensures r.Some? ==> r.value < |users| && users[r.value].email == email
    ensures r.None? <==> forall k :: 0 <= k < |users| ==> users[k].email != email
  {
    if users == [] then None
    else if users[|users| - 1].email == email then Some(|users| - 1)
    else
      var r := FindByEmail(users[..|users| - 1], email);
      assert r.None? ==> forall k :: 0 <= k < |users| - 1 ==> users[..|users| - 1][k] == users[k];
      r
  }

  /** Ids are positions; every stored address is non-empty; every stored
      password is the digest of its secret; and the unique index on `email` holds. */
  ghost predicate ValidUsers(users: seq<StoredUser>, secrets: seq<string>, h: Hasher) {
    && |secrets| == |users|
    && (forall k :: 0 <= k < |users| ==>
          && users[k].id == k && users[k].email != ""
          && users[k].password == h.hash(secrets[k]))
    && (forall i, j :: 0 <= i < j < |users| ==> users[i].email != users[j].email)
  }

  /** Appending a user whose address is normalised and not yet present keeps the collection valid. */
  lemma ValidUsersAppend(users: seq<StoredUser>, secrets: seq<string>, h: Hasher, secret: string, email: string)
    requires ValidUsers(users, secrets, h)
    requires email != "" && FindByEmail(users, email).None?
    ensures ValidUsers(users + [StoredUser(|users|, email, h.hash(secret))], secrets + [secret], h)
  {
    var us := users + [StoredUser(|users|, email, h.hash(secret))];
    var ss := secrets + [secret];
    forall k | 0 <= k < |us|
      ensures us[k].id == k && us[k].email != ""
      ensures us[k].password == h.hash(ss[k])
    {
      if k < |users| {
        assert us[k] == users[k] && ss[k] == secrets[k];
      }
    }
    forall i, j | 0 <= i < j < |us|
      ensures us[i].email != us[j].email
    {
      assert us[i] == users[i];
      if j < |users| {
        assert us[j] == users[j];
      }
    }
  }

  /** The user collection, with the hashing and signing the routes use. `secrets` holds, for
      the proofs only, the plain text each stored digest was made from. */
  class UserStore {
    var users: seq<StoredUser>
    ghost var secrets: seq<string>
    const hasher: Hasher
    const signer: Signer
    const isEmail: string -> bool

    ghost predicate Valid()
      reads this
    {
      ValidUsers(users, secrets, hasher)
    }

    constructor (hasher: Hasher, signer: Signer, isEmail: string -> bool)
      ensures Valid() && users == []
      ensures this.hasher == hasher && this.signer == signer && this.isEmail == isEmail
    {
      this.hasher, this.signer, this.isEmail := hasher, signer, isEmail;
      users, secrets := [], [];
    }

    /** `POST /register`: invalid input answers 400 with the failing fields before the
        collection is read; a normalised address already present answers 400
        `Email already registered`; otherwise exactly one user is appended, holding the
        normalised address and the digest of the password, and 201 carries a token for it
        and the user without the password. Failures leave the collection as it was. */
    method Register(email: Option<string>, password: Option<string>) returns (reply: Reply<Body>)
      requires Valid() && SoundEmailCheck(isEmail)
      modifies this
      ensures Valid()
      ensures RegisterErrors(isEmail, email, password) != [] ==>
        reply == Reply(400, Invalid(RegisterErrors(isEmail, email, password))) && users == old(users)
      ensures RegisterErrors(isEmail, email, password) == [] && FindByEmail(old(users), QueryEmail(email.value)).Some? ==>
        reply == Reply(400, Failure(AlreadyRegistered)) && users == old(users)
      ensures RegisterErrors(isEmail, email, password) == [] && FindByEmail(old(users), QueryEmail(email.value)).None? ==>
        var u := StoredUser(|old(users)|, QueryEmail(email.value), hasher.hash(password.value));
        && users == old(users) + [u]
        && secrets == old(secrets) + [password.value]
        && reply == Reply(201, Session(Registered, signer.sign(u.id), PublicUser(u.id, u.email)))
    {
      var errs := RegisterErrors(isEmail, email, password);
      if errs != [] {
        reply := Reply(400, Invalid(errs));
        return;
      }
      var e := QueryEmail(email.value);
      if FindByEmail(users, e).Some? {
        reply := Reply(400, Failure(AlreadyRegistered));
        return;
      }
      NormalizedEmailIsStored(email.value);
      AcceptedEmailNonEmpty(isEmail, email.value);
      var u := Insert(e, password.value);
      reply := Reply(201, Session(Registered, signer.sign(u.id), PublicUser(u.id, u.email)));
    }

    /** `new User({ email, password }).save()` for an address that is new and already
        normalised and a long enough password: the setters leave the address as it is,
        validation passes, and the pre-save hook stores the digest. */
    method Insert(e: string, secret: string) returns (u: StoredUser)
      requires Valid() && e != "" && SetEmail(e) == e && FindByEmail(users, e).None?
      requires |secret| >= MinPasswordLength
      modifies this
      ensures u == StoredUser(|old(users)|, e, hasher.hash(secret))
      ensures users == old(users) + [u] && secrets == old(secrets) + [secret]
      ensures Valid()
    {
      var doc := new UserDocument(|users|, Some(e), Some(secret));
      var saveErrs := doc.Save(hasher);
      u := StoredUser(doc.id, doc.email.value, doc.password.value);
      ValidUsersAppend(users, secrets, hasher, secret, e);
      users := users + [u];
      secrets := secrets + [secret];
    }

    /** `POST /login`: invalid input answers 400; an unknown address and a wrong password
        both answer the same 401 `Invalid credentials`; otherwise 200 carries a token for the
        user and the user without the password. The collection is only read. */
    method Login(email: Option<string>, password: Option<string>) returns (reply: Reply<Body>)
      requires Valid()
      ensures LoginErrors(isEmail, email, password) != [] ==>
        reply == Reply(400, Invalid(LoginErrors(isEmail, email, password)))
      ensures reply.status == 401 ==> reply == Reply(401, Failure(InvalidCredentials))
      ensures LoginErrors(isEmail, email, password) == [] ==>
        match FindByEmail(users, QueryEmail(email.value))
        case None => reply == Reply(401, Failure(InvalidCredentials))
        case Some(k) =>
          if Compare(hasher, password.value, users[k].password)
          then reply == Reply(200, Session(LoggedIn, signer.sign(k), PublicUser(k, users[k].email)))
          else reply == Reply(401, Failure(InvalidCredentials))
    {
      var errs := LoginErrors(isEmail, email, password);
      if errs != [] {
        reply := Reply(400, Invalid(errs));
        return;
      }
      var e := QueryEmail(email.value);
      var found := FindByEmail(users, e);
      if found.None? {
        reply := Reply(401, Failure(InvalidCredentials));
        return;
      }
      var user := users[found.value];
      if !Compare(hasher, password.value, user.password) {
        reply := Reply(401, Failure(InvalidCredentials));
        return;
      }
      reply := Reply(200, Session(LoggedIn, signer.sign(user.id), PublicUser(user.id, user.email)));
    }
  }

  /** With a sound hasher, a login succeeds exactly when the address names a stored user
      whose registered password agrees with the one given on its first 72 bytes: the same
      password when both are no longer than that. */
  lemma LoginSucceedsIffRegisteredPassword(users: seq<StoredUser>, secrets: seq<string>, h: Hasher, email: string, password: string, k: nat)
    requires SoundHasher(h) && |secrets| == |users|
    requires forall i :: 0 <= i < |users| ==> users[i].password == h.hash(secrets[i])
    requires FindByEmail(users, email) == Some(k)
    ensures Compare(h, password, users[k].password) <==> Significant(password) == Significant(secrets[k])
    ensures |password| <= BcryptMaxBytes && |secrets[k]| <= BcryptMaxBytes ==>
      (Compare(h, password, users[k].password) <==> password == secrets[k])
  {
  }
}

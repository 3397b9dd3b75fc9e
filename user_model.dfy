/** The user document of models/User.js: an e-mail that the schema setters lower-case and
    trim, a required password of at least eight characters that the pre-save hook replaces
    by its bcrypt digest only when it is new or changed, `comparePassword`, and a `toJSON`
    that leaves the password out. */
module UserModel {
  import opened Basics
  import opened Strings

  /** The `_id` of a user document. ObjectIds are opaque; a natural number stands for one. */
  type UserId = nat

  /** The password-hashing library as an abstract function: `hash(p)` is the digest stored
      for the plain text `p`, standing for bcrypt with cost 10 and one fixed salt; `Compare`
      stands for `bcrypt.compare`, which answers the same whatever the salt. */
  datatype Hasher = Hasher(hash: string -> string)

  /** bcrypt reads at most the first 72 bytes of a password (a character stands for a byte). */
  const BcryptMaxBytes: nat := 72

  /** The part of a password that bcrypt reads. */
  function Significant(p: string): (r: string)
    ensures |r| <= BcryptMaxBytes && |r| <= |p| && r == p[..|r|]
    ensures |p| <= BcryptMaxBytes ==> r == p
  {
    if |p| <= BcryptMaxBytes then p else p[..BcryptMaxBytes]
  }

  /** What the model relies on about bcrypt under one salt: a digest is never the plain text
      itself, and two plain texts have the same digest exactly when their first 72 bytes
      agree. */
  ghost predicate SoundHasher(h: Hasher) {
    && (forall p :: h.hash(p) != p)
    && (forall a, b :: h.hash(a) == h.hash(b) <==> Significant(a) == Significant(b))
  }

  /** The shape of a bcrypt digest: 60 characters. Kept apart from `SoundHasher`, since no
      function on strings has digests of one fixed length and separates every password of
      up to 72 bytes. */
  ghost predicate BcryptShaped(h: Hasher) {
    forall p :: |h.hash(p)| == 60
  }

  /** A hasher that meets `SoundHasher`: a marker character that differs from the first
      character of the password, then the part bcrypt reads. */
  function MarkedPrefix(p: string): (r: string)
    ensures |r| == 1 + |Significant(p)| && r[1..] == Significant(p)
  {
    [if |p| > 0 && p[0] == 'a' then 'b' else 'a'] + Significant(p)
  }

  /** `SoundHasher` is satisfiable, so the lemmas that assume it are about some hasher. */
  lemma SoundHasherSatisfiable()
    ensures SoundHasher(Hasher(MarkedPrefix))
  {
    var h := Hasher(MarkedPrefix);
    forall p
      ensures h.hash(p) != p
    {
      assert h.hash(p) == MarkedPrefix(p);
      if |p| > 0 {
        assert MarkedPrefix(p)[0] != p[0];
      }
    }
    forall a, b
      ensures h.hash(a) == h.hash(b) <==> Significant(a) == Significant(b)
    {
      assert h.hash(a) == MarkedPrefix(a) && h.hash(b) == MarkedPrefix(b);
      if Significant(a) == Significant(b) && |a| > 0 {
        assert a[0] == Significant(a)[0] == Significant(b)[0] == b[0];
      }
    }
  }

  /** `bcrypt.compare(candidate, digest)`: does the digest belong to the candidate? */
  predicate Compare(h: Hasher, candidate: string, digest: string) {
    h.hash(candidate) == digest
  }

  const MinPasswordLength: nat := 8

  /** The setters of the `email` path: `lowercase: true`, then `trim: true`. */
  function SetEmail(e: string): (r: string)
    ensures Trimmed(r) && ToLower(r) == r
  {
    var lower := ToLower(e);
    LowerIsLower(e);
    TrimOfLowerIsLower(lower);
    Trim(lower)
  }

  lemma LowerIsLower(s: string)
    ensures ToLower(ToLower(s)) == ToLower(s)
  {
  }

  lemma TrimOfLowerIsLower(s: string)
    requires ToLower(s) == s
    ensures ToLower(Trim(s)) == Trim(s)
  {
    var i, j := TrimSlice(s);
    forall k | 0 <= k < j - i
      ensures LowerChar(s[i..j][k]) == s[i..j][k]
    {
      assert s[i..j][k] == s[i + k] == ToLower(s)[i + k];
    }
  }

  /** Setting an e-mail that has already been normalised changes nothing. */
  lemma SetEmailIdempotent(e: string)
    ensures SetEmail(SetEmail(e)) == SetEmail(e)
  {
    var r := SetEmail(e);
    TrimOfTrimmed(r);
  }

  /** Schema validation on save: the names of the failing paths, in schema order
      (`email` is required; `password` is required and at least eight characters long). */
  function ValidationErrors(email: Option<string>, password: Option<string>): (errs: seq<string>)
    ensures errs == [] <==> email.Some? && email.value != "" && password.Some? && |password.value| >= MinPasswordLength
    ensures ("email" in errs <==> email.None? || email.value == "")
    ensures ("password" in errs <==> password.None? || |password.value| < MinPasswordLength)
    ensures |errs| <= 2
  {
    (if email.None? || email.value == "" then ["email"] else [])
    + (if password.None? || |password.value| < MinPasswordLength then ["password"] else [])
  }

  /** The pre-save hook: the stored password becomes the digest when it was new or
      modified, and is left as it is otherwise. */
  function PreSave(h: Hasher, password: string, modified: bool): string {
    if modified then h.hash(password) else password
  }

  /** After the hook, a new or changed password is never stored in plain text. */
  lemma PreSaveNeverPlain(h: Hasher, password: string)
    requires SoundHasher(h)
    ensures PreSave(h, password, true) != password
  {
  }

  /** With bcrypt's digest shape, a new or changed password is stored as 60 characters. */
  lemma PreSaveDigestLength(h: Hasher, password: string)
    requires BcryptShaped(h)
    ensures |PreSave(h, password, true)| == 60
  {
  }

  /** A second save with the password untouched keeps the digest: it is not hashed again. */
  lemma PreSaveKeepsDigest(h: Hasher, password: string)
    ensures PreSave(h, PreSave(h, password, true), false) == h.hash(password)
  {
  }

  /** `comparePassword(c)` on the digest of `p` holds exactly when `c` and `p` agree on
      their first 72 bytes; for passwords no longer than that, exactly when `c` is `p`. */
  lemma CompareSavedPassword(h: Hasher, p: string, c: string)
    requires SoundHasher(h)
    ensures Compare(h, c, PreSave(h, p, true)) <==> Significant(c) == Significant(p)
    ensures |c| <= BcryptMaxBytes && |p| <= BcryptMaxBytes ==> (Compare(h, c, PreSave(h, p, true)) <==> c == p)
  {
  }

  /** A candidate that only differs from the password after its first 72 bytes passes. */
  lemma CompareIgnoresTail(h: Hasher, p: string, c: string)
    requires SoundHasher(h)
    requires |p| > BcryptMaxBytes && |c| > BcryptMaxBytes && p[..BcryptMaxBytes] == c[..BcryptMaxBytes]
    ensures Compare(h, c, PreSave(h, p, true))
  {
  }

  /** A saved user as the collection holds it; `password` is the stored digest. */
  datatype StoredUser = StoredUser(id: UserId, email: string, password: string)

  /** A mongoose user document: its fields, and whether `password` is new or modified. */
  class UserDocument {
    const id: UserId
    var email: Option<string>
    var password: Option<string>
    var passwordModified: bool

    /** `new User({ email, password })`: the setters apply and a given password counts as modified. */
    constructor (id: UserId, email: Option<string>, password: Option<string>)
      ensures this.id == id
      ensures this.email == (if email.Some? then Some(SetEmail(email.value)) else None)
      ensures this.password == password && passwordModified == password.Some?
    {
      this.id := id;
      this.email := if email.Some? then Some(SetEmail(email.value)) else None;
      this.password := password;
      this.passwordModified := password.Some?;
    }

    /** `doc.password = p`: marks the path as modified. */
    method SetPassword(p: string)
      modifies this
      ensures password == Some(p) && passwordModified && email == old(email)
    {
      password := Some(p);
      passwordModified := true;
    }

    /** `save()`: validation first; when it passes, the pre-save hook and then the modified
        flags are cleared. A failed validation leaves the document as it was. */
    method Save(h: Hasher) returns (errs: seq<string>)
      modifies this
      ensures errs == ValidationErrors(old(email), old(password))
      ensures errs != [] ==> email == old(email) && password == old(password) && passwordModified == old(passwordModified)
      ensures errs == [] ==> && email == old(email) && !passwordModified
                             && password == Some(PreSave(h, old(password).value, old(passwordModified)))
    {
      errs := ValidationErrors(email, password);
      if errs != [] {
        return;
      }
      if passwordModified {
        password := Some(h.hash(password.value));
      }
      passwordModified := false;
    }

    /** `comparePassword(candidate)`. */
    predicate ComparePassword(h: Hasher, candidate: string)
      reads this
      requires password.Some?
    {
      Compare(h, candidate, password.value)
    }

    /** `toObject()`: the stored fields by name. */
    function ToObject(): map<string, string>
      reads this
    {
      var m := map["_id" := Decimal(id)];
      var m := if email.Some? then m["email" := email.value] else m;
      if password.Some? then m["password" := password.value] else m
    }

    /** `toJSON()`: a copy of the fields with `password` deleted. */
    function ToJson(): (m: map<string, string>)
      reads this
      ensures "password" !in m
      ensures forall k :: k in m <==> k in ToObject() && k != "password"
      ensures forall k :: k in m ==> m[k] == ToObject()[k]
    {
      ToObject() - {"password"}
    }
  }

  /** `comparePassword(c)` on a document saved with the new password `p` holds exactly when
      `c` agrees with `p` on its first 72 bytes. */
  lemma ComparePasswordOfSaved(doc: UserDocument, h: Hasher, p: string, c: string)
    requires SoundHasher(h) && doc.password == Some(PreSave(h, p, true))
    ensures doc.ComparePassword(h, c) <==> Significant(c) == Significant(p)
  {
    CompareSavedPassword(h, p, c);
  }
}

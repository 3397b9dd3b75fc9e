/** The `authenticate` middleware of middleware/auth.js: the token is read from the
    `Authorization` header (the Bearer scheme of section 2.1 of RFC 6750, matched without
    regard to case), verified, and resolved to a user; the request is then either answered
    with 401 or passed on with `req.user` set. */
module AuthMiddleware {
  import opened Basics
  import opened Strings
  import opened UserModel
  import opened Tokens

  /** `replace(/^Bearer\s+/i, '')`: when the header starts with the scheme name in any case
      followed by at least one white-space character, the name and the whole run of white
      space after it are removed; otherwise the header is kept whole. */
  function StripBearer(h: string): string {
    if |h| > 6 && EqualsIgnoreCase(h[..6], "bearer") && IsSpace(h[6]) then TrimStart(h[6..]) else h
  }

  /** `authHeader?.replace(/^Bearer\s+/i, '').trim()`: no token without a header. */
  function ExtractToken(header: Option<string>): (token: Option<string>)
    ensures token.None? <==> header.None?
    ensures token.Some? ==> Trimmed(token.value)
  {
    match header
    case None => None
    case Some(h) => Some(Trim(StripBearer(h)))
  }

  /** A header with the scheme name written in any case, then white space, then `t`,
      yields `t` trimmed. */
  lemma ExtractBearer(scheme: string, w: string, t: string)
    requires |scheme| == 6 && EqualsIgnoreCase(scheme, "bearer")
    requires w != [] && AllSpace(w)
    ensures ExtractToken(Some(scheme + w + t)) == Some(Trim(t))
  {
    var h := scheme + w + t;
    assert h[..6] == scheme;
    assert h[6] == w[0];
    assert h[6..] == w + t;
    assert StripBearer(h) == TrimStart(w + t);
    TrimStartSkipsSpace(w, t);
    TrimAfterTrimStart(t);
  }

  /** The header the client builds, `Bearer ${token}`, gives back the token it was built from
      whenever that token has no white space at its ends. */
  lemma ExtractBuiltHeader(t: string)
    requires Trimmed(t)
    ensures ExtractToken(Some("Bearer " + t)) == Some(t)
  {
    assert "Bearer " + t == "Bearer" + " " + t;
    ExtractBearer("Bearer", " ", t);
    TrimOfTrimmed(t);
  }

  /** A header that does not open with the scheme and white space is itself the token,
      trimmed: `Token abc` gives `Token abc`, and a bare `Bearer` gives `Bearer`. */
  lemma ExtractWithoutScheme(h: string)
    requires !(|h| > 6 && EqualsIgnoreCase(h[..6], "bearer") && IsSpace(h[6]))
    ensures ExtractToken(Some(h)) == Some(Trim(h))
  {
  }

  /** `User.findById`: a user, no user, or a failure of the query itself. */
  datatype Lookup<U> = Found(user: U) | NotFound | LookupFailed

  /** The four outcomes of the middleware. */
  datatype Verdict<U> =
    | Missing        // no header, or nothing left after the scheme: 401 `Authentication required`
    | InvalidToken   // verification or the user query threw: 401 `Invalid token`
    | UnknownUser    // the token names no existing user: 401 `User not found`
    | Pass(user: U)  // `req.user = user; next()`

  /** Something is left of the header once the scheme is taken off and it is trimmed. */
  predicate HasToken(header: Option<string>) {
    ExtractToken(header).Some? && ExtractToken(header).value != ""
  }

  /** The decision ladder of `authenticate`, with `jwt.verify` and `User.findById` as inputs. */
  function Decide<U>(header: Option<string>, verify: string -> Option<UserId>, findById: UserId -> Lookup<U>): (v: Verdict<U>)
    ensures v.Missing? <==> ExtractToken(header) in {None, Some("")}
    ensures v.Pass? <==> && HasToken(header) && verify(ExtractToken(header).value).Some?
                         && findById(verify(ExtractToken(header).value).value).Found?
    ensures v.Pass? ==> findById(verify(ExtractToken(header).value).value) == Found(v.user)
    ensures v.UnknownUser? <==> && HasToken(header) && verify(ExtractToken(header).value).Some?
                                && findById(verify(ExtractToken(header).value).value).NotFound?
    ensures v.InvalidToken? <==> && HasToken(header)
                                 && (|| verify(ExtractToken(header).value).None?
                                     || findById(verify(ExtractToken(header).value).value).LookupFailed?)
  {
    match ExtractToken(header)
    case None => Missing
    case Some(token) =>
      if token == "" then Missing
      else match verify(token)
        case None => InvalidToken
        case Some(id) =>
          match findById(id)
          case LookupFailed => InvalidToken
          case NotFound => UnknownUser
          case Found(u) => Pass(u)
  }

  /** A token issued by the server for an existing user, sent the way the client sends it,
      lets the request through with that user. */
  lemma IssuedTokenPasses<U>(s: Signer, id: UserId, findById: UserId -> Lookup<U>, u: U)
    requires SoundSigner(s)
    requires findById(id) == Found(u)
    ensures Decide(Some("Bearer " + s.sign(id)), s.verify, findById) == Pass(u)
  {
    ExtractBuiltHeader(s.sign(id));
  }

  /** The error message written for each rejection; all of them carry status 401. */
  function RejectionMessage<U>(v: Verdict<U>): string
    requires !v.Pass?
  {
    match v
    case Missing => "Authentication required"
    case InvalidToken => "Invalid token"
    case UnknownUser => "User not found"
  }

  /** The request and response one middleware call sees: `req.user`, the response written
      so far (`res.headersSent` once present), and how often `next` was called. */
  class Exchange<U> {
    var user: Option<U>
    var response: Option<Reply<string>>
    var nextCalls: nat

    constructor ()
      ensures user.None? && response.None? && nextCalls == 0
    {
      user, response, nextCalls := None, None, 0;
    }

    /** `res.status(401).json({ error })`. Writing after the headers were sent throws, and
        the middleware's `catch` then writes nothing, so a second write changes nothing. */
    method Send(status: int, error: string)
      modifies this
      ensures response == if old(response).None? then Some(Reply(status, error)) else old(response)
      ensures user == old(user) && nextCalls == old(nextCalls)
    {
      if response.None? {
        response := Some(Reply(status, error));
      }
    }
  }

  /** `authenticate(req, res, next)`: on `Pass` it sets `req.user` and calls `next` once and
      writes nothing; on every other verdict it writes the 401 (unless a response was already
      written) and neither sets `req.user` nor calls `next`. */
  method Authenticate<U>(ex: Exchange<U>, header: Option<string>, verify: string -> Option<UserId>, findById: UserId -> Lookup<U>)
    modifies ex
    ensures Decide(header, verify, findById).Pass? ==>
      && ex.user == Some(Decide(header, verify, findById).user)
      && ex.nextCalls == old(ex.nextCalls) + 1
      && ex.response == old(ex.response)
    ensures !Decide(header, verify, findById).Pass? ==>
      && ex.user == old(ex.user) && ex.nextCalls == old(ex.nextCalls)
      && ex.response == (if old(ex.response).None?
                         then Some(Reply(401, RejectionMessage(Decide(header, verify, findById))))
                         else old(ex.response))
  {
    var token := ExtractToken(header);
    if token.None? || token.value == "" {
      assert Decide(header, verify, findById) == Missing;
      ex.Send(401, "Authentication required");
      return;
    }
    var decoded := verify(token.value);
    if decoded.None? {
      // jwt.verify threw: the catch block answers only when nothing was sent yet
      assert Decide(header, verify, findById) == InvalidToken;
      if ex.response.None? {
        ex.Send(401, "Invalid token");
      }
      return;
    }
    var found := findById(decoded.value);
    assert Decide(header, verify, findById) == match found
      case LookupFailed => InvalidToken
      case NotFound => UnknownUser
      case Found(u) => Pass(u);
    match found {
      case LookupFailed =>
        if ex.response.None? {
          ex.Send(401, "Invalid token");
        }
      case NotFound =>
        ex.Send(401, "User not found");
      case Found(u) =>
        ex.user := Some(u);
        ex.nextCalls := ex.nextCalls + 1;
    }
  }
}

/** The database connection helper of src/app.js: the module-level `isConnected` flag that
    `connectDB` keeps, with the driver's `readyState`, the environment and the outcome of
    `mongoose.connect` as inputs; the masking of the password in the connection string it
    logs; and the hint it logs for a failed connect. */
module Database {
  import opened Basics
  import opened Strings

  const MongoUriKey: string := "MONGODB_URI"
  const JwtSecretKey: string := "JWT_SECRET"
  const MissingUriError: string := "MONGODB_URI environment variable is not set"

  /** `process.env[key]` is truthy: present and not the empty string. */
  predicate EnvSet(env: map<string, string>, key: string) {
    key in env && env[key] != ""
  }

  /** How a promise settled: resolved, or rejected with an error message. */
  datatype Settled = Resolved | Rejected(message: string)

  /** One call of `connectDB`: the flag afterwards, whether `mongoose.connect` was called,
      and how the returned promise settled. */
  datatype ConnectStep = ConnectStep(connected: bool, attempted: bool, outcome: Settled)

  /** `connectDB()` given the flag, `readyState` (1 connected, 2 connecting), the environment
      and the settlement `mongoose.connect` would have. */
  function ConnectSpec(isConnected: bool, readyState: int, env: map<string, string>, driver: Settled): (r: ConnectStep)
    ensures isConnected ==> r == ConnectStep(true, false, Resolved)
    ensures r.attempted <==> !isConnected && readyState != 1 && readyState != 2 && EnvSet(env, MongoUriKey)
    ensures r.connected <==> isConnected || readyState == 1 || (r.attempted && driver.Resolved?)
    ensures r.outcome.Rejected? <==> !isConnected && readyState != 1 && readyState != 2 && (!EnvSet(env, MongoUriKey) || driver.Rejected?)
    ensures r.outcome.Rejected? ==> !r.connected
    ensures !isConnected && readyState == 2 ==> r == ConnectStep(false, false, Resolved)
  {
    if isConnected then ConnectStep(true, false, Resolved)
    else if readyState == 1 then ConnectStep(true, false, Resolved)
    else if readyState == 2 then ConnectStep(false, false, Resolved)
    else if !EnvSet(env, MongoUriKey) then ConnectStep(false, false, Rejected(MissingUriError))
    else match driver
      case Resolved => ConnectStep(true, true, Resolved)
      case Rejected(m) => ConnectStep(false, true, Rejected(m))
  }

  /** The module holding `isConnected`, and how many times it has called `mongoose.connect`. */
  class MongoConnector {
    var isConnected: bool
    var connectCalls: nat

    constructor ()
      ensures !isConnected && connectCalls == 0
    {
      isConnected, connectCalls := false, 0;
    }

    /** `connectDB()`: returns at once when connected, adopts a live connection, leaves a
        connection in progress alone, throws without a URI, and otherwise connects, setting
        the flag only when the connect succeeds and rethrowing its error when it fails. */
    method ConnectDB(readyState: int, env: map<string, string>, driver: Settled) returns (outcome: Settled)
      modifies this
      ensures isConnected == ConnectSpec(old(isConnected), readyState, env, driver).connected
      ensures connectCalls == old(connectCalls) + (if ConnectSpec(old(isConnected), readyState, env, driver).attempted then 1 else 0)
      ensures outcome == ConnectSpec(old(isConnected), readyState, env, driver).outcome
    {
      if isConnected {
        return Resolved;
      }
      if readyState == 1 {
        isConnected := true;
        return Resolved;
      }
      if readyState == 2 {
        return Resolved;
      }
      if !EnvSet(env, MongoUriKey) {
        return Rejected(MissingUriError);
      }
      connectCalls := connectCalls + 1;
      match driver {
        case Resolved =>
          isConnected := true;
          outcome := Resolved;
        case Rejected(m) =>
          outcome := Rejected(m);
      }
    }
  }

  /** A failed connect leaves the flag down, so the next call with the URI set connects again. */
  lemma FailedConnectRetries(env: map<string, string>, m: string, readyState: int, driver: Settled)
    requires EnvSet(env, MongoUriKey) && readyState != 1 && readyState != 2
    ensures !ConnectSpec(false, 0, env, Rejected(m)).connected
    ensures ConnectSpec(ConnectSpec(false, 0, env, Rejected(m)).connected, readyState, env, driver).attempted
  {
  }

  /** One call's inputs. */
  datatype Call = Call(readyState: int, env: map<string, string>, driver: Settled)

  /** A sequence of calls: the final flag, the calls of `mongoose.connect`, and how many of
      those succeeded. */
  datatype Trace = Trace(connected: bool, attempts: nat, successes: nat)

  function Run(isConnected: bool, calls: seq<Call>): Trace
    decreases |calls|
  {
    if calls == [] then Trace(isConnected, 0, 0)
    else
      var s := ConnectSpec(isConnected, calls[0].readyState, calls[0].env, calls[0].driver);
      var rest := Run(s.connected, calls[1..]);
      Trace(rest.connected, rest.attempts + (if s.attempted then 1 else 0),
            rest.successes + (if s.attempted && s.connected then 1 else 0))
  }

  /** Once connected, no call connects again and the flag stays up. */
  lemma {:induction false} ConnectedStaysQuiet(calls: seq<Call>)
    ensures Run(true, calls) == Trace(true, 0, 0)
    decreases |calls|
  {
    if calls != [] {
      ConnectedStaysQuiet(calls[1..]);
    }
  }

  /** Whatever the inputs, at most one connect ever succeeds. */
  lemma {:induction false} AtMostOneSuccess(isConnected: bool, calls: seq<Call>)
    ensures Run(isConnected, calls).successes <= (if isConnected then 0 else 1)
    decreases |calls|
  {
    if calls != [] {
      var s := ConnectSpec(isConnected, calls[0].readyState, calls[0].env, calls[0].driver);
      AtMostOneSuccess(s.connected, calls[1..]);
    }
  }

  // Masking of the connection string: `uri.replace(/\/\/([^:]+):([^@]+)@/, "//$1:***@")`

  /** The first position at or after `from` holding `c`. */
  function IndexOf(s: string, c: char, from: nat): (r: Option<nat>)
    ensures r.Some? ==> from <= r.value < |s| && s[r.value] == c && forall k :: from <= k < r.value ==> s[k] != c
    ensures r.None? ==> forall k :: from <= k < |s| ==> s[k] != c
    decreases |s| - from
  {
    if from >= |s| then None
    else if s[from] == c then Some(from)
    else IndexOf(s, c, from + 1)
  }

  /** The pattern matched at `p`: `//`, a non-empty run without `:` (the user), `:`, a
      non-empty run without `@` (the password), `@`. Greedy runs that exclude their own
      delimiter end at the first delimiter, so the match, if any, is `(colon, at)`. */
  function MatchAt(s: string, p: nat): (r: Option<(nat, nat)>)
    ensures r.Some? ==>
      var (c, a) := r.value;
      && p + 2 < c < a < |s| && s[p] == '/' && s[p + 1] == '/' && s[c] == ':' && s[a] == '@'
      && c + 1 < a
      && (forall k :: p + 2 <= k < c ==> s[k] != ':')
      && (forall k :: c + 1 <= k < a ==> s[k] != '@')
  {
    if p + 2 <= |s| && s[p] == '/' && s[p + 1] == '/' then
      match IndexOf(s, ':', p + 2)
      case None => None
      case Some(c) =>
        if c == p + 2 then None
        else match IndexOf(s, '@', c + 1)
          case None => None
          case Some(a) => if a == c + 1 then None else Some((c, a))
    else None
  }

  /** The leftmost position at or after `p` where the pattern matches. */
  function FirstMatch(s: string, p: nat): (r: Option<nat>)
    ensures r.Some? ==> p <= r.value < |s| && MatchAt(s, r.value).Some?
    ensures r.Some? ==> forall q :: p <= q < r.value ==> MatchAt(s, q).None?
    ensures r.None? ==> forall q :: p <= q ==> MatchAt(s, q).None?
    decreases |s| - p
  {
    if p >= |s| then None
    else if MatchAt(s, p).Some? then Some(p)
    else FirstMatch(s, p + 1)
  }

  /** The logged form of the URI: the first `//user:password@` becomes `//user:***@`, and a
      URI without one is logged as it is. */
  function RedactUri(s: string): (r: string)
    ensures FirstMatch(s, 0).None? ==> r == s
    ensures FirstMatch(s, 0).Some? ==>
      var p := FirstMatch(s, 0).value;
      var (c, a) := MatchAt(s, p).value;
      r == s[..p] + "//" + s[p + 2..c] + ":***@" + s[a + 1..]
  {
    match FirstMatch(s, 0)
    case None => s
    case Some(p) =>
      var (c, a) := MatchAt(s, p).value;
      s[..p] + "//" + s[p + 2..c] + ":***@" + s[a + 1..]
  }

  /** A URI in the usual shape, `scheme//user:password@rest`, is logged with the user kept
      and the password masked, whatever `rest` holds. */
  lemma RedactStandardUri(scheme: string, user: string, password: string, rest: string)
    requires forall k :: 0 <= k < |scheme| ==> scheme[k] != '/'
    requires user != "" && forall k :: 0 <= k < |user| ==> user[k] != ':'
    requires password != "" && forall k :: 0 <= k < |password| ==> password[k] != '@'
    ensures RedactUri(scheme + "//" + user + ":" + password + "@" + rest) == scheme + "//" + user + ":***@" + rest
  {
    var s := scheme + "//" + user + ":" + password + "@" + rest;
    var p := |scheme|;
    var c := p + 2 + |user|;
    var a := c + 1 + |password|;
    assert s[p] == '/' && s[p + 1] == '/';
    assert forall k :: p + 2 <= k < c ==> s[k] == user[k - p - 2];
    assert s[c] == ':';
    assert IndexOf(s, ':', p + 2) == Some(c);
    assert forall k :: c + 1 <= k < a ==> s[k] == password[k - c - 1];
    assert s[a] == '@';
    assert IndexOf(s, '@', c + 1) == Some(a);
    assert MatchAt(s, p) == Some((c, a));
    forall q | 0 <= q < p
      ensures MatchAt(s, q).None?
    {
      assert s[q] == scheme[q];
    }
    assert FirstMatch(s, 0) == Some(p) by {
      FirstMatchFrom(s, 0, p);
    }
    assert s[..p] == scheme;
    assert s[p + 2..c] == user;
    assert s[a + 1..] == rest;
  }

  /** When the pattern first matches at `p`, the search from any earlier start finds `p`. */
  lemma {:induction false} FirstMatchFrom(s: string, q: nat, p: nat)
    requires q <= p < |s| && MatchAt(s, p).Some?
    requires forall k :: q <= k < p ==> MatchAt(s, k).None?
    ensures FirstMatch(s, q) == Some(p)
    decreases p - q
  {
    if q < p {
      FirstMatchFrom(s, q + 1, p);
    }
  }

  /** The hint logged after a failed connect, chosen from the error message. */
  datatype Hint = CheckCredentials | CheckConnectionString | CheckNetwork | NoHint

  function ConnectionHint(message: string): (h: Hint)
    ensures h == CheckCredentials <==> Contains(message, "authentication failed")
    ensures h == CheckConnectionString <==>
      !Contains(message, "authentication failed") && (Contains(message, "ENOTFOUND") || Contains(message, "getaddrinfo"))
    ensures h == CheckNetwork <==>
      && !Contains(message, "authentication failed") && !Contains(message, "ENOTFOUND")
      && !Contains(message, "getaddrinfo") && Contains(message, "timeout")
  {
    if Contains(message, "authentication failed") then CheckCredentials
    else if Contains(message, "ENOTFOUND") || Contains(message, "getaddrinfo") then CheckConnectionString
    else if Contains(message, "timeout") then CheckNetwork
    else NoHint
  }
}

/** The serverless entry point of netlify/functions/api.js: a module-level `dbConnected` flag,
    `connectDB` called while the flag is down, a 500 answer when it throws, and the wrapped
    application handler otherwise. */
module NetlifyFunction {
  import opened Basics
  import opened Database

  const ConnectFailedError: string := "Database connection failed"

  /** What one invocation returns: the application's own response, or the 500 built when
      connecting failed (`{ error, message }` as its JSON body). */
  datatype Response<R> = Dispatched(result: R) | ConnectFailed(statusCode: int, error: string, message: string)

  /** The wrapper's flag next to the connection helper's flag. */
  datatype WrapperState = WrapperState(dbConnected: bool, isConnected: bool)

  /** The inputs of one invocation that reach `connectDB`. */
  datatype Invocation = Invocation(readyState: int, env: map<string, string>, driver: Settled)

  /** Whether the invocation dispatched to the application or failed with a message. */
  datatype Outcome = Dispatch | Fail(message: string)

  /** One invocation: the state after it, whether it called `connectDB`, whether that called
      `mongoose.connect`, and the outcome. */
  datatype Step = Step(state: WrapperState, calledConnectDB: bool, attempted: bool, outcome: Outcome)

  /** The flag never claims a connection the helper does not have. */
  predicate Honest(s: WrapperState) {
    s.dbConnected ==> s.isConnected
  }

  /** `main` as written: after `connectDB` resolves, `dbConnected` is set to true, also when
      `connectDB` resolved without connecting because a connection was in progress. */
  function MainAsWritten(s: WrapperState, inv: Invocation): (r: Step)
    ensures r.calledConnectDB <==> !s.dbConnected
    ensures r.outcome.Fail? ==> !r.state.dbConnected
  {
    if s.dbConnected then Step(s, false, false, Dispatch)
    else
      var c := ConnectSpec(s.isConnected, inv.readyState, inv.env, inv.driver);
      match c.outcome
      case Rejected(m) => Step(WrapperState(false, c.connected), true, c.attempted, Fail(m))
      case Resolved => Step(WrapperState(true, c.connected), true, c.attempted, Dispatch)
  }

  /** As written, an invocation that finds the flag down while a connection is in progress
      (left by an earlier connect that was cut off in a reused container) raises the flag with
      no connection; when that connection then fails, the next invocation dispatches without
      calling `connectDB` although nothing is connected. */
  lemma AsWrittenFlagOutlivesConnection(env: map<string, string>, driver: Settled)
    requires EnvSet(env, MongoUriKey)
    ensures var first := MainAsWritten(WrapperState(false, false), Invocation(2, env, driver));
            && first.outcome == Dispatch
            && first.state == WrapperState(true, false) && !Honest(first.state)
            && var second := MainAsWritten(first.state, Invocation(0, env, driver));
               && !second.calledConnectDB && second.outcome == Dispatch && !second.state.isConnected
  {
  }

  /** `main` with the flag taken from the helper after `connectDB` resolves. */
  function Main(s: WrapperState, inv: Invocation): (r: Step)
    ensures r.calledConnectDB <==> !s.dbConnected
    ensures r.outcome.Fail? ==> !r.state.dbConnected
    ensures Honest(s) ==> Honest(r.state)
    ensures s.dbConnected && Honest(s) ==> r == Step(s, false, false, Dispatch)
  {
    if s.dbConnected then Step(s, false, false, Dispatch)
    else
      var c := ConnectSpec(s.isConnected, inv.readyState, inv.env, inv.driver);
      match c.outcome
      case Rejected(m) => Step(WrapperState(false, c.connected), true, c.attempted, Fail(m))
      case Resolved => Step(WrapperState(c.connected, c.connected), true, c.attempted, Dispatch)
  }

  /** The two versions differ only in the flag left behind by a connection in progress. */
  lemma MainAgreesWithAsWritten(s: WrapperState, inv: Invocation)
    requires Honest(s)
    requires s.dbConnected || s.isConnected || inv.readyState != 2
    ensures Main(s, inv) == MainAsWritten(s, inv)
  {
  }

  /** A failed connect leaves the flag down, so the next invocation calls `connectDB` again,
      and with the URI set and the driver idle that call connects again. */
  lemma FailureRetries(s: WrapperState, inv: Invocation, next: Invocation)
    requires Honest(s) && Main(s, inv).outcome.Fail?
    requires EnvSet(next.env, MongoUriKey) && next.readyState != 1 && next.readyState != 2
    ensures Main(Main(s, inv).state, next).calledConnectDB
    ensures Main(Main(s, inv).state, next).attempted
  {
  }

  /** One invocation of either version: `MainAsWritten` or the corrected `Main`. */
  function MainOf(asWritten: bool, s: WrapperState, inv: Invocation): (r: Step)
    ensures r.calledConnectDB <==> !s.dbConnected
    ensures s.dbConnected ==> r == Step(s, false, false, Dispatch)
    ensures s.isConnected ==> r.state.isConnected && !r.attempted
    ensures r.attempted && r.state.isConnected ==> r.state.dbConnected
    ensures !asWritten && Honest(s) ==> Honest(r.state)
  {
    if asWritten then MainAsWritten(s, inv) else Main(s, inv)
  }

  /** The result of invocations in order: the final state, how often `connectDB` was
      called, and how many connects succeeded. */
  datatype Run = Run(state: WrapperState, connectDBCalls: nat, successes: nat)

  function RunMain(asWritten: bool, s: WrapperState, invs: seq<Invocation>): Run
    decreases |invs|
  {
    if invs == [] then Run(s, 0, 0)
    else
      var r := MainOf(asWritten, s, invs[0]);
      var rest := RunMain(asWritten, r.state, invs[1..]);
      Run(rest.state, rest.connectDBCalls + (if r.calledConnectDB then 1 else 0),
            rest.successes + (if r.attempted && r.state.isConnected then 1 else 0))
  }

  /** In either version, once the flag is up no invocation calls `connectDB` again and
      nothing changes, whether or not a connection is held. */
  lemma {:induction false} ConnectedNeverReconnects(asWritten: bool, s: WrapperState, invs: seq<Invocation>)
    requires s.dbConnected
    ensures RunMain(asWritten, s, invs) == Run(s, 0, 0)
    decreases |invs|
  {
    if invs != [] {
      ConnectedNeverReconnects(asWritten, s, invs[1..]);
    }
  }

  /** At most one connect ever succeeds, whatever the inputs: as written from any state, and
      in the corrected version from any state whose flag is honest. */
  lemma {:induction false} AtMostOneConnect(asWritten: bool, s: WrapperState, invs: seq<Invocation>)
    requires asWritten || Honest(s)
    ensures RunMain(asWritten, s, invs).successes <= (if s.isConnected then 0 else 1)
    decreases |invs|
  {
    if invs != [] {
      var r := MainOf(asWritten, s, invs[0]);
      if r.attempted && r.state.isConnected {
        ConnectedNeverReconnects(asWritten, r.state, invs[1..]);
      } else {
        AtMostOneConnect(asWritten, r.state, invs[1..]);
      }
    }
  }

  /** The function instance: the wrapper's flag and the helper module it calls. */
  class ApiFunction {
    var dbConnected: bool
    const db: MongoConnector

    /** The corrected flag never claims a connection the helper lacks. */
    ghost predicate FlagHonest()
      reads this, db
    {
      dbConnected ==> db.isConnected
    }

    /** A cold start: the flag is down. */
    constructor (db: MongoConnector)
      ensures this.db == db && !dbConnected && FlagHonest()
    {
      this.db := db;
      dbConnected := false;
    }

    /** `main(event, context)` as written: while the flag is down, `connectDB` runs first and
        a rejection answers 500 without calling the handler; once it resolves the flag is
        raised; otherwise the answer is exactly the handler's. */
    method Invoke<E, R>(event: E, inv: Invocation, handler: E -> R) returns (r: Response<R>)
      modifies this, db
      ensures var step := MainAsWritten(WrapperState(old(dbConnected), old(db.isConnected)), inv);
              && dbConnected == step.state.dbConnected && db.isConnected == step.state.isConnected
              && db.connectCalls == old(db.connectCalls) + (if step.attempted then 1 else 0)
              && r == match step.outcome
                      case Dispatch => Dispatched(handler(event))
                      case Fail(m) => ConnectFailed(500, ConnectFailedError, m)
    {
      if !dbConnected {
        var outcome := db.ConnectDB(inv.readyState, inv.env, inv.driver);
        if outcome.Rejected? {
          return ConnectFailed(500, ConnectFailedError, outcome.message);
        }
        dbConnected := true;
      }
      r := Dispatched(handler(event));
    }

    /** The corrected `main`: the same, except that the flag is taken from the helper once
        `connectDB` resolves, so it stays honest. */
    method InvokeCorrected<E, R>(event: E, inv: Invocation, handler: E -> R) returns (r: Response<R>)
      requires FlagHonest()
      modifies this, db
      ensures FlagHonest()
      ensures var step := Main(WrapperState(old(dbConnected), old(db.isConnected)), inv);
              && dbConnected == step.state.dbConnected && db.isConnected == step.state.isConnected
              && db.connectCalls == old(db.connectCalls) + (if step.attempted then 1 else 0)
              && r == match step.outcome
                      case Dispatch => Dispatched(handler(event))
                      case Fail(m) => ConnectFailed(500, ConnectFailedError, m)
    {
      if !dbConnected {
        var outcome := db.ConnectDB(inv.readyState, inv.env, inv.driver);
        if outcome.Rejected? {
          return ConnectFailed(500, ConnectFailedError, outcome.message);
        }
        dbConnected := db.isConnected;
      }
      r := Dispatched(handler(event));
    }
  }
}

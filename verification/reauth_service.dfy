/**
 * The reauthentication coordinator of ReAuthService.swift.
 *
 * Every piece of work runs on the main operation queue, so the coordinator is a
 * sequential state machine. It reacts to three kinds of event:
 *   - a caller asks to reauthenticate (the `nextTick` block of `reAuthenticate`);
 *   - the transport answers the request that is in flight (the completion
 *     closure of `_reAuthenticateToken` or `_reAuthenticateUsername`);
 *   - a waiting operation whose dependency has finished runs and replays the
 *     recorded result.
 * The pure functions below say what each event does to the whole state and which
 * effects (requests to the transport, calls of a caller's callbacks) it has; the
 * class `ReAuthService` does the same work by updating fields, and each of its
 * methods is proved equal to the corresponding function.
 */
module Reauthentication {
  import opened Wrappers

  /** Identifies one caller of `reAuthenticate` (its pair of callbacks). */
  type CallerId = nat

  /** Identifies one `NSOperation` created by `reAuthenticate`. */
  type OpId = nat

  /** The credential endpoints of `ElloAPI` that the coordinator uses. */
  datatype Endpoint =
    | ReAuth(refreshToken: string)
    | Auth(email: string, password: string)
    | AnonymousCredentials

  /**
   * A response body as JSON: `None` when it does not parse, otherwise the three
   * string fields the coordinator reads, each `None` when absent.
   */
  datatype TokenJson = TokenJson(
    accessToken: Option<string>,
    tokenType: Option<string>,
    refreshToken: Option<string>)

  /** What the transport hands to a completion closure. */
  datatype Response =
    | Success(statusCode: int, data: Option<TokenJson>)
    | Failure(cause: int)

  /** The errors the coordinator passes to failure callbacks. */
  datatype Error =
    | TransportError(cause: int)
    | GeneratedError(statusCode: int, data: Option<TokenJson>)  // ElloProvider.generateElloError
    | FailedToMapObjects                                        // ElloProvider.failedToMapObjects

  /** The `(error, statusCode)` pair of `ElloFailure`. */
  datatype ElloFailure = ElloFailure(error: Error, statusCode: Option<int>)

  /** The value of `reauthResult` when it is set: `(Bool, ElloFailure?)`. */
  datatype ReauthResult = ReauthResult(ok: bool, failure: Option<ElloFailure>)

  /** A call of one caller's `success` or `failure` closure. */
  datatype Callback =
    | Succeeded(caller: CallerId)
    | Failed(caller: CallerId, failure: ElloFailure)

  /** What an event does outside the coordinator. */
  datatype Effect =
    | Request(endpoint: Endpoint)
    | Invoke(callback: Callback)

  /** An operation that depends on `dependsOn` and replays `reauthResult` for `caller`. */
  datatype Waiter = Waiter(caller: CallerId, dependsOn: OpId)

  /** Which completion closure, if any, the transport will call next. */
  datatype Stage =
    | Idle
    | AwaitingToken(driver: CallerId, endpoint: Endpoint)
    | AwaitingPassword(driver: CallerId, endpoint: Endpoint)

  /** The fields of `AuthToken` that the coordinator reads or writes. */
  datatype Credential = Credential(
    token: Option<string>,
    tokenType: Option<string>,
    refreshToken: Option<string>,
    isAuthenticated: bool,
    username: Option<string>,
    password: Option<string>)

  /**
   * The whole coordinator: `currentReauthOperation`, `reauthResult`, the
   * operations waiting on the queue, the pending completion closure, the supply
   * of fresh operation identities and the stored token.
   */
  datatype State = State(
    current: Option<OpId>,
    result: Option<ReauthResult>,
    waiters: seq<Waiter>,
    stage: Stage,
    nextOp: OpId,
    cred: Credential)

  /** The state after an event, and the effects of the event in order. */
  datatype Transition = Transition(next: State, effects: seq<Effect>)

  datatype Event =
    | Call(caller: CallerId)
    | Respond(response: Response)
    | Dequeue(index: nat)

  /** `AuthToken.isPresent`: a token exists and is not empty. */
  predicate IsPresent(c: Credential)
  {
    c.token.Some? && c.token.value != ""
  }

  /** The `200...299` case of both completion closures. */
  predicate IsSuccessStatus(statusCode: int)
  {
    200 <= statusCode <= 299
  }

  /** The endpoint of the first request of a reauthentication. */
  function FirstEndpoint(c: Credential): (e: Endpoint)
    ensures e.ReAuth? <==> c.refreshToken.Some? && IsPresent(c) && c.isAuthenticated
    ensures e.ReAuth? ==> e.refreshToken == c.refreshToken.value
    ensures !e.ReAuth? ==> e == AnonymousCredentials
  {
    if c.refreshToken.Some? && IsPresent(c) && c.isAuthenticated then
      ReAuth(c.refreshToken.value)
    else
      AnonymousCredentials
  }

  /** The token after `storeToken(data, endpoint)`. */
  function StoredCredential(c: Credential, data: Option<TokenJson>, endpoint: Endpoint): (r: Credential)
    ensures r.isAuthenticated <==> !endpoint.AnonymousCredentials?
    ensures r.username == c.username && r.password == c.password
    ensures data.None? ==> r.token == c.token && r.tokenType == c.tokenType && r.refreshToken == c.refreshToken
    ensures data.Some? ==>
      && r.token == Some(data.value.accessToken.GetOr(""))
      && r.tokenType == Some(data.value.tokenType.GetOr(""))
      && r.refreshToken == Some(data.value.refreshToken.GetOr(""))
  {
    var authenticated := !endpoint.AnonymousCredentials?;
    match data
    case None => c.(isAuthenticated := authenticated)
    case Some(json) =>
      c.(isAuthenticated := authenticated,
         token := Some(json.accessToken.GetOr("")),
         tokenType := Some(json.tokenType.GetOr("")),
         refreshToken := Some(json.refreshToken.GetOr("")))
  }

  /** The force-unwrap `result.1!` of a replay succeeds. */
  predicate ResultWellFormed(result: Option<ReauthResult>)
  {
    result.Some? && !result.value.ok ==> result.value.failure.Some?
  }

  /** What a waiting operation calls: `reauthResult ?? (true, nil)`, replayed. */
  function Replay(result: Option<ReauthResult>, caller: CallerId): (cb: Callback)
    requires ResultWellFormed(result)
    ensures cb.caller == caller
    ensures cb.Succeeded? <==> result.None? || result.value.ok
    ensures cb.Failed? ==> cb.failure == result.value.failure.value
  {
    var r := result.GetOr(ReauthResult(true, None));
    if r.ok then Succeeded(caller) else Failed(caller, r.failure.value)
  }

  /** A waiting operation may run once the operation it depends on has finished. */
  predicate Ready(s: State, i: nat)
    requires i < |s.waiters|
  {
    s.current != Some(s.waiters[i].dependsOn)
  }

  /** The state every reachable configuration is in. */
  predicate Inv(s: State)
  {
    && ResultWellFormed(s.result)
    && (s.current.None? <==> s.stage.Idle?)
    && (s.current.Some? ==> s.current.value < s.nextOp)
    && (s.stage.AwaitingToken? ==> !s.stage.endpoint.Auth?)
    && (s.stage.AwaitingPassword? ==> s.stage.endpoint.Auth?)
    && (forall w | w in s.waiters :: w.dependsOn < s.nextOp)
  }

  /** The `nextTick` block of `reAuthenticate`. */
  function Arrive(s: State, caller: CallerId): (t: Transition)
    ensures t.next.current.Some? && t.next.result == s.result && t.next.cred == s.cred
    ensures s.current.Some? ==>
      && t.effects == [] && t.next.current == s.current && t.next.stage == s.stage
      && t.next.waiters == s.waiters + [Waiter(caller, s.current.value)] && t.next.nextOp == s.nextOp
    ensures s.current.None? ==>
      && t.effects == [Request(FirstEndpoint(s.cred))]
      && t.next.current == Some(s.nextOp) && t.next.nextOp == s.nextOp + 1
      && t.next.stage == AwaitingToken(caller, FirstEndpoint(s.cred)) && t.next.waiters == s.waiters
  {
    if s.current.Some? then
      Transition(s.(waiters := s.waiters + [Waiter(caller, s.current.value)]), [])
    else
      var endpoint := FirstEndpoint(s.cred);
      Transition(
        s.(current := Some(s.nextOp), nextOp := s.nextOp + 1, stage := AwaitingToken(caller, endpoint)),
        [Request(endpoint)])
  }

  /** The driver's own closures: call back, clear `currentReauthOperation`, finish. */
  function Finish(s: State, cb: Callback): (t: Transition)
    ensures t.effects == [Invoke(cb)]
    ensures t.next.current.None? && t.next.stage.Idle?
    ensures t.next.result == s.result && t.next.cred == s.cred && t.next.waiters == s.waiters
    ensures t.next.nextOp == s.nextOp
  {
    Transition(s.(current := None, stage := Idle), [Invoke(cb)])
  }

  /** `_reAuthenticateUsername`, reached by the driver. */
  function UsernamePath(s: State, driver: CallerId): (t: Transition)
    ensures t.next.result == s.result && t.next.cred == s.cred && t.next.waiters == s.waiters
    ensures |t.effects| == 1
    ensures t.effects[0].Request? <==> s.cred.username.Some? && s.cred.password.Some?
    ensures t.effects[0].Request? ==>
      && t.effects[0].endpoint == Auth(s.cred.username.value, s.cred.password.value)
      && t.next.stage == AwaitingPassword(driver, t.effects[0].endpoint) && t.next.current == s.current
    ensures t.effects[0].Invoke? ==>
      t.effects[0].callback == Failed(driver, ElloFailure(FailedToMapObjects, None)) && t.next.current.None?
  {
    if s.cred.username.Some? && s.cred.password.Some? then
      var endpoint := Auth(s.cred.username.value, s.cred.password.value);
      Transition(s.(stage := AwaitingPassword(driver, endpoint)), [Request(endpoint)])
    else
      Finish(s, Failed(driver, ElloFailure(FailedToMapObjects, None)))
  }

  /** The completion closure of `_reAuthenticateToken`. */
  function TokenResponse(s: State, response: Response): (t: Transition)
    requires s.stage.AwaitingToken?
    ensures |t.effects| == 1 && t.next.waiters == s.waiters
    ensures t.effects[0].Request? <==>
      response.Success? && !IsSuccessStatus(response.statusCode)
      && s.cred.username.Some? && s.cred.password.Some?
    ensures t.next.result.Some? && t.next.result != s.result ==>
      (t.next.result.value.ok <==> response.Success? && IsSuccessStatus(response.statusCode))
    ensures t.next.cred != s.cred ==> response.Success? && IsSuccessStatus(response.statusCode)
  {
    var driver := s.stage.driver;
    match response
    case Success(code, data) =>
      if IsSuccessStatus(code) then
        var stored := s.(cred := StoredCredential(s.cred, data, s.stage.endpoint),
                         result := Some(ReauthResult(true, None)));
        Finish(stored, Succeeded(driver))
      else
        UsernamePath(s, driver)
    case Failure(cause) =>
      var failure := ElloFailure(TransportError(cause), None);
      Finish(s.(result := Some(ReauthResult(false, Some(failure)))), Failed(driver, failure))
  }

  /** The completion closure of `_reAuthenticateUsername`. */
  function PasswordResponse(s: State, response: Response): (t: Transition)
    requires s.stage.AwaitingPassword?
    ensures t.next.current.None? && t.next.stage.Idle? && t.next.waiters == s.waiters
    ensures t.next.result.Some? && ResultWellFormed(t.next.result)
    ensures t.next.result.value.ok <==> response.Success? && IsSuccessStatus(response.statusCode)
    ensures t.effects == [Invoke(Replay(t.next.result, s.stage.driver))]
    ensures t.next.result.value.ok ==> t.next.cred == StoredCredential(s.cred, response.data, s.stage.endpoint)
    ensures !t.next.result.value.ok ==> t.next.cred == s.cred
  {
    var driver := s.stage.driver;
    match response
    case Success(code, data) =>
      if IsSuccessStatus(code) then
        var stored := s.(cred := StoredCredential(s.cred, data, s.stage.endpoint),
                         result := Some(ReauthResult(true, None)));
        Finish(stored, Succeeded(driver))
      else
        var failure := ElloFailure(GeneratedError(code, data), Some(code));
        Finish(s.(result := Some(ReauthResult(false, Some(failure)))), Failed(driver, failure))
    case Failure(cause) =>
      var failure := ElloFailure(TransportError(cause), None);
      Finish(s.(result := Some(ReauthResult(false, Some(failure)))), Failed(driver, failure))
  }

  /** A waiting operation runs: it replays the result and leaves the queue. */
  function RunWaiter(s: State, i: nat): (t: Transition)
    requires i < |s.waiters| && ResultWellFormed(s.result)
    ensures t.effects == [Invoke(Replay(s.result, s.waiters[i].caller))]
    ensures multiset(t.next.waiters) + multiset{s.waiters[i]} == multiset(s.waiters)
    ensures t.next == s.(waiters := t.next.waiters)
  {
    assert s.waiters == s.waiters[..i] + [s.waiters[i]] + s.waiters[i + 1..];
    Transition(s.(waiters := s.waiters[..i] + s.waiters[i + 1..]),
               [Invoke(Replay(s.result, s.waiters[i].caller))])
  }

  /**
   * An event can happen: the transport only answers a request in flight, the
   * queue only runs an operation whose dependency has finished, and the replay
   * only runs where its force-unwrap cannot fail.
   */
  predicate Enabled(s: State, e: Event)
  {
    match e
    case Call(_) => true
    case Respond(_) => !s.stage.Idle?
    case Dequeue(i) => i < |s.waiters| && Ready(s, i) && ResultWellFormed(s.result)
  }

  function Step(s: State, e: Event): (t: Transition)
    requires Enabled(s, e)
    ensures |t.effects| <= 1
    ensures e.Call? ==> (t.effects == [] <==> s.current.Some?)
    ensures !e.Respond? ==> t.next.result == s.result && t.next.cred == s.cred
    ensures e.Dequeue? ==> t.next.current == s.current && t.next.stage == s.stage
    ensures e.Respond? ==> t.next.nextOp == s.nextOp
  {
    match e
    case Call(caller) => Arrive(s, caller)
    case Respond(response) =>
      if s.stage.AwaitingToken? then TokenResponse(s, response) else PasswordResponse(s, response)
    case Dequeue(i) => RunWaiter(s, i)
  }

  /** The number of requests among some effects. */
  function RequestCount(effects: seq<Effect>): nat
  {
    if effects == [] then 0
    else RequestCount(effects[..|effects| - 1]) + (if effects[|effects| - 1].Request? then 1 else 0)
  }

  /** The process-wide `AuthToken`, as far as the coordinator uses it. */
  class AuthToken {
    var token: Option<string>
    var tokenType: Option<string>
    var refreshToken: Option<string>
    var isAuthenticated: bool
    var username: Option<string>
    var password: Option<string>

    constructor (token: Option<string>, tokenType: Option<string>, refreshToken: Option<string>,
                 isAuthenticated: bool, username: Option<string>, password: Option<string>)
      ensures Snapshot() == Credential(token, tokenType, refreshToken, isAuthenticated, username, password)
    {
      this.token := token;
      this.tokenType := tokenType;
      this.refreshToken := refreshToken;
      this.isAuthenticated := isAuthenticated;
      this.username := username;
      this.password := password;
    }

    function Snapshot(): Credential
      reads this
    {
      Credential(token, tokenType, refreshToken, isAuthenticated, username, password)
    }
  }

  /** The coordinator; its fields are the module-level variables of the source. */
  class ReAuthService {
    var current: Option<OpId>
    var result: Option<ReauthResult>
    var waiters: seq<Waiter>
    var stage: Stage
    var nextOp: OpId
    const token: AuthToken

    function Model(): State
      reads this, token
    {
      State(current, result, waiters, stage, nextOp, token.Snapshot())
    }

    ghost predicate Valid()
      reads this, token
    {
      Inv(Model())
    }

    constructor (token: AuthToken)
      ensures this.token == token
      ensures Model() == State(None, None, [], Idle, 0, token.Snapshot())
      ensures Valid()
    {
      this.token := token;
      current := None;
      result := None;
      waiters := [];
      stage := Idle;
      nextOp := 0;
    }

    /** `reAuthenticate`: join the operation in flight, or start one and drive it. */
    method ReAuthenticate(caller: CallerId) returns (effects: seq<Effect>)
      requires Valid()
      modifies this
      ensures Valid()
      ensures Transition(Model(), effects) == Step(old(Model()), Call(caller))
    {
      if current.Some? {
        waiters := waiters + [Waiter(caller, current.value)];
        effects := [];
      } else {
        current := Some(nextOp);
        nextOp := nextOp + 1;
        var request := ReAuthenticateToken(caller);
        effects := [request];
      }
    }

    /** `_reAuthenticateToken` up to its request: choose the endpoint and send it. */
    method ReAuthenticateToken(driver: CallerId) returns (request: Effect)
      modifies this`stage
      ensures stage == AwaitingToken(driver, FirstEndpoint(token.Snapshot()))
      ensures request == Request(stage.endpoint)
    {
      var endpoint: Endpoint;
      if token.refreshToken.Some? && token.token.Some? && token.token.value != "" && token.isAuthenticated {
        endpoint := ReAuth(token.refreshToken.value);
      } else {
        endpoint := AnonymousCredentials;
      }
      stage := AwaitingToken(driver, endpoint);
      request := Request(endpoint);
    }

    /** The transport answers the request in flight. */
    method Deliver(response: Response) returns (effects: seq<Effect>)
      requires Valid() && !stage.Idle?
      modifies this, token
      ensures Valid()
      ensures Transition(Model(), effects) == Step(old(Model()), Respond(response))
    {
      if stage.AwaitingToken? {
        effects := OnTokenResponse(response);
      } else {
        effects := OnPasswordResponse(response);
      }
    }

    /** The completion closure of `_reAuthenticateToken`. */
    method OnTokenResponse(response: Response) returns (effects: seq<Effect>)
      requires Valid() && stage.AwaitingToken?
      modifies this, token
      ensures Valid()
      ensures Transition(Model(), effects) == TokenResponse(old(Model()), response)
    {
      var driver := stage.driver;
      match response
      case Success(code, data) =>
        if IsSuccessStatus(code) {
          StoreToken(data, stage.endpoint);
          result := Some(ReauthResult(true, None));
          effects := DriverDone(Succeeded(driver));
        } else {
          effects := ReAuthenticateUsername(driver);
        }
      case Failure(cause) =>
        var failure := ElloFailure(TransportError(cause), None);
        result := Some(ReauthResult(false, Some(failure)));
        effects := DriverDone(Failed(driver, failure));
    }

    /** `_reAuthenticateUsername` up to its request, or its `failedToMapObjects` branch. */
    method ReAuthenticateUsername(driver: CallerId) returns (effects: seq<Effect>)
      requires Valid() && !stage.Idle?
      modifies this
      ensures Valid()
      ensures Transition(Model(), effects) == UsernamePath(old(Model()), driver)
    {
      if token.username.Some? && token.password.Some? {
        var endpoint := Auth(token.username.value, token.password.value);
        stage := AwaitingPassword(driver, endpoint);
        effects := [Request(endpoint)];
      } else {
        effects := DriverDone(Failed(driver, ElloFailure(FailedToMapObjects, None)));
      }
    }

    /** The completion closure of `_reAuthenticateUsername`. */
    method OnPasswordResponse(response: Response) returns (effects: seq<Effect>)
      requires Valid() && stage.AwaitingPassword?
      modifies this, token
      ensures Valid()
      ensures Transition(Model(), effects) == PasswordResponse(old(Model()), response)
    {
      var driver := stage.driver;
      match response
      case Success(code, data) =>
        if IsSuccessStatus(code) {
          result := Some(ReauthResult(true, None));
          StoreToken(data, stage.endpoint);
          effects := DriverDone(Succeeded(driver));
        } else {
          var failure := ElloFailure(GeneratedError(code, data), Some(code));
          result := Some(ReauthResult(false, Some(failure)));
          effects := DriverDone(Failed(driver, failure));
        }
      case Failure(cause) =>
        var failure := ElloFailure(TransportError(cause), None);
        result := Some(ReauthResult(false, Some(failure)));
        effects := DriverDone(Failed(driver, failure));
    }

    /** The driver's `success`/`failure` closure: call back, clear the current operation. */
    method DriverDone(cb: Callback) returns (effects: seq<Effect>)
      modifies this`current, this`stage
      ensures current == None && stage == Idle
      ensures effects == [Invoke(cb)]
    {
      current := None;
      stage := Idle;
      effects := [Invoke(cb)];
    }

    /** `storeToken`: set the authenticated flag, then copy the JSON fields when it parses. */
    method StoreToken(data: Option<TokenJson>, endpoint: Endpoint)
      modifies token
      ensures token.Snapshot() == StoredCredential(old(token.Snapshot()), data, endpoint)
    {
      match endpoint {
        case AnonymousCredentials => token.isAuthenticated := false;
        case _ => token.isAuthenticated := true;
      }
      match data {
        case Some(json) =>
          token.token := Some(json.accessToken.GetOr(""));
          token.tokenType := Some(json.tokenType.GetOr(""));
          token.refreshToken := Some(json.refreshToken.GetOr(""));
        case None =>
      }
    }

    /** A waiting operation whose dependency has finished runs its replay block. */
    method RunWaiting(i: nat) returns (callback: Callback)
      requires Valid() && i < |waiters| && Ready(Model(), i)
      modifies this
      ensures Valid()
      ensures Transition(Model(), [Invoke(callback)]) == Step(old(Model()), Dequeue(i))
    {
      var w := waiters[i];
      var r := result.GetOr(ReauthResult(true, None));
      if r.ok {
        callback := Succeeded(w.caller);
      } else {
        callback := Failed(w.caller, r.failure.value);
      }
      waiters := waiters[..i] + waiters[i + 1..];
    }
  }
}

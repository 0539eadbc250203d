/**
 * What the reauthentication coordinator guarantees: the grant cascade of one
 * operation, the invariant every reachable state keeps, single-flight over
 * arbitrary event sequences, and what the waiting callers are told.
 */
module ReauthenticationProperties {
  import opened Wrappers
  import opened Reauthentication

  // ---------------------------------------------------------------------------
  // Event sequences

  /** Every event of `events` can happen in turn, starting from `s`. */
  ghost predicate Admissible(s: State, events: seq<Event>)
    decreases |events|
  {
    |events| == 0 || (Enabled(s, events[0]) && Admissible(Step(s, events[0]).next, events[1..]))
  }

  /** The final state of an event sequence and all its effects, in order. */
  ghost function Run(s: State, events: seq<Event>): Transition
    requires Admissible(s, events)
    decreases |events|
  {
    if |events| == 0 then Transition(s, [])
    else
      var t := Step(s, events[0]);
      var rest := Run(t.next, events[1..]);
      Transition(rest.next, t.effects + rest.effects)
  }

  /** How many callers of an event sequence became the driver of a new operation. */
  ghost function Starts(s: State, events: seq<Event>): nat
    requires Admissible(s, events)
    decreases |events|
  {
    if |events| == 0 then 0
    else (if events[0].Call? && s.current.None? then 1 else 0) + Starts(Step(s, events[0]).next, events[1..])
  }

  /** Requests the operation in flight may still send. */
  function Pending(s: State): nat
  {
    if s.stage.AwaitingToken? then 1 else 0
  }

  /** Several callers call `reAuthenticate`, one after the other. */
  function Calls(callers: seq<CallerId>): (events: seq<Event>)
    ensures |events| == |callers|
  {
    if callers == [] then [] else [Call(callers[0])] + Calls(callers[1..])
  }

  /** The operations that `callers` enqueue behind operation `op`. */
  function Joined(callers: seq<CallerId>, op: OpId): (ws: seq<Waiter>)
    ensures |ws| == |callers|
  {
    if callers == [] then [] else [Waiter(callers[0], op)] + Joined(callers[1..], op)
  }

  /** Two callbacks tell their callers the same thing. */
  predicate SameOutcome(a: Callback, b: Callback)
  {
    (a.Succeeded? && b.Succeeded?) || (a.Failed? && b.Failed? && a.failure == b.failure)
  }

  // ---------------------------------------------------------------------------
  // The invariant

  lemma StepPreservesInv(s: State, e: Event)
    requires Inv(s) && Enabled(s, e)
    ensures Inv(Step(s, e).next)
  {
  }

  /** Every reachable state keeps the invariant; in particular every `false` result carries an error. */
  lemma {:induction false} RunPreservesInv(s: State, events: seq<Event>)
    requires Inv(s) && Admissible(s, events)
    ensures Inv(Run(s, events).next)
    ensures Run(s, events).next.result.Some? && !Run(s, events).next.result.value.ok ==>
              Run(s, events).next.result.value.failure.Some?
    decreases |events|
  {
    if |events| > 0 {
      StepPreservesInv(s, events[0]);
      RunPreservesInv(Step(s, events[0]).next, events[1..]);
    }
  }

  /** In a reachable state a waiting operation that may run never crashes on its force-unwrap. */
  lemma ReadyWaiterIsEnabled(s: State, i: nat)
    requires Inv(s) && i < |s.waiters| && Ready(s, i)
    ensures Enabled(s, Dequeue(i))
    ensures Step(s, Dequeue(i)).effects == [Invoke(Replay(s.result, s.waiters[i].caller))]
    ensures Step(s, Dequeue(i)).next == s.(waiters := s.waiters[..i] + s.waiters[i + 1..])
  {
  }

  // ---------------------------------------------------------------------------
  // The grant cascade

  /** A 2xx answer to the first request stores the token, records success and calls `success` once. */
  lemma FirstRequestSucceeds(s: State, code: int, data: Option<TokenJson>)
    requires Inv(s) && s.stage.AwaitingToken? && IsSuccessStatus(code)
    ensures var t := Step(s, Respond(Success(code, data)));
      && t.effects == [Invoke(Succeeded(s.stage.driver))]
      && RequestCount(t.effects) == 0
      && t.next.result == Some(ReauthResult(true, None))
      && t.next.cred == StoredCredential(s.cred, data, s.stage.endpoint)
      && t.next.cred.isAuthenticated == s.stage.endpoint.ReAuth?
      && t.next.current.None?
  {
  }

  /**
   * After the first request the driver sends a second request exactly when the
   * answer was a non-2xx status, from either endpoint, and the token holds both a
   * username and a password; that request is the password grant.
   */
  lemma FallbackExactlyOnRejection(s: State, response: Response)
    requires s.stage.AwaitingToken?
    ensures var t := Step(s, Respond(response));
      && RequestCount(t.effects) <= 1
      && (RequestCount(t.effects) == 1 <==>
            response.Success? && !IsSuccessStatus(response.statusCode)
            && s.cred.username.Some? && s.cred.password.Some?)
      && (RequestCount(t.effects) == 1 ==>
            t.effects == [Request(Auth(s.cred.username.value, s.cred.password.value))]
            && t.next.stage == AwaitingPassword(s.stage.driver, t.effects[0].endpoint)
            && t.next.current == s.current)
  {
  }

  /** A rejected first request records nothing itself. */
  lemma RejectionRecordsNothing(s: State, code: int, data: Option<TokenJson>)
    requires s.stage.AwaitingToken? && !IsSuccessStatus(code)
    ensures var t := Step(s, Respond(Success(code, data)));
      t.next.result == s.result && t.next.cred == s.cred
  {
  }

  /** Without a username or password, the fallback fails with `failedToMapObjects` and sends nothing. */
  lemma MissingCredentialsFail(s: State, code: int, data: Option<TokenJson>)
    requires s.stage.AwaitingToken? && !IsSuccessStatus(code)
    requires s.cred.username.None? || s.cred.password.None?
    ensures var t := Step(s, Respond(Success(code, data)));
      && t.effects == [Invoke(Failed(s.stage.driver, ElloFailure(FailedToMapObjects, None)))]
      && t.next.result == s.result
      && t.next.current.None?
  {
  }

  /** A transport failure on the first request records and reports it, with no status code and no fallback. */
  lemma TransportFailureDoesNotFallBack(s: State, cause: int)
    requires s.stage.AwaitingToken?
    ensures var t := Step(s, Respond(Failure(cause)));
      var failure := ElloFailure(TransportError(cause), None);
      && t.effects == [Invoke(Failed(s.stage.driver, failure))]
      && RequestCount(t.effects) == 0
      && t.next.result == Some(ReauthResult(false, Some(failure)))
      && t.next.current.None?
  {
  }

  /**
   * Every answer to the password grant ends the operation without a further
   * request and records the outcome: success on 2xx (with the token stored),
   * otherwise a failure that carries the status code of a rejection or no status
   * code for a transport failure, with the token left as it was.
   */
  lemma PasswordAnswerIsTerminal(s: State, response: Response)
    requires s.stage.AwaitingPassword?
    ensures var t := Step(s, Respond(response));
      && RequestCount(t.effects) == 0
      && t.next.current.None? && t.next.stage.Idle?
      && t.next.result.Some?
      && (t.next.result.value.ok <==> response.Success? && IsSuccessStatus(response.statusCode))
      && (t.next.result.value.ok ==>
            && t.next.cred == StoredCredential(s.cred, response.data, s.stage.endpoint)
            && t.effects == [Invoke(Succeeded(s.stage.driver))])
      && (!t.next.result.value.ok ==>
            && t.next.cred == s.cred
            && t.next.result.value.failure.Some?
            && t.next.result.value.failure.value.statusCode ==
                 (if response.Success? then Some(response.statusCode) else None)
            && t.effects == [Invoke(Failed(s.stage.driver, t.next.result.value.failure.value))])
  {
  }

  /**
   * Every answer from the transport either ends the operation, calling the
   * driver back once and clearing the current operation, or sends exactly one
   * request and keeps the operation current.
   */
  lemma DriverEndsOrContinues(s: State, response: Response)
    requires Inv(s) && !s.stage.Idle?
    ensures var t := Step(s, Respond(response));
      || (&& |t.effects| == 1 && t.effects[0].Invoke?
          && t.effects[0].callback.caller == s.stage.driver
          && t.next.current.None?)
      || (&& |t.effects| == 1 && t.effects[0].Request?
          && t.next.current == s.current && t.next.current.Some?)
  {
  }

  // ---------------------------------------------------------------------------
  // Single flight

  /** A caller arriving while an operation is current sends nothing and waits on that operation. */
  lemma JoinerWaits(s: State, caller: CallerId)
    requires Inv(s) && s.current.Some?
    ensures var t := Step(s, Call(caller));
      && t.effects == []
      && t.next == s.(waiters := s.waiters + [Waiter(caller, s.current.value)])
      && !Ready(t.next, |s.waiters|)
  {
  }

  lemma {:induction false} RequestCountAppend(a: seq<Effect>, b: seq<Effect>)
    ensures RequestCount(a + b) == RequestCount(a) + RequestCount(b)
    decreases |b|
  {
    if b == [] {
      assert a + b == a;
    } else {
      assert (a + b)[..|a + b| - 1] == a + b[..|b| - 1];
      assert (a + b)[|a + b| - 1] == b[|b| - 1];
      RequestCountAppend(a, b[..|b| - 1]);
    }
  }

  /** Any event sends at most as many requests as it starts or uses up. */
  lemma StepRequests(s: State, e: Event)
    requires Enabled(s, e)
    ensures RequestCount(Step(s, e).effects) + Pending(Step(s, e).next)
              <= Pending(s) + (if e.Call? && s.current.None? then 2 else 0)
  {
    assert RequestCount([]) == 0;
    var t := Step(s, e);
    assert |t.effects| <= 1;
    if |t.effects| == 1 {
      assert t.effects[..0] == [];
    }
  }

  /**
   * Single flight over any sequence of events: the transport receives at most
   * two requests per caller that found no current operation, plus what the
   * operation already in flight may still send.
   */
  lemma {:induction false} RequestsBounded(s: State, events: seq<Event>)
    requires Admissible(s, events)
    ensures RequestCount(Run(s, events).effects) + Pending(Run(s, events).next)
              <= Pending(s) + 2 * Starts(s, events)
    decreases |events|
  {
    if |events| == 0 {
      assert RequestCount([]) == 0;
    } else {
      var t := Step(s, events[0]);
      StepRequests(s, events[0]);
      RequestsBounded(t.next, events[1..]);
      RequestCountAppend(t.effects, Run(t.next, events[1..]).effects);
    }
  }

  /** Callers arriving while an operation is current all wait on it, in order, and send nothing. */
  lemma {:induction false} JoinersWaitInOrder(s: State, callers: seq<CallerId>)
    requires Inv(s) && s.current.Some?
    ensures Admissible(s, Calls(callers))
    ensures Run(s, Calls(callers)) ==
              Transition(s.(waiters := s.waiters + Joined(callers, s.current.value)), [])
    ensures Starts(s, Calls(callers)) == 0
    decreases |callers|
  {
    var op := s.current.value;
    if callers == [] {
      assert s.waiters + Joined(callers, op) == s.waiters;
    } else {
      var events := Calls(callers);
      assert events[0] == Call(callers[0]) && events[1..] == Calls(callers[1..]);
      var s1 := s.(waiters := s.waiters + [Waiter(callers[0], op)]);
      JoinerWaits(s, callers[0]);
      StepPreservesInv(s, events[0]);
      assert Step(s, events[0]) == Transition(s1, []);
      JoinersWaitInOrder(s1, callers[1..]);
      assert s1.waiters + Joined(callers[1..], op) == s.waiters + Joined(callers, op);
    }
  }

  /**
   * Many callers arriving while no operation is current: the first becomes the
   * driver and sends the one first request, every other one waits on the
   * driver's operation, in order.
   */
  lemma ConcurrentCallersShareOneOperation(s: State, callers: seq<CallerId>)
    requires Inv(s) && s.current.None? && |callers| >= 1
    ensures Admissible(s, Calls(callers))
    ensures Starts(s, Calls(callers)) == 1
    ensures var t := Run(s, Calls(callers));
      && t.effects == [Request(FirstEndpoint(s.cred))]
      && t.next.current == Some(s.nextOp)
      && t.next.stage == AwaitingToken(callers[0], FirstEndpoint(s.cred))
      && t.next.waiters == s.waiters + Joined(callers[1..], s.nextOp)
  {
    var events := Calls(callers);
    assert events[0] == Call(callers[0]) && events[1..] == Calls(callers[1..]);
    var t := Step(s, events[0]);
    StepPreservesInv(s, events[0]);
    JoinersWaitInOrder(t.next, callers[1..]);
    assert t.effects + [] == t.effects;
  }

  /** One operation started from an idle coordinator sends at most two requests, whatever happens. */
  lemma OneOperationAtMostTwoRequests(s: State, events: seq<Event>)
    requires s.stage.Idle? && Admissible(s, events) && Starts(s, events) <= 1
    ensures RequestCount(Run(s, events).effects) <= 2
  {
    RequestsBounded(s, events);
  }

  // ---------------------------------------------------------------------------
  // Fan-out

  /** The event sequence that runs the first waiting operation `n` times. */
  function DequeueFront(n: nat): (events: seq<Event>)
    ensures |events| == n
  {
    if n == 0 then [] else [Dequeue(0)] + DequeueFront(n - 1)
  }

  /** The callbacks that replaying `result` gives `waiters`, in order. */
  function Replays(result: Option<ReauthResult>, waiters: seq<Waiter>): (effects: seq<Effect>)
    requires ResultWellFormed(result)
    ensures |effects| == |waiters|
  {
    if waiters == [] then [] else [Invoke(Replay(result, waiters[0].caller))] + Replays(result, waiters[1..])
  }

  /**
   * Once the operation they wait on has finished, the waiting operations run in
   * order and each replays the same recorded result; nothing else changes.
   */
  lemma {:induction false} WaitersReplayOneResult(s: State)
    requires ResultWellFormed(s.result)
    requires forall w | w in s.waiters :: s.current != Some(w.dependsOn)
    ensures Admissible(s, DequeueFront(|s.waiters|))
    ensures Run(s, DequeueFront(|s.waiters|)) ==
              Transition(s.(waiters := []), Replays(s.result, s.waiters))
    decreases |s.waiters|
  {
    if s.waiters != [] {
      var events := DequeueFront(|s.waiters|);
      assert events[0] == Dequeue(0) && events[1..] == DequeueFront(|s.waiters| - 1);
      assert s.waiters[0] in s.waiters;
      var t := Step(s, events[0]);
      assert t.next == s.(waiters := s.waiters[1..]);
      assert forall w | w in s.waiters[1..] :: w in s.waiters;
      WaitersReplayOneResult(t.next);
    }
  }

  /**
   * When the driver's operation ends in any way other than `failedToMapObjects`,
   * every waiter that replays the recorded result is told what the driver was told.
   */
  lemma DriverAndWaitersAgree(s: State, response: Response, waiter: CallerId)
    requires Inv(s) && !s.stage.Idle?
    ensures var t := Step(s, Respond(response));
      t.next.current.None? && t.effects[0].callback != Failed(s.stage.driver, ElloFailure(FailedToMapObjects, None)) ==>
        SameOutcome(Replay(t.next.result, waiter), t.effects[0].callback)
  {
    DriverEndsOrContinues(s, response);
  }

  /**
   * The exception: when the fallback finds no username or password, the driver
   * fails with `failedToMapObjects` but leaves `reauthResult` as it was, so a
   * waiting caller replays the earlier result, and with no earlier result (or a
   * successful one) it is told of success.
   */
  lemma MissingCredentialsReplayStaleResult(s: State, code: int, data: Option<TokenJson>, i: nat)
    requires Inv(s) && s.stage.AwaitingToken? && !IsSuccessStatus(code)
    requires s.cred.username.None? || s.cred.password.None?
    requires s.result.None? || s.result.value.ok
    requires i < |s.waiters|
    ensures var t := Step(s, Respond(Success(code, data)));
      && t.effects == [Invoke(Failed(s.stage.driver, ElloFailure(FailedToMapObjects, None)))]
      && Enabled(t.next, Dequeue(i))
      && Step(t.next, Dequeue(i)).effects == [Invoke(Succeeded(s.waiters[i].caller))]
  {
  }
}

/** The retry loop: how often it calls, what it sleeps, and what it can do to a write. */
module Retry {
  import opened Options
  import opened ExceptionContext
  import opened ExceptionSearch
  import opened Rest

  /** What a call raised. The message is read only for these two. */
  datatype Failure = Failure(kind: Kind, saysNonce: bool, saysKeyword: bool)

  function IsRetryable(e: Failure, idempotent: bool): bool {
    match e.kind
    case RateLimit(_) => true
    case NonceTooSmall => true
    case Network(retryable, unknown, _) => if unknown then idempotent else retryable
    case InvalidCredential => false
    case InsufficientFunds => false
    case RequestParameter => false
    case UnexpectedApi => false
    case NotConnected => true
    case Generic => idempotent && e.saysNonce
    case Other => idempotent && e.saysKeyword
  }

  /** Which errors are worth another call, by what they are: rate limits, nonce errors and a client
      that could not connect, always; a network error if it says so, and one whose outcome is unknown
      if the call is idempotent; refusals that another call cannot change, never; the rest, for an
      idempotent call whose error's message says so. */
  lemma RetryableAre(e: Failure, idempotent: bool)
    ensures e.kind.RateLimit? || e.kind in {NonceTooSmall, NotConnected} ==> IsRetryable(e, idempotent)
    ensures e.kind in {InvalidCredential, InsufficientFunds, RequestParameter, UnexpectedApi} ==>
      !IsRetryable(e, idempotent)
    ensures e.kind.Network? && e.kind.outcomeUnknown ==> (IsRetryable(e, idempotent) <==> idempotent)
    ensures e.kind.Network? && !e.kind.outcomeUnknown ==> (IsRetryable(e, idempotent) <==> e.kind.retryable)
    ensures e.kind == Generic ==> (IsRetryable(e, idempotent) <==> idempotent && e.saysNonce)
    ensures e.kind == Other ==> (IsRetryable(e, idempotent) <==> idempotent && e.saysKeyword)
  {
  }

  function RealMin(a: real, b: real): real {
    if a <= b then a else b
  }

  function PowerOfTwo(n: nat): real {
    if n == 0 then 1.0 else 2.0 * PowerOfTwo(n - 1)
  }

  function BackoffDelay(e: Failure, attempt: nat, baseDelay: real, maxDelay: real): real {
    if e.kind.RateLimit? then RealMin(e.kind.retryAfterMs as real / 1000.0, maxDelay)
    else if e.kind.NonceTooSmall? || e.saysNonce then 1.0
    else if e.kind.Network? then
      if e.kind.retryAfter.Some? then RealMin(e.kind.retryAfter.value as real / 1000.0, maxDelay)
      else RealMin(baseDelay * (attempt + 1) as real, 60.0)
    else RealMin(baseDelay * PowerOfTwo(attempt), maxDelay)
  }

  /** The errors whose wait is the default one. */
  predicate WaitsByDefault(e: Failure) {
    !e.kind.RateLimit? && !e.kind.NonceTooSmall? && !e.kind.Network? && !e.saysNonce
  }

  lemma {:induction false} PowerIsPositive(n: nat)
    ensures PowerOfTwo(n) >= 1.0
  {
    if n > 0 {
      PowerIsPositive(n - 1);
    }
  }

  /** The default wait begins at the base delay, doubles with every attempt until it would pass the
      cap, and stays there. */
  lemma DefaultWaitDoubles(e: Failure, attempt: nat, baseDelay: real, maxDelay: real)
    requires WaitsByDefault(e) && baseDelay >= 0.0
    ensures BackoffDelay(e, 0, baseDelay, maxDelay) == if baseDelay <= maxDelay then baseDelay else maxDelay
    ensures
      var wait := BackoffDelay(e, attempt, baseDelay, maxDelay);
      BackoffDelay(e, attempt + 1, baseDelay, maxDelay)
        == if maxDelay >= 0.0 && 2.0 * wait <= maxDelay then 2.0 * wait else maxDelay
  {
    PowerIsPositive(attempt);
    Doubled(baseDelay, PowerOfTwo(attempt), maxDelay);
  }

  lemma Doubled(baseDelay: real, power: real, maxDelay: real)
    requires baseDelay >= 0.0 && power >= 1.0
    ensures baseDelay * (2.0 * power) == 2.0 * (baseDelay * power) && baseDelay * power >= 0.0
  {
  }

  /** What the loop waits after each kind of error: what a rate limit asks; a second after a nonce
      error, or after any other whose message says nonce; after a network error the server's
      Retry-After, or else one base delay more with each attempt, up to a minute. */
  lemma WaitsAre(e: Failure, attempt: nat, baseDelay: real, maxDelay: real)
    ensures
      var wait := BackoffDelay(e, attempt, baseDelay, maxDelay);
      match e.kind
      case RateLimit(ms) => wait == if ms as real <= 1000.0 * maxDelay then ms as real / 1000.0 else maxDelay
      case NonceTooSmall => wait == 1.0
      case Network(_, _, asked) =>
        if e.saysNonce then wait == 1.0
        else if asked.Some? then
          wait == if asked.value as real <= 1000.0 * maxDelay then asked.value as real / 1000.0 else maxDelay
        else
          var steps := baseDelay * (attempt + 1) as real;
          wait == if steps <= 60.0 then steps else 60.0
      case _ => e.saysNonce ==> wait == 1.0
  {
  }

  /** A multiple of a positive step that passes any bound. */
  lemma StepsPass(step: real, bound: real) returns (k: nat)
    requires step > 0.0
    ensures step * (k + 1) as real > bound
  {
    var ratio := bound / step;
    k := if ratio < 0.0 then 0 else ratio.Floor;
    assert (k + 1) as real > ratio;
    assert step * (k + 1) as real > step * ratio;
  }

  lemma NetworkDelayIsCapped(baseDelay: real, attempt: nat, maxDelay: real)
    requires maxDelay >= 1.0 && (maxDelay >= 60.0 || baseDelay <= 0.0)
    ensures RealMin(baseDelay * (attempt + 1) as real, 60.0) <= maxDelay
  {
    if baseDelay <= 0.0 {
      assert baseDelay * (attempt + 1) as real <= 0.0;
    }
  }

  /** `max_delay` is documented as the cap of every delay. It is one exactly when it is at least
      a second and either at least a minute or the base delay is not positive: the waits after a
      nonce error and after a network error have limits of their own. */
  lemma CapHoldsIff(baseDelay: real, maxDelay: real)
    ensures (forall e, attempt: nat :: BackoffDelay(e, attempt, baseDelay, maxDelay) <= maxDelay)
       <==> maxDelay >= 1.0 && (maxDelay >= 60.0 || baseDelay <= 0.0)
  {
    if maxDelay < 1.0 {
      assert BackoffDelay(Failure(NonceTooSmall, false, false), 0, baseDelay, maxDelay) > maxDelay;
    } else if maxDelay < 60.0 && baseDelay > 0.0 {
      var k := StepsPass(baseDelay, maxDelay);
      assert BackoffDelay(Failure(Network(true, false, None), false, false), k, baseDelay, maxDelay) > maxDelay;
    } else {
      forall e, attempt: nat ensures BackoffDelay(e, attempt, baseDelay, maxDelay) <= maxDelay {
        NetworkDelayIsCapped(baseDelay, attempt, maxDelay);
      }
    }
  }

  // ---- The loop ----

  /** The loop calls again after this outcome. */
  predicate GoesOn(outcome: Option<Failure>, idempotent: bool) {
    outcome.Some? && IsRetryable(outcome.value, idempotent)
  }

  /** `n` calls are made: every one but the last went on, and the last was the last allowed or
      did not. */
  predicate Stops(outcomes: seq<Option<Failure>>, maxAttempts: int, idempotent: bool, n: nat) {
    && n <= Max(maxAttempts, 0) && n <= |outcomes|
    && (maxAttempts > 0 ==> n > 0)
    && (forall i :: 0 <= i < n - 1 ==> GoesOn(outcomes[i], idempotent))
    && (0 < n < maxAttempts ==> !GoesOn(outcomes[n - 1], idempotent))
  }

  lemma StopsOnce(outcomes: seq<Option<Failure>>, maxAttempts: int, idempotent: bool, n: nat, m: nat)
    requires Stops(outcomes, maxAttempts, idempotent, n) && Stops(outcomes, maxAttempts, idempotent, m)
    ensures n == m
  {
  }

  /** `retry_with_backoff`, over the outcomes its calls would have. `raised` is None when a call
      succeeded; with no attempt allowed the loop raises an error of its own. */
  method RetryWithBackoff(
      outcomes: seq<Option<Failure>>, maxAttempts: int, baseDelay: real, maxDelay: real, idempotent: bool)
    returns (calls: nat, sleeps: seq<real>, raised: Option<Failure>)
    requires |outcomes| >= maxAttempts
    ensures Stops(outcomes, maxAttempts, idempotent, calls)
    ensures |sleeps| == if calls == 0 then 0 else calls - 1
    ensures forall i :: 0 <= i < |sleeps| ==>
      outcomes[i].Some? && sleeps[i] == BackoffDelay(outcomes[i].value, i, baseDelay, maxDelay)
    ensures raised == if calls == 0 then Some(Failure(Other, false, false)) else outcomes[calls - 1]
  {
    calls, sleeps := 0, [];
    while calls < maxAttempts
      invariant 0 <= calls <= Max(maxAttempts, 0)
      invariant forall i :: 0 <= i < calls ==> GoesOn(outcomes[i], idempotent)
      invariant |sleeps| == calls && (calls > 0 ==> calls < maxAttempts)
      invariant forall i :: 0 <= i < calls ==> sleeps[i] == BackoffDelay(outcomes[i].value, i, baseDelay, maxDelay)
    {
      var attempt := calls;
      calls := calls + 1;
      raised := outcomes[attempt];
      if raised.None? {
        return;
      }
      if attempt == maxAttempts - 1 {
        return;
      }
      if !IsRetryable(raised.value, idempotent) {
        return;
      }
      var delay := BackoffDelay(raised.value, attempt, baseDelay, maxDelay);
      sleeps := sleeps + [delay];
    }
    raised := Some(Failure(Other, false, false));
  }

  // ---- A write under the loop ----

  /** One call of `fn`: one exchange, what the exchange did with it, and what its error says. */
  datatype Attempt = Attempt(exchange: Exchange, applied: bool, now: int, saysNonce: bool, saysKeyword: bool)

  ghost predicate Honest(a: Attempt) {
    Genuine(a.exchange) && (a.applied ==> MayApply(a.exchange))
  }

  ghost predicate AllHonest(attempts: seq<Attempt>) {
    forall i :: 0 <= i < |attempts| ==> Honest(attempts[i])
  }

  ghost function Outcome(a: Attempt, endpoint: string): Option<Failure>
    requires Sane(a.exchange)
  {
    var error := Raises(a.exchange, IsWrite("POST", endpoint), a.now);
    if error.None? then None else Some(Failure(error.value, a.saysNonce, a.saysKeyword))
  }

  ghost function Outcomes(attempts: seq<Attempt>, endpoint: string): (outcomes: seq<Option<Failure>>)
    requires AllHonest(attempts)
    ensures |outcomes| == |attempts|
    ensures forall i :: 0 <= i < |attempts| ==> outcomes[i] == Outcome(attempts[i], endpoint)
  {
    if attempts == [] then [] else [Outcome(attempts[0], endpoint)] + Outcomes(attempts[1..], endpoint)
  }

  predicate IsClientError(status: Option<int>) {
    status.Some? && 400 <= status.value <= 499
  }

  /** The error lists that say nothing: no code, 0, 10000, or 10001 without missing funds. */
  predicate IsGenericList(code: Code, insufficient: bool) {
    code in {Falsy, Number(0), Number(10000)} || (code == Number(10001) && !insufficient)
  }

  /** After which exchanges the loop calls again, spelled out: `safe` means that the call is not a
      write, or was declared idempotent. */
  ghost predicate CallsAgain(a: Attempt, safe: bool, idempotent: bool)
    requires Sane(a.exchange)
  {
    match a.exchange
    case NotSent(why) => why.Unencodable? && idempotent && a.saysKeyword
    case ConnectionFailed(graph, root, _, _) => safe || NeverConnected(graph, root)
    case RequestFailed(neverSucceeds, _) => safe && !neverSucceeds
    case Broke(_) => idempotent && a.saysKeyword
    case Replied(r) =>
      r.status == Some(429) || match r.body {
        case NotJson => safe || IsClientError(r.status)
        case ErrorList(code, insufficient) =>
          || code in {Number(10010), Number(11010), Number(10114)}
          || (idempotent && a.saysNonce && IsGenericList(code, insufficient))
        case BareError => idempotent && a.saysKeyword
        case Data => safe && r.status.Some? && r.status.value >= 500
      }
  }

  /** Whether an outcome makes the loop call again, by what happened on the wire. */
  lemma CallsAgainIff(a: Attempt, endpoint: string, idempotent: bool)
    requires Sane(a.exchange)
    ensures GoesOn(Outcome(a, endpoint), idempotent)
       <==> CallsAgain(a, !IsWrite("POST", endpoint) || idempotent, idempotent)
  {
    RaisesWhat(a.exchange, IsWrite("POST", endpoint), a.now);
    if a.exchange.Replied? && a.exchange.reply.status != Some(429) && a.exchange.reply.body.ErrorList? {
      ReplyIsAsListed(a.exchange.reply, IsWrite("POST", endpoint), a.now);
    }
  }

  /** A run of the loop on a call not declared idempotent, at an attempt answered by an error list:
      with attempts left, another call is made if and only if the code is one of the two rate
      limits or the nonce error. */
  lemma ErrorListIsRetriedIff(attempts: seq<Attempt>, endpoint: string, maxAttempts: int, calls: nat, i: nat)
    requires AllHonest(attempts) && Stops(Outcomes(attempts, endpoint), maxAttempts, false, calls)
    requires i < calls && i < maxAttempts - 1
    requires attempts[i].exchange.Replied? && attempts[i].exchange.reply.status != Some(429)
    requires attempts[i].exchange.reply.body.ErrorList?
    ensures i < calls - 1
       <==> attempts[i].exchange.reply.body.code in {Number(10010), Number(11010), Number(10114)}
  {
    CallsAgainIff(attempts[i], endpoint, false);
    assert Outcomes(attempts, endpoint)[i] == Outcome(attempts[i], endpoint);
  }

  /** A write that was applied is resent without the caller's leave if and only if the search was
      misled by an exception from outside the call. */
  lemma ResentIffMisled(a: Attempt, endpoint: string)
    requires Honest(a) && a.applied && IsWrite("POST", endpoint)
    ensures GoesOn(Outcome(a, endpoint), false) <==> Misled(a.exchange)
  {
    var error := Raises(a.exchange, true, a.now);
    if error.Some? && error.value.Network? {
      RetryableIffMisled(a.exchange, a.now);
    }
  }

  /** Every call is made where `c` is being handled. */
  ghost predicate AllMadeIn(attempts: seq<Attempt>, c: Context) {
    forall i :: 0 <= i < |attempts| && attempts[i].exchange.ConnectionFailed? ==>
      RaisedIn(attempts[i].exchange.graph, attempts[i].exchange.own, c)
  }

  lemma ResentWasNotApplied(a: Attempt, endpoint: string, c: Context)
    requires Honest(a) && IsWrite("POST", endpoint) && GoesOn(Outcome(a, endpoint), false)
    requires IsContext(c) && (a.exchange.ConnectionFailed? ==> RaisedIn(a.exchange.graph, a.exchange.own, c))
    requires !Refuses(c)
    ensures !a.applied
  {
    if a.applied {
      ResentIffMisled(a, endpoint);
      ForeignIsHandled(a.exchange.graph, a.exchange.own, c, a.exchange.root);
    }
  }

  ghost predicate AtMostOnce(attempts: seq<Attempt>, calls: nat)
    requires calls <= |attempts|
  {
    forall i, j :: 0 <= i < calls && 0 <= j < calls && attempts[i].applied && attempts[j].applied ==> i == j
  }

  /** If nothing the caller is handling says that a connection was refused, no run of the loop on
      a write that is not idempotent applies it twice: only the last call can have. */
  lemma WriteAppliedAtMostOnce(attempts: seq<Attempt>, endpoint: string, c: Context, maxAttempts: int, calls: nat)
    requires AllHonest(attempts) && IsWrite("POST", endpoint)
    requires IsContext(c) && AllMadeIn(attempts, c) && !Refuses(c)
    requires Stops(Outcomes(attempts, endpoint), maxAttempts, false, calls)
    ensures forall i :: 0 <= i < calls - 1 ==> !attempts[i].applied
    ensures AtMostOnce(attempts, calls)
  {
    forall i | 0 <= i < calls - 1 ensures !attempts[i].applied {
      ResentWasNotApplied(attempts[i], endpoint, c);
    }
  }

  /** Some run of the loop, honest and made in the context, applies the write twice. */
  ghost predicate AppliesTwice(endpoint: string, c: Context, maxAttempts: int, idempotent: bool) {
    exists attempts, calls: nat ::
      AllHonest(attempts) && AllMadeIn(attempts, c)
      && Stops(Outcomes(attempts, endpoint), maxAttempts, idempotent, calls) && !AtMostOnce(attempts, calls)
  }

  /** No run of the loop applies a write twice, whatever exchange and network do, if and only if
      one attempt is allowed, or the call is not declared idempotent and its caller is handling
      nothing from which a refused connection is in reach. */
  lemma AtMostOnceIff(endpoint: string, c: Context, maxAttempts: int, idempotent: bool)
    requires IsWrite("POST", endpoint) && IsContext(c)
    ensures !AppliesTwice(endpoint, c, maxAttempts, idempotent)
       <==> maxAttempts <= 1 || (!idempotent && !Refuses(c))
  {
    if maxAttempts <= 1 {
    } else if !idempotent && !Refuses(c) {
      forall attempts, calls: nat |
        AllHonest(attempts) && AllMadeIn(attempts, c) && Stops(Outcomes(attempts, endpoint), maxAttempts, false, calls)
        ensures AtMostOnce(attempts, calls)
      {
        WriteAppliedAtMostOnce(attempts, endpoint, c, maxAttempts, calls);
      }
    } else {
      TimedOutThenDone(endpoint, c, maxAttempts, idempotent);
    }
  }

  /** The write is applied and its reply is lost; the loop sends it again. */
  lemma TimedOutThenDone(endpoint: string, c: Context, maxAttempts: int, idempotent: bool)
    requires IsWrite("POST", endpoint) && IsContext(c) && maxAttempts >= 2
    requires idempotent || Refuses(c)
    ensures AppliesTwice(endpoint, c, maxAttempts, idempotent)
  {
    var lost := LostAttempt(c);
    if !idempotent {
      ResentIffMisled(lost, endpoint);
    }
    ResentTwice(lost, endpoint, c, maxAttempts, idempotent);
  }

  /** A call that was received, applied, and timed out before its reply. */
  lemma LostAttempt(c: Context) returns (a: Attempt)
    requires IsContext(c)
    ensures Honest(a) && a.applied && a.exchange.ConnectionFailed?
    ensures RaisedIn(a.exchange.graph, a.exchange.own, c)
    ensures Refuses(c) ==> Misled(a.exchange)
  {
    LostIsRaised(c);
    if Refuses(c) {
      LostReachesContext(c);
    }
    a := Attempt(ConnectionFailed(Lost(c), 0, 1, true), true, 0, false, false);
  }

  lemma ResentTwice(lost: Attempt, endpoint: string, c: Context, maxAttempts: int, idempotent: bool)
    requires Honest(lost) && lost.applied && lost.exchange.ConnectionFailed? && maxAttempts >= 2
    requires RaisedIn(lost.exchange.graph, lost.exchange.own, c)
    requires idempotent || GoesOn(Outcome(lost, endpoint), false)
    ensures AppliesTwice(endpoint, c, maxAttempts, idempotent)
  {
    var done := Attempt(Replied(Reply(Some(200), Data, NO_INFO)), true, 0, false, false);
    var attempts := [lost, done];
    assert AllHonest(attempts) && AllMadeIn(attempts, c);
    var outcomes := Outcomes(attempts, endpoint);
    assert outcomes[0] == Outcome(lost, endpoint) && outcomes[1] == Outcome(done, endpoint);
    assert GoesOn(outcomes[0], idempotent) && !GoesOn(outcomes[1], idempotent);
    assert Stops(outcomes, maxAttempts, idempotent, 2);
    assert attempts[0].applied && attempts[1].applied;
  }
}

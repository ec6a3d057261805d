/** The authentication flag against the sockets it is meant to speak for. */
module AuthGate {
  import opened Options
  import opened Lifecycle
  import opened SupervisorSafety
  import opened CloseWins
  import opened CloseLimits

  /** What `require_websocket_connection` and `require_websocket_authentication` let through
      has an OK auth reply on the very socket it will be sent on. */
  predicate Gate(s: Client) {
    s.authentication && s.up ==> s.authenticated
  }

  /** An outage is cleared by the socket that ends it, and while it lasts nobody is
      authenticated. */
  predicate Gated(s: Client) {
    && (s.reconnection.Some? ==> !s.authentication)
    && (OnASocket(s.pc) ==> s.reconnection.None?)
    && (s.pc.Sleeping? ==> s.reconnection.Some?)
    && (s.cleanStart && s.pc.Handshake? ==> !s.authentication)
    && (s.cleanStart ==> Gate(s))
  }

  /** Between two suspension points, with no socket. */
  predicate Unplugged(s: Client) {
    (s.reconnection.Some? ==> !s.authentication) && (s.cleanStart ==> Gate(s))
  }

  predicate Kept(s: Client, t: Client) {
    Gated(t) && t.cleanStart == s.cleanStart
  }

  lemma LoopTopIsGated(s: Client)
    requires Unplugged(s)
    requires s.reconnection.None? && s.cleanStart ==> !s.authentication
    ensures Kept(s, LoopTop(s))
  {
  }

  lemma FinishIsGated(s: Client, result: Result)
    requires Unplugged(s)
    ensures Kept(s, Finish(s, result)) && Kept(s, Disconnect(s))
  {
  }

  lemma RetryIsGated(s: Client, o: Outage)
    requires Unplugged(s) && s.reconnection.Some?
    ensures Kept(s, LoopTop(s.(reconnection := Some(o))))
  {
    LoopTopIsGated(s.(reconnection := Some(o)));
  }

  lemma StoppedIsGated(s: Client, after: After)
    requires Unplugged(s)
    ensures Kept(s, Stopped(s, after))
  {
    if after.AfterEnd? || (after.AfterError? && s.closing) {
      FinishIsGated(s, Returned);
    } else if after.AfterGoingAway? || IsLostConnection(after.error) {
      LoopTopIsGated(BeginOutage(s));
    } else if s.reconnection.Some? && IsRetryable(after.error) {
      RetryIsGated(s, s.reconnection.value.(attempts := s.reconnection.value.attempts + 1));
    } else {
      FinishIsGated(s, Failed);
    }
  }

  lemma WaitingIsGated(s: Client, after: After, todo: seq<BucketId>)
    requires Unplugged(s)
    ensures Kept(s, s.(pc := Stopping(after, todo)))
  {
  }

  lemma {:induction false} StopFromIsGated(s: Client, after: After, todo: seq<BucketId>)
    requires Unplugged(s)
    ensures Kept(s, StopFrom(s, after, todo))
    decreases |todo|
  {
    if todo == [] {
      StoppedIsGated(s, after);
    } else {
      var u := s.(pool := Stop(s.pool, todo[0]));
      assert Unplugged(u);
      WaitingIsGated(u, after, todo[1..]);
      StopFromIsGated(u, after, todo[1..]);
    }
  }

  lemma RunStartIsGated(s: Client, initial: real)
    requires Gated(s) && s.pc.Scheduled? && !s.up
    ensures Gated(RunStartStep(s, initial))
  {
    if s.pc.epoch == s.epoch {
      LoopTopIsGated(SessionBegins(s, initial));
    }
  }

  lemma WakeIsGated(s: Client)
    requires Gated(s) && s.pc.Sleeping?
    ensures Kept(s, WakeStep(s))
  {
  }

  lemma LeftIsGated(s: Client)
    requires Gated(s) && s.pc.Leaving?
    ensures Kept(s, LeftStep(s))
  {
    if s.pc.ending.Escaped? {
      FinishIsGated(s, Crashed);
    } else {
      var after := AfterLeaving(s.pc.ending, s.closing);
      StopFromIsGated(s, after, Keys(s.pool));
    }
  }

  lemma InterruptedIsGated(s: Client, failure: Ending)
    requires Gated(s) && Enabled(s, Interrupted(failure))
    ensures Kept(s, InterruptedStep(s, failure))
  {
    if failure.Raised? {
      StopFromIsGated(s, AfterError(failure.error), Keys(s.pool));
    } else {
      FinishIsGated(s, Crashed);
    }
  }

  lemma OtherIsGated(s: Client, act: Label)
    requires Gated(s) && (s.pc.Scheduled? ==> !s.up) && Enabled(s, act)
    requires !act.RunStart? && !act.Wake? && !act.Interrupted? && !act.Left? && !act.StopResumes?
    ensures Gated(Step(s, act)) && Step(s, act).cleanStart == s.cleanStart
  {
  }

  lemma StepIsGated(s: Client, act: Label)
    requires Gated(s) && (s.pc.Scheduled? ==> !s.up) && Enabled(s, act)
    ensures Gated(Step(s, act)) && (act.RunStart? || Step(s, act).cleanStart == s.cleanStart)
  {
    match act
    case RunStart(initial) => RunStartIsGated(s, initial);
    case Wake => WakeIsGated(s);
    case Interrupted(failure) => InterruptedIsGated(s, failure);
    case Left => LeftIsGated(s);
    case StopResumes => StopFromIsGated(s, s.pc.after, s.pc.todo);
    case _ => OtherIsGated(s, act);
  }

  lemma {:induction false} RunIsGated(s: Client, labels: seq<Label>)
    requires Gated(s) && Safe(s) && CanRun(s, labels)
    ensures Gated(Run(s, labels))
    decreases |labels|
  {
    if labels != [] {
      StepIsGated(s, labels[0]);
      StepIsSafe(s, labels[0]);
      RunIsGated(Step(s, labels[0]), labels[1..]);
    }
  }

  predicate WithinSession(labels: seq<Label>) {
    forall i :: 0 <= i < |labels| ==> !labels[i].RunStart?
  }

  lemma {:induction false} SessionIsGated(s: Client, labels: seq<Label>)
    requires Gated(s) && Safe(s) && s.cleanStart && CanRun(s, labels) && WithinSession(labels)
    ensures Gate(Run(s, labels))
    decreases |labels|
  {
    if labels != [] {
      StepIsGated(s, labels[0]);
      StepIsSafe(s, labels[0]);
      SessionIsGated(Step(s, labels[0]), labels[1..]);
    }
  }

  /** Within one session, through any number of outages, the gate speaks for the current socket
      exactly when the session did not inherit the flag: nothing but an outage clears it. */
  lemma GateHoldsIff(timeout: Option<real>, before: seq<Label>, initial: real)
    requires CanRun(Initial(timeout), before)
    requires Enabled(Run(Initial(timeout), before), RunStart(initial))
    requires !Run(Initial(timeout), before).landed
    ensures
      var s := Run(Initial(timeout), before);
      var t := Step(s, RunStart(initial));
      (forall labels :: CanRun(t, labels) && WithinSession(labels) ==> Gate(Run(t, labels))) <==> !s.authentication
  {
    var s := Run(Initial(timeout), before);
    var t := Step(s, RunStart(initial));
    InitiallySafe(timeout);
    RunIsSafe(Initial(timeout), before);
    RunIsGated(Initial(timeout), before);
    InitiallyGood(timeout);
    RunIsGood(Initial(timeout), before);
    StepIsSafe(s, RunStart(initial));
    StepIsGated(s, RunStart(initial));
    if s.authentication {
      StaleFlag(s, initial);
      assert WithinSession([HandshakeDone]);
    } else {
      CleanSession(s, initial);
      forall labels | CanRun(t, labels) && WithinSession(labels) ensures Gate(Run(t, labels)) {
        SessionIsGated(t, labels);
      }
    }
  }

  lemma CleanSession(s: Client, initial: real)
    requires s.pc.Scheduled? && s.pc.epoch == s.epoch && !s.authentication
    ensures RunStartStep(s, initial).cleanStart
  {
  }

  /** The first socket of a session that inherits the flag passes the gate unauthenticated. */
  lemma StaleFlag(s: Client, initial: real)
    requires s.pc.Scheduled? && s.pc.epoch == s.epoch && s.authentication && Gated(s)
    ensures
      var t := RunStartStep(s, initial);
      CanRun(t, [HandshakeDone]) && !Gate(Run(t, [HandshakeDone]))
  {
    var t := RunStartStep(s, initial);
    assert t.pc.Handshake? && t.authentication;
    assert Run(t, [HandshakeDone]) == HandshakeDoneStep(t);
  }

  /** Such a session exists: one that ended on the server's own close, after an auth reply. */
  lemma AuthenticationSurvives(timeout: Option<real>) returns (s: Client)
    ensures Reached(timeout, s) && s.pc.Scheduled? && !s.landed && s.authentication
  {
    s := FirstSession(timeout);
    Reach(timeout, s, AuthReply);
    s := Step(s, AuthReply);
    Reach(timeout, s, SocketDown);
    s := Step(s, SocketDown);
    var normal := Ended(Some(1000));
    Reach(timeout, s, ReadingEnds(normal));
    s := Step(s, ReadingEnds(normal));
    Reach(timeout, s, Left);
    assert Keys(s.pool) == [];
    s := Step(s, Left);
    Reach(timeout, s, CallStart);
    s := Step(s, CallStart);
  }
}

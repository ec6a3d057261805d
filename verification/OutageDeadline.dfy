/** Every outage has its own deadline: no attempt begins after it, no sleep passes it, and the
    backoff is reset only by a connection that was stable. */
module OutageDeadline {
  import opened Options
  import opened Lifecycle
  import opened CloseWins
  import Delay

  // ---- One outage ----

  function DeadlineOf(timeout: Option<real>, began: real): Option<real> {
    if timeout.None? then None else Some(began + timeout.value)
  }

  /** The outage keeps the deadline it began with; each attempt took at least a second of it,
      and began before it. */
  predicate OutageOk(timeout: Option<real>, clock: real, o: Outage) {
    && o.deadline == DeadlineOf(timeout, o.began)
    && o.tries as real <= clock - o.began
    && (timeout.Some? && o.tries > 0 ==> o.tries as real < timeout.value)
  }

  /** A sleep ends no later than the deadline, and unless cut short there lasts a second. */
  predicate SleepOk(until: real, o: Outage) {
    && (o.deadline.Some? ==> until <= o.deadline.value)
    && (until >= o.began + o.tries as real + 1.0 || o.deadline == Some(until))
  }

  // ---- The backoff ----

  /** The delays drawn since the last reset are the first ones of the backoff's sequence. */
  predicate PacedBy(d: Delay.Backoff, drawn: seq<real>) {
    && Delay.Drawn(d.initial)
    && d == Delay.Nth(Delay.Fresh(d.initial), |drawn|)
    && forall i :: 0 <= i < |drawn| ==> drawn[i] == Delay.DelayAt(d.initial, i)
  }

  lemma DrawingKeepsPace(d: Delay.Backoff, drawn: seq<real>)
    requires PacedBy(d, drawn)
    ensures PacedBy(Delay.Advanced(d), drawn + [Delay.Peek(d)])
    ensures Delay.Peek(d) >= 1.0
  {
    Delay.DelaysNeverDecrease(d.initial, |drawn|);
    assert Delay.Peek(d) == Delay.DelayAt(d.initial, |drawn|);
  }

  lemma WholeSecond(delay: real)
    requires delay >= 1.0
    ensures delay.Floor as real >= 1.0
  {
  }

  // ---- The client ----

  predicate Begins(after: After) {
    after.AfterGoingAway? || (after.AfterError? && IsLostConnection(after.error))
  }

  /** An outage begins only when none is under way. */
  predicate Settled(pc: RunPc, reconnection: Option<Outage>) {
    match pc
    case Sleeping(until) => reconnection.Some? && SleepOk(until, reconnection.value)
    case Stopping(after, _) => Begins(after) ==> reconnection.None?
    case _ => OnASocket(pc) ==> reconnection.None?
  }

  predicate Timely(s: Client) {
    && (s.reconnection.Some? ==> OutageOk(s.timeout, s.clock, s.reconnection.value))
    && Settled(s.pc, s.reconnection)
    && PacedBy(s.delay, s.drawn)
  }

  /** The connection that is, or was last, up has lasted long enough to count. */
  predicate Stable(s: Client) {
    s.connectedAt.Some? && s.clock - s.connectedAt.value >= STABLE_CONNECTION_TIME
  }

  /** What a step that begins no session may do to an outage and to the backoff. */
  predicate Proceeds(s: Client, t: Client) {
    && (s.reconnection.Some? && t.reconnection.Some? ==>
          t.reconnection.value.began == s.reconnection.value.began
          && t.reconnection.value.deadline == s.reconnection.value.deadline
          && t.reconnection.value.tries >= s.reconnection.value.tries)
    && (s.reconnection.None? && t.reconnection.Some? ==>
          t.reconnection.value.began == s.clock && t.reconnection.value.tries == 0)
    && (t.attempts != s.attempts && s.reconnection.Some? ==>
          t.attempts == s.attempts + 1 && !Expired(s, s.reconnection.value)
          && t.reconnection.Some? && t.reconnection.value.tries == s.reconnection.value.tries + 1)
    && (s.drawn <= t.drawn || Stable(s))
    && t.delay.initial == s.delay.initial
  }

  predicate Moves(s: Client, t: Client) {
    Timely(t) && Proceeds(s, t) && t.timeout == s.timeout
  }

  /** Between two suspension points. */
  predicate Pausing(s: Client) {
    && (s.reconnection.Some? ==> OutageOk(s.timeout, s.clock, s.reconnection.value))
    && PacedBy(s.delay, s.drawn)
  }

  lemma SleepIsOk(s: Client, o: Outage, delay: real)
    requires OutageOk(s.timeout, s.clock, o) && delay >= 1.0
    ensures SleepOk(SleepUntil(s, o, delay), o)
  {
    WholeSecond(delay);
  }

  lemma DrawPauses(s: Client)
    requires Pausing(s)
    ensures Pausing(Draw(s))
  {
    DrawingKeepsPace(s.delay, s.drawn);
  }

  lemma SleepIsTimely(s: Client, until: real)
    requires Pausing(s) && s.reconnection.Some? && SleepOk(until, s.reconnection.value)
    ensures Timely(s.(pc := Sleeping(until)))
  {
  }

  lemma LoopTopIsTimely(s: Client)
    requires Pausing(s)
    ensures Timely(LoopTop(s)) && LoopTop(s).reconnection == s.reconnection
    ensures s.drawn <= LoopTop(s).drawn && LoopTop(s).delay.initial == s.delay.initial
    ensures LoopTop(s).timeout == s.timeout
    ensures s.reconnection.Some? ==> LoopTop(s).attempts == s.attempts
  {
    if s.reconnection.Some? {
      var o := s.reconnection.value;
      DrawingKeepsPace(s.delay, s.drawn);
      DrawPauses(s);
      SleepIsOk(s, o, Delay.Peek(s.delay));
      SleepIsTimely(Draw(s), SleepUntil(s, o, Delay.Peek(s.delay)));
      FinishMoves(Draw(s), Failed);
    }
  }

  /** A step that touches neither the outage nor the backoff. */
  lemma BookkeepingMoves(s: Client, t: Client)
    requires Pausing(s) && Settled(t.pc, t.reconnection)
    requires t.timeout == s.timeout && t.clock == s.clock && t.attempts == s.attempts
    requires t.reconnection == s.reconnection && t.delay == s.delay && t.drawn == s.drawn
    ensures Moves(s, t)
  {
  }

  lemma FinishMoves(s: Client, result: Result)
    requires Pausing(s)
    ensures Moves(s, Finish(s, result)) && Moves(s, Disconnect(s))
  {
    BookkeepingMoves(s, Finish(s, result));
    BookkeepingMoves(s, Disconnect(s));
  }

  lemma OutageMoves(s: Client)
    requires Pausing(s) && s.reconnection.None?
    ensures Moves(s, LoopTop(BeginOutage(s)))
  {
    LoopTopIsTimely(BeginOutage(s));
  }

  lemma RetryMoves(s: Client, o: Outage)
    requires Pausing(s) && s.reconnection.Some? && o == s.reconnection.value.(attempts := o.attempts)
    ensures Moves(s, LoopTop(s.(reconnection := Some(o))))
  {
    LoopTopIsTimely(s.(reconnection := Some(o)));
  }

  lemma StoppedMoves(s: Client, after: After)
    requires Pausing(s) && (Begins(after) ==> s.reconnection.None?)
    ensures Moves(s, Stopped(s, after))
  {
    if after.AfterEnd? || (after.AfterError? && s.closing) {
      FinishMoves(s, Returned);
    } else if Begins(after) {
      OutageMoves(s);
    } else if s.reconnection.Some? && IsRetryable(after.error) {
      RetryMoves(s, s.reconnection.value.(attempts := s.reconnection.value.attempts + 1));
    } else {
      FinishMoves(s, Failed);
    }
  }

  lemma WaitingMoves(s: Client, p: Pool, after: After, todo: seq<BucketId>)
    requires Pausing(s) && (Begins(after) ==> s.reconnection.None?)
    ensures Moves(s, s.(pool := p, pc := Stopping(after, todo)))
  {
  }

  lemma MovesFromPool(s: Client, p: Pool, t: Client)
    requires Moves(s.(pool := p), t)
    ensures Moves(s, t)
  {
  }

  lemma {:induction false} StopFromMoves(s: Client, after: After, todo: seq<BucketId>)
    requires Pausing(s) && (Begins(after) ==> s.reconnection.None?)
    ensures Moves(s, StopFrom(s, after, todo))
    decreases |todo|
  {
    if todo == [] {
      StoppedMoves(s, after);
    } else {
      var p := Stop(s.pool, todo[0]);
      var u := s.(pool := p);
      assert Pausing(u);
      WaitingMoves(s, p, after, todo[1..]);
      StopFromMoves(u, after, todo[1..]);
      MovesFromPool(s, p, StopFrom(u, after, todo[1..]));
    }
  }

  lemma WakeMoves(s: Client)
    requires Timely(s) && Heeded(s) && Enabled(s, Wake)
    ensures Moves(s, WakeStep(s))
  {
    if s.closing || s.reconnection.None? || Expired(s, s.reconnection.value) {
      FinishMoves(s, Failed);
    } else {
      var o := s.reconnection.value;
      assert o.deadline != Some(s.pc.until);
      assert OutageOk(s.timeout, s.clock, o.(tries := o.tries + 1));
    }
  }

  lemma LeftMoves(s: Client)
    requires Timely(s) && s.pc.Leaving?
    ensures Moves(s, LeftStep(s))
  {
    if s.pc.ending.Escaped? {
      FinishMoves(s, Crashed);
    } else {
      var after := AfterLeaving(s.pc.ending, s.closing);
      StopFromMoves(s, after, Keys(s.pool));
    }
  }

  lemma InterruptedMoves(s: Client, failure: Ending)
    requires Timely(s) && Enabled(s, Interrupted(failure))
    ensures Moves(s, InterruptedStep(s, failure))
  {
    if failure.Raised? {
      StopFromMoves(s, AfterError(failure.error), Keys(s.pool));
    } else {
      FinishMoves(s, Crashed);
    }
  }

  lemma StepMoves(s: Client, act: Label)
    requires Timely(s) && Heeded(s) && Enabled(s, act) && !act.RunStart?
    ensures Moves(s, Step(s, act))
  {
    match act
    case Wake => WakeMoves(s);
    case Interrupted(failure) => InterruptedMoves(s, failure);
    case Left => LeftMoves(s);
    case StopResumes => StopFromMoves(s, s.pc.after, s.pc.todo);
    case _ =>
  }

  lemma RunStartIsTimely(s: Client, initial: real)
    requires Timely(s) && Enabled(s, RunStart(initial))
    ensures Timely(RunStartStep(s, initial)) && RunStartStep(s, initial).timeout == s.timeout
  {
    if s.pc.epoch == s.epoch {
      LoopTopIsTimely(SessionBegins(s, initial));
    }
  }

  lemma StepIsTimely(s: Client, act: Label)
    requires Timely(s) && Heeded(s) && Enabled(s, act)
    ensures Timely(Step(s, act)) && Step(s, act).timeout == s.timeout
  {
    if act.RunStart? {
      RunStartIsTimely(s, act.initial);
    } else {
      StepMoves(s, act);
    }
  }

  lemma {:induction false} RunIsTimely(s: Client, labels: seq<Label>)
    requires Timely(s) && Good(s) && CanRun(s, labels)
    ensures Timely(Run(s, labels)) && Good(Run(s, labels)) && Run(s, labels).timeout == s.timeout
    decreases |labels|
  {
    if labels != [] {
      StepIsTimely(s, labels[0]);
      StepIsGood(s, labels[0]);
      RunIsTimely(Step(s, labels[0]), labels[1..]);
    }
  }

  lemma InitiallyTimely(timeout: Option<real>)
    ensures Timely(Initial(timeout))
  {
  }

  /** In every reachable state an outage has the deadline it began with, its sleep does not
      pass it, and it has seen fewer than T attempts. */
  lemma OutageIsBounded(timeout: Option<real>, labels: seq<Label>)
    requires timeout.Some? && CanRun(Initial(timeout), labels)
    ensures
      var s := Run(Initial(timeout), labels);
      s.reconnection.Some? ==>
        var o := s.reconnection.value;
        && o.deadline == Some(o.began + timeout.value)
        && (o.tries == 0 || o.tries as real < timeout.value)
        && (s.pc.Sleeping? ==> s.pc.until <= o.began + timeout.value)
  {
    InitiallyTimely(timeout);
    InitiallyGood(timeout);
    RunIsTimely(Initial(timeout), labels);
  }

  /** A step within a session that begins an attempt during an outage does so strictly before
      the deadline, and every attempt is counted. */
  lemma AttemptsPrecedeTheDeadline(timeout: Option<real>, labels: seq<Label>, act: Label)
    requires timeout.Some? && CanRun(Initial(timeout), labels) && !act.RunStart?
    requires Enabled(Run(Initial(timeout), labels), act)
    ensures
      var s := Run(Initial(timeout), labels);
      var t := Step(s, act);
      s.reconnection.Some? && t.attempts != s.attempts ==>
        && s.clock < s.reconnection.value.began + timeout.value
        && t.attempts == s.attempts + 1
        && t.reconnection.Some? && t.reconnection.value.tries == s.reconnection.value.tries + 1
  {
    InitiallyTimely(timeout);
    InitiallyGood(timeout);
    RunIsTimely(Initial(timeout), labels);
    StepMoves(Run(Initial(timeout), labels), act);
  }

  /** An outage is never replaced while it lasts, and one that follows a recovery begins when
      its own connection is lost: an earlier outage cannot shorten it. */
  lemma OutagesAreIndependent(timeout: Option<real>, labels: seq<Label>, act: Label)
    requires CanRun(Initial(timeout), labels)
    requires Enabled(Run(Initial(timeout), labels), act) && !act.RunStart?
    ensures
      var s := Run(Initial(timeout), labels);
      var t := Step(s, act);
      t.reconnection.Some? ==>
        && t.reconnection.value.deadline == DeadlineOf(timeout, t.reconnection.value.began)
        && t.reconnection.value.began == if s.reconnection.Some? then s.reconnection.value.began else s.clock
  {
    InitiallyTimely(timeout);
    InitiallyGood(timeout);
    RunIsTimely(Initial(timeout), labels);
    StepMoves(Run(Initial(timeout), labels), act);
  }

  /** An outage that nothing ends before its deadline ends there: the sleep is over, and
      `start()` raises. */
  lemma DeadlineEndsTheOutage(timeout: Option<real>, labels: seq<Label>)
    requires timeout.Some? && CanRun(Initial(timeout), labels)
    ensures
      var s := Run(Initial(timeout), labels);
      s.pc.Sleeping? && !s.closing && s.reconnection.Some? && s.clock >= s.reconnection.value.began + timeout.value ==>
        Enabled(s, Wake) && Step(s, Wake).pc == Done(Failed)
  {
    InitiallyTimely(timeout);
    InitiallyGood(timeout);
    RunIsTimely(Initial(timeout), labels);
  }
}

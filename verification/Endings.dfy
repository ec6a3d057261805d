/** What the run loop makes of every way in which a connection, or an attempt at one, can end. */
module Endings {
  import opened Options
  import opened Lifecycle
  import opened CloseWins
  import opened OutageDeadline
  import Flapping

  /** A lost connection, spelled out: closed without a frame, or with 1006 or 1012. */
  predicate SaysLost(e: Error) {
    match e
    case ConnectionClosed(None) => true
    case ConnectionClosed(Some(code)) => code == 1006 || code == 1012
    case _ => false
  }

  /** A failed attempt that another may follow: the network, a garbled reply, or a server that is
      overloaded or broken. */
  predicate SaysRetry(e: Error) {
    match e
    case OSError => true
    case InvalidMessage => true
    case InvalidStatus(status) => status == 408 || status == 429 || 500 <= status < 600
    case ConnectionClosed(_) => false
  }

  /** The run is over without an error, and "disconnected" was emitted once more. */
  predicate EndsQuietly(s: Client, t: Client) {
    t.pc == Done(Returned) && t.disconnected == s.disconnected + 1
  }

  /** The run loop sleeps before another attempt, or gives up with an error if no time is left. */
  predicate SleepsOrFails(s: Client, t: Client, timeLeft: bool) {
    t.disconnected == s.disconnected && if timeLeft then t.pc.Sleeping? else t.pc == Done(Failed)
  }

  predicate Fails(s: Client, t: Client) {
    t.pc == Done(Failed) && t.disconnected == s.disconnected
  }

  /** A new outage has time left when it begins. */
  predicate Patient(s: Client) {
    s.timeout.None? || s.timeout.value > 0.0
  }

  lemma LoopTopGoesOn(s: Client)
    requires s.reconnection.Some?
    ensures SleepsOrFails(s, LoopTop(s), !Expired(s, s.reconnection.value))
  {
    assert Draw(s).disconnected == s.disconnected;
    if Expired(s, s.reconnection.value) {
      assert LoopTop(s) == Finish(Draw(s), Failed);
    } else {
      assert LoopTop(s).pc.Sleeping? && LoopTop(s).disconnected == Draw(s).disconnected;
    }
  }

  lemma OutageGoesOn(s: Client)
    ensures SleepsOrFails(s, LoopTop(BeginOutage(s)), Patient(s))
  {
    var u := BeginOutage(s);
    LoopTopGoesOn(u);
    assert Expired(u, u.reconnection.value) <==> !Patient(s);
  }

  lemma RetryGoesOn(s: Client, o: Outage)
    requires s.reconnection.Some? && o.deadline == s.reconnection.value.deadline
    ensures SleepsOrFails(s, LoopTop(s.(reconnection := Some(o))), !Expired(s, s.reconnection.value))
  {
    LoopTopGoesOn(s.(reconnection := Some(o)));
  }

  /** After an error: a client that is closing is done; a lost connection begins an outage; a failed
      attempt of an outage is followed by another; anything else ends the run. */
  predicate ErrorLeadsTo(s: Client, e: Error, t: Client) {
    if s.closing then EndsQuietly(s, t)
    else if SaysLost(e) then SleepsOrFails(s, t, Patient(s))
    else if s.reconnection.Some? && SaysRetry(e) then SleepsOrFails(s, t, !Expired(s, s.reconnection.value))
    else Fails(s, t)
  }

  lemma LostIsLost(s: Client, e: Error)
    requires !s.closing && SaysLost(e)
    ensures Stopped(s, AfterError(e)) == LoopTop(BeginOutage(s))
  {
  }

  lemma FailedIsRetried(s: Client, e: Error)
    requires !s.closing && s.reconnection.Some? && SaysRetry(e)
    ensures
      var o := s.reconnection.value;
      Stopped(s, AfterError(e)) == LoopTop(s.(reconnection := Some(o.(attempts := o.attempts + 1))))
  {
  }

  lemma OtherIsRaised(s: Client, e: Error)
    requires !s.closing && !SaysLost(e) && !(s.reconnection.Some? && SaysRetry(e))
    ensures Stopped(s, AfterError(e)) == Finish(s, Failed)
  {
  }

  lemma StoppedAfterError(s: Client, e: Error)
    ensures ErrorLeadsTo(s, e, Stopped(s, AfterError(e)))
  {
    if s.closing {
      assert Stopped(s, AfterError(e)) == Disconnect(s);
    } else if SaysLost(e) {
      LostIsLost(s, e);
      OutageGoesOn(s);
    } else if s.reconnection.Some? && SaysRetry(e) {
      var o := s.reconnection.value;
      FailedIsRetried(s, e);
      RetryGoesOn(s, o.(attempts := o.attempts + 1));
    } else {
      OtherIsRaised(s, e);
    }
  }

  predicate LeadsTo(s: Client, after: After, t: Client) {
    match after
    case AfterError(e) => ErrorLeadsTo(s, e, t)
    case AfterGoingAway => SleepsOrFails(s, t, Patient(s))
    case AfterEnd => EndsQuietly(s, t)
  }

  lemma StoppedLeadsTo(s: Client, after: After)
    ensures LeadsTo(s, after, Stopped(s, after))
  {
    match after
    case AfterError(e) => StoppedAfterError(s, e);
    case AfterGoingAway => OutageGoesOn(s);
    case AfterEnd =>
  }

  lemma LeadsFromPool(s: Client, p: Pool, after: After, t: Client)
    requires LeadsTo(s.(pool := p), after, t)
    ensures LeadsTo(s, after, t)
  {
  }

  /** Stopping the supervisors decides nothing. */
  lemma {:induction false} StopFromLeadsTo(s: Client, after: After, todo: seq<BucketId>)
    ensures
      var t := StopFrom(s, after, todo);
      (t.pc.Stopping? && t.pc.after == after) || LeadsTo(s, after, t)
    decreases |todo|
  {
    if todo == [] {
      Flapping.StopFromEmpty(s, after);
      StoppedLeadsTo(s, after);
    } else if Flapping.Waits(s.pool, todo[0]) {
      Flapping.StopFromWaits(s, after, todo);
    } else {
      var p := Stop(s.pool, todo[0]);
      var u := s.(pool := p);
      Flapping.StopFromSkips(s, after, todo);
      StopFromLeadsTo(u, after, todo[1..]);
      if LeadsTo(u, after, StopFrom(u, after, todo[1..])) {
        LeadsFromPool(s, p, after, StopFrom(u, after, todo[1..]));
      }
    }
  }

  /** The connection is gone, and this is what the run loop does next, or does once the supervisors
      it still waits for have stopped: an exception it does not handle ends it at once; one it
      handles is judged by what it says; a normal end is an end, unless the server closed with 1001
      and the client did not ask for it. */
  lemma EndOfAConnection(s: Client)
    requires s.pc.Leaving? && Enabled(s, Left)
    ensures
      var t := Step(s, Left);
      match s.pc.ending
      case Escaped => t.pc == Done(Crashed)
      case Raised(e) => (t.pc.Stopping? && t.pc.after == AfterError(e)) || ErrorLeadsTo(s, e, t)
      case Ended(code) =>
        if code == Some(1001) && !s.closing then
          (t.pc.Stopping? && t.pc.after == AfterGoingAway) || SleepsOrFails(s, t, Patient(s))
        else (t.pc.Stopping? && t.pc.after == AfterEnd) || EndsQuietly(s, t)
  {
    if !s.pc.ending.Escaped? {
      StopFromLeadsTo(s, AfterLeaving(s.pc.ending, s.closing), Keys(s.pool));
    }
  }

  /** The same once the last supervisor has stopped. */
  lemma EndOfStopping(s: Client)
    requires s.pc.Stopping?
    ensures
      var t := Step(s, StopResumes);
      (t.pc.Stopping? && t.pc.after == s.pc.after) || LeadsTo(s, s.pc.after, t)
  {
    StopFromLeadsTo(s, s.pc.after, s.pc.todo);
  }

  /** And of an attempt that failed in its handshake. */
  lemma EndOfAnAttempt(s: Client, e: Error)
    requires Enabled(s, Interrupted(Raised(e)))
    ensures
      var t := Step(s, Interrupted(Raised(e)));
      (t.pc.Stopping? && t.pc.after == AfterError(e)) || ErrorLeadsTo(s, e, t)
  {
    StopFromLeadsTo(s, AfterError(e), Keys(s.pool));
  }

  /** An outage that begins has the deadline and the count it should: it is timed from now, the
      authentication is forgotten, and so is when the lost socket came up. */
  lemma OutageBegins(s: Client, e: Error)
    requires !s.closing && SaysLost(e)
    ensures
      var t := Stopped(s, AfterError(e));
      && t.reconnection ==
           Some(Outage(if s.timeout.None? then None else Some(s.clock + s.timeout.value), 1, s.clock, 0))
      && !t.authentication && t.connectedAt == None
  {
    LostIsLost(s, e);
    LoopTopKeepsTheRest(BeginOutage(s));
  }

  lemma LoopTopKeepsTheRest(s: Client)
    ensures
      var t := LoopTop(s);
      t.reconnection == s.reconnection && t.authentication == s.authentication && t.connectedAt == s.connectedAt
  {
    if s.reconnection.None? {
      assert LoopTop(s) == Attempt(s);
    } else if Expired(s, s.reconnection.value) {
      assert LoopTop(s) == Finish(Draw(s), Failed);
    } else {
      assert LoopTop(s).reconnection == Draw(s).reconnection && LoopTop(s).connectedAt == Draw(s).connectedAt;
    }
  }

  /** A failed attempt is counted, and nothing else of the outage changes. */
  lemma FailedAttemptIsCounted(s: Client, e: Error)
    requires !s.closing && s.reconnection.Some? && SaysRetry(e)
    ensures
      var o := s.reconnection.value;
      Stopped(s, AfterError(e)).reconnection == Some(Outage(o.deadline, o.attempts + 1, o.began, o.tries))
  {
    FailedIsRetried(s, e);
    var o := s.reconnection.value;
    LoopTopKeepsTheRest(s.(reconnection := Some(o.(attempts := o.attempts + 1))));
  }

  /** The client waited for its buckets: it reads its socket, or hangs up if it was closed meanwhile;
      hanging up, it leaves without an error. */
  lemma WaitedForTheBuckets(s: Client)
    requires Enabled(s, BucketsWaited)
    ensures Step(s, BucketsWaited).pc == if s.closing then HangingUp else Reading
    ensures s.closing ==> forall code ::
      Enabled(Step(s, BucketsWaited), ReadingEnds(Ended(code)))
      && !Enabled(Step(s, BucketsWaited), ReadingEnds(Raised(ConnectionClosed(code))))
  {
  }

  /** In every run: a connection lost without a close frame, or closed with 1006 or 1012, while the
      client was not closing and no supervisor has to be waited for, is followed by a sleep exactly
      if the timeout leaves any time; closed with any other code, it ends `start()` with an error. */
  lemma LostConnectionSleepsIff(timeout: Option<real>, labels: seq<Label>, code: Option<nat>)
    requires CanRun(Initial(timeout), labels)
    requires
      var s := Run(Initial(timeout), labels);
      s.pc == Leaving(Raised(ConnectionClosed(code))) && Enabled(s, Left) && !s.closing && !Step(s, Left).pc.Stopping?
    ensures
      var t := Step(Run(Initial(timeout), labels), Left);
      && (t.pc.Sleeping? <==> code in {None, Some(1006), Some(1012)} && (timeout == None || timeout.value > 0.0))
      && (!t.pc.Sleeping? ==> t.pc == Done(Failed))
  {
    InitiallyTimely(timeout);
    InitiallyGood(timeout);
    RunIsTimely(Initial(timeout), labels);
    EndOfAConnection(Run(Initial(timeout), labels));
  }
}

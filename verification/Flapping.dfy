/** When an outage resets the backoff: the time the run loop takes to leave a socket and to stop
    its supervisors counts as if the connection had lasted through it. */
module Flapping {
  import opened Options
  import opened Lifecycle
  import opened CloseWins
  import opened CloseLimits
  import opened OutageDeadline
  import opened LeftoverOutage
  import Delay
  import Sleeps

  // ---- The dates of a connection ----

  /** The client's last socket came up, and has gone down since. */
  predicate WentDown(s: Client) {
    !s.up && s.connectedAt.Some? && s.connectedAt.value <= s.downAt <= s.clock
  }

  /** How long the last connection was up. */
  function Uptime(s: Client): real
    requires s.connectedAt.Some?
  {
    s.downAt - s.connectedAt.value
  }

  /** How long it has been since: leaving the socket, and stopping the supervisors. */
  function Winding(s: Client): real {
    s.clock - s.downAt
  }

  predicate Dated(s: Client) {
    && (OnASocket(s.pc) ==> s.connectedAt.Some? && s.connectedAt.value <= s.clock && (s.up || WentDown(s)))
    && (s.pc.Stopping? && Begins(s.pc.after) ==> WentDown(s))
  }

  /** Between two sockets, or at the end, and awaiting no supervisor. */
  predicate IsOff(pc: RunPc) {
    pc.Handshake? || pc.Sleeping? || pc.Done?
  }

  lemma LoopTopIsOff(s: Client)
    ensures IsOff(LoopTop(s).pc)
  {
    if s.reconnection.None? {
      assert LoopTop(s) == Attempt(s);
    } else if Expired(s, s.reconnection.value) {
      assert LoopTop(s) == Finish(Draw(s), Failed);
    } else {
      assert LoopTop(s).pc.Sleeping?;
    }
  }

  lemma OutageIsOff(s: Client)
    ensures IsOff(LoopTop(BeginOutage(s)).pc)
  {
    LoopTopIsOff(BeginOutage(s));
  }

  lemma RetryIsOff(s: Client, o: Outage)
    ensures IsOff(LoopTop(s.(reconnection := Some(o))).pc)
  {
    LoopTopIsOff(s.(reconnection := Some(o)));
  }

  lemma StoppedIsOff(s: Client, after: After)
    ensures IsOff(Stopped(s, after).pc)
  {
    if LostAfter(after, s.closing) {
      OutageIsOff(s);
    } else if after.AfterError? && !s.closing && s.reconnection.Some? && IsRetryable(after.error) {
      RetryIsOff(s, s.reconnection.value.(attempts := s.reconnection.value.attempts + 1));
    }
  }

  /** A supervisor that has to be waited for. */
  predicate Waits(p: Pool, b: BucketId) {
    b in p.table && p.table[b].Some? && Live(p, p.table[b].value)
  }

  predicate SameDates(s: Client, t: Client) {
    t.up == s.up && t.connectedAt == s.connectedAt && t.downAt == s.downAt && t.clock == s.clock
  }

  lemma StopFromWaits(s: Client, after: After, todo: seq<BucketId>)
    requires todo != [] && Waits(s.pool, todo[0])
    ensures StopFrom(s, after, todo).pc == Stopping(after, todo[1..])
    ensures SameDates(s, StopFrom(s, after, todo)) && DrawsOn(s, StopFrom(s, after, todo))
  {
  }

  lemma StopFromSkips(s: Client, after: After, todo: seq<BucketId>)
    requires todo != [] && !Waits(s.pool, todo[0])
    ensures StopFrom(s, after, todo) == StopFrom(s.(pool := Stop(s.pool, todo[0])), after, todo[1..])
  {
  }

  lemma StopFromEmpty(s: Client, after: After)
    ensures StopFrom(s, after, []) == Stopped(s, after)
  {
  }

  lemma {:induction false} StopFromIsOff(s: Client, after: After, todo: seq<BucketId>)
    ensures
      var t := StopFrom(s, after, todo);
      && (IsOff(t.pc) || t.pc.Stopping?)
      && (t.pc.Stopping? ==> t.pc.after == after && SameDates(s, t))
    decreases |todo|
  {
    if todo == [] {
      StopFromEmpty(s, after);
      StoppedIsOff(s, after);
    } else if Waits(s.pool, todo[0]) {
      StopFromWaits(s, after, todo);
    } else {
      StopFromIsOff(s.(pool := Stop(s.pool, todo[0])), after, todo[1..]);
    }
  }

  lemma StopFromIsDated(s: Client, after: After, todo: seq<BucketId>)
    requires Begins(after) ==> WentDown(s)
    ensures Dated(StopFrom(s, after, todo))
  {
    StopFromIsOff(s, after, todo);
  }

  lemma RunStartIsDated(s: Client, initial: real)
    requires s.pc.Scheduled?
    ensures Dated(RunStartStep(s, initial))
  {
    var t := SessionBegins(s, initial);
    LoopTopIsOff(t);
    assert RunStartStep(s, initial).pc.Done? || RunStartStep(s, initial) == LoopTop(t);
  }

  lemma LeftIsDated(s: Client)
    requires Dated(s) && s.pc.Leaving? && !s.up
    ensures Dated(LeftStep(s))
  {
    if !s.pc.ending.Escaped? {
      StopFromIsDated(s, AfterLeaving(s.pc.ending, s.closing), Keys(s.pool));
    }
  }

  lemma StepIsDated(s: Client, act: Label)
    requires Dated(s) && Enabled(s, act)
    ensures Dated(Step(s, act))
  {
    match act
    case RunStart(initial) => RunStartIsDated(s, initial);
    case Interrupted(failure) => InterruptedIsDated(s, failure);
    case Left => LeftIsDated(s);
    case StopResumes => StopFromIsDated(s, s.pc.after, s.pc.todo);
    case _ => OtherIsDated(s, act);
  }

  lemma OtherIsDated(s: Client, act: Label)
    requires Dated(s) && Enabled(s, act)
    requires !act.RunStart? && !act.Interrupted? && !act.Left? && !act.StopResumes?
    ensures Dated(Step(s, act))
  {
    if act.Wake? {
      WakeIsDated(s);
    } else if act.HandshakeDone? || act.BucketsWaited? || act.ReadingEnds? || act.CallStart? {
      RunMoveIsDated(s, act);
    } else {
      assert Step(s, act).pc == s.pc && Step(s, act).connectedAt == s.connectedAt;
      BesideIsDated(s, Step(s, act));
    }
  }

  lemma RunMoveIsDated(s: Client, act: Label)
    requires Dated(s) && Enabled(s, act)
    requires act.HandshakeDone? || act.BucketsWaited? || act.ReadingEnds? || act.CallStart?
    ensures Dated(Step(s, act))
  {
    var t := Step(s, act);
    assert act.HandshakeDone? ==> t.up && t.connectedAt == Some(t.clock);
    assert !act.HandshakeDone? ==> SameDates(s, t);
    assert !t.pc.Stopping?;
  }

  lemma WakeIsDated(s: Client)
    ensures Dated(WakeStep(s))
  {
    WakeIsOff(s);
    OffIsDated(WakeStep(s));
  }

  lemma WakeIsOff(s: Client)
    ensures IsOff(WakeStep(s).pc)
  {
    if s.closing {
      assert WakeStep(s).pc == Done(Returned);
    } else if s.reconnection.None? || Expired(s, s.reconnection.value) {
      assert WakeStep(s).pc == Done(Failed);
    } else {
      assert WakeStep(s).pc == Handshake;
    }
  }

  lemma OffIsDated(s: Client)
    requires IsOff(s.pc)
    ensures Dated(s)
  {
  }

  /** What goes on beside the run loop. */
  lemma BesideIsDated(s: Client, t: Client)
    requires Dated(s) && t.pc == s.pc && t.connectedAt == s.connectedAt && t.clock >= s.clock
    requires (t.up == s.up && t.downAt == s.downAt) || (!t.up && t.downAt == t.clock == s.clock)
    ensures Dated(t)
  {
  }

  lemma InterruptedIsDated(s: Client, failure: Ending)
    requires Enabled(s, Interrupted(failure))
    ensures Dated(InterruptedStep(s, failure))
  {
    if failure.Raised? {
      StopFromIsDated(s, AfterError(failure.error), Keys(s.pool));
    }
  }

  lemma {:induction false} RunIsDated(s: Client, labels: seq<Label>)
    requires Dated(s) && CanRun(s, labels)
    ensures Dated(Run(s, labels))
    decreases |labels|
  {
    if labels != [] {
      StepIsDated(s, labels[0]);
      RunIsDated(Step(s, labels[0]), labels[1..]);
    }
  }

  // ---- What an outage does to the backoff ----

  /** The backoff drawn from next: a fresh one after a reset. */
  function DrawnFrom(s: Client, reset: bool): Delay.Backoff {
    if reset then Delay.Fresh(s.delay.initial) else s.delay
  }

  predicate Draws(s: Client, t: Client, reset: bool) {
    && t.delay == Delay.Advanced(DrawnFrom(s, reset))
    && t.drawn == (if reset then [] else s.drawn) + [Delay.Peek(DrawnFrom(s, reset))]
  }

  lemma OutageDraws(s: Client)
    ensures Draws(s, LoopTop(BeginOutage(s)), Stable(s))
  {
    var b := BeginOutage(s);
    assert b.reconnection.Some? && b.delay == DrawnFrom(s, Stable(s));
    assert LoopTop(b).delay == Draw(b).delay && LoopTop(b).drawn == Draw(b).drawn;
  }

  lemma {:induction false} LossDraws(s: Client, after: After, todo: seq<BucketId>)
    requires LostAfter(after, s.closing) && !StopFrom(s, after, todo).pc.Stopping?
    ensures Draws(s, StopFrom(s, after, todo), Stable(s))
    decreases |todo|
  {
    if todo == [] {
      OutageDraws(s);
      assert Stopped(s, after) == LoopTop(BeginOutage(s));
    } else {
      LossDraws(s.(pool := Stop(s.pool, todo[0])), after, todo[1..]);
    }
  }

  lemma LostWentDown(s: Client, act: Label)
    requires Dated(s) && Loses(s, act)
    ensures WentDown(s) && Draws(s, Step(s, act), Stable(s))
  {
    if act.Left? {
      LossDraws(s, AfterLeaving(s.pc.ending, s.closing), Keys(s.pool));
    } else {
      LossDraws(s, s.pc.after, s.pc.todo);
    }
  }

  /** In every run, an outage that begins resets the backoff if and only if the uptime of the
      connection, and the time it took since to leave it and to stop the supervisors, come to
      thirty seconds together. */
  lemma OutageResetsIff(timeout: Option<real>, labels: seq<Label>, act: Label)
    requires CanRun(Initial(timeout), labels) && Loses(Run(Initial(timeout), labels), act)
    ensures
      var s := Run(Initial(timeout), labels);
      && s.connectedAt.Some? && Uptime(s) >= 0.0 && Winding(s) >= 0.0
      && Draws(s, Step(s, act), Uptime(s) + Winding(s) >= 30.0)
  {
    RunIsDated(Initial(timeout), labels);
    LostWentDown(Run(Initial(timeout), labels), act);
  }

  // ---- Every other step only draws ----

  predicate DrawsOn(s: Client, t: Client) {
    s.drawn <= t.drawn && t.delay.initial == s.delay.initial
  }

  lemma LoopTopDrawsOn(s: Client)
    ensures DrawsOn(s, LoopTop(s))
  {
    assert DrawsOn(s, Draw(s));
    if s.reconnection.None? {
      assert LoopTop(s) == Attempt(s);
    } else if Expired(s, s.reconnection.value) {
      assert LoopTop(s) == Finish(Draw(s), Failed);
    } else {
      assert LoopTop(s).drawn == Draw(s).drawn && LoopTop(s).delay == Draw(s).delay;
    }
  }

  lemma RetryDrawsOn(s: Client, o: Outage)
    ensures DrawsOn(s, LoopTop(s.(reconnection := Some(o))))
  {
    LoopTopDrawsOn(s.(reconnection := Some(o)));
  }

  lemma StoppedDrawsOn(s: Client, after: After)
    requires !LostAfter(after, s.closing)
    ensures DrawsOn(s, Stopped(s, after))
  {
    if after.AfterError? && !s.closing && s.reconnection.Some? && IsRetryable(after.error) {
      RetryDrawsOn(s, s.reconnection.value.(attempts := s.reconnection.value.attempts + 1));
    }
  }

  lemma {:induction false} StopFromDrawsOn(s: Client, after: After, todo: seq<BucketId>)
    requires !LostAfter(after, s.closing) || StopFrom(s, after, todo).pc.Stopping?
    ensures DrawsOn(s, StopFrom(s, after, todo))
    decreases |todo|
  {
    if todo == [] {
      StoppedIsOff(s, after);
      StopFromEmpty(s, after);
      StoppedDrawsOn(s, after);
    } else if Waits(s.pool, todo[0]) {
      StopFromWaits(s, after, todo);
    } else {
      StopFromSkips(s, after, todo);
      StopFromDrawsOn(s.(pool := Stop(s.pool, todo[0])), after, todo[1..]);
    }
  }

  lemma StepDrawsOn(s: Client, act: Label)
    requires Enabled(s, act) && !act.RunStart? && !Loses(s, act)
    ensures DrawsOn(s, Step(s, act))
  {
    match act
    case Interrupted(failure) =>
      if failure.Raised? {
        StopFromDrawsOn(s, AfterError(failure.error), Keys(s.pool));
      }
    case Left =>
      if !s.pc.ending.Escaped? {
        StopFromDrawsOn(s, AfterLeaving(s.pc.ending, s.closing), Keys(s.pool));
      }
    case StopResumes => StopFromDrawsOn(s, s.pc.after, s.pc.todo);
    case _ => OtherDrawsOn(s, act);
  }

  lemma OtherDrawsOn(s: Client, act: Label)
    requires Enabled(s, act) && !act.RunStart? && !act.Interrupted? && !act.Left? && !act.StopResumes?
    ensures DrawsOn(s, Step(s, act))
  {
  }

  // ---- A flapping server ----

  /** Within a session, every connection that is lost was up for less than thirty seconds minus
      `d`, and the run loop was done with it at most `d` after it went down. */
  ghost predicate ShortLived(s: Client, labels: seq<Label>, d: real)
    requires CanRun(s, labels)
    decreases |labels|
  {
    labels != [] ==>
      && !labels[0].RunStart?
      && (Loses(s, labels[0]) && s.connectedAt.Some? ==> Uptime(s) < 30.0 - d && Winding(s) <= d)
      && ShortLived(Step(s, labels[0]), labels[1..], d)
  }

  lemma ShortLivedDrawsOn(s: Client, act: Label, d: real)
    requires Dated(s) && Enabled(s, act) && !act.RunStart?
    requires Loses(s, act) && s.connectedAt.Some? ==> Uptime(s) < 30.0 - d && Winding(s) <= d
    ensures DrawsOn(s, Step(s, act))
  {
    if Loses(s, act) {
      LostWentDown(s, act);
      assert !Stable(s);
    } else {
      StepDrawsOn(s, act);
    }
  }

  lemma {:induction false} ShortLivedOnlyDraws(s: Client, labels: seq<Label>, d: real)
    requires Dated(s) && CanRun(s, labels) && ShortLived(s, labels, d)
    ensures DrawsOn(s, Run(s, labels))
    decreases |labels|
  {
    if labels != [] {
      ShortLivedDrawsOn(s, labels[0], d);
      StepIsDated(s, labels[0]);
      ShortLivedOnlyDraws(Step(s, labels[0]), labels[1..], d);
    }
  }

  predicate Nondecreasing(delays: seq<real>) {
    forall i, j :: 0 <= i <= j < |delays| ==> delays[i] <= delays[j]
  }

  lemma {:induction false} DelaysAreOrdered(initial: real, i: nat, j: nat)
    requires Delay.Drawn(initial) && i <= j
    ensures Delay.DelayAt(initial, i) <= Delay.DelayAt(initial, j)
  {
    if i < j {
      DelaysAreOrdered(initial, i, j - 1);
      Delay.DelaysNeverDecrease(initial, j - 1);
    }
  }

  lemma PacedIsOrdered(d: Delay.Backoff, drawn: seq<real>)
    requires PacedBy(d, drawn)
    ensures Nondecreasing(drawn)
  {
    forall i, j | 0 <= i <= j < |drawn| ensures drawn[i] <= drawn[j] {
      DelaysAreOrdered(d.initial, i, j);
    }
  }

  /** While every connection lasts under thirty seconds less the time it takes to leave it and to
      stop the supervisors, the backoff is never reset: the server sees one nondecreasing
      sequence of delays, across all the outages. */
  lemma FlappingSlowsDown(timeout: Option<real>, before: seq<Label>, labels: seq<Label>, d: real)
    requires CanRun(Initial(timeout), before) && CanRun(Run(Initial(timeout), before), labels)
    requires ShortLived(Run(Initial(timeout), before), labels, d)
    ensures
      var s := Run(Initial(timeout), before);
      var t := Run(s, labels);
      s.drawn <= t.drawn && Nondecreasing(t.drawn)
  {
    InitiallyTimely(timeout);
    InitiallyGood(timeout);
    RunIsTimely(Initial(timeout), before);
    RunIsDated(Initial(timeout), before);
    var s := Run(Initial(timeout), before);
    ShortLivedOnlyDraws(s, labels, d);
    RunIsTimely(s, labels);
    PacedIsOrdered(Run(s, labels).delay, Run(s, labels).drawn);
  }

  lemma FloorsAreOrdered(a: real, b: real)
    requires a <= b
    ensures a.Floor <= b.Floor
  {
  }

  /** The outage had time for the whole delay. */
  predicate SleepsItAll(s: Client) {
    && s.pc.Sleeping? && s.reconnection.Some? && s.drawn != []
    && (Sleeps.LeftThen(s).None? || Sleeps.LeftThen(s).value >= Sleeps.WholeSeconds(s))
  }

  /** And so do the sleeps: one that its deadline does not cut short is no shorter than any before
      it in such a stretch. */
  lemma SleepsNeverShrink(timeout: Option<real>, before: seq<Label>, labels: seq<Label>, d: real)
    requires CanRun(Initial(timeout), before) && CanRun(Run(Initial(timeout), before), labels)
    requires ShortLived(Run(Initial(timeout), before), labels, d)
    ensures
      var s := Run(Initial(timeout), before);
      var t := Run(s, labels);
      s.pc.Sleeping? && SleepsItAll(t) ==> s.pc.until - s.sleptAt <= t.pc.until - t.sleptAt
  {
    FlappingSlowsDown(timeout, before, labels, d);
    Sleeps.RunSleeps(Initial(timeout), before);
    var s := Run(Initial(timeout), before);
    Sleeps.RunSleeps(s, labels);
    var t := Run(s, labels);
    if s.drawn != [] {
      FloorsAreOrdered(s.drawn[|s.drawn| - 1], t.drawn[|t.drawn| - 1]);
    }
  }

  // ---- A connection that lasted 25 seconds ----

  const LOST := Raised(ConnectionClosed(None))

  /** One outage is over: one delay was drawn, and the second connection reads its socket. */
  lemma Reconnected() returns (s: Client)
    ensures Reached(None, s)
    ensures s.pc.Reading? && s.up && !s.closing && s.timeout.None? && s.reconnection.None?
    ensures s.connectedAt == Some(s.clock) && s.pool == EMPTY_POOL
    ensures s.delay == Delay.Advanced(Delay.Fresh(1.0)) && s.drawn == [1.0]
  {
    s := FirstLoss();
    Reach(None, s, Tick(1.0));
    s := Step(s, Tick(1.0));
    Reach(None, s, Wake);
    s := Step(s, Wake);
    Reach(None, s, HandshakeDone);
    s := Step(s, HandshakeDone);
  }

  lemma FirstLoss() returns (s: Client)
    ensures Reached(None, s)
    ensures s.pc == Sleeping(1.0) && !s.closing && s.timeout.None? && s.clock == 0.0
    ensures s.reconnection.Some? && s.reconnection.value.deadline.None?
    ensures s.pool == EMPTY_POOL && s.delay == Delay.Advanced(Delay.Fresh(1.0)) && s.drawn == [1.0]
  {
    s := FirstDrawn();
    Reach(None, s, SocketDown);
    s := Step(s, SocketDown);
    Reach(None, s, ReadingEnds(LOST));
    s := Step(s, ReadingEnds(LOST));
    assert Keys(s.pool) == [];
    OutageDraws(s);
    Reach(None, s, Left);
    s := Step(s, Left);
    assert StopAll(EMPTY_POOL) == EMPTY_POOL;
  }

  /** A first session whose backoff begins at one second. */
  lemma FirstDrawn() returns (s: Client)
    ensures Reached(None, s)
    ensures s.pc.Reading? && s.up && !s.closing && s.timeout.None? && s.clock == 0.0 && s.reconnection.None?
    ensures s.pool == EMPTY_POOL && s.delay == Delay.Fresh(1.0) && s.drawn == [] && s.connectedAt == Some(0.0)
  {
    s := Initial(None);
    assert CanRun(s, []) && AllHandled([]) && Run(s, []) == s;
    Reach(None, s, CallStart);
    s := Step(s, CallStart);
    Reach(None, s, RunStart(1.0));
    s := Step(s, RunStart(1.0));
    assert s.pool == EMPTY_POOL;
    Reach(None, s, HandshakeDone);
    s := Step(s, HandshakeDone);
  }

  /** The connection was up for 25 seconds, and its supervisor takes six more to stop. */
  lemma SlowStop() returns (s: Client)
    ensures Reached(None, s) && s.pc.Stopping? && s.pc.after == AfterError(LOST.error) && s.pc.todo == []
    ensures s.connectedAt.Some? && Uptime(s) == 25.0 && Winding(s) == 6.0 && !s.closing
    ensures s.drawn == [1.0] && s.delay.initial == 1.0
  {
    s := LostAt25();
    OneKey();
    Reach(None, s, Left);
    s := Step(s, Left);
    Reach(None, s, Tick(6.0));
    s := Step(s, Tick(6.0));
  }

  lemma LostAt25() returns (s: Client)
    ensures Reached(None, s) && s.pc == Leaving(LOST) && s.pool == Added(EMPTY_POOL) && !s.closing && !s.up
    ensures s.connectedAt.Some? && Uptime(s) == 25.0 && Winding(s) == 0.0
    ensures s.drawn == [1.0] && s.delay.initial == 1.0
  {
    s := Reconnected();
    Reach(None, s, SubscribeOpensBucket);
    s := Step(s, SubscribeOpensBucket);
    Reach(None, s, Tick(25.0));
    s := Step(s, Tick(25.0));
    Reach(None, s, SocketDown);
    s := Step(s, SocketDown);
    Reach(None, s, ReadingEnds(LOST));
    s := Step(s, ReadingEnds(LOST));
  }

  /** The backoff is reset all the same: the next delay is the first again. */
  lemma SlowStopResets() returns (s: Client)
    ensures Reached(None, s) && Loses(s, StopResumes)
    ensures s.connectedAt.Some? && Uptime(s) == 25.0 && s.drawn == [1.0] && Step(s, StopResumes).drawn == [1.0]
    ensures Reached(None, Step(s, StopResumes))
  {
    s := SlowStop();
    StoppedIsOff(s, s.pc.after);
    assert Loses(s, StopResumes);
    LossDraws(s, s.pc.after, s.pc.todo);
    Reach(None, s, StopResumes);
  }
}

/** Which sessions leave an outage behind, and what becomes of the sessions after them. */
module LeftoverOutage {
  import opened Options
  import opened Lifecycle
  import opened CloseWins
  import opened OutageDeadline

  // ---- Which sessions leave one ----

  /** A connection that came up is found lost, or the server going away, by a run loop its owner
      has not closed; a going-away is not checked against a close that landed meanwhile. */
  predicate LostAfter(after: After, closing: bool) {
    Begins(after) && !(after.AfterError? && closing)
  }

  predicate Loses(s: Client, act: Label) {
    && Enabled(s, act)
    && match act
       case Left =>
         && !s.pc.ending.Escaped? && LostAfter(AfterLeaving(s.pc.ending, s.closing), s.closing)
         && !LeftStep(s).pc.Stopping?
       case StopResumes => LostAfter(s.pc.after, s.closing) && !StopFrom(s, s.pc.after, s.pc.todo).pc.Stopping?
       case _ => false
  }

  lemma LoopTopKeepsOutage(s: Client)
    ensures LoopTop(s).reconnection == s.reconnection && !LoopTop(s).pc.Stopping?
  {
  }

  lemma RetryKeepsOutage(s: Client, o: Outage)
    ensures LoopTop(s.(reconnection := Some(o))).reconnection.Some?
    ensures !LoopTop(s.(reconnection := Some(o))).pc.Stopping?
  {
    LoopTopKeepsOutage(s.(reconnection := Some(o)));
  }

  lemma OutageIsLeft(s: Client)
    ensures LoopTop(BeginOutage(s)).reconnection.Some? && !LoopTop(BeginOutage(s)).pc.Stopping?
  {
    LoopTopKeepsOutage(BeginOutage(s));
  }

  lemma StoppedLost(s: Client, after: After)
    requires LostAfter(after, s.closing)
    ensures !Stopped(s, after).pc.Stopping? && Stopped(s, after).reconnection.Some?
  {
    OutageIsLeft(s);
    assert Stopped(s, after) == LoopTop(BeginOutage(s));
  }

  lemma StoppedRetries(s: Client, error: Error)
    requires !s.closing && !IsLostConnection(error) && s.reconnection.Some?
    ensures !Stopped(s, AfterError(error)).pc.Stopping? && Stopped(s, AfterError(error)).reconnection.Some?
  {
    var o := s.reconnection.value;
    RetryKeepsOutage(s, o.(attempts := o.attempts + 1));
  }

  lemma StoppedLoses(s: Client, after: After)
    ensures !Stopped(s, after).pc.Stopping?
    ensures Stopped(s, after).reconnection.Some? <==> LostAfter(after, s.closing) || s.reconnection.Some?
  {
    if LostAfter(after, s.closing) {
      StoppedLost(s, after);
    } else if after.AfterError? && !s.closing && s.reconnection.Some? {
      StoppedRetries(s, after.error);
    }
  }

  lemma {:induction false} StopFromLoses(s: Client, after: After, todo: seq<BucketId>)
    ensures
      var t := StopFrom(s, after, todo);
      t.reconnection.Some? <==> (LostAfter(after, s.closing) && !t.pc.Stopping?) || s.reconnection.Some?
    decreases |todo|
  {
    if todo == [] {
      StoppedLoses(s, after);
    } else {
      StopFromLoses(s.(pool := Stop(s.pool, todo[0])), after, todo[1..]);
    }
  }

  lemma RunStartLoses(s: Client, initial: real)
    requires s.pc.Scheduled?
    ensures RunStartStep(s, initial).reconnection == s.reconnection
  {
    LoopTopKeepsOutage(SessionBegins(s, initial));
  }

  lemma LeftLoses(s: Client)
    requires s.pc.Leaving? && Enabled(s, Left)
    ensures LeftStep(s).reconnection.Some? <==> Loses(s, Left) || s.reconnection.Some?
  {
    if !s.pc.ending.Escaped? {
      StopFromLoses(s, AfterLeaving(s.pc.ending, s.closing), Keys(s.pool));
    }
  }

  lemma InterruptedLoses(s: Client, failure: Ending)
    requires Enabled(s, Interrupted(failure))
    ensures InterruptedStep(s, failure).reconnection.Some? <==> s.reconnection.Some?
  {
    if failure.Raised? {
      StopFromLoses(s, AfterError(failure.error), Keys(s.pool));
    }
  }

  lemma StepLoses(s: Client, act: Label)
    requires Enabled(s, act)
    ensures Step(s, act).reconnection.Some? <==> Loses(s, act) || (s.reconnection.Some? && !act.HandshakeDone?)
  {
    match act
    case RunStart(initial) => RunStartLoses(s, initial);
    case Interrupted(failure) => InterruptedLoses(s, failure);
    case Left => LeftLoses(s);
    case StopResumes => StopFromLoses(s, s.pc.after, s.pc.todo);
    case _ =>
  }

  /** A loss, and no socket of the client's since. */
  ghost predicate LostSince(s: Client, labels: seq<Label>)
    requires CanRun(s, labels)
    decreases |labels|
  {
    labels != [] &&
    (LostSince(Step(s, labels[0]), labels[1..]) || (Loses(s, labels[0]) && NoSocket(labels[1..])))
  }

  predicate NoSocket(labels: seq<Label>) {
    forall i :: 0 <= i < |labels| ==> !labels[i].HandshakeDone?
  }

  lemma {:induction false} OutageIsALoss(s: Client, labels: seq<Label>)
    requires CanRun(s, labels)
    ensures Run(s, labels).reconnection.Some?
       <==> LostSince(s, labels) || (s.reconnection.Some? && NoSocket(labels))
    decreases |labels|
  {
    if labels != [] {
      StepLoses(s, labels[0]);
      OutageIsALoss(Step(s, labels[0]), labels[1..]);
      assert NoSocket(labels) <==> !labels[0].HandshakeDone? && NoSocket(labels[1..]) by {
        assert labels == [labels[0]] + labels[1..];
      }
    }
  }

  /** Whatever the sessions before, a `start()` that no close landed on dials at once if and only
      if a socket came up since the last loss, or nothing was ever lost. */
  lemma DialsAtOnceIff(timeout: Option<real>, labels: seq<Label>, initial: real)
    requires CanRun(Initial(timeout), labels)
    requires Enabled(Run(Initial(timeout), labels), RunStart(initial)) && !Run(Initial(timeout), labels).landed
    ensures
      var s := Run(Initial(timeout), labels);
      var t := Step(s, RunStart(initial));
      t.pc.Handshake? && t.attempts == s.attempts + 1 <==> !LostSince(Initial(timeout), labels)
  {
    OutageIsALoss(Initial(timeout), labels);
    SessionAfterClose(timeout, labels, initial);
  }

  // ---- After the deadline ----

  /** No session, or one that has not begun to dial, under an outage whose deadline has passed. */
  predicate Doomed(s: Client) {
    && s.reconnection.Some? && Expired(s, s.reconnection.value)
    && (s.pc.NotStarted? || s.pc.Done? || s.pc.Scheduled? || s.pc.Sleeping?)
  }

  lemma StaysDoomed(s: Client, act: Label)
    requires Doomed(s) && Enabled(s, act)
    ensures Doomed(Step(s, act)) && Step(s, act).attempts == s.attempts
  {
    if act.RunStart? {
      if s.pc.epoch == s.epoch {
        DoomedSession(s, act.initial);
      }
    } else if act.Wake? || act.Interrupted? {
      assert Step(s, act).pc.Done? && Step(s, act).reconnection == s.reconnection && Step(s, act).clock == s.clock;
    } else {
      DoomedBeside(s, act);
    }
  }

  lemma DoomedBeside(s: Client, act: Label)
    requires Doomed(s) && Enabled(s, act) && !act.RunStart? && !act.Wake? && !act.Interrupted?
    ensures Doomed(Step(s, act)) && Step(s, act).attempts == s.attempts
  {
    var t := Step(s, act);
    assert t.reconnection == s.reconnection && t.clock >= s.clock && t.attempts == s.attempts;
    assert act.CallStart? || t.pc == s.pc;
    StillDoomed(s, t);
  }

  lemma StillDoomed(s: Client, t: Client)
    requires Doomed(s) && t.reconnection == s.reconnection && t.clock >= s.clock
    requires t.pc == s.pc || t.pc.Scheduled?
    ensures Doomed(t)
  {
  }

  lemma DoomedSession(s: Client, initial: real)
    requires Doomed(s) && s.pc.Scheduled? && s.pc.epoch == s.epoch
    ensures
      var t := RunStartStep(s, initial);
      t.pc == Done(Failed) && t.reconnection == s.reconnection && t.clock == s.clock && t.attempts == s.attempts
  {
    var t := SessionBegins(s, initial);
    assert Expired(t, t.reconnection.value);
    assert LoopTop(t) == Finish(Draw(t), Failed);
  }

  lemma {:induction false} DoomedForGood(s: Client, labels: seq<Label>)
    requires Doomed(s) && CanRun(s, labels)
    ensures Doomed(Run(s, labels)) && Run(s, labels).attempts == s.attempts
    decreases |labels|
  {
    if labels != [] {
      StaysDoomed(s, labels[0]);
      DoomedForGood(Step(s, labels[0]), labels[1..]);
    }
  }

  /** The run loop wakes up to find the deadline passed. */
  predicate DeadlineHits(s: Client) {
    && Enabled(s, Wake) && !s.closing
    && s.reconnection.Some? && Expired(s, s.reconnection.value)
  }

  /** Once a session was ended by its deadline no later `start()` ever makes an attempt, however
      often it is called and whatever else happens. */
  lemma NoAttemptAfterTheDeadline(timeout: Option<real>, before: seq<Label>, after: seq<Label>)
    requires CanRun(Initial(timeout), before)
    requires DeadlineHits(Run(Initial(timeout), before))
    requires CanRun(Step(Run(Initial(timeout), before), Wake), after)
    ensures
      var s := Run(Initial(timeout), before);
      Step(s, Wake).pc == Done(Failed) && Run(Step(s, Wake), after).attempts == s.attempts
  {
    var s := Run(Initial(timeout), before);
    assert Step(s, Wake) == Finish(s, Failed);
    DoomedForGood(Step(s, Wake), after);
  }
}

/** Once `close()` was called the client begins no further connection attempt, and `start()`
    returns having told its owner exactly once. */
module CloseWins {
  import opened Options
  import opened Lifecycle

  // ---- What every state keeps ----

  predicate Active(pc: RunPc) {
    !pc.NotStarted? && !pc.Scheduled? && !pc.Done?
  }

  /** A close that landed is visible to the run loop. */
  predicate Heeded(s: Client) {
    && s.closing == s.closeRequested
    && (s.landed ==> !s.pc.NotStarted?)
    && (s.landed && Active(s.pc) ==> s.closing)
    && (s.pc.Scheduled? ==> s.pc.epoch <= s.epoch && (s.landed <==> s.pc.epoch < s.epoch))
    && (s.pc.Sleeping? ==> s.reconnection.Some?)
  }

  /** "disconnected" is emitted by the step that returns, and by no other. */
  predicate ToldOnce(s: Client) {
    s.disconnected == (if s.pc.Done? && s.pc.result.Returned? then 1 else 0)
  }

  /** With a deadline in the future of every outage, a close is never answered with an error
      of the run loop's own. */
  predicate EndsQuietly(s: Client) {
    s.timeout.None? || s.timeout.value > 0.0 ==> !(s.landed && s.pc.Done? && s.pc.result.Failed?)
  }

  /** No exception that `__run` does not handle. */
  predicate Sound(pc: RunPc) {
    (pc.Done? ==> !pc.result.Crashed?) && (pc.Leaving? ==> !pc.ending.Escaped?)
  }

  predicate Good(s: Client) {
    Heeded(s) && ToldOnce(s) && EndsQuietly(s)
  }

  /** What the run loop keeps while it is between two suspension points. */
  predicate Midway(s: Client) {
    s.closing == s.closeRequested && (s.landed ==> s.closing) && s.disconnected == 0
  }

  /** A step of the run loop that keeps the close, and dials only if there was none. */
  predicate Fair(s: Client, t: Client) {
    && Good(t) && Sound(t.pc) && t.timeout == s.timeout && t.landed == s.landed
    && (s.landed ==> t.attempts == s.attempts)
  }

  lemma LoopTopIsFair(s: Client)
    requires Midway(s) && (s.landed ==> s.reconnection.Some?)
    requires s.landed && (s.timeout.None? || s.timeout.value > 0.0) ==> !Expired(s, s.reconnection.value)
    ensures Fair(s, LoopTop(s))
  {
  }

  lemma OutageIsFair(s: Client)
    requires Midway(s)
    ensures Fair(s, LoopTop(BeginOutage(s)))
  {
    LoopTopIsFair(BeginOutage(s));
  }

  lemma DisconnectIsFair(s: Client)
    requires Midway(s)
    ensures Fair(s, Disconnect(s))
  {
  }

  lemma FailureIsFair(s: Client)
    requires Midway(s) && !s.landed
    ensures Fair(s, Finish(s, Failed))
  {
  }

  lemma RetryIsFair(s: Client, o: Outage)
    requires Midway(s) && !s.landed
    ensures Fair(s, LoopTop(s.(reconnection := Some(o))))
  {
    LoopTopIsFair(s.(reconnection := Some(o)));
  }

  lemma StoppedIsFair(s: Client, after: After)
    requires Midway(s)
    ensures Fair(s, Stopped(s, after))
  {
    if after.AfterEnd? || (after.AfterError? && s.closing) {
      DisconnectIsFair(s);
    } else if after.AfterGoingAway? || IsLostConnection(after.error) {
      OutageIsFair(s);
    } else if s.reconnection.Some? && IsRetryable(after.error) {
      RetryIsFair(s, s.reconnection.value.(attempts := s.reconnection.value.attempts + 1));
    } else {
      FailureIsFair(s);
    }
  }

  lemma WaitingIsFair(s: Client, after: After, todo: seq<BucketId>)
    requires Midway(s)
    ensures Fair(s, s.(pc := Stopping(after, todo)))
  {
  }

  lemma {:induction false} StopFromIsFair(s: Client, after: After, todo: seq<BucketId>)
    requires Midway(s)
    ensures Fair(s, StopFrom(s, after, todo))
    decreases |todo|
  {
    if todo == [] {
      StoppedIsFair(s, after);
    } else {
      var u := s.(pool := Stop(s.pool, todo[0]));
      assert Midway(u);
      WaitingIsFair(u, after, todo[1..]);
      StopFromIsFair(u, after, todo[1..]);
    }
  }

  lemma RunStartIsFair(s: Client, initial: real)
    requires Good(s) && s.pc.Scheduled?
    ensures Fair(s, RunStartStep(s, initial))
  {
    if s.pc.epoch == s.epoch {
      LoopTopIsFair(SessionBegins(s, initial));
    }
  }

  lemma WakeIsFair(s: Client)
    requires Good(s) && s.pc.Sleeping?
    ensures Fair(s, WakeStep(s))
  {
    if s.closing {
      DisconnectIsFair(s);
    } else if s.reconnection.None? || Expired(s, s.reconnection.value) {
      FailureIsFair(s);
    }
  }

  lemma LeftIsFair(s: Client)
    requires Good(s) && s.pc.Leaving? && !s.pc.ending.Escaped?
    ensures Fair(s, LeftStep(s))
  {
    var after := AfterLeaving(s.pc.ending, s.closing);
    StopFromIsFair(s, after, Keys(s.pool));
  }

  lemma InterruptedIsFair(s: Client, failure: Ending)
    requires Good(s) && s.pc.Handshake? && failure.Raised?
    ensures Fair(s, InterruptedStep(s, failure))
  {
    StopFromIsFair(s, AfterError(failure.error), Keys(s.pool));
  }

  /** Every outcome but an exception `__run` does not handle. */
  predicate Handled(act: Label) {
    match act
    case Interrupted(failure) => !failure.Escaped?
    case ReadingEnds(ending) => !ending.Escaped?
    case _ => true
  }

  predicate IsRunStep(act: Label) {
    || act.RunStart? || act.Wake? || act.Interrupted? || act.HandshakeDone?
    || act.BucketsWaited? || act.ReadingEnds? || act.Left? || act.StopResumes?
  }

  lemma RunStepIsFair(s: Client, act: Label)
    requires Good(s) && Sound(s.pc) && Enabled(s, act) && Handled(act) && IsRunStep(act)
    ensures Fair(s, Step(s, act))
  {
    match act
    case RunStart(initial) => RunStartIsFair(s, initial);
    case Wake => WakeIsFair(s);
    case Interrupted(failure) => InterruptedIsFair(s, failure);
    case Left => LeftIsFair(s);
    case StopResumes => StopFromIsFair(s, s.pc.after, s.pc.todo);
    case _ =>
  }

  /** A step that an exception of the other kind takes. */
  predicate Crashes(s: Client, act: Label) {
    || (act.Interrupted? && act.failure.Escaped?) || (act.ReadingEnds? && act.ending.Escaped?)
    || (act.Left? && s.pc.Leaving? && s.pc.ending.Escaped?)
  }

  lemma CrashIsGood(s: Client, act: Label)
    requires Good(s) && Enabled(s, act) && Crashes(s, act)
    ensures Good(Step(s, act)) && Step(s, act).timeout == s.timeout
    ensures Step(s, act).landed == s.landed && Step(s, act).attempts == s.attempts
  {
  }

  lemma RunStepIsGood(s: Client, act: Label)
    requires Good(s) && Enabled(s, act) && IsRunStep(act)
    ensures Good(Step(s, act)) && Step(s, act).timeout == s.timeout
    ensures Step(s, act).landed == s.landed && (s.landed ==> Step(s, act).attempts == s.attempts)
  {
    if Crashes(s, act) {
      CrashIsGood(s, act);
    } else {
      RunStepIsFair(s, act);
    }
  }

  lemma StepIsGood(s: Client, act: Label)
    requires Good(s) && Enabled(s, act)
    ensures Good(Step(s, act)) && Step(s, act).timeout == s.timeout
  {
    if IsRunStep(act) {
      RunStepIsGood(s, act);
    }
  }

  lemma {:induction false} RunIsGood(s: Client, labels: seq<Label>)
    requires Good(s) && CanRun(s, labels)
    ensures Good(Run(s, labels)) && Run(s, labels).timeout == s.timeout
    decreases |labels|
  {
    if labels != [] {
      StepIsGood(s, labels[0]);
      RunIsGood(Step(s, labels[0]), labels[1..]);
    }
  }

  lemma InitiallyGood(timeout: Option<real>)
    ensures Good(Initial(timeout))
  {
  }

  // ---- No attempt after the close ----

  predicate NoStart(labels: seq<Label>) {
    forall i :: 0 <= i < |labels| ==> !labels[i].CallStart?
  }

  /** The owner closed, or no `start()` is running. */
  predicate Over(s: Client) {
    s.landed || s.pc.NotStarted? || s.pc.Done?
  }

  lemma StepBeginsNoAttempt(s: Client, act: Label)
    requires Good(s) && Over(s) && Enabled(s, act) && !act.CallStart?
    ensures Over(Step(s, act)) && Step(s, act).attempts == s.attempts
  {
    if IsRunStep(act) {
      RunStepIsGood(s, act);
    }
  }

  lemma {:induction false} RunBeginsNoAttempt(s: Client, labels: seq<Label>)
    requires Good(s) && Over(s) && CanRun(s, labels) && NoStart(labels)
    ensures Run(s, labels).attempts == s.attempts
    decreases |labels|
  {
    if labels != [] {
      StepBeginsNoAttempt(s, labels[0]);
      StepIsGood(s, labels[0]);
      RunBeginsNoAttempt(Step(s, labels[0]), labels[1..]);
    }
  }

  /** Wherever the client was when `close()` was called, it begins no connection attempt until
      `start()` is called again; in particular a `start()` called before the close but first
      run after it never connects. */
  lemma NoAttemptAfterClose(timeout: Option<real>, before: seq<Label>, after: seq<Label>)
    requires CanRun(Initial(timeout), before)
    requires CanRun(Step(Run(Initial(timeout), before), CallClose), after) && NoStart(after)
    ensures
      var s := Run(Initial(timeout), before);
      Run(Step(s, CallClose), after).attempts == s.attempts
  {
    InitiallyGood(timeout);
    RunIsGood(Initial(timeout), before);
    var s := Run(Initial(timeout), before);
    StepIsGood(s, CallClose);
    RunBeginsNoAttempt(Step(s, CallClose), after);
  }

  // ---- One "disconnected" ----

  predicate AllHandled(labels: seq<Label>) {
    forall i :: 0 <= i < |labels| ==> Handled(labels[i])
  }

  lemma StepIsSound(s: Client, act: Label)
    requires Good(s) && Sound(s.pc) && Enabled(s, act) && Handled(act)
    ensures Sound(Step(s, act).pc)
  {
    if IsRunStep(act) {
      RunStepIsFair(s, act);
    }
  }

  lemma {:induction false} RunIsSound(s: Client, labels: seq<Label>)
    requires Good(s) && Sound(s.pc) && CanRun(s, labels) && AllHandled(labels)
    ensures Sound(Run(s, labels).pc)
    decreases |labels|
  {
    if labels != [] {
      StepIsGood(s, labels[0]);
      StepIsSound(s, labels[0]);
      RunIsSound(Step(s, labels[0]), labels[1..]);
    }
  }

  /** A `start()` that was closed ends by returning, with one "disconnected" emitted. */
  predicate ClosedQuietly(s: Client) {
    s.landed && s.pc.Done? ==> s.pc.result.Returned? && s.disconnected == 1
  }

  lemma CloseIsQuiet(timeout: Option<real>, labels: seq<Label>)
    requires timeout.None? || timeout.value > 0.0
    requires CanRun(Initial(timeout), labels) && AllHandled(labels)
    ensures ClosedQuietly(Run(Initial(timeout), labels))
  {
    InitiallyGood(timeout);
    RunIsGood(Initial(timeout), labels);
    RunIsSound(Initial(timeout), labels);
  }

  // ---- The close is answered ----

  /** How many steps the task running `start()` can still take once it was closed. */
  function Rank(s: Client): nat {
    match s.pc
    case NotStarted => 0
    case Done(_) => 0
    case Scheduled(_) => 1
    case Sleeping(_) => 1
    case Stopping(_, todo) => 2 + |todo|
    case Leaving(_) => 3 + |Keys(s.pool)|
    case Reading => 4 + |Keys(s.pool)|
    case HangingUp => 4 + |Keys(s.pool)|
    case AwaitBuckets => 5 + |Keys(s.pool)|
    case Handshake => 5 + |Keys(s.pool)|
  }

  lemma {:induction false} FewerKeys(
      table: map<BucketId, Option<TaskId>>, less: map<BucketId, Option<TaskId>>, next: nat)
    requires less.Keys <= table.Keys
    ensures |KeysFrom(less, next)| <= |KeysFrom(table, next)|
  {
    if next > 0 {
      FewerKeys(table, less, next - 1);
    }
  }

  lemma {:induction false} StopFromEnds(s: Client, after: After, todo: seq<BucketId>)
    requires s.closing
    ensures Rank(StopFrom(s, after, todo)) <= 1 + |todo|
    decreases |todo|
  {
    if todo != [] {
      StopFromEnds(s.(pool := Stop(s.pool, todo[0])), after, todo[1..]);
    } else {
      StoppedEnds(s, after);
    }
  }

  lemma StoppedEnds(s: Client, after: After)
    requires s.closing
    ensures Rank(Stopped(s, after)) <= 1
  {
    if after.AfterGoingAway? {
      OutagePauses(BeginOutage(s));
    }
  }

  lemma OutagePauses(s: Client)
    requires s.reconnection.Some?
    ensures LoopTop(s).pc.Sleeping? || LoopTop(s).pc.Done?
  {
  }

  lemma LeftEnds(s: Client)
    requires s.pc.Leaving? && s.closing
    ensures Rank(LeftStep(s)) < Rank(s)
  {
    if !s.pc.ending.Escaped? {
      var after := AfterLeaving(s.pc.ending, s.closing);
      StopFromEnds(s, after, Keys(s.pool));
    }
  }

  lemma InterruptedEnds(s: Client, failure: Ending)
    requires Enabled(s, Interrupted(failure)) && s.closing
    ensures Rank(InterruptedStep(s, failure)) < Rank(s)
  {
    if failure.Raised? {
      StopFromEnds(s, AfterError(failure.error), Keys(s.pool));
    }
  }

  lemma RunStepEnds(s: Client, act: Label)
    requires Good(s) && s.landed && Enabled(s, act) && IsRunStep(act)
    ensures Rank(Step(s, act)) < Rank(s)
  {
    match act
    case Interrupted(failure) => InterruptedEnds(s, failure);
    case Left => LeftEnds(s);
    case StopResumes => StopFromEnds(s, s.pc.after, s.pc.todo);
    case _ =>
  }

  lemma OtherStepsHoldNothingUp(s: Client, act: Label)
    requires Good(s) && s.landed && Enabled(s, act) && !IsRunStep(act) && !act.CallStart?
    ensures Rank(Step(s, act)) <= Rank(s)
  {
    var t := Step(s, act);
    assert t.pc == s.pc;
    if !act.SubscribeOpensBucket? {
      assert t.pool.nextBucket == s.pool.nextBucket && t.pool.table.Keys <= s.pool.table.Keys;
      FewerKeys(s.pool.table, t.pool.table, s.pool.nextBucket);
    }
  }

  function RunSteps(labels: seq<Label>): nat {
    if labels == [] then 0 else RunSteps(labels[1..]) + if IsRunStep(labels[0]) then 1 else 0
  }

  /** After the close the run loop takes a bounded number of steps, whatever else happens. */
  lemma {:induction false} RunEnds(s: Client, labels: seq<Label>)
    requires Good(s) && s.landed && CanRun(s, labels) && NoStart(labels)
    ensures RunSteps(labels) + Rank(Run(s, labels)) <= Rank(s)
    decreases |labels|
  {
    if labels != [] {
      var act := labels[0];
      StepIsGood(s, act);
      if IsRunStep(act) {
        RunStepEnds(s, act);
        RunStepIsGood(s, act);
      } else {
        OtherStepsHoldNothingUp(s, act);
      }
      RunEnds(Step(s, act), labels[1..]);
    }
  }

  /** It is never stuck either: it can go on, or waits only for its dying socket. */
  lemma NeverStuck(s: Client)
    requires Good(s) && s.landed && !s.pc.NotStarted? && !s.pc.Done?
    ensures (exists act :: IsRunStep(act) && Enabled(s, act)) || (s.pc.Leaving? && Enabled(s, SocketDown))
  {
    var act :=
      match s.pc
      case Scheduled(_) => RunStart(1.0)
      case Sleeping(_) => Wake
      case Handshake => HandshakeDone
      case AwaitBuckets => BucketsWaited
      case Leaving(_) => Left
      case Stopping(_, _) => StopResumes
      case _ => ReadingEnds(Ended(None));
    assert IsRunStep(act);
    assert Enabled(s, act) || (s.pc.Leaving? && s.up);
  }

  /** A `close()` on a running `start()` makes it return after finitely many steps. */
  lemma CloseIsAnswered(timeout: Option<real>, before: seq<Label>, after: seq<Label>)
    requires CanRun(Initial(timeout), before)
    requires !Over(Run(Initial(timeout), before))
    requires CanRun(Step(Run(Initial(timeout), before), CallClose), after) && NoStart(after)
    ensures
      var s := Run(Initial(timeout), before);
      var t := Run(Step(s, CallClose), after);
      && RunSteps(after) <= Rank(s)
      && (t.pc.Done? || (exists act :: IsRunStep(act) && Enabled(t, act))
          || (t.pc.Leaving? && Enabled(t, SocketDown)))
  {
    InitiallyGood(timeout);
    RunIsGood(Initial(timeout), before);
    var s := Run(Initial(timeout), before);
    var c := Step(s, CallClose);
    StepIsGood(s, CallClose);
    RunEnds(c, after);
    RunStaysLanded(c, after);
    var t := Run(c, after);
    if !t.pc.Done? {
      NeverStuck(t);
    }
  }

  lemma StepStaysLanded(s: Client, act: Label)
    requires Good(s) && s.landed && Enabled(s, act) && !act.CallStart?
    ensures Step(s, act).landed
  {
    if IsRunStep(act) {
      RunStepIsGood(s, act);
    }
  }

  lemma {:induction false} RunStaysLanded(s: Client, labels: seq<Label>)
    requires Good(s) && s.landed && CanRun(s, labels) && NoStart(labels)
    ensures Run(s, labels).landed && Good(Run(s, labels))
    decreases |labels|
  {
    if labels != [] {
      StepIsGood(s, labels[0]);
      StepStaysLanded(s, labels[0]);
      RunStaysLanded(Step(s, labels[0]), labels[1..]);
    }
  }

  // ---- A start() after the close ----

  /** A `start()` no close landed on dials at once exactly when no outage is left over; a
      left-over outage whose deadline has passed ends it without an attempt. */
  lemma SessionAfterClose(timeout: Option<real>, labels: seq<Label>, initial: real)
    requires CanRun(Initial(timeout), labels)
    requires Enabled(Run(Initial(timeout), labels), RunStart(initial))
    requires !Run(Initial(timeout), labels).landed
    ensures
      var s := Run(Initial(timeout), labels);
      var t := Step(s, RunStart(initial));
      && (t.pc.Handshake? && t.attempts == s.attempts + 1 <==> s.reconnection.None?)
      && (t.pc == Done(Failed) <==> s.reconnection.Some? && Expired(s, s.reconnection.value))
      && (t.pc.Sleeping? <==> s.reconnection.Some? && !Expired(s, s.reconnection.value))
  {
    InitiallyGood(timeout);
    RunIsGood(Initial(timeout), labels);
  }
}

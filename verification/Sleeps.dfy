/** What the backoff draws is what the run loop sleeps. */
module Sleeps {
  import opened Options
  import opened Lifecycle
  import opened CloseWins
  import opened OutageDeadline
  import Delay

  /** The whole seconds of the delay drawn last. */
  function WholeSeconds(s: Client): real
    requires s.drawn != []
  {
    s.drawn[|s.drawn| - 1].Floor as real
  }

  /** What the outage had left when the sleep began. */
  function LeftThen(s: Client): Option<real>
    requires s.reconnection.Some?
  {
    if s.reconnection.value.deadline.None? then None
    else Some(s.reconnection.value.deadline.value - s.sleptAt)
  }

  /** The sleep is as long as the delay drawn for it, or as what was left, if that was shorter. */
  predicate SleepsAsDrawn(s: Client) {
    s.pc.Sleeping? ==>
      && s.reconnection.Some? && s.drawn != [] && s.sleptAt <= s.clock
      && s.pc.until - s.sleptAt ==
           if LeftThen(s).Some? && LeftThen(s).value < WholeSeconds(s) then LeftThen(s).value else WholeSeconds(s)
  }

  lemma LoopTopSleeps(s: Client)
    ensures SleepsAsDrawn(LoopTop(s))
  {
    if s.reconnection.None? {
      assert LoopTop(s) == Attempt(s);
    } else if Expired(s, s.reconnection.value) {
      assert LoopTop(s) == Finish(Draw(s), Failed);
    } else {
      var delay := Delay.Peek(s.delay);
      var t := LoopTop(s);
      assert t.drawn == s.drawn + [delay] && WholeSeconds(t) == delay.Floor as real;
      assert t.pc == Sleeping(SleepUntil(s, s.reconnection.value, delay)) && t.sleptAt == s.clock;
    }
  }

  lemma OutageSleeps(s: Client)
    ensures SleepsAsDrawn(LoopTop(BeginOutage(s)))
  {
    LoopTopSleeps(BeginOutage(s));
  }

  lemma RetrySleeps(s: Client, o: Outage)
    ensures SleepsAsDrawn(LoopTop(s.(reconnection := Some(o))))
  {
    LoopTopSleeps(s.(reconnection := Some(o)));
  }

  lemma StoppedSleeps(s: Client, after: After)
    ensures SleepsAsDrawn(Stopped(s, after))
  {
    if after.AfterGoingAway? || (after.AfterError? && !s.closing && IsLostConnection(after.error)) {
      OutageSleeps(s);
    } else if after.AfterError? && !s.closing && s.reconnection.Some? && IsRetryable(after.error) {
      RetrySleeps(s, s.reconnection.value.(attempts := s.reconnection.value.attempts + 1));
    }
  }

  lemma {:induction false} StopFromSleeps(s: Client, after: After, todo: seq<BucketId>)
    ensures SleepsAsDrawn(StopFrom(s, after, todo))
    decreases |todo|
  {
    if todo == [] {
      StoppedSleeps(s, after);
    } else {
      StopFromSleeps(s.(pool := Stop(s.pool, todo[0])), after, todo[1..]);
    }
  }

  lemma LossSleeps(s: Client, act: Label)
    requires Enabled(s, act) && (act.Interrupted? || act.Left? || act.StopResumes?)
    ensures SleepsAsDrawn(Step(s, act))
  {
    match act
    case Interrupted(failure) =>
      if failure.Raised? {
        StopFromSleeps(s, AfterError(failure.error), Keys(s.pool));
      }
    case Left =>
      if !s.pc.ending.Escaped? {
        StopFromSleeps(s, AfterLeaving(s.pc.ending, s.closing), Keys(s.pool));
      }
    case StopResumes => StopFromSleeps(s, s.pc.after, s.pc.todo);
  }

  lemma RunStartSleeps(s: Client, initial: real)
    requires s.pc.Scheduled?
    ensures SleepsAsDrawn(RunStartStep(s, initial))
  {
    LoopTopSleeps(SessionBegins(s, initial));
  }

  lemma WakeSleepsNot(s: Client)
    ensures !WakeStep(s).pc.Sleeping?
  {
  }

  lemma OtherSleeps(s: Client, act: Label)
    requires SleepsAsDrawn(s) && Enabled(s, act)
    requires !act.RunStart? && !act.Wake? && !act.Interrupted? && !act.Left? && !act.StopResumes?
    ensures SleepsAsDrawn(Step(s, act))
  {
    var t := Step(s, act);
    assert t.pc.Sleeping? ==>
      t.pc == s.pc && t.reconnection == s.reconnection && t.drawn == s.drawn && t.sleptAt == s.sleptAt
      && t.clock >= s.clock;
  }

  lemma StepSleeps(s: Client, act: Label)
    requires SleepsAsDrawn(s) && Enabled(s, act)
    ensures SleepsAsDrawn(Step(s, act))
  {
    match act
    case RunStart(initial) => RunStartSleeps(s, initial);
    case Wake => WakeSleepsNot(s);
    case Interrupted(_) => LossSleeps(s, act);
    case Left => LossSleeps(s, act);
    case StopResumes => LossSleeps(s, act);
    case _ => OtherSleeps(s, act);
  }

  lemma {:induction false} RunSleeps(s: Client, labels: seq<Label>)
    requires SleepsAsDrawn(s) && CanRun(s, labels)
    ensures SleepsAsDrawn(Run(s, labels))
    decreases |labels|
  {
    if labels != [] {
      StepSleeps(s, labels[0]);
      RunSleeps(Step(s, labels[0]), labels[1..]);
    }
  }

  /** In every reachable state in which the run loop sleeps: it drew k delays since the last reset of
      the backoff, and the sleep is the k-th of the backoff's sequence in whole seconds, or what the
      outage had left when it began, if that was less. */
  lemma SleepIsTheDelay(timeout: Option<real>, labels: seq<Label>)
    requires CanRun(Initial(timeout), labels) && Run(Initial(timeout), labels).pc.Sleeping?
    ensures
      var s := Run(Initial(timeout), labels);
      && s.reconnection.Some? && s.drawn != [] && s.sleptAt <= s.clock && 1.0 <= s.delay.initial <= 5.0
      && var full := Delay.DelayAt(s.delay.initial, |s.drawn| - 1).Floor as real;
      s.pc.until - s.sleptAt ==
        if timeout.None? then full
        else
          var left := s.reconnection.value.began + timeout.value - s.sleptAt;
          if left < full then left else full
  {
    InitiallyTimely(timeout);
    InitiallyGood(timeout);
    RunIsTimely(Initial(timeout), labels);
    RunSleeps(Initial(timeout), labels);
  }
}

/** Runs that show where the promises of `close()` and `start()` stop. */
module CloseLimits {
  import opened Options
  import opened Lifecycle
  import opened CloseWins

  // ---- Reachable states ----

  /** Reached by a run without exceptions that `__run` does not handle. */
  ghost predicate Reached(timeout: Option<real>, s: Client) {
    exists labels :: CanRun(Initial(timeout), labels) && AllHandled(labels) && Run(Initial(timeout), labels) == s
  }

  lemma {:induction false} RunOneMore(s: Client, labels: seq<Label>, act: Label)
    requires CanRun(s, labels) && Enabled(Run(s, labels), act)
    ensures CanRun(s, labels + [act]) && Run(s, labels + [act]) == Step(Run(s, labels), act)
    decreases |labels|
  {
    if labels == [] {
      assert labels + [act] == [act];
      assert Run(Step(s, act), [act][1..]) == Step(s, act);
    } else {
      assert (labels + [act])[1..] == labels[1..] + [act];
      RunOneMore(Step(s, labels[0]), labels[1..], act);
    }
  }

  lemma Reach(timeout: Option<real>, s: Client, act: Label)
    requires Reached(timeout, s) && Enabled(s, act) && Handled(act)
    ensures Reached(timeout, Step(s, act))
  {
    var labels :| CanRun(Initial(timeout), labels) && AllHandled(labels) && Run(Initial(timeout), labels) == s;
    RunOneMore(Initial(timeout), labels, act);
  }

  /** A session is up and reads its socket; no bucket yet. */
  lemma FirstSession(timeout: Option<real>) returns (s: Client)
    ensures Reached(timeout, s)
    ensures s.pc.Reading? && s.up && !s.closing && s.timeout == timeout && s.clock == 0.0
    ensures s.pool == EMPTY_POOL && s.closers == [] && s.epoch == 0 && s.attempts == 1 && s.disconnected == 0
    ensures !s.authentication && !s.authenticated && s.reconnection.None?
  {
    s := Initial(timeout);
    assert CanRun(s, []) && AllHandled([]) && Run(s, []) == s;
    Reach(timeout, s, CallStart);
    s := Step(s, CallStart);
    Reach(timeout, s, RunStart(1.0));
    s := Step(s, RunStart(1.0));
    Reach(timeout, s, HandshakeDone);
    s := Step(s, HandshakeDone);
  }

  // ---- A timeout that gives up at once ----

  lemma OneKey()
    ensures Keys(Added(EMPTY_POOL)) == [0]
    ensures Live(Added(EMPTY_POOL), TaskId(0, 0)) && Added(EMPTY_POOL).table == map[0 := Some(TaskId(0, 0))]
  {
    var table := Added(EMPTY_POOL).table;
    assert KeysFrom(table, 1) == KeysFrom(table, 0) + [0];
  }

  /** A bucket is supervised, and the socket has just gone. */
  lemma OneBucketUp(timeout: Option<real>) returns (s: Client)
    ensures Reached(timeout, s)
    ensures s.pc.Reading? && !s.up && !s.closing && s.timeout == timeout && s.disconnected == 0
    ensures s.pool == Added(EMPTY_POOL)
  {
    s := FirstSession(timeout);
    Reach(timeout, s, SubscribeOpensBucket);
    s := Step(s, SubscribeOpensBucket);
    Reach(timeout, s, SocketDown);
    s := Step(s, SocketDown);
  }

  /** The server went away; the run loop awaits the cancelled supervisor. */
  lemma StoppingTheOneBucket(timeout: Option<real>) returns (s: Client)
    ensures Reached(timeout, s)
    ensures s.pc == Stopping(AfterGoingAway, []) && !s.up && !s.closing && s.timeout == timeout && s.disconnected == 0
  {
    s := OneBucketUp(timeout);
    var away := Ended(Some(GOING_AWAY));
    Reach(timeout, s, ReadingEnds(away));
    s := Step(s, ReadingEnds(away));
    OneKey();
    Reach(timeout, s, Left);
    s := Step(s, Left);
  }

  /** `close()` lands during that wait; with no time to reconnect the outage that begins next
      is over at once, and `start()` raises instead of returning. */
  lemma CloseLosesToTheDeadline(timeout: Option<real>) returns (s: Client)
    requires timeout.Some? && timeout.value <= 0.0
    ensures Reached(timeout, s) && s.landed && s.pc == Done(Failed) && s.disconnected == 0
  {
    s := StoppingTheOneBucket(timeout);
    Reach(timeout, s, CallClose);
    s := Step(s, CallClose);
    Reach(timeout, s, StopResumes);
    var b := BeginOutage(s);
    assert Expired(b, b.reconnection.value);
    s := Step(s, StopResumes);
  }

  /** Closing makes `start()` return with one "disconnected", whatever happens, exactly when the
      timeout is None or positive. */
  lemma CloseIsQuietIff(timeout: Option<real>)
    ensures
      (forall labels ::
         CanRun(Initial(timeout), labels) && AllHandled(labels) ==> ClosedQuietly(Run(Initial(timeout), labels)))
      <==> (timeout.None? || timeout.value > 0.0)
  {
    if timeout.None? || timeout.value > 0.0 {
      forall labels | CanRun(Initial(timeout), labels) && AllHandled(labels)
        ensures ClosedQuietly(Run(Initial(timeout), labels))
      {
        CloseIsQuiet(timeout, labels);
      }
    } else {
      var s := CloseLosesToTheDeadline(timeout);
      var labels :| CanRun(Initial(timeout), labels) && AllHandled(labels) && Run(Initial(timeout), labels) == s;
      assert !ClosedQuietly(Run(Initial(timeout), labels));
    }
  }

  // ---- An outage that outlives its session ----

  /** The connection is lost and the client sleeps before its first new attempt. */
  lemma Asleep(timeout: Option<real>) returns (s: Client)
    requires timeout.Some? && timeout.value > 0.0
    ensures Reached(timeout, s)
    ensures s.pc.Sleeping? && !s.up && s.clock == 0.0 && s.closers == [] && s.attempts == 1
    ensures s.pool.table == map[] && s.pool.nextBucket == 0
    ensures s.reconnection.Some? && s.reconnection.value.deadline == timeout
  {
    s := FirstSession(timeout);
    Reach(timeout, s, SocketDown);
    s := Step(s, SocketDown);
    var lost := Raised(ConnectionClosed(None));
    Reach(timeout, s, ReadingEnds(lost));
    s := Step(s, ReadingEnds(lost));
    assert Keys(s.pool) == [];
    var b := BeginOutage(s);
    assert !Expired(b, b.reconnection.value);
    Reach(timeout, s, Left);
    s := Step(s, Left);
  }

  /** `close()` and `start()` have both returned, and the deadline of the outage has passed. */
  lemma ClosedDuringTheOutage(timeout: Option<real>) returns (s: Client)
    requires timeout.Some? && timeout.value > 0.0
    ensures Reached(timeout, s)
    ensures s.pc == Done(Returned) && s.closers == [Closed] && s.attempts == 1
    ensures s.reconnection.Some? && s.reconnection.value.deadline == timeout && s.clock == timeout.value
  {
    s := Asleep(timeout);
    Reach(timeout, s, CallClose);
    s := Step(s, CallClose);
    assert s.closers == [ClosingBuckets([])];
    Reach(timeout, s, Wake);
    s := Step(s, Wake);
    assert Keys(s.pool) == [];
    Reach(timeout, s, CloseResumes(0));
    s := Step(s, CloseResumes(0));
    assert s.closers == [StoppingBuckets([])];
    Reach(timeout, s, CloseResumes(0));
    s := Step(s, CloseResumes(0));
    assert s.closers == [ClosingSocket];
    Reach(timeout, s, CloseResumes(0));
    s := Step(s, CloseResumes(0));
    assert s.closers == [Closed];
    Reach(timeout, s, Tick(timeout.value));
    s := Step(s, Tick(timeout.value));
  }

  /** For every deadline: a `start()` after a completed `close()` raises at once, because the
      outage the close interrupted was never cleared. */
  lemma LeftoverOutageStopsStart(timeout: Option<real>) returns (s: Client)
    requires timeout.Some? && timeout.value > 0.0
    ensures Reached(timeout, s) && s.pc == Done(Failed) && !s.landed && s.attempts == 1 && s.closers == []
  {
    s := ClosedDuringTheOutage(timeout);
    Reach(timeout, s, CallStart);
    s := Step(s, CallStart);
    Reach(timeout, s, RunStart(1.0));
    s := Step(s, RunStart(1.0));
  }
}

/** Each bucket has at most one live supervisor, none outlives `start()` or `close()`, and
    a bucket that was unsubscribed away never opens a socket again. */
module SupervisorSafety {
  import opened Options
  import opened Lifecycle

  // ---- The pool of supervisors ----

  /** No bucket of the table has a live supervisor. */
  ghost predicate NoneLive(p: Pool) {
    forall t :: Live(p, t) ==> t.bucket !in p.table
  }

  /** Every live supervisor of a bucket in the table belongs to one of `buckets`. */
  ghost predicate LiveOnlyIn(p: Pool, buckets: seq<BucketId>) {
    forall t :: Live(p, t) && t.bucket in p.table ==> t.bucket in buckets
  }

  ghost predicate Numbered(p: Pool) {
    && (forall t :: t in p.tasks ==> t.bucket < p.nextBucket && t.serial < p.nextTask)
    && (forall b :: b in p.table ==> b < p.nextBucket)
    && (forall b :: b in p.table && p.table[b].Some? ==> p.table[b].value.bucket == b)
  }

  /** Only the newest supervisor of a bucket can be live, the table names it if the bucket is
      there, and a bucket that is not is shut. */
  ghost predicate Single(p: Pool) {
    && (forall t :: Live(p, t) ==> t.bucket in p.newest && t.serial == p.newest[t.bucket])
    && (forall t :: Live(p, t) && t.bucket in p.table ==> p.table[t.bucket] == Some(t))
    && (forall b :: 0 <= b < p.nextBucket && b !in p.table ==> b in p.shut)
  }

  ghost predicate PoolOk(p: Pool) {
    Numbered(p) && Single(p)
  }

  lemma {:induction false} KeysAreTheTable(table: map<BucketId, Option<TaskId>>, next: nat, b: BucketId)
    ensures b in KeysFrom(table, next) <==> b in table && b < next
  {
    if next > 0 {
      KeysAreTheTable(table, next - 1, b);
    }
  }

  lemma KeysCoverTheTable(p: Pool)
    requires PoolOk(p)
    ensures LiveOnlyIn(p, Keys(p))
  {
    forall t | Live(p, t) && t.bucket in p.table ensures t.bucket in Keys(p) {
      KeysAreTheTable(p.table, p.nextBucket, t.bucket);
    }
  }

  lemma CancelIsOk(p: Pool, t: TaskId)
    requires PoolOk(p)
    ensures PoolOk(Cancel(p, t))
    ensures forall k :: Live(Cancel(p, t), k) <==> Live(p, k) && k != t
  {
    var q := Cancel(p, t);
    assert forall k :: Live(q, k) <==> Live(p, k) && k != t;
  }

  lemma StopIsOk(p: Pool, b: BucketId)
    requires PoolOk(p)
    ensures PoolOk(Stop(p, b))
    ensures forall k :: Live(Stop(p, b), k) <==> Live(p, k) && !(b in p.table && p.table[b] == Some(k))
    ensures Stop(p, b).table.Keys == p.table.Keys
  {
    var q := Stop(p, b);
    assert forall k :: Live(q, k) <==> Live(p, k) && !(b in p.table && p.table[b] == Some(k));
  }

  lemma StopAllIsOk(p: Pool)
    requires PoolOk(p)
    ensures PoolOk(StopAll(p)) && NoneLive(StopAll(p))
  {
    var q := StopAll(p);
    assert forall k :: Live(q, k) ==> Live(p, k) && k.bucket !in p.table;
  }

  lemma SupervisedIsOk(p: Pool)
    requires PoolOk(p) && NoneLive(p)
    ensures PoolOk(Supervised(p))
  {
    var q := Supervised(p);
    forall k | Live(q, k) ensures if k.bucket in p.table then k.serial == p.nextTask else Live(p, k) {
      if k in p.tasks && k.serial != p.nextTask {
        assert Live(p, k);
      }
    }
  }

  lemma AddedIsOk(p: Pool)
    requires PoolOk(p)
    ensures PoolOk(Added(p))
  {
    var q := Added(p);
    forall k | Live(q, k) ensures if k.bucket == p.nextBucket then k.serial == p.nextTask else Live(p, k) {
    }
  }

  lemma RemovedIsOk(p: Pool, b: BucketId)
    requires PoolOk(p)
    ensures PoolOk(Removed(p, b))
    ensures forall k :: Live(Removed(p, b), k) <==> Live(p, k)
  {
    var q := Removed(p, b);
    assert forall k :: Live(q, k) <==> Live(p, k);
  }

  lemma WithPcIsOk(p: Pool, t: TaskId, pc: SupervisorPc)
    requires PoolOk(p) && Live(p, t)
    ensures PoolOk(WithPc(p, t, pc))
    ensures forall k :: Live(WithPc(p, t, pc), k) <==> Live(p, k) && !(k == t && pc.Finished?)
  {
    var q := WithPc(p, t, pc);
    assert forall k :: Live(q, k) <==> Live(p, k) && !(k == t && pc.Finished?);
  }

  lemma GivesUpIsOk(p: Pool, t: TaskId)
    requires PoolOk(p) && Live(p, t)
    ensures PoolOk(GivesUp(p, t))
    ensures forall k :: Live(GivesUp(p, t), k) <==> Live(p, k) && k != t
    ensures GivesUp(p, t).table.Keys == p.table.Keys
  {
    WithPcIsOk(p, t, Finished);
    var q := GivesUp(p, t);
    assert forall k :: Live(q, k) <==> Live(WithPc(p, t, Finished), k);
  }

  /** Reopening what `close()` shut, for the buckets of the table. */
  lemma ReopenedIsOk(p: Pool)
    requires PoolOk(p)
    ensures PoolOk(Reopened(p))
    ensures forall k :: Live(Reopened(p), k) <==> Live(p, k)
  {
    var q := Reopened(p);
    assert forall k :: Live(q, k) <==> Live(p, k);
  }

  lemma ShutIsOk(p: Pool, b: BucketId)
    requires PoolOk(p)
    ensures PoolOk(Shut(p, b))
    ensures forall k :: Live(Shut(p, b), k) <==> Live(p, k)
  {
    var q := Shut(p, b);
    assert forall k :: Live(q, k) <==> Live(p, k);
  }

  lemma OpenedIsOk(p: Pool, t: TaskId)
    requires PoolOk(p) && Live(p, t)
    ensures PoolOk(Opened(p, t))
    ensures forall k :: Live(Opened(p, t), k) ==> Live(p, k)
  {
    WithPcIsOk(p, t, if t.bucket in p.shut then Finished else Serving);
    var q := Opened(p, t);
    assert forall k :: Live(q, k) <==> Live(WithPc(p, t, if t.bucket in p.shut then Finished else Serving), k);
  }

  lemma DiscardedIsOk(p: Pool, b: BucketId, atOnce: bool)
    requires PoolOk(p)
    ensures PoolOk(Discarded(p, b, atOnce))
    ensures forall k :: Live(Discarded(p, b, atOnce), k) ==> Live(p, k)
    ensures Discarded(p, b, atOnce).table == p.table - {b}
  {
    RemovedIsOk(p, b);
    var q := Discarded(p, b, atOnce);
    if b in p.table && p.table[b].Some? {
      CancelIsOk(Removed(p, b), p.table[b].value);
      if !atOnce {
        assert forall k :: Live(q, k) <==> Live(Removed(p, b), k);
      }
    }
  }

  lemma CancelledLateIsOk(p: Pool, t: TaskId)
    requires PoolOk(p)
    ensures PoolOk(CancelledLate(p, t))
    ensures forall k :: Live(CancelledLate(p, t), k) ==> Live(p, k)
  {
    CancelIsOk(p, t);
    var q := CancelledLate(p, t);
    assert forall k :: Live(q, k) <==> Live(Cancel(p, t), k);
  }

  // ---- The whole client ----

  /** Where the run loop is between sockets, no supervisor of the table is live. */
  ghost predicate PhaseSafe(pc: RunPc, up: bool, p: Pool) {
    match pc
    case Stopping(_, todo) => !up && LiveOnlyIn(p, todo)
    case AwaitBuckets => true
    case Reading => true
    case HangingUp => true
    case Leaving(_) => true
    case _ => !up && NoneLive(p)
  }

  ghost predicate CloserSafe(c: ClosePc, p: Pool) {
    match c
    case ClosingBuckets(_) => true
    case StoppingBuckets(todo) => LiveOnlyIn(p, todo)
    case _ => NoneLive(p)
  }

  /** Past its stopping stage a `close()`, under way or returned, leaves no supervisor of the
      table live until a session begins. */
  ghost predicate ClosersSafe(closers: seq<ClosePc>, p: Pool) {
    forall i :: 0 <= i < |closers| ==> CloserSafe(closers[i], p)
  }

  predicate ClosersClosed(closers: seq<ClosePc>) {
    forall i :: 0 <= i < |closers| ==> closers[i].Closed?
  }

  ghost predicate EpochOk(s: Client) {
    && (s.closers != [] ==> s.closing)
    && (s.pc.Scheduled? ==> s.pc.epoch <= s.epoch)
    && (s.pc.Scheduled? && s.pc.epoch == s.epoch ==> ClosersClosed(s.closers))
  }

  ghost predicate Safe(s: Client) {
    PoolOk(s.pool) && PhaseSafe(s.pc, s.up, s.pool) && ClosersSafe(s.closers, s.pool) && EpochOk(s)
  }

  /** Fewer live supervisors, in a table no larger: what was promised still holds. */
  lemma FewerLive(pc: RunPc, up: bool, closers: seq<ClosePc>, p: Pool, q: Pool)
    requires PhaseSafe(pc, up, p) && ClosersSafe(closers, p)
    requires forall k :: Live(q, k) ==> Live(p, k)
    requires q.table.Keys <= p.table.Keys
    ensures PhaseSafe(pc, up, q) && ClosersSafe(closers, q)
  {
    forall i | 0 <= i < |closers| ensures CloserSafe(closers[i], q) {
      assert CloserSafe(closers[i], p);
    }
  }

  /** What every step of the run loop starts from once the socket is gone. */
  ghost predicate Grounded(s: Client) {
    PoolOk(s.pool) && ClosersSafe(s.closers, s.pool) && !s.up && (s.closers != [] ==> s.closing)
  }

  lemma FinishIsSafe(s: Client, result: Result)
    requires Grounded(s)
    ensures Safe(Finish(s, result))
  {
    StopAllIsOk(s.pool);
    var q := StopAll(s.pool);
    forall i | 0 <= i < |s.closers| ensures CloserSafe(s.closers[i], q) {
    }
  }

  lemma LoopTopIsSafe(s: Client)
    requires Grounded(s) && NoneLive(s.pool)
    ensures Safe(LoopTop(s))
  {
    if s.reconnection.Some? && Expired(s, s.reconnection.value) {
      FinishIsSafe(Draw(s), Failed);
    }
  }

  lemma OutageIsSafe(s: Client)
    requires Grounded(s) && NoneLive(s.pool)
    ensures Safe(LoopTop(BeginOutage(s)))
  {
    LoopTopIsSafe(BeginOutage(s));
  }

  lemma RetryIsSafe(s: Client, o: Outage)
    requires Grounded(s) && NoneLive(s.pool)
    ensures Safe(LoopTop(s.(reconnection := Some(o))))
  {
    LoopTopIsSafe(s.(reconnection := Some(o)));
  }

  lemma StoppedIsSafe(s: Client, after: After)
    requires Grounded(s) && NoneLive(s.pool)
    ensures Safe(Stopped(s, after))
  {
    if after.AfterEnd? || (after.AfterError? && s.closing) {
      FinishIsSafe(Announce(s), Returned);
    } else if after.AfterGoingAway? || IsLostConnection(after.error) {
      OutageIsSafe(s);
    } else if s.reconnection.Some? && IsRetryable(after.error) {
      RetryIsSafe(s, s.reconnection.value.(attempts := s.reconnection.value.attempts + 1));
    } else {
      FinishIsSafe(s, Failed);
    }
  }

  lemma StopNarrows(p: Pool, todo: seq<BucketId>)
    requires PoolOk(p) && todo != [] && LiveOnlyIn(p, todo)
    ensures LiveOnlyIn(Stop(p, todo[0]), todo[1..])
  {
    var q := Stop(p, todo[0]);
    StopIsOk(p, todo[0]);
    forall t | Live(q, t) && t.bucket in q.table ensures t.bucket in todo[1..] {
      assert Live(p, t) && p.table[t.bucket] == Some(t);
    }
  }

  lemma StopStaysGrounded(s: Client, b: BucketId)
    requires Grounded(s)
    ensures Grounded(s.(pool := Stop(s.pool, b)))
  {
    StopIsOk(s.pool, b);
    FewerLive(Leaving(Escaped), false, s.closers, s.pool, Stop(s.pool, b));
  }

  lemma {:induction false} StopFromIsSafe(s: Client, after: After, todo: seq<BucketId>)
    requires Grounded(s) && LiveOnlyIn(s.pool, todo)
    ensures Safe(StopFrom(s, after, todo))
    decreases |todo|
  {
    if todo == [] {
      StoppedIsSafe(s, after);
    } else {
      StopNarrows(s.pool, todo);
      StopStaysGrounded(s, todo[0]);
      var u := s.(pool := Stop(s.pool, todo[0]));
      WaitingIsSafe(u, after, todo[1..]);
      StopFromIsSafe(u, after, todo[1..]);
    }
  }

  lemma WaitingIsSafe(s: Client, after: After, todo: seq<BucketId>)
    requires Grounded(s) && LiveOnlyIn(s.pool, todo)
    ensures Safe(s.(pc := Stopping(after, todo)))
  {
  }

  lemma RunStartIsSafe(s: Client, initial: real)
    requires Safe(s) && Enabled(s, RunStart(initial))
    ensures Safe(RunStartStep(s, initial))
  {
    if s.pc.epoch == s.epoch {
      ReopenedIsOk(s.pool);
      FewerLive(s.pc, s.up, [], s.pool, Reopened(s.pool));
      LoopTopIsSafe(SessionBegins(s, initial));
    }
  }

  lemma DialIsSafe(s: Client, t: Client)
    requires Safe(s) && s.pc.Sleeping? && t.pc.Handshake?
    requires t.pool == s.pool && t.up == s.up && t.closers == s.closers && t.closing == s.closing
    ensures Safe(t)
  {
  }

  lemma WakeIsSafe(s: Client)
    requires Safe(s) && s.pc.Sleeping?
    ensures Safe(WakeStep(s))
  {
    if s.closing {
      FinishIsSafe(Announce(s), Returned);
    } else if s.reconnection.None? || Expired(s, s.reconnection.value) {
      FinishIsSafe(s, Failed);
    } else {
      DialIsSafe(s, WakeStep(s));
    }
  }

  lemma HandshakeDoneIsSafe(s: Client)
    requires Safe(s) && s.pc.Handshake?
    ensures Safe(HandshakeDoneStep(s))
  {
    SupervisedIsOk(s.pool);
    if !s.closing {
      assert s.closers == [];
    }
  }

  lemma LeavingIsSafe(s: Client, ending: Ending)
    requires Safe(s) && !s.up && (s.pc.Leaving? || s.pc.Handshake?)
    ensures Safe(Finish(s, Crashed))
    ensures forall after :: Safe(StopFrom(s, after, Keys(s.pool)))
  {
    KeysCoverTheTable(s.pool);
    FinishIsSafe(s, Crashed);
    forall after ensures Safe(StopFrom(s, after, Keys(s.pool))) {
      StopFromIsSafe(s, after, Keys(s.pool));
    }
  }

  lemma CallCloseIsSafe(s: Client)
    requires Safe(s)
    ensures Safe(CallCloseStep(s))
  {
    var t := CallCloseStep(s);
    forall i | 0 <= i < |t.closers| ensures CloserSafe(t.closers[i], t.pool) {
      if i < |s.closers| {
        assert CloserSafe(s.closers[i], s.pool);
      }
    }
  }

  /** The pool shrinks; the closer at `at` is where the new pool lets it be. */
  lemma CloserMoves(s: Client, at: nat, c: ClosePc, q: Pool)
    requires Safe(s) && at < |s.closers| && !s.closers[at].Closed?
    requires PoolOk(q) && CloserSafe(c, q)
    requires forall k :: Live(q, k) ==> Live(s.pool, k)
    requires q.table.Keys <= s.pool.table.Keys
    ensures Safe(s.(pool := q, closers := s.closers[at := c]))
  {
    FewerLive(s.pc, s.up, s.closers, s.pool, q);
    var closers := s.closers[at := c];
    forall i | 0 <= i < |closers| ensures CloserSafe(closers[i], q) {
      assert CloserSafe(s.closers[i], q);
    }
  }

  lemma CloserPoolIsOk(c: ClosePc, p: Pool)
    requires PoolOk(p) && CloserSafe(c, p)
    ensures PoolOk(CloserPool(c, p)) && CloserSafe(CloserNext(c, p), CloserPool(c, p))
    ensures forall k :: Live(CloserPool(c, p), k) ==> Live(p, k)
    ensures CloserPool(c, p).table.Keys == p.table.Keys
  {
    match c
    case ClosingBuckets(todo) =>
      if todo == [] {
        KeysCoverTheTable(p);
      } else {
        ShutIsOk(p, todo[0]);
      }
    case StoppingBuckets(todo) =>
      if todo != [] {
        StopIsOk(p, todo[0]);
        StopNarrows(p, todo);
      }
    case _ =>
  }

  lemma CloseResumesIsSafe(s: Client, at: nat)
    requires Safe(s) && at < |s.closers| && !s.closers[at].Closed?
    ensures Safe(CloseResumesStep(s, at))
  {
    assert CloserSafe(s.closers[at], s.pool);
    CloserPoolIsOk(s.closers[at], s.pool);
    CloserMoves(s, at, CloserNext(s.closers[at], s.pool), CloserPool(s.closers[at], s.pool));
  }

  lemma ShrinkingIsSafe(s: Client, q: Pool)
    requires Safe(s) && PoolOk(q)
    requires forall k :: Live(q, k) ==> Live(s.pool, k)
    requires q.table.Keys <= s.pool.table.Keys
    ensures Safe(s.(pool := q))
  {
    FewerLive(s.pc, s.up, s.closers, s.pool, q);
  }

  lemma DroppedIsOk(p: Pool, t: TaskId, done: bool, givesUp: bool)
    requires PoolOk(p) && Live(p, t)
    ensures PoolOk(Dropped(p, t, done, givesUp))
    ensures forall k :: Live(Dropped(p, t, done, givesUp), k) ==> Live(p, k)
    ensures Dropped(p, t, done, givesUp).table.Keys == p.table.Keys
  {
    WithPcIsOk(p, t, if done then Finished else Asleep);
    GivesUpIsOk(p, t);
  }

  lemma SupervisorIsSafe(s: Client, act: Label)
    requires Safe(s) && Enabled(s, act)
    requires act.SupervisorBegins? || act.SupervisorOpens? || act.SupervisorDrops? || act.SupervisorWakes?
    ensures Safe(Step(s, act))
  {
    var p := s.pool;
    match act
    case SupervisorBegins(t) =>
      WithPcIsOk(p, t, if t.bucket in p.shut then Finished else Connecting);
      ShrinkingIsSafe(s, Begun(p, t));
    case SupervisorOpens(t) =>
      OpenedIsOk(p, t);
      ShrinkingIsSafe(s, Opened(p, t));
    case SupervisorDrops(t, givesUp) =>
      DroppedIsOk(p, t, BucketIsDone(s, t.bucket), givesUp);
      ShrinkingIsSafe(s, Dropped(p, t, BucketIsDone(s, t.bucket), givesUp));
    case SupervisorWakes(t) =>
      WithPcIsOk(p, t, if BucketIsDone(s, t.bucket) then Finished else Connecting);
      ShrinkingIsSafe(s, Woken(p, t, BucketIsDone(s, t.bucket)));
  }

  lemma BucketStepIsSafe(s: Client, act: Label)
    requires Safe(s) && Enabled(s, act)
    requires act.NewBucketGoes? || act.CancelDropped? || act.UnsubscribeLast?
    ensures Safe(Step(s, act))
  {
    match act
    case NewBucketGoes(b, atOnce) =>
      DiscardedIsOk(s.pool, b, atOnce);
      ShrinkingIsSafe(s, Discarded(s.pool, b, atOnce));
    case CancelDropped(t) =>
      CancelledLateIsOk(s.pool, t);
      ShrinkingIsSafe(s, CancelledLate(s.pool, t));
    case UnsubscribeLast(b) =>
      RemovedIsOk(s.pool, b);
      ShrinkingIsSafe(s, Removed(s.pool, b));
  }

  lemma SubscribeIsSafe(s: Client)
    requires Safe(s) && Enabled(s, SubscribeOpensBucket)
    ensures Safe(Step(s, SubscribeOpensBucket))
  {
    AddedIsOk(s.pool);
    assert s.closers == [];
  }

  lemma InterruptedIsSafe(s: Client, failure: Ending)
    requires Safe(s) && Enabled(s, Interrupted(failure))
    ensures Safe(InterruptedStep(s, failure))
  {
    if failure.Raised? {
      LeavingIsSafe(s, failure);
    } else {
      FinishIsSafe(s, Crashed);
    }
  }

  lemma StepIsSafe(s: Client, act: Label)
    requires Safe(s) && Enabled(s, act)
    ensures Safe(Step(s, act))
  {
    match act
    case RunStart(initial) => RunStartIsSafe(s, initial);
    case Wake => WakeIsSafe(s);
    case Interrupted(failure) => InterruptedIsSafe(s, failure);
    case HandshakeDone => HandshakeDoneIsSafe(s);
    case Left => LeavingIsSafe(s, s.pc.ending);
    case StopResumes => StopFromIsSafe(s, s.pc.after, s.pc.todo);
    case CallClose => CallCloseIsSafe(s);
    case CloseResumes(at) => CloseResumesIsSafe(s, at);
    case SupervisorBegins(_) => SupervisorIsSafe(s, act);
    case SupervisorOpens(_) => SupervisorIsSafe(s, act);
    case SupervisorDrops(_, _) => SupervisorIsSafe(s, act);
    case SupervisorWakes(_) => SupervisorIsSafe(s, act);
    case SubscribeOpensBucket => SubscribeIsSafe(s);
    case NewBucketGoes(_, _) => BucketStepIsSafe(s, act);
    case CancelDropped(_) => BucketStepIsSafe(s, act);
    case UnsubscribeLast(_) => BucketStepIsSafe(s, act);
    case _ =>
  }

  lemma InitiallySafe(timeout: Option<real>)
    ensures Safe(Initial(timeout))
  {
  }

  lemma {:induction false} RunIsSafe(s: Client, labels: seq<Label>)
    requires Safe(s) && CanRun(s, labels)
    ensures Safe(Run(s, labels))
    decreases |labels|
  {
    if labels != [] {
      StepIsSafe(s, labels[0]);
      RunIsSafe(Step(s, labels[0]), labels[1..]);
    }
  }

  /** In every reachable state, across outages, sessions and concurrent subscribes, a bucket
      has at most one live supervisor. */
  lemma OneSupervisorPerBucket(timeout: Option<real>, labels: seq<Label>, t: TaskId, u: TaskId)
    requires CanRun(Initial(timeout), labels)
    requires t.bucket == u.bucket
    requires Live(Run(Initial(timeout), labels).pool, t) && Live(Run(Initial(timeout), labels).pool, u)
    ensures t == u
  {
    InitiallySafe(timeout);
    RunIsSafe(Initial(timeout), labels);
  }

  /** No bucket of the table has a live supervisor once `start()` has returned, between two
      sockets of a session, or once a `close()` has returned and no session began since. */
  lemma NoneOutlives(timeout: Option<real>, labels: seq<Label>)
    requires CanRun(Initial(timeout), labels)
    ensures
      var s := Run(Initial(timeout), labels);
      (s.pc.Done? || s.pc.Sleeping? || s.pc.Handshake? || exists i :: 0 <= i < |s.closers| && s.closers[i].Closed?)
      ==> NoneLive(s.pool)
  {
    InitiallySafe(timeout);
    RunIsSafe(Initial(timeout), labels);
    var s := Run(Initial(timeout), labels);
    if i :| 0 <= i < |s.closers| && s.closers[i].Closed? {
      assert CloserSafe(s.closers[i], s.pool);
    }
  }

  // ---- Buckets unsubscribed away ----

  /** `b` has been in the table, is not now, is shut, and opened `n` sockets so far. */
  predicate Gone(p: Pool, b: BucketId, n: nat) {
    b < p.nextBucket && b !in p.table && b in p.shut && Sockets(p, b) == n
  }

  lemma GoneAfterCancel(p: Pool, t: TaskId, b: BucketId, n: nat)
    requires Gone(p, b, n)
    ensures Gone(Cancel(p, t), b, n) && Gone(CancelledLate(p, t), b, n)
  {
  }

  lemma GoneAfterStop(p: Pool, x: BucketId, b: BucketId, n: nat)
    requires Gone(p, b, n)
    ensures Gone(Stop(p, x), b, n)
  {
  }

  lemma GoneAfterSupervisor(p: Pool, t: TaskId, done: bool, givesUp: bool, b: BucketId, n: nat)
    requires Gone(p, b, n)
    ensures Gone(Begun(p, t), b, n) && Gone(Opened(p, t), b, n)
    ensures Gone(Dropped(p, t, done, givesUp), b, n) && Gone(Woken(p, t, done), b, n)
  {
  }

  lemma GoneAfterDiscard(p: Pool, x: BucketId, atOnce: bool, b: BucketId, n: nat)
    requires Gone(p, b, n)
    ensures Gone(Discarded(p, x, atOnce), b, n) && Gone(Removed(p, x), b, n)
  {
  }

  lemma GoneAfterSession(p: Pool, b: BucketId, n: nat)
    requires Gone(p, b, n)
    ensures Gone(StopAll(p), b, n) && Gone(Supervised(p), b, n) && Gone(Reopened(p), b, n)
  {
  }

  lemma LoopTopPool(s: Client)
    ensures LoopTop(s).pool == s.pool || LoopTop(s).pool == StopAll(s.pool)
  {
    if s.reconnection.None? {
      assert LoopTop(s) == Attempt(s);
    } else if Expired(s, s.reconnection.value) {
      assert LoopTop(s) == Finish(Draw(s), Failed) && Draw(s).pool == s.pool;
    } else {
      assert LoopTop(s).pool == Draw(s).pool == s.pool;
    }
  }

  lemma WakePool(s: Client)
    ensures WakeStep(s).pool == s.pool || WakeStep(s).pool == StopAll(s.pool)
  {
  }

  lemma HandshakeDonePool(s: Client)
    ensures HandshakeDoneStep(s).pool == s.pool || HandshakeDoneStep(s).pool == Supervised(s.pool)
  {
  }

  lemma RunStartPool(s: Client, initial: real)
    requires s.pc.Scheduled?
    ensures
      var p := RunStartStep(s, initial).pool;
      p == s.pool || p == Reopened(s.pool) || p == StopAll(Reopened(s.pool))
  {
    LoopTopPool(SessionBegins(s, initial));
  }

  lemma StoppedPool(s: Client, after: After)
    ensures Stopped(s, after).pool == s.pool || Stopped(s, after).pool == StopAll(s.pool)
  {
    if after.AfterGoingAway? || (after.AfterError? && !s.closing && IsLostConnection(after.error)) {
      LoopTopPool(BeginOutage(s));
    }
  }

  lemma StoppedKeepsGone(s: Client, after: After, b: BucketId, n: nat)
    requires Gone(s.pool, b, n)
    ensures Gone(Stopped(s, after).pool, b, n)
  {
    GoneAfterSession(s.pool, b, n);
    StoppedPool(s, after);
  }

  lemma {:induction false} StopFromKeepsGone(s: Client, after: After, todo: seq<BucketId>, b: BucketId, n: nat)
    requires Gone(s.pool, b, n)
    ensures Gone(StopFrom(s, after, todo).pool, b, n)
    decreases |todo|
  {
    if todo == [] {
      StoppedKeepsGone(s, after, b, n);
    } else {
      GoneAfterStop(s.pool, todo[0], b, n);
      StopFromKeepsGone(s.(pool := Stop(s.pool, todo[0])), after, todo[1..], b, n);
    }
  }

  lemma RunKeepsGone(s: Client, act: Label, b: BucketId, n: nat)
    requires Gone(s.pool, b, n) && Enabled(s, act)
    requires act.RunStart? || act.Wake? || act.HandshakeDone?
    ensures Gone(Step(s, act).pool, b, n)
  {
    GoneAfterSession(s.pool, b, n);
    match act
    case RunStart(initial) =>
      GoneAfterSession(Reopened(s.pool), b, n);
      RunStartPool(s, initial);
    case Wake => WakePool(s);
    case HandshakeDone => HandshakeDonePool(s);
  }

  lemma InterruptedKeepsGone(s: Client, failure: Ending, b: BucketId, n: nat)
    requires Gone(s.pool, b, n)
    ensures Gone(InterruptedStep(s, failure).pool, b, n)
  {
    if failure.Raised? {
      StopFromKeepsGone(s, AfterError(failure.error), Keys(s.pool), b, n);
    } else {
      GoneAfterSession(s.pool, b, n);
    }
  }

  lemma LeftKeepsGone(s: Client, b: BucketId, n: nat)
    requires Gone(s.pool, b, n) && s.pc.Leaving?
    ensures Gone(LeftStep(s).pool, b, n)
  {
    if !s.pc.ending.Escaped? {
      var after := AfterLeaving(s.pc.ending, s.closing);
      StopFromKeepsGone(s, after, Keys(s.pool), b, n);
    }
  }

  lemma GoneAfterCloser(c: ClosePc, p: Pool, b: BucketId, n: nat)
    requires Gone(p, b, n)
    ensures Gone(CloserPool(c, p), b, n)
  {
  }

  lemma StepKeepsGone(s: Client, act: Label, b: BucketId, n: nat)
    requires Gone(s.pool, b, n) && Enabled(s, act)
    ensures Gone(Step(s, act).pool, b, n)
  {
    match act
    case RunStart(_) => RunKeepsGone(s, act, b, n);
    case Wake => RunKeepsGone(s, act, b, n);
    case Interrupted(failure) => InterruptedKeepsGone(s, failure, b, n);
    case HandshakeDone => RunKeepsGone(s, act, b, n);
    case Left => LeftKeepsGone(s, b, n);
    case StopResumes => StopFromKeepsGone(s, s.pc.after, s.pc.todo, b, n);
    case CloseResumes(at) => GoneAfterCloser(s.closers[at], s.pool, b, n);
    case SupervisorBegins(t) => GoneAfterSupervisor(s.pool, t, false, false, b, n);
    case SupervisorOpens(t) => GoneAfterSupervisor(s.pool, t, false, false, b, n);
    case SupervisorDrops(t, givesUp) => GoneAfterSupervisor(s.pool, t, BucketIsDone(s, t.bucket), givesUp, b, n);
    case SupervisorWakes(t) => GoneAfterSupervisor(s.pool, t, BucketIsDone(s, t.bucket), false, b, n);
    case NewBucketGoes(x, atOnce) => GoneAfterDiscard(s.pool, x, atOnce, b, n);
    case CancelDropped(t) => GoneAfterCancel(s.pool, t, b, n);
    case UnsubscribeLast(x) => GoneAfterDiscard(s.pool, x, false, b, n);
    case _ =>
  }

  /** A bucket that `unsubscribe` took away never opens a socket again, nor comes back to
      the table. */
  lemma {:induction false} GoneForGood(s: Client, labels: seq<Label>, b: BucketId, n: nat)
    requires Gone(s.pool, b, n) && CanRun(s, labels)
    ensures Gone(Run(s, labels).pool, b, n)
    decreases |labels|
  {
    if labels != [] {
      StepKeepsGone(s, labels[0], b, n);
      GoneForGood(Step(s, labels[0]), labels[1..], b, n);
    }
  }

  lemma UnsubscribedNeverOpens(timeout: Option<real>, before: seq<Label>, b: BucketId, labels: seq<Label>)
    requires CanRun(Initial(timeout), before) && Enabled(Run(Initial(timeout), before), UnsubscribeLast(b))
    requires CanRun(Step(Run(Initial(timeout), before), UnsubscribeLast(b)), labels)
    ensures
      var s := Run(Initial(timeout), before);
      var t := Run(Step(s, UnsubscribeLast(b)), labels);
      b !in t.pool.table && Sockets(t.pool, b) == Sockets(s.pool, b)
  {
    InitiallySafe(timeout);
    RunIsSafe(Initial(timeout), before);
    var s := Run(Initial(timeout), before);
    GoneForGood(Step(s, UnsubscribeLast(b)), labels, b, Sockets(s.pool, b));
  }
}

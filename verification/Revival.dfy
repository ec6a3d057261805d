/** A reconnect brings every bucket of the table back: each gets a supervisor, and that supervisor
    can take it to its next socket. */
module Revival {
  import opened Options
  import opened Lifecycle
  import opened SupervisorSafety

  // ---- No bucket of the table is shut while the client runs ----

  predicate AllOpen(p: Pool) {
    forall b :: b in p.table ==> b !in p.shut
  }

  /** Until `close()` is called there is no closer, and every bucket of the table may run. */
  predicate DoorsOk(s: Client) {
    && (!s.closing ==> s.closers == [] && AllOpen(s.pool))
    && forall b :: b in s.pool.shut ==> b < s.pool.nextBucket
  }

  predicate SameDoors(p: Pool, q: Pool) {
    q.table.Keys == p.table.Keys && q.shut == p.shut && q.nextBucket == p.nextBucket
  }

  lemma StopAllKeepsDoors(p: Pool)
    ensures SameDoors(p, StopAll(p))
  {
  }

  lemma StopKeepsDoors(p: Pool, b: BucketId)
    ensures SameDoors(p, Stop(p, b))
  {
  }

  lemma StoppedKeepsDoors(s: Client, after: After)
    ensures SameDoors(s.pool, Stopped(s, after).pool)
  {
    StopAllKeepsDoors(s.pool);
    StoppedPool(s, after);
  }

  lemma SameDoorsTransitive(p: Pool, q: Pool, r: Pool)
    requires SameDoors(p, q) && SameDoors(q, r)
    ensures SameDoors(p, r)
  {
  }

  lemma {:induction false} StopFromKeepsDoors(s: Client, after: After, todo: seq<BucketId>)
    ensures SameDoors(s.pool, StopFrom(s, after, todo).pool)
    decreases |todo|
  {
    if todo == [] {
      StoppedKeepsDoors(s, after);
    } else {
      var u := s.(pool := Stop(s.pool, todo[0]));
      StopKeepsDoors(s.pool, todo[0]);
      StopFromKeepsDoors(u, after, todo[1..]);
      SameDoorsTransitive(s.pool, u.pool, StopFrom(u, after, todo[1..]).pool);
    }
  }

  predicate SameClosers(s: Client, t: Client) {
    t.closing == s.closing && t.closers == s.closers
  }

  lemma {:induction false} StopFromKeepsClosers(s: Client, after: After, todo: seq<BucketId>)
    ensures SameClosers(s, StopFrom(s, after, todo))
    decreases |todo|
  {
    if todo == [] {
      StoppedKeepsClosers(s, after);
    } else {
      StopFromKeepsClosers(s.(pool := Stop(s.pool, todo[0])), after, todo[1..]);
    }
  }

  lemma LoopTopKeepsClosers(s: Client)
    ensures SameClosers(s, LoopTop(s))
  {
    if s.reconnection.None? {
      assert LoopTop(s) == Attempt(s);
    } else if Expired(s, s.reconnection.value) {
      assert LoopTop(s) == Finish(Draw(s), Failed) && SameClosers(s, Draw(s));
    } else {
      assert SameClosers(Draw(s), LoopTop(s));
    }
  }

  lemma StoppedKeepsClosers(s: Client, after: After)
    ensures SameClosers(s, Stopped(s, after))
  {
    if after.AfterGoingAway? || (after.AfterError? && !s.closing && IsLostConnection(after.error)) {
      LoopTopKeepsClosers(BeginOutage(s));
    } else if after.AfterError? && !s.closing && s.reconnection.Some? && IsRetryable(after.error) {
      var o := s.reconnection.value;
      LoopTopKeepsClosers(s.(reconnection := Some(o.(attempts := o.attempts + 1))));
    }
  }

  lemma SameDoorsAreOk(s: Client, t: Client)
    requires DoorsOk(s) && SameDoors(s.pool, t.pool) && t.closing == s.closing && t.closers == s.closers
    ensures DoorsOk(t)
  {
  }

  lemma LossKeepsDoors(s: Client, act: Label)
    requires DoorsOk(s) && Enabled(s, act) && (act.Interrupted? || act.Left? || act.StopResumes?)
    ensures DoorsOk(Step(s, act))
  {
    StopAllKeepsDoors(s.pool);
    match act
    case Interrupted(failure) =>
      if failure.Raised? {
        StopFromKeepsDoors(s, AfterError(failure.error), Keys(s.pool));
        StopFromKeepsClosers(s, AfterError(failure.error), Keys(s.pool));
      }
    case Left =>
      if !s.pc.ending.Escaped? {
        StopFromKeepsDoors(s, AfterLeaving(s.pc.ending, s.closing), Keys(s.pool));
        StopFromKeepsClosers(s, AfterLeaving(s.pc.ending, s.closing), Keys(s.pool));
      }
    case StopResumes =>
      StopFromKeepsDoors(s, s.pc.after, s.pc.todo);
      StopFromKeepsClosers(s, s.pc.after, s.pc.todo);
  }

  lemma SessionReopensAll(s: Client, initial: real)
    requires s.pc.Scheduled? && s.pc.epoch == s.epoch
    ensures
      var t := RunStartStep(s, initial);
      && !t.closing && t.closers == [] && t.pool.table.Keys == s.pool.table.Keys
      && t.pool.shut == s.pool.shut - s.pool.table.Keys && t.pool.nextBucket == s.pool.nextBucket
  {
    var u := SessionBegins(s, initial);
    LoopTopKeepsClosers(u);
    LoopTopPool(u);
    StopAllKeepsDoors(u.pool);
  }

  lemma BucketsKeepDoors(s: Client, act: Label)
    requires DoorsOk(s) && PoolOk(s.pool) && Enabled(s, act)
    requires act.SubscribeOpensBucket? || act.NewBucketGoes? || act.CancelDropped? || act.UnsubscribeLast?
    ensures DoorsOk(Step(s, act))
  {
  }

  lemma RunKeepsDoors(s: Client, act: Label)
    requires DoorsOk(s) && Enabled(s, act) && (act.RunStart? || act.Wake? || act.HandshakeDone?)
    ensures DoorsOk(Step(s, act))
  {
    StopAllKeepsDoors(s.pool);
    match act
    case RunStart(initial) =>
      if s.pc.epoch == s.epoch {
        SessionReopensAll(s, initial);
      }
    case Wake => WakePool(s);
    case HandshakeDone =>
      HandshakeDonePool(s);
      SupervisedKeepsDoors(s.pool);
  }

  lemma SupervisedKeepsDoors(p: Pool)
    ensures Supervised(p).table.Keys == p.table.Keys && Supervised(p).shut == p.shut
    ensures Supervised(p).nextBucket == p.nextBucket
  {
  }

  lemma CloserKeepsDoors(s: Client, act: Label)
    requires DoorsOk(s) && Enabled(s, act) && act.CloseResumes?
    requires forall b :: b in ClosingTodo(s.closers[act.at]) ==> b < s.pool.nextBucket
    ensures DoorsOk(Step(s, act))
  {
    assert s.closing;
    var c := s.closers[act.at];
    if c.StoppingBuckets? && c.todo != [] {
      StopKeepsDoors(s.pool, c.todo[0]);
    } else if c.ClosingBuckets? && c.todo != [] {
      assert c.todo[0] in ClosingTodo(c);
    }
  }

  // ---- The buckets a closer is about to shut ----

  function ClosingTodo(c: ClosePc): seq<BucketId> {
    if c.ClosingBuckets? then c.todo else []
  }

  /** A closer only shuts buckets that exist. */
  predicate TodoOk(s: Client) {
    forall i, b :: 0 <= i < |s.closers| && b in ClosingTodo(s.closers[i]) ==> b < s.pool.nextBucket
  }

  lemma CallCloseKeepsTodo(s: Client)
    requires TodoOk(s) && PoolOk(s.pool)
    ensures TodoOk(CallCloseStep(s))
  {
    forall b | b in Keys(s.pool) ensures b < s.pool.nextBucket {
      KeysAreTheTable(s.pool.table, s.pool.nextBucket, b);
    }
  }

  lemma CloserKeepsTodo(s: Client, at: nat)
    requires TodoOk(s) && at < |s.closers|
    ensures TodoOk(CloseResumesStep(s, at))
  {
    var t := CloseResumesStep(s, at);
    forall b | b in ClosingTodo(t.closers[at]) ensures b in ClosingTodo(s.closers[at]) {
    }
  }

  lemma OtherKeepsTodo(s: Client, t: Client)
    requires TodoOk(s) && (t.closers == s.closers || t.closers == []) && t.pool.nextBucket >= s.pool.nextBucket
    ensures TodoOk(t)
  {
  }

  // ---- A close shuts every bucket ----

  /** The buckets that this `close()` has yet to come to are the only ones still open. */
  predicate Shuts(c: ClosePc, p: Pool) {
    forall b :: b in p.table && b !in p.shut ==> b in ClosingTodo(c)
  }

  predicate AllShut(closers: seq<ClosePc>, p: Pool) {
    forall i :: 0 <= i < |closers| ==> Shuts(closers[i], p)
  }

  lemma FewerOpen(closers: seq<ClosePc>, p: Pool, q: Pool)
    requires AllShut(closers, p) && q.table.Keys <= p.table.Keys && p.shut <= q.shut
    ensures AllShut(closers, q)
  {
    forall i | 0 <= i < |closers| ensures Shuts(closers[i], q) {
      assert Shuts(closers[i], p);
    }
  }

  lemma CallCloseShuts(s: Client)
    requires AllShut(s.closers, s.pool) && PoolOk(s.pool)
    ensures AllShut(CallCloseStep(s).closers, s.pool)
  {
    forall b | b in s.pool.table ensures b in Keys(s.pool) {
      KeysAreTheTable(s.pool.table, s.pool.nextBucket, b);
    }
  }

  lemma CloserPoolOpensNone(c: ClosePc, p: Pool)
    ensures CloserPool(c, p).table.Keys == p.table.Keys && p.shut <= CloserPool(c, p).shut
  {
    if c.StoppingBuckets? && c.todo != [] {
      StopKeepsDoors(p, c.todo[0]);
    }
  }

  lemma ShutsOn(c: ClosePc, p: Pool)
    requires Shuts(c, p)
    ensures Shuts(CloserNext(c, p), CloserPool(c, p))
  {
    CloserPoolOpensNone(c, p);
    var q := CloserPool(c, p);
    forall b | b in q.table && b !in q.shut ensures b in ClosingTodo(CloserNext(c, p)) {
      assert b in ClosingTodo(c);
    }
  }

  lemma CloserShutsOn(closers: seq<ClosePc>, at: nat, p: Pool)
    requires AllShut(closers, p) && at < |closers|
    ensures AllShut(closers[at := CloserNext(closers[at], p)], CloserPool(closers[at], p))
  {
    CloserPoolOpensNone(closers[at], p);
    FewerOpen(closers, p, CloserPool(closers[at], p));
    assert Shuts(closers[at], p);
    ShutsOn(closers[at], p);
  }

  predicate Doors(s: Client) {
    DoorsOk(s) && TodoOk(s) && AllShut(s.closers, s.pool)
  }

  /** The labels under which the closers are not touched. */
  lemma LossKeepsClosers(s: Client, act: Label)
    requires Enabled(s, act) && (act.Interrupted? || act.Left? || act.StopResumes?)
    ensures Step(s, act).closers == s.closers && SameDoors(s.pool, Step(s, act).pool)
  {
    StopAllKeepsDoors(s.pool);
    match act
    case Interrupted(failure) =>
      if failure.Raised? {
        StopFromKeepsDoors(s, AfterError(failure.error), Keys(s.pool));
        StopFromKeepsClosers(s, AfterError(failure.error), Keys(s.pool));
      }
    case Left =>
      if !s.pc.ending.Escaped? {
        StopFromKeepsDoors(s, AfterLeaving(s.pc.ending, s.closing), Keys(s.pool));
        StopFromKeepsClosers(s, AfterLeaving(s.pc.ending, s.closing), Keys(s.pool));
      }
    case StopResumes =>
      StopFromKeepsDoors(s, s.pc.after, s.pc.todo);
      StopFromKeepsClosers(s, s.pc.after, s.pc.todo);
  }

  lemma RunKeepsClosers(s: Client, act: Label)
    requires Enabled(s, act) && (act.RunStart? || act.Wake? || act.HandshakeDone?)
    ensures (Step(s, act).closers == s.closers && SameDoors(s.pool, Step(s, act).pool)) || Step(s, act).closers == []
    ensures Step(s, act).pool.nextBucket == s.pool.nextBucket
  {
    StopAllKeepsDoors(s.pool);
    match act
    case RunStart(initial) =>
      if s.pc.epoch == s.epoch {
        SessionReopensAll(s, initial);
      }
    case Wake => WakePool(s);
    case HandshakeDone =>
      HandshakeDonePool(s);
      SupervisedKeepsDoors(s.pool);
  }

  lemma StepKeepsOpen(s: Client, act: Label)
    requires Doors(s) && PoolOk(s.pool) && Enabled(s, act)
    ensures Doors(Step(s, act))
  {
    if act.Interrupted? || act.Left? || act.StopResumes? {
      LossKeepsDoors(s, act);
      LossKeepsClosers(s, act);
      OtherKeepsTodo(s, Step(s, act));
      FewerOpen(s.closers, s.pool, Step(s, act).pool);
    } else if act.RunStart? || act.Wake? || act.HandshakeDone? {
      RunKeepsDoors(s, act);
      RunKeepsClosers(s, act);
      OtherKeepsTodo(s, Step(s, act));
      if Step(s, act).closers == s.closers && SameDoors(s.pool, Step(s, act).pool) {
        FewerOpen(s.closers, s.pool, Step(s, act).pool);
      }
    } else if act.CallClose? {
      CallCloseKeepsTodo(s);
      CallCloseShuts(s);
    } else if act.CloseResumes? {
      CloserKeepsDoors(s, act);
      CloserKeepsTodo(s, act.at);
      CloserShutsOn(s.closers, act.at, s.pool);
    } else {
      BesideKeepsDoors(s, act);
    }
  }

  lemma BesideKeepsDoors(s: Client, act: Label)
    requires Doors(s) && PoolOk(s.pool) && Enabled(s, act) && !act.CallClose? && !act.CloseResumes?
    requires !act.Interrupted? && !act.Left? && !act.StopResumes? && !act.RunStart? && !act.Wake? && !act.HandshakeDone?
    ensures Doors(Step(s, act))
  {
    if act.SubscribeOpensBucket? || act.NewBucketGoes? || act.CancelDropped? || act.UnsubscribeLast? {
      BucketsKeepDoors(s, act);
    } else {
      SameDoorsAreOk(s, Step(s, act));
    }
    OtherKeepsTodo(s, Step(s, act));
    if s.closers != [] {
      FewerOpen(s.closers, s.pool, Step(s, act).pool);
    }
  }

  lemma {:induction false} RunKeepsOpen(s: Client, labels: seq<Label>)
    requires Doors(s) && Safe(s) && CanRun(s, labels)
    ensures Doors(Run(s, labels)) && Safe(Run(s, labels))
    decreases |labels|
  {
    if labels != [] {
      StepKeepsOpen(s, labels[0]);
      StepIsSafe(s, labels[0]);
      RunKeepsOpen(Step(s, labels[0]), labels[1..]);
    }
  }

  lemma Reachable(timeout: Option<real>, labels: seq<Label>)
    requires CanRun(Initial(timeout), labels)
    ensures Doors(Run(Initial(timeout), labels)) && Safe(Run(Initial(timeout), labels))
  {
    InitiallySafe(timeout);
    RunKeepsOpen(Initial(timeout), labels);
  }

  // ---- What goes for good, and what a close shuts ----

  /** In every reachable state: a `close()` that has been through the buckets, returned or not, has
      left none of the table open, as long as no session began since. */
  lemma ClosedIsShut(timeout: Option<real>, labels: seq<Label>, i: nat)
    requires CanRun(Initial(timeout), labels) && i < |Run(Initial(timeout), labels).closers|
    requires !Run(Initial(timeout), labels).closers[i].ClosingBuckets?
    ensures
      var p := Run(Initial(timeout), labels).pool;
      forall b :: b in p.table ==> b in p.shut
  {
    Reachable(timeout, labels);
    var s := Run(Initial(timeout), labels);
    assert Shuts(s.closers[i], s.pool);
  }

  /** It returns no sooner than its socket is down. */
  lemma CloseWaitsForTheSocket(s: Client, at: nat)
    requires Enabled(s, CloseResumes(at))
    ensures Step(s, CloseResumes(at)).closers[at] == Closed <==> s.closers[at] == ClosingSocket
    ensures Step(s, CloseResumes(at)).closers[at] == Closed ==> !s.up
  {
  }

  /** A bucket that is shut neither dials nor serves: its supervisor ends. */
  lemma ShutNeitherDialsNorServes(s: Client, t: TaskId)
    requires t.bucket in s.pool.shut
    ensures Enabled(s, SupervisorBegins(t)) ==>
      var p := Step(s, SupervisorBegins(t)).pool;
      p.tasks[t].pc == Finished && p.sockets == s.pool.sockets
    ensures Enabled(s, SupervisorOpens(t)) ==>
      var p := Step(s, SupervisorOpens(t)).pool;
      p.tasks[t].pc == Finished && p.sockets == s.pool.sockets
  {
  }

  /** A new bucket that did not open in time, or whose caller was cancelled, leaves the table, shut;
      its supervisor is cancelled with it, or is the next thing to be. */
  lemma DiscardedBucketEnds(timeout: Option<real>, labels: seq<Label>, b: BucketId, atOnce: bool)
    requires CanRun(Initial(timeout), labels) && b in Run(Initial(timeout), labels).pool.table
    ensures Enabled(Run(Initial(timeout), labels), NewBucketGoes(b, atOnce))
    ensures
      var s := Run(Initial(timeout), labels);
      var t := Step(s, NewBucketGoes(b, atOnce));
      && b !in t.pool.table && b in t.pool.shut
      && forall u :: Live(t.pool, u) && u.bucket == b ==>
           && !atOnce && s.pool.table[b] == Some(u)
           && Enabled(t, CancelDropped(u)) && !Live(Step(t, CancelDropped(u)).pool, u)
  {
    Reachable(timeout, labels);
    DiscardEnds(Run(Initial(timeout), labels), b, atOnce);
  }

  lemma DiscardEnds(s: Client, b: BucketId, atOnce: bool)
    requires PoolOk(s.pool) && b in s.pool.table
    ensures Enabled(s, NewBucketGoes(b, atOnce))
    ensures
      var t := Step(s, NewBucketGoes(b, atOnce));
      && b !in t.pool.table && b in t.pool.shut
      && forall u :: Live(t.pool, u) && u.bucket == b ==>
           && !atOnce && s.pool.table[b] == Some(u)
           && Enabled(t, CancelDropped(u)) && !Live(Step(t, CancelDropped(u)).pool, u)
  {
    var t := Step(s, NewBucketGoes(b, atOnce));
    assert t.pool == Discarded(s.pool, b, atOnce);
    forall u | Live(t.pool, u) && u.bucket == b
      ensures
        && !atOnce && s.pool.table[b] == Some(u)
        && Enabled(t, CancelDropped(u)) && !Live(Step(t, CancelDropped(u)).pool, u)
    {
      DroppedWithItsBucket(s.pool, b, atOnce, u);
    }
  }

  lemma DroppedWithItsBucket(p: Pool, b: BucketId, atOnce: bool, u: TaskId)
    requires PoolOk(p) && b in p.table && Live(Discarded(p, b, atOnce), u) && u.bucket == b
    ensures
      var q := Discarded(p, b, atOnce);
      !atOnce && p.table[b] == Some(u) && u in q.dropped && !Live(CancelledLate(q, u), u)
  {
    assert Live(p, u);
  }

  /** The end of `start()` cancels the supervisors the table names, and no other. */
  lemma EndOfStartCancels(p: Pool)
    ensures StopAll(p).table.Keys == p.table.Keys && forall b :: b in p.table ==> StopAll(p).table[b] == None
    ensures StopAll(p).tasks.Keys == p.tasks.Keys
    ensures forall t :: t in p.tasks ==>
      StopAll(p).tasks[t] ==
        if t.bucket in p.table && p.table[t.bucket] == Some(t) then p.tasks[t].(cancelled := true) else p.tasks[t]
  {
  }

  // ---- What a new session, and a new socket, bring back ----

  /** However the session before it ended: when a new one begins, no bucket of the table is shut, and
      none that was taken away is opened again; its backoff begins with the delay just drawn. */
  lemma SessionReopens(timeout: Option<real>, labels: seq<Label>, initial: real)
    requires CanRun(Initial(timeout), labels) && Enabled(Run(Initial(timeout), labels), RunStart(initial))
    requires
      var s := Run(Initial(timeout), labels);
      s.pc.epoch == s.epoch
    ensures
      var s := Run(Initial(timeout), labels);
      var t := Step(s, RunStart(initial));
      && !t.closing && t.pool.table.Keys == s.pool.table.Keys
      && (forall b :: b in t.pool.table ==> b !in t.pool.shut)
      && (forall b :: b !in t.pool.table ==> (b in t.pool.shut <==> b in s.pool.shut))
      && t.delay.initial == initial && t.drawn == (if s.reconnection.None? then [] else [initial])
  {
    SessionReopensAll(Run(Initial(timeout), labels), initial);
    SessionDraws(Run(Initial(timeout), labels), initial);
  }

  lemma SessionDraws(s: Client, initial: real)
    requires s.pc.Scheduled? && s.pc.epoch == s.epoch
    ensures
      var t := RunStartStep(s, initial);
      t.delay.initial == initial && t.drawn == if s.reconnection.None? then [] else [initial]
  {
    var u := SessionBegins(s, initial);
    assert Draw(u).drawn == [initial] && Draw(u).delay.initial == initial;
    if u.reconnection.None? {
      assert LoopTop(u) == Attempt(u);
    } else if Expired(u, u.reconnection.value) {
      assert LoopTop(u) == Finish(Draw(u), Failed);
    } else {
      assert LoopTop(u).drawn == Draw(u).drawn && LoopTop(u).delay == Draw(u).delay;
    }
  }

  /** Every bucket has a supervisor of its own that has not begun, and the table says so. */
  predicate FreshlySupervised(before: Pool, p: Pool, b: BucketId) {
    && b in p.table && p.table[b].Some?
    && var t := p.table[b].value;
    t.bucket == b && t !in before.tasks && t in p.tasks && p.tasks[t] == Supervisor(Ready, false)
  }

  lemma SupervisedAfresh(p: Pool)
    requires Numbered(p)
    ensures
      var q := Supervised(p);
      && q.table.Keys == p.table.Keys && q.shut == p.shut && q.sockets == p.sockets
      && (forall b :: b in p.table ==> FreshlySupervised(p, q, b))
      && (forall t :: t in p.tasks ==> t in q.tasks && q.tasks[t] == p.tasks[t])
      && forall t :: t in q.tasks && t !in p.tasks ==> t.bucket in p.table && q.table[t.bucket] == Some(t)
  {
  }

  /** In every reachable state in which the client's socket comes up: unless the client is closing,
      every bucket of the table gets one new supervisor, ready to begin, and the table names it; no
      other bucket gets any, and no other task is touched. A client that is closing gets none. */
  lemma ReconnectSupervisesAll(timeout: Option<real>, labels: seq<Label>)
    requires CanRun(Initial(timeout), labels) && Enabled(Run(Initial(timeout), labels), HandshakeDone)
    ensures
      var s := Run(Initial(timeout), labels);
      var p, q := s.pool, Step(s, HandshakeDone).pool;
      if s.closing then q == p && Step(s, HandshakeDone).pc == HangingUp
      else
        && Step(s, HandshakeDone).pc == (if p.table == map[] then Reading else AwaitBuckets)
        && q.table.Keys == p.table.Keys
        && (forall b :: b in p.table ==> FreshlySupervised(p, q, b))
        && (forall t :: t in p.tasks ==> t in q.tasks && q.tasks[t] == p.tasks[t])
        && forall t :: t in q.tasks && t !in p.tasks ==> t.bucket in p.table && q.table[t.bucket] == Some(t)
  {
    Reachable(timeout, labels);
    var s := Run(Initial(timeout), labels);
    SupervisedAfresh(s.pool);
    HandshakeDoneSupervises(s);
  }

  lemma HandshakeDoneSupervises(s: Client)
    ensures HandshakeDoneStep(s).pool == if s.closing || s.pool.table == map[] then s.pool else Supervised(s.pool)
  {
  }

  /** The two steps that take a supervisor to its socket. */
  function ToItsSocket(t: TaskId): seq<Label> {
    [SupervisorBegins(t), SupervisorOpens(t)]
  }

  lemma ReadyOpens(s: Client, t: TaskId)
    requires t in s.pool.tasks && s.pool.tasks[t] == Supervisor(Ready, false) && t.bucket !in s.pool.shut
    ensures CanRun(s, ToItsSocket(t))
    ensures
      var r := Run(s, ToItsSocket(t)).pool;
      t in r.tasks && r.tasks[t] == Supervisor(Serving, false)
      && Sockets(r, t.bucket) == Sockets(s.pool, t.bucket) + 1
  {
    var u := Step(s, SupervisorBegins(t));
    assert u.pool.tasks[t] == Supervisor(Connecting, false) && u.pool.shut == s.pool.shut;
    var v := Step(u, SupervisorOpens(t));
    assert ToItsSocket(t)[1..] == [SupervisorOpens(t)] && [SupervisorOpens(t)][1..] == [];
    assert Run(u, [SupervisorOpens(t)]) == Run(v, []) == v;
  }

  /** And from there each of those buckets can open its next socket: its supervisor dials, and
      serves it. */
  lemma EveryBucketComesBack(timeout: Option<real>, labels: seq<Label>, b: BucketId)
    requires CanRun(Initial(timeout), labels) && Enabled(Run(Initial(timeout), labels), HandshakeDone)
    requires !Run(Initial(timeout), labels).closing && b in Run(Initial(timeout), labels).pool.table
    ensures
      var s := Run(Initial(timeout), labels);
      var up := Step(s, HandshakeDone);
      && b in up.pool.table && up.pool.table[b].Some?
      && var t := up.pool.table[b].value;
      && CanRun(up, ToItsSocket(t))
      && var back := Run(up, ToItsSocket(t)).pool;
      && t in back.tasks && back.tasks[t] == Supervisor(Serving, false)
      && t.bucket == b && Sockets(back, b) == Sockets(s.pool, b) + 1
  {
    Reachable(timeout, labels);
    ReconnectSupervisesAll(timeout, labels);
    var s := Run(Initial(timeout), labels);
    SupervisedAfresh(s.pool);
    HandshakeDoneSupervises(s);
    var up := Step(s, HandshakeDone);
    assert FreshlySupervised(s.pool, up.pool, b);
    ReadyOpens(up, up.pool.table[b].value);
  }
}

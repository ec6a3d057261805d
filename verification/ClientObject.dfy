/** The client as an object: its fields, and the methods that update them in place. Each is
    proved against the function of `Lifecycle` that the state machine takes for the same step. */
module ClientObject {
  import opened Options
  import opened Lifecycle
  import opened SupervisorSafety
  import Delay
  import Revival

  type Table = map<BucketId, Option<TaskId>>

  // ---- Loops over the table ----

  /** The table and the tasks after the supervisors of `done` were cancelled. */
  function StoppedTable(table: Table, done: seq<BucketId>): Table {
    map b | b in table :: if b in done then None else table[b]
  }

  function StoppedTasks(table: Table, tasks: map<TaskId, Supervisor>, done: seq<BucketId>): map<TaskId, Supervisor> {
    map t | t in tasks :: if t.bucket in done && t.bucket in table && table[t.bucket] == Some(t)
                          then tasks[t].(cancelled := true) else tasks[t]
  }

  lemma NothingStopped(table: Table, tasks: map<TaskId, Supervisor>)
    ensures StoppedTable(table, []) == table && StoppedTasks(table, tasks, []) == tasks
  {
  }

  lemma StoppedOneMore(table: Table, tasks: map<TaskId, Supervisor>, done: seq<BucketId>, b: BucketId)
    requires b in table && (table[b].Some? ==> table[b].value.bucket == b)
    ensures StoppedTable(table, done + [b]) == StoppedTable(table, done)[b := None]
    ensures
      var before := StoppedTasks(table, tasks, done);
      StoppedTasks(table, tasks, done + [b]) ==
        if table[b].Some? && table[b].value in before
        then before[table[b].value := before[table[b].value].(cancelled := true)] else before
  {
  }

  lemma AllStopped(p: Pool, all: seq<BucketId>)
    requires forall b :: b in all <==> b in p.table
    ensures StoppedTable(p.table, all) == StopAll(p).table
    ensures StoppedTasks(p.table, p.tasks, all) == StopAll(p).tasks
  {
  }

  /** The same after the buckets of `done` got their `n`-th supervisors. */
  function SupervisedTable(table: Table, n: nat, done: seq<BucketId>): Table {
    map b | b in table :: if b in done then Some(TaskId(b, n)) else table[b]
  }

  function SupervisedTasks(tasks: map<TaskId, Supervisor>, n: nat, done: seq<BucketId>): map<TaskId, Supervisor> {
    tasks + map b | b in done :: TaskId(b, n) := Supervisor(Ready, false)
  }

  function Serials(newest: map<BucketId, nat>, n: nat, done: seq<BucketId>): map<BucketId, nat> {
    newest + map b | b in done :: n
  }

  lemma NothingSupervised(table: Table, tasks: map<TaskId, Supervisor>, newest: map<BucketId, nat>, n: nat)
    ensures SupervisedTable(table, n, []) == table
    ensures SupervisedTasks(tasks, n, []) == tasks && Serials(newest, n, []) == newest
  {
  }

  lemma TableOneMore(table: Table, n: nat, done: seq<BucketId>, b: BucketId)
    requires b in table
    ensures SupervisedTable(table, n, done + [b]) == SupervisedTable(table, n, done)[b := Some(TaskId(b, n))]
  {
  }

  lemma TasksOneMore(tasks: map<TaskId, Supervisor>, n: nat, done: seq<BucketId>, b: BucketId)
    ensures SupervisedTasks(tasks, n, done + [b])
         == SupervisedTasks(tasks, n, done)[TaskId(b, n) := Supervisor(Ready, false)]
  {
    var before: map<TaskId, Supervisor> := map c | c in done :: TaskId(c, n) := Supervisor(Ready, false);
    var after: map<TaskId, Supervisor> := map c | c in done + [b] :: TaskId(c, n) := Supervisor(Ready, false);
    assert after == before[TaskId(b, n) := Supervisor(Ready, false)];
  }

  lemma SerialsOneMore(newest: map<BucketId, nat>, n: nat, done: seq<BucketId>, b: BucketId)
    ensures Serials(newest, n, done + [b]) == Serials(newest, n, done)[b := n]
  {
  }

  lemma TableSupervised(p: Pool, all: seq<BucketId>)
    requires forall b :: b in all <==> b in p.table
    ensures SupervisedTable(p.table, p.nextTask, all) == Supervised(p).table
  {
  }

  lemma TasksSupervised(p: Pool, all: seq<BucketId>)
    requires forall b :: b in all <==> b in p.table
    ensures SupervisedTasks(p.tasks, p.nextTask, all) == Supervised(p).tasks
  {
  }

  lemma SerialsSupervised(p: Pool, all: seq<BucketId>)
    requires forall b :: b in all <==> b in p.table
    ensures Serials(p.newest, p.nextTask, all) == Supervised(p).newest
  {
  }

  class BfxWebSocketClient {
    const timeout: Option<real>
    var closing: bool
    var closeRequested: bool
    var closeEpoch: nat
    var reconnection: Option<Outage>
    var connectedAt: Option<real>
    var authentication: bool
    var open: bool
    var buckets: map<BucketId, Option<TaskId>>
    var shut: set<BucketId>
    var tasks: map<TaskId, Supervisor>
    var nextBucket: nat
    var nextTask: nat
    var dropped: set<TaskId>
    ghost var newest: map<BucketId, nat>
    ghost var sockets: map<BucketId, nat>

    ghost function Supervisors(): Pool
      reads this
    {
      Pool(buckets, shut, tasks, nextBucket, nextTask, dropped, newest, sockets)
    }

    /** The state machine's view of the object, at `s`'s place in the run. */
    ghost predicate Is(s: Client)
      reads this
    {
      && s.timeout == timeout && s.closing == closing && s.closeRequested == closeRequested && s.epoch == closeEpoch
      && s.reconnection == reconnection && s.connectedAt == connectedAt && s.authentication == authentication
      && s.up == open && s.pool == Supervisors()
    }

    constructor (timeout: Option<real>)
      ensures Is(Initial(timeout))
    {
      this.timeout := timeout;
      closing, closeRequested, closeEpoch, reconnection, connectedAt := false, false, 0, None, None;
      authentication, open := false, false;
      buckets, shut, tasks, nextBucket, nextTask, dropped := map[], {}, map[], 0, 0, {};
      newest, sockets := map[], map[];
    }

    /** `__begin_outage`: a fresh deadline, and the backoff is reset by a stable connection only. */
    method BeginOutage(delay: Delay.DelayTimer, clock: real)
      requires delay.Valid()
      modifies this`reconnection, this`authentication, this`connectedAt, delay
      ensures delay.Valid()
      ensures forall s :: old(Is(s)) && s.clock == clock && s.delay == old(delay.State()) ==>
        Is(Lifecycle.BeginOutage(s)) && Lifecycle.BeginOutage(s).delay == delay.State()
      ensures reconnection == Some(Outage(if timeout.None? then None else Some(clock + timeout.value), 1, clock, 0))
      ensures !authentication && connectedAt == None && delay.initialDelay == old(delay.initialDelay)
      ensures delay.drawn ==
        if old(connectedAt).Some? && clock - old(connectedAt).value >= 30.0 then 0 else old(delay.drawn)
    {
      var deadline := if timeout.None? then None else Some(clock + timeout.value);
      reconnection := Some(Outage(deadline, 1, clock, 0));
      authentication := false;
      if connectedAt.Some? && clock - connectedAt.value >= STABLE_CONNECTION_TIME {
        delay.Reset();
      }
      connectedAt := None;
    }

    /** `__time_left`: `over` is the ReconnectionTimeoutError. */
    method TimeLeft(clock: real) returns (over: bool, left: Option<real>)
      requires reconnection.Some?
      ensures over <==> reconnection.value.deadline.Some? && reconnection.value.deadline.value <= clock
      ensures !over ==> left.Some? == reconnection.value.deadline.Some?
      ensures !over && left.Some? ==> left.value > 0.0 && clock + left.value == reconnection.value.deadline.value
    {
      over, left := false, None;
      if reconnection.value.deadline.Some? {
        left := Some(reconnection.value.deadline.value - clock);
        over := left.value <= 0.0;
      }
    }

    /** The start of `__run`. */
    method BeginSession()
      requires Numbered(Supervisors())
      modifies this`closing, this`closeRequested, this`shut
      ensures forall s, initial :: old(Is(s)) ==> Is(SessionBegins(s, initial))
      ensures !closing && !closeRequested
      ensures forall b :: b in shut <==> b in old(shut) && b !in buckets
    {
      closing := false;
      closeRequested := false;
      var all := BucketList();
      for i := 0 to |all|
        invariant !closing && !closeRequested
        invariant shut == old(shut) - (set b | b in all[..i])
      {
        shut := shut - {all[i]};
        assert all[..i + 1] == all[..i] + [all[i]];
      }
      assert all[..|all|] == all;
      assert (set b | b in all) == buckets.Keys;
    }

    /** `list(self.__buckets)`. */
    method BucketList() returns (all: seq<BucketId>)
      requires Numbered(Supervisors())
      ensures all == Keys(Supervisors())
      ensures forall b :: b in all <==> b in buckets
    {
      all := KeysFrom(buckets, nextBucket);
      forall b ensures b in all <==> b in buckets {
        KeysAreTheTable(buckets, nextBucket, b);
      }
    }

    /** `self.__buckets[bucket] = None` and the cancellation of what was there. */
    method StopBucket(b: BucketId)
      modifies this`buckets, this`tasks
      ensures Supervisors() == Stop(old(Supervisors()), b)
      ensures b in old(buckets) ==> buckets == old(buckets)[b := None]
      ensures tasks == if b in old(buckets) && old(buckets)[b].Some? && old(buckets)[b].value in old(tasks)
        then old(tasks)[old(buckets)[b].value := old(tasks)[old(buckets)[b].value].(cancelled := true)] else old(tasks)
    {
      if b in buckets && buckets[b].Some? {
        var task := buckets[b].value;
        buckets := buckets[b := None];
        if task in tasks {
          tasks := tasks[task := tasks[task].(cancelled := true)];
        }
      }
    }

    method StopEach(all: seq<BucketId>)
      requires forall i, j :: 0 <= i < j < |all| ==> all[i] < all[j]
      requires forall i :: 0 <= i < |all| ==> all[i] in buckets
      requires forall b :: b in buckets && buckets[b].Some? ==> buckets[b].value.bucket == b
      modifies this`buckets, this`tasks
      ensures buckets == StoppedTable(old(buckets), all)
      ensures tasks == StoppedTasks(old(buckets), old(tasks), all)
    {
      NothingStopped(buckets, tasks);
      for i := 0 to |all|
        invariant buckets == StoppedTable(old(buckets), all[..i])
        invariant tasks == StoppedTasks(old(buckets), old(tasks), all[..i])
      {
        StoppedOneMore(old(buckets), old(tasks), all[..i], all[i]);
        assert all[..i + 1] == all[..i] + [all[i]];
        assert all[i] !in all[..i];
        StopBucket(all[i]);
      }
      assert all[..|all|] == all;
    }

    /** The `finally` of `__start`: whatever was supervised no longer is. */
    method CancelAll()
      requires Numbered(Supervisors())
      modifies this`buckets, this`tasks
      ensures Supervisors() == StopAll(old(Supervisors()))
      ensures buckets.Keys == old(buckets).Keys && forall b :: b in buckets ==> buckets[b] == None
      ensures tasks.Keys == old(tasks).Keys
      ensures forall t :: t in tasks ==>
        tasks[t] == if t.bucket in old(buckets) && old(buckets)[t.bucket] == Some(t)
                    then old(tasks)[t].(cancelled := true) else old(tasks)[t]
    {
      var all := BucketList();
      KeysAreDistinct(buckets, nextBucket);
      AllStopped(Supervisors(), all);
      Revival.EndOfStartCancels(Supervisors());
      StopEach(all);
    }

    method SuperviseEach(all: seq<BucketId>)
      requires forall i :: 0 <= i < |all| ==> all[i] in buckets
      modifies this`buckets, this`tasks, this`newest
      ensures buckets == SupervisedTable(old(buckets), nextTask, all)
      ensures tasks == SupervisedTasks(old(tasks), nextTask, all)
      ensures newest == Serials(old(newest), nextTask, all)
    {
      NothingSupervised(buckets, tasks, newest, nextTask);
      for i := 0 to |all|
        invariant buckets == SupervisedTable(old(buckets), nextTask, all[..i])
        invariant tasks == SupervisedTasks(old(tasks), nextTask, all[..i])
        invariant newest == Serials(old(newest), nextTask, all[..i])
      {
        TableOneMore(old(buckets), nextTask, all[..i], all[i]);
        TasksOneMore(old(tasks), nextTask, all[..i], all[i]);
        SerialsOneMore(old(newest), nextTask, all[..i], all[i]);
        assert all[..i + 1] == all[..i] + [all[i]];
        var task := TaskId(all[i], nextTask);
        buckets := buckets[all[i] := Some(task)];
        tasks := tasks[task := Supervisor(Ready, false)];
        newest := newest[all[i] := nextTask];
      }
      assert all[..|all|] == all;
    }

    /** `__connect`: one new supervisor for every bucket. */
    method SuperviseAll()
      requires Numbered(Supervisors())
      modifies this`buckets, this`tasks, this`newest, this`nextTask
      ensures Supervisors() == Supervised(old(Supervisors()))
    {
      var all := BucketList();
      TableSupervised(Supervisors(), all);
      TasksSupervised(Supervisors(), all);
      SerialsSupervised(Supervisors(), all);
      SuperviseEach(all);
      nextTask := nextTask + 1;
    }

    /** `close()` up to its first suspension point. */
    method CallClose()
      modifies this`closing, this`closeRequested, this`closeEpoch
      ensures forall s :: old(Is(s)) ==> Is(CallCloseStep(s))
      ensures closing && closeRequested && closeEpoch == old(closeEpoch) + 1
    {
      closing := true;
      closeEpoch := closeEpoch + 1;
      closeRequested := true;
    }

    /** What `__connect` does once its handshake is done, up to its next suspension point. */
    method SocketOpens(clock: real)
      requires Numbered(Supervisors())
      modifies this`reconnection, this`open, this`connectedAt, this`buckets, this`tasks, this`newest, this`nextTask
      ensures reconnection == None && open && connectedAt == Some(clock)
      ensures Supervisors() == OnceOpen(closing, old(Supervisors()))
      ensures closing ==> buckets == old(buckets) && tasks == old(tasks)
      ensures !closing ==> buckets.Keys == old(buckets).Keys
      ensures !closing ==> forall b :: b in buckets ==>
        && buckets[b].Some? && buckets[b].value.bucket == b && buckets[b].value !in old(tasks)
        && buckets[b].value in tasks && tasks[buckets[b].value] == Supervisor(Ready, false)
      ensures forall t :: t in old(tasks) ==> t in tasks && tasks[t] == old(tasks)[t]
      ensures forall t :: t in tasks && t !in old(tasks) ==> t.bucket in buckets && buckets[t.bucket] == Some(t)
    {
      reconnection := None;
      open := true;
      connectedAt := Some(clock);
      Revival.SupervisedAfresh(Supervisors());
      if !closing && buckets != map[] {
        SuperviseAll();
      }
    }
  }

  lemma {:induction false} KeysAreDistinct(table: Table, next: nat)
    ensures forall i, j :: 0 <= i < j < |KeysFrom(table, next)| ==> KeysFrom(table, next)[i] < KeysFrom(table, next)[j]
    ensures forall i :: 0 <= i < |KeysFrom(table, next)| ==> KeysFrom(table, next)[i] < next
  {
    if next > 0 {
      KeysAreDistinct(table, next - 1);
      var before := KeysFrom(table, next - 1);
      assert KeysFrom(table, next) == before || KeysFrom(table, next) == before + [next - 1];
    }
  }
}

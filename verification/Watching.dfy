/** The supervisors of the whole client, each with the count it keeps: when one gives up. */
module Watching {
  import opened Options
  import opened Lifecycle
  import opened SupervisorSafety
  import Announcements
  import GiveUp

  /** What one supervisor has seen: its bucket's sockets when it began, and its attempts. */
  datatype Log = Log(first: nat, outcomes: seq<GiveUp.Outcome>)

  /** The client, when each bucket's last socket opened (`_opened_at`), and what the supervisors saw. */
  datatype Watch = Watch(client: Client, openedAt: map<BucketId, real>, logs: map<TaskId, Log>)

  /** A step of the client; the end of an attempt says how it ended, and not what follows. */
  datatype Move =
    | Plain(move: Label)
    | Ends(task: TaskId, ending: GiveUp.Ending)

  const NOTHING := Log(0, [])

  function LogOf(w: Watch, t: TaskId): Log {
    if t in w.logs then w.logs[t] else NOTHING
  }

  /** `_uptime()`. */
  function Uptime(w: Watch, b: BucketId): real {
    w.client.clock - if b in w.openedAt then w.openedAt[b] else 0.0
  }

  /** The supervisor's log with the attempt that has just ended. */
  function Logged(w: Watch, t: TaskId, ending: GiveUp.Ending): Log {
    var log := LogOf(w, t);
    log.(outcomes := log.outcomes + [GiveUp.Outcome(ending, Sockets(w.client.pool, t.bucket), Uptime(w, t.bucket))])
  }

  /** The counter a supervisor keeps. */
  function Failures(log: Log): nat {
    GiveUp.Tally(log.first, log.outcomes, |log.outcomes|)
  }

  /** The last attempt of the log was a stable one. */
  predicate EndsStable(log: Log)
    requires log.outcomes != []
  {
    GiveUp.StableAt(log.first, log.outcomes, |log.outcomes| - 1)
  }

  /** The supervisor's own test. */
  predicate GivesUpNow(w: Watch, t: TaskId, ending: GiveUp.Ending) {
    var log := Logged(w, t, ending);
    !EndsStable(log) && GiveUp.Fails(log.outcomes[|log.outcomes| - 1])
    && Failures(LogOf(w, t)) + 1 >= GiveUp.BUCKET_RESTART_LIMIT
  }

  function LabelOf(w: Watch, m: Move): Label {
    match m
    case Plain(move) => move
    case Ends(t, ending) => SupervisorDrops(t, GivesUpNow(w, t, ending))
  }

  predicate CanMove(w: Watch, m: Move) {
    Enabled(w.client, LabelOf(w, m)) && (m.Plain? ==> !m.move.SupervisorDrops?)
  }

  function LogsAfter(w: Watch, m: Move): map<TaskId, Log> {
    match m
    case Plain(SupervisorBegins(t)) => w.logs[t := Log(Sockets(w.client.pool, t.bucket), [])]
    case Plain(_) => w.logs
    case Ends(t, ending) => if BucketIsDone(w.client, t.bucket) then w.logs else w.logs[t := Logged(w, t, ending)]
  }

  function Moved(w: Watch, m: Move): Watch
    requires CanMove(w, m)
  {
    Watch(Step(w.client, LabelOf(w, m)),
          if m.Plain? && m.move.SupervisorOpens? && m.move.task.bucket !in w.client.pool.shut then
            w.openedAt[m.move.task.bucket := w.client.clock]
          else w.openedAt,
          LogsAfter(w, m))
  }

  predicate CanWatch(w: Watch, moves: seq<Move>)
    decreases |moves|
  {
    moves != [] ==> CanMove(w, moves[0]) && CanWatch(Moved(w, moves[0]), moves[1..])
  }

  function Watched(w: Watch, moves: seq<Move>): Watch
    requires CanWatch(w, moves)
    decreases |moves|
  {
    if moves == [] then w else Watched(Moved(w, moves[0]), moves[1..])
  }

  function Beginning(timeout: Option<real>): Watch {
    Watch(Initial(timeout), map[], map[])
  }

  // ---- What a live supervisor's log says ----

  function LastCount(log: Log): nat {
    if log.outcomes == [] then log.first else log.outcomes[|log.outcomes| - 1].connections
  }

  /** The bucket has opened one socket more than the log knows of exactly while this supervisor is
      on it, and the failures counted are fewer than the limit. */
  predicate LogOk(sockets: nat, serving: bool, log: Log) {
    && sockets == LastCount(log) + (if serving then 1 else 0)
    && Failures(log) < GiveUp.BUCKET_RESTART_LIMIT
  }

  ghost predicate LogsOk(p: Pool, logs: map<TaskId, Log>) {
    forall t :: Live(p, t) && !p.tasks[t].pc.Ready? ==>
      t in logs && LogOk(Sockets(p, t.bucket), p.tasks[t].pc.Serving?, logs[t])
  }

  ghost predicate WatchOk(w: Watch) {
    Safe(w.client) && LogsOk(w.client.pool, w.logs)
  }

  // ---- The attempt that has just ended ----

  lemma {:induction false} TallyOfPrefix(first: nat, outcomes: seq<GiveUp.Outcome>, o: GiveUp.Outcome, n: nat)
    requires n <= |outcomes|
    ensures GiveUp.Tally(first, outcomes + [o], n) == GiveUp.Tally(first, outcomes, n)
  {
    if n > 0 {
      TallyOfPrefix(first, outcomes, o, n - 1);
      assert GiveUp.StableAt(first, outcomes + [o], n - 1) <==> GiveUp.StableAt(first, outcomes, n - 1);
    }
  }

  lemma FailuresAfter(w: Watch, t: TaskId, ending: GiveUp.Ending)
    ensures
      var log := Logged(w, t, ending);
      Failures(log) == if EndsStable(log) then 0
                       else Failures(LogOf(w, t)) + if GiveUp.Fails(log.outcomes[|log.outcomes| - 1]) then 1 else 0
  {
    var log := LogOf(w, t);
    var o := GiveUp.Outcome(ending, Sockets(w.client.pool, t.bucket), Uptime(w, t.bucket));
    assert Logged(w, t, ending).outcomes == log.outcomes + [o];
    TallyOfPrefix(log.first, log.outcomes, o, |log.outcomes|);
  }

  /** With a count below the limit, the test is whether the limit is now reached. */
  lemma GivesUpAtTheLimit(w: Watch, t: TaskId, ending: GiveUp.Ending)
    requires Failures(LogOf(w, t)) < GiveUp.BUCKET_RESTART_LIMIT
    ensures GivesUpNow(w, t, ending) <==> Failures(Logged(w, t, ending)) == GiveUp.BUCKET_RESTART_LIMIT
    ensures Failures(Logged(w, t, ending)) <= GiveUp.BUCKET_RESTART_LIMIT
  {
    FailuresAfter(w, t, ending);
  }

  lemma LoggedCount(w: Watch, t: TaskId, ending: GiveUp.Ending)
    ensures LastCount(Logged(w, t, ending)) == Sockets(w.client.pool, t.bucket)
  {
  }

  // ---- Every move ----

  lemma ShrinkingKeepsLogs(p: Pool, q: Pool, logs: map<TaskId, Log>)
    requires LogsOk(p, logs) && Announcements.Shrinks(p, q) && q.sockets == p.sockets
    ensures LogsOk(q, logs)
  {
  }

  lemma SupervisedKeepsLogs(p: Pool, logs: map<TaskId, Log>)
    requires PoolOk(p) && LogsOk(p, logs)
    ensures LogsOk(Supervised(p), logs)
  {
    var q := Supervised(p);
    forall t | Live(q, t) && !q.tasks[t].pc.Ready?
      ensures t in logs && LogOk(Sockets(q, t.bucket), q.tasks[t].pc.Serving?, logs[t])
    {
      assert Live(p, t) && q.tasks[t] == p.tasks[t];
    }
  }

  lemma AddedKeepsLogs(p: Pool, logs: map<TaskId, Log>)
    requires PoolOk(p) && LogsOk(p, logs)
    ensures LogsOk(Added(p), logs)
  {
    var q := Added(p);
    forall t | Live(q, t) && !q.tasks[t].pc.Ready?
      ensures t in logs && LogOk(Sockets(q, t.bucket), q.tasks[t].pc.Serving?, logs[t])
    {
      assert Live(p, t) && q.tasks[t] == p.tasks[t];
    }
  }

  /** Only `t` went on. */
  ghost predicate OthersStay(p: Pool, q: Pool, t: TaskId) {
    forall u :: u != t && Live(q, u) ==>
      Live(p, u) && q.tasks[u].pc == p.tasks[u].pc && Sockets(q, u.bucket) == Sockets(p, u.bucket)
  }

  lemma OneGoesOn(p: Pool, q: Pool, t: TaskId, logs: map<TaskId, Log>, log: Log)
    requires LogsOk(p, logs) && OthersStay(p, q, t)
    requires Live(q, t) && !q.tasks[t].pc.Ready? ==> LogOk(Sockets(q, t.bucket), q.tasks[t].pc.Serving?, log)
    ensures LogsOk(q, logs[t := log])
  {
  }

  lemma BeginsKeepsLogs(p: Pool, t: TaskId, logs: map<TaskId, Log>)
    requires LogsOk(p, logs) && Live(p, t)
    ensures LogsOk(Begun(p, t), logs[t := Log(Sockets(p, t.bucket), [])])
  {
    OneGoesOn(p, Begun(p, t), t, logs, Log(Sockets(p, t.bucket), []));
  }

  /** No other live supervisor has the bucket. */
  lemma OpensKeepsLogs(p: Pool, t: TaskId, logs: map<TaskId, Log>)
    requires PoolOk(p) && LogsOk(p, logs) && Live(p, t) && p.tasks[t].pc.Connecting?
    ensures LogsOk(Opened(p, t), logs)
  {
    var q := Opened(p, t);
    assert t in logs && LogOk(Sockets(p, t.bucket), false, logs[t]);
    assert OthersStay(p, q, t) by {
      forall u | u != t && Live(q, u)
        ensures Live(p, u) && q.tasks[u].pc == p.tasks[u].pc && Sockets(q, u.bucket) == Sockets(p, u.bucket)
      {
        assert Live(p, u);
        assert u.bucket == t.bucket ==> u.serial == t.serial;
      }
    }
    OneGoesOn(p, q, t, logs, logs[t]);
    assert logs[t := logs[t]] == logs;
  }

  lemma RedialKeepsLogs(p: Pool, t: TaskId, done: bool, logs: map<TaskId, Log>)
    requires LogsOk(p, logs) && Live(p, t) && p.tasks[t].pc.Asleep?
    ensures LogsOk(Woken(p, t, done), logs)
  {
    assert t in logs;
    OneGoesOn(p, Woken(p, t, done), t, logs, logs[t]);
    assert logs[t := logs[t]] == logs;
  }

  lemma EndsALoggedAttempt(w: Watch, t: TaskId, ending: GiveUp.Ending)
    requires WatchOk(w) && CanMove(w, Ends(t, ending))
    ensures t in w.logs && LogOk(Sockets(w.client.pool, t.bucket), w.client.pool.tasks[t].pc.Serving?, w.logs[t])
  {
    assert Live(w.client.pool, t);
  }

  lemma EndedKeepsLogs(w: Watch, t: TaskId, ending: GiveUp.Ending, givesUp: bool)
    requires LogsOk(w.client.pool, w.logs) && Live(w.client.pool, t)
    requires LastCount(Logged(w, t, ending)) == Sockets(w.client.pool, t.bucket)
    requires !givesUp ==> Failures(Logged(w, t, ending)) < GiveUp.BUCKET_RESTART_LIMIT
    ensures LogsOk(Dropped(w.client.pool, t, false, givesUp), w.logs[t := Logged(w, t, ending)])
  {
    var p := w.client.pool;
    Announcements.MoveShape(p, t, Asleep);
    OneGoesOn(p, Dropped(p, t, false, givesUp), t, w.logs, Logged(w, t, ending));
  }

  lemma EndsKeepsLogs(w: Watch, t: TaskId, ending: GiveUp.Ending)
    requires WatchOk(w) && CanMove(w, Ends(t, ending))
    ensures LogsOk(Moved(w, Ends(t, ending)).client.pool, LogsAfter(w, Ends(t, ending)))
  {
    if BucketIsDone(w.client, t.bucket) {
      FinishingKeepsLogs(w.client.pool, t, w.logs);
    } else {
      EndsALoggedAttempt(w, t, ending);
      GivesUpAtTheLimit(w, t, ending);
      LoggedCount(w, t, ending);
      EndedKeepsLogs(w, t, ending, GivesUpNow(w, t, ending));
    }
  }

  lemma FinishingKeepsLogs(p: Pool, t: TaskId, logs: map<TaskId, Log>)
    requires LogsOk(p, logs)
    ensures LogsOk(WithPc(p, t, Finished), logs)
  {
  }

  lemma SupervisorKeepsLogs(w: Watch, move: Label)
    requires WatchOk(w) && CanMove(w, Plain(move))
    requires move.SupervisorBegins? || move.SupervisorOpens? || move.SupervisorWakes?
    ensures LogsOk(Step(w.client, move).pool, LogsAfter(w, Plain(move)))
  {
    match move
    case SupervisorBegins(t) => BeginsKeepsLogs(w.client.pool, t, w.logs);
    case SupervisorOpens(t) => OpensKeepsLogs(w.client.pool, t, w.logs);
    case SupervisorWakes(t) => RedialKeepsLogs(w.client.pool, t, BucketIsDone(w.client, t.bucket), w.logs);
  }

  lemma OtherKeepsLogs(s: Client, move: Label, logs: map<TaskId, Log>)
    requires Safe(s) && LogsOk(s.pool, logs) && Enabled(s, move)
    requires !Announcements.MovesASupervisor(move) || move.HandshakeDone? || move.SubscribeOpensBucket?
    ensures LogsOk(Step(s, move).pool, logs)
  {
    if move.HandshakeDone? {
      HandshakeDonePool(s);
      SupervisedKeepsLogs(s.pool, logs);
    } else if move.SubscribeOpensBucket? {
      AddedKeepsLogs(s.pool, logs);
    } else {
      Announcements.OtherLabelShrinks(s, move);
      Announcements.NextBucketGrows(s, move);
      ShrinkingKeepsLogs(s.pool, Step(s, move).pool, logs);
    }
  }

  lemma PlainKeepsLogs(w: Watch, move: Label)
    requires WatchOk(w) && CanMove(w, Plain(move))
    ensures LogsOk(Step(w.client, move).pool, LogsAfter(w, Plain(move)))
  {
    if move.SupervisorBegins? || move.SupervisorOpens? || move.SupervisorWakes? {
      SupervisorKeepsLogs(w, move);
    } else {
      OtherKeepsLogs(w.client, move, w.logs);
    }
  }

  lemma MoveKeepsWatch(w: Watch, m: Move)
    requires WatchOk(w) && CanMove(w, m)
    ensures WatchOk(Moved(w, m))
  {
    StepIsSafe(w.client, LabelOf(w, m));
    match m
    case Plain(move) => PlainKeepsLogs(w, move);
    case Ends(t, ending) => EndsKeepsLogs(w, t, ending);
  }

  lemma {:induction false} MovesKeepWatch(w: Watch, moves: seq<Move>)
    requires WatchOk(w) && CanWatch(w, moves)
    ensures WatchOk(Watched(w, moves))
    decreases |moves|
  {
    if moves != [] {
      MoveKeepsWatch(w, moves[0]);
      MovesKeepWatch(Moved(w, moves[0]), moves[1..]);
    }
  }

  lemma InitiallyWatched(timeout: Option<real>)
    ensures WatchOk(Beginning(timeout))
  {
    InitiallySafe(timeout);
  }

  /** The uptime is counted from the bucket's last opening: nothing at that moment, and from there it
      grows with the clock until the bucket opens again. */
  lemma UptimeCounts(w: Watch, m: Move, b: BucketId)
    requires CanMove(w, m) && b in w.openedAt
    ensures b in Moved(w, m).openedAt
    ensures
      var after := Uptime(Moved(w, m), b);
      if m.Plain? && m.move.SupervisorOpens? && m.move.task.bucket == b && b !in w.client.pool.shut then after == 0.0
      else after == Uptime(w, b) + Moved(w, m).client.clock - w.client.clock
  {
    if m.Plain? && m.move.SupervisorOpens? {
      assert Moved(w, m).client.clock == w.client.clock;
    }
  }

  lemma UptimeBegins(w: Watch, t: TaskId)
    requires CanMove(w, Plain(SupervisorOpens(t))) && t.bucket !in w.client.pool.shut
    ensures
      var v := Moved(w, Plain(SupervisorOpens(t)));
      t.bucket in v.openedAt && Uptime(v, t.bucket) == 0.0 && v.client.pool.tasks[t].pc == Serving
  {
  }

  /** An attempt can end wherever it is, before its socket came up or after, and in any way. */
  lemma AnyAttemptCanEnd(w: Watch, t: TaskId, ending: GiveUp.Ending)
    requires Live(w.client.pool, t) && w.client.pool.tasks[t].pc in {Connecting, Serving}
    ensures CanMove(w, Ends(t, ending))
  {
  }

  // ---- When a supervisor gives up ----

  function LabelsOf(w: Watch, moves: seq<Move>): seq<Label>
    requires CanWatch(w, moves)
    decreases |moves|
  {
    if moves == [] then [] else [LabelOf(w, moves[0])] + LabelsOf(Moved(w, moves[0]), moves[1..])
  }

  /** A watched run is a run of the client: all that is proved of those holds here. */
  lemma {:induction false} WatchedIsARun(w: Watch, moves: seq<Move>)
    requires CanWatch(w, moves)
    ensures CanRun(w.client, LabelsOf(w, moves))
    ensures Run(w.client, LabelsOf(w, moves)) == Watched(w, moves).client
    decreases |moves|
  {
    if moves != [] {
      var m := moves[0];
      var rest := LabelsOf(Moved(w, m), moves[1..]);
      WatchedIsARun(Moved(w, m), moves[1..]);
      assert ([LabelOf(w, m)] + rest)[1..] == rest;
    }
  }

  /** The supervisor went out of business although its bucket still has some. */
  predicate GaveUp(w: Watch, m: Move)
    requires CanMove(w, m) && m.Ends?
  {
    !BucketIsDone(w.client, m.task.bucket) && Moved(w, m).client.pool.tasks[m.task].pc.Finished?
  }

  lemma StableIffServing(w: Watch, t: TaskId, ending: GiveUp.Ending)
    requires t in w.client.pool.tasks
    requires LogOk(Sockets(w.client.pool, t.bucket), w.client.pool.tasks[t].pc.Serving?, LogOf(w, t))
    ensures EndsStable(Logged(w, t, ending))
       <==> w.client.pool.tasks[t].pc.Serving? && Uptime(w, t.bucket) >= STABLE_CONNECTION_TIME
  {
  }

  lemma DroppedFinishes(p: Pool, t: TaskId, done: bool, givesUp: bool)
    requires t in p.tasks
    ensures t in Dropped(p, t, done, givesUp).tasks
    ensures Dropped(p, t, done, givesUp).tasks[t].pc == if done || givesUp then Finished else Asleep
  {
  }

  lemma GaveUpIff(w: Watch, t: TaskId, ending: GiveUp.Ending)
    requires CanMove(w, Ends(t, ending)) && Failures(LogOf(w, t)) < GiveUp.BUCKET_RESTART_LIMIT
    ensures GaveUp(w, Ends(t, ending))
       <==> !BucketIsDone(w.client, t.bucket) && Failures(Logged(w, t, ending)) == GiveUp.BUCKET_RESTART_LIMIT
  {
    DroppedFinishes(w.client.pool, t, BucketIsDone(w.client, t.bucket), GivesUpNow(w, t, ending));
    GivesUpAtTheLimit(w, t, ending);
  }

  /** The failures among a log's attempts that no stable attempt has followed, or ended in. */
  ghost function Counted(log: Log): set<nat> {
    GiveUp.Standing(log.first, log.outcomes, |log.outcomes|)
  }

  /** The client is not closing, the bucket is in its table and not closed, and its socket is up. */
  predicate StillWanted(s: Client, b: BucketId) {
    !s.closing && b in s.pool.table && b !in s.pool.shut && s.up
  }

  /** In every run of the client with all its supervisors, when an attempt ends: it counts as stable
      exactly if this supervisor itself was on a socket, for thirty seconds by then; and the
      supervisor gives up exactly if its bucket is still wanted and the failures that no stable
      attempt has followed or ended in, this attempt's included, number five. Until then the
      number was smaller. Wanted and not given up, it sleeps, and dials again if that still holds
      when it wakes. */
  lemma GivesUpAtTheFifth(timeout: Option<real>, moves: seq<Move>, t: TaskId, ending: GiveUp.Ending)
    requires CanWatch(Beginning(timeout), moves) && CanMove(Watched(Beginning(timeout), moves), Ends(t, ending))
    ensures
      var w := Watched(Beginning(timeout), moves);
      && (EndsStable(Logged(w, t, ending)) <==>
            w.client.pool.tasks[t].pc.Serving? && Uptime(w, t.bucket) >= 30.0)
      && t in w.logs && |Counted(w.logs[t])| < 5
      && (GaveUp(w, Ends(t, ending)) <==>
            StillWanted(w.client, t.bucket) && |Counted(Logged(w, t, ending))| == 5)
      && (Moved(w, Ends(t, ending)).client.pool.tasks[t].pc.Asleep? <==>
            StillWanted(w.client, t.bucket) && |Counted(Logged(w, t, ending))| < 5)
  {
    InitiallyWatched(timeout);
    MovesKeepWatch(Beginning(timeout), moves);
    var w := Watched(Beginning(timeout), moves);
    var log := Logged(w, t, ending);
    EndsALoggedAttempt(w, t, ending);
    StableIffServing(w, t, ending);
    GaveUpIff(w, t, ending);
    GivesUpAtTheLimit(w, t, ending);
    DroppedFinishes(w.client.pool, t, BucketIsDone(w.client, t.bucket), GivesUpNow(w, t, ending));
    GiveUp.TallyIsHistory(w.logs[t].first, w.logs[t].outcomes, |w.logs[t].outcomes|);
    GiveUp.TallyIsHistory(log.first, log.outcomes, |log.outcomes|);
  }

  /** A supervisor that wakes dials again exactly if its bucket is still wanted, and is done if not. */
  lemma WakesToDial(s: Client, t: TaskId)
    requires Enabled(s, SupervisorWakes(t))
    ensures Step(s, SupervisorWakes(t)).pool.tasks[t].pc == if StillWanted(s, t.bucket) then Connecting else Finished
  {
  }

  /** A supervisor that gave up leaves its bucket in the table, unsupervised: the entry is empty and
      nothing runs for it. */
  lemma GivingUpLeavesTheBucket(timeout: Option<real>, moves: seq<Move>, t: TaskId, ending: GiveUp.Ending)
    requires CanWatch(Beginning(timeout), moves) && CanMove(Watched(Beginning(timeout), moves), Ends(t, ending))
    requires GaveUp(Watched(Beginning(timeout), moves), Ends(t, ending))
    ensures
      var p := Moved(Watched(Beginning(timeout), moves), Ends(t, ending)).client.pool;
      t.bucket in p.table && p.table[t.bucket] == None && forall u :: Live(p, u) ==> u.bucket != t.bucket
  {
    InitiallyWatched(timeout);
    MovesKeepWatch(Beginning(timeout), moves);
    GaveUpLeaves(Watched(Beginning(timeout), moves), t, ending);
  }

  lemma GaveUpLeaves(w: Watch, t: TaskId, ending: GiveUp.Ending)
    requires PoolOk(w.client.pool) && CanMove(w, Ends(t, ending)) && GaveUp(w, Ends(t, ending))
    ensures Moved(w, Ends(t, ending)).client.pool == GivesUp(w.client.pool, t)
    ensures Live(w.client.pool, t) && t.bucket in w.client.pool.table
    ensures t.bucket in GivesUp(w.client.pool, t).table && GivesUp(w.client.pool, t).table[t.bucket] == None
    ensures forall u :: Live(GivesUp(w.client.pool, t), u) ==> u.bucket != t.bucket
  {
    DroppedFinishes(w.client.pool, t, false, GivesUpNow(w, t, ending));
    GoneFromTheTable(w.client.pool, t);
  }

  lemma GoneFromTheTable(p: Pool, t: TaskId)
    requires PoolOk(p) && Live(p, t) && t.bucket in p.table
    ensures t.bucket in GivesUp(p, t).table && GivesUp(p, t).table[t.bucket] == None
    ensures forall u :: Live(GivesUp(p, t), u) ==> u.bucket != t.bucket
  {
    forall u | Live(GivesUp(p, t), u) ensures u.bucket != t.bucket {
      assert Live(p, u) && u != t;
      assert u.bucket == t.bucket ==> u.serial == t.serial;
    }
  }

  /** However many attempts ended in a lost socket, a failure of the network or a refusal that asks
      to come back later: no supervisor gives up on those alone. */
  lemma DropsNeverGiveUp(timeout: Option<real>, moves: seq<Move>, t: TaskId, ending: GiveUp.Ending)
    requires CanWatch(Beginning(timeout), moves) && CanMove(Watched(Beginning(timeout), moves), Ends(t, ending))
    requires
      var log := Logged(Watched(Beginning(timeout), moves), t, ending);
      forall i :: 0 <= i < |log.outcomes| ==> !GiveUp.Counts(log.outcomes[i].ending)
    ensures !GaveUp(Watched(Beginning(timeout), moves), Ends(t, ending))
  {
    GivesUpAtTheFifth(timeout, moves, t, ending);
    var log := Logged(Watched(Beginning(timeout), moves), t, ending);
    GiveUp.NoneCounts(log.first, log.outcomes, |log.outcomes|);
    GiveUp.TallyIsHistory(log.first, log.outcomes, |log.outcomes|);
  }

  /** Five attempts that each ended in a bug or in a refusal that is meant, none of them stable:
      the supervisor of a bucket still wanted gives up. */
  lemma FiveFailuresGiveUp(timeout: Option<real>, moves: seq<Move>, t: TaskId, ending: GiveUp.Ending)
    requires CanWatch(Beginning(timeout), moves) && CanMove(Watched(Beginning(timeout), moves), Ends(t, ending))
    requires StillWanted(Watched(Beginning(timeout), moves).client, t.bucket)
    requires
      var log := Logged(Watched(Beginning(timeout), moves), t, ending);
      |log.outcomes| == 5 && forall i :: 0 <= i < 5 ==>
        GiveUp.Counts(log.outcomes[i].ending) && !GiveUp.StableAt(log.first, log.outcomes, i)
    ensures GaveUp(Watched(Beginning(timeout), moves), Ends(t, ending))
  {
    GivesUpAtTheFifth(timeout, moves, t, ending);
    var log := Logged(Watched(Beginning(timeout), moves), t, ending);
    GiveUp.AllCount(log.first, log.outcomes, 5);
    GiveUp.TallyIsHistory(log.first, log.outcomes, 5);
  }
}

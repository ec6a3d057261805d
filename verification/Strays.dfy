/** A bucket that `unsubscribe` took out of the table reads on until its socket is closed. What a
    confirmation it still reads does to a subscription of the same sub_id in another bucket. */
module Strays {
  import opened Options
  import opened Lifecycle
  import opened SupervisorSafety
  import opened Announcements
  import Emitter
  import Frames

  // ---- One confirmation, until its socket is gone ----

  /** The bucket keeps its socket. */
  predicate SameSocket(acts: seq<Act>, b: BucketId) {
    forall i :: 0 <= i < |acts| ==>
      !(acts[i].Life? && acts[i].move.SupervisorOpens? && acts[i].move.task.bucket == b)
  }

  /** Confirmed on this socket, and told `n` times. */
  predicate Told(r: Room, id: SubId, n: nat) {
    id in r.confirmed && id !in r.pendings && multiset(r.told)[id] == n
  }

  predicate ToldIfDue(k: Book, b: BucketId, id: SubId, n: nat) {
    && b in k.rooms && b < k.client.pool.nextBucket
    && (id in k.rooms[b].due ==> Told(k.rooms[b], id, n))
  }

  lemma ConfirmStaysTold(r: Room, x: SubId, delivered: bool, id: SubId, n: nat)
    requires Told(r, id, n) && x in r.pendings
    ensures Told(Confirmed(r, x, delivered), id, n)
  {
    CountOneMore(r.told, x, id);
  }

  lemma ActStaysTold(k: Book, act: Act, b: BucketId, id: SubId, n: nat)
    requires ToldIfDue(k, b, id, n) && CanAct(k, act)
    requires !(act.Life? && act.move.SupervisorOpens? && act.move.task.bucket == b)
    ensures ToldIfDue(Does(k, act), b, id, n)
  {
    TableGrows(k, act);
    if act.Confirm? && act.task.bucket == b && id in k.rooms[b].due {
      ConfirmStaysTold(k.rooms[b], act.subId, !Known(k.ledger, act.subId), id, n);
    }
  }

  lemma {:induction false} StaysTold(k: Book, acts: seq<Act>, b: BucketId, id: SubId, n: nat)
    requires ToldIfDue(k, b, id, n) && CanDo(k, acts) && SameSocket(acts, b)
    ensures ToldIfDue(DoesAll(k, acts), b, id, n)
    decreases |acts|
  {
    if acts != [] {
      ActStaysTold(k, acts[0], b, id, n);
      StaysTold(Does(k, acts[0]), acts[1..], b, id, n);
    }
  }

  /** The bucket's own confirmation of a subscription its socket owes is about to be read. */
  predicate Confirms(k: Book, t: TaskId, id: SubId) {
    CanAct(k, Confirm(t, id)) && t.bucket in k.client.pool.table && id in k.rooms[t.bucket].due
  }

  lemma ConfirmsWhatItOwes(k: Book, t: TaskId, id: SubId)
    requires Announced(k) && Confirms(k, t, id)
    ensures Owes(k, t.bucket, id) && DueOk(k.rooms[t.bucket], k.ledger, id)
    ensures ToldIfDue(Does(k, Confirm(t, id)), t.bucket, id, if Known(k.ledger, id) then 0 else 1)
  {
    assert k.client.pool.table[t.bucket] == Some(t);
    OwedIsOk(k, t.bucket, id);
    CountOneMore(k.rooms[t.bucket].told, id, id);
  }

  /** In every run: a subscription a bucket brought to its socket, confirmed there, and still held
      on it later, has then been told exactly once, if no bucket out of the table had confirmed the
      sub_id since it was last covered, and not at all if one had. */
  lemma ReturnIsToldIff(timeout: Option<real>, before: seq<Act>, t: TaskId, id: SubId, after: seq<Act>)
    requires CanDo(Blank(timeout), before) && Confirms(DoesAll(Blank(timeout), before), t, id)
    requires CanDo(Does(DoesAll(Blank(timeout), before), Confirm(t, id)), after) && SameSocket(after, t.bucket)
    ensures
      var k := DoesAll(Blank(timeout), before);
      var l := DoesAll(Does(k, Confirm(t, id)), after);
      && t.bucket in l.rooms
      && (id in l.rooms[t.bucket].due ==>
            multiset(l.rooms[t.bucket].told)[id] == if Strayed(Blank(timeout), before, id) then 0 else 1)
  {
    ReachedIsAnnounced(timeout, before);
    var k := DoesAll(Blank(timeout), before);
    ConfirmsWhatItOwes(k, t, id);
    StraysAreHistory(Blank(timeout), before, id);
    StaysTold(Does(k, Confirm(t, id)), after, t.bucket, id, if Known(k.ledger, id) then 0 else 1);
  }

  // ---- What to ask before ----

  /** The supervisor of a bucket out of the table still reads, and awaits a confirmation. */
  predicate Holder(k: Book, t: TaskId, id: SubId) {
    && Serves(k.client.pool, t) && t.bucket !in k.client.pool.table
    && t.bucket in k.rooms && id in k.rooms[t.bucket].pendings
  }

  /** The socket owes the subscription, and its confirmation is awaited. */
  predicate Awaits(k: Book, b: BucketId, id: SubId) {
    Owes(k, b, id) && id in k.rooms[b].pendings
  }

  /** A move that takes no supervisor on to its socket. */
  lemma ServesBefore(s: Client, move: Label, t: TaskId)
    requires Safe(s) && Enabled(s, move) && Serves(Step(s, move).pool, t)
    requires t.bucket !in Step(s, move).pool.table
    ensures Serves(s.pool, t)
  {
    if !MovesASupervisor(move) {
      OtherLabelShrinks(s, move);
    } else if move.HandshakeDone? {
      HandshakeDonePool(s);
    } else if move.SupervisorOpens? {
      OpensBefore(s.pool, move.task, t);
    } else {
      MovesBefore(s, move, t);
    }
  }

  lemma OpensBefore(p: Pool, u: TaskId, t: TaskId)
    requires PoolOk(p) && Live(p, u) && Serves(Opened(p, u), t) && t.bucket !in p.table
    ensures Serves(p, t)
  {
  }

  lemma MovesBefore(s: Client, move: Label, t: TaskId)
    requires Safe(s) && Enabled(s, move) && Serves(Step(s, move).pool, t)
    requires move.SupervisorBegins? || move.SupervisorDrops? || move.SupervisorWakes? || move.SubscribeOpensBucket?
    requires t.bucket !in Step(s, move).pool.table
    ensures Serves(s.pool, t)
  {
  }

  lemma HolderBefore(k: Book, act: Act, b: BucketId, t: TaskId, id: SubId)
    requires Announced(k) && CanAct(k, act)
    requires Awaits(k, b, id) && Awaits(Does(k, act), b, id) && Holder(Does(k, act), t, id)
    ensures Holder(k, t, id)
  {
    match act
    case Life(move) => LifeHolderBefore(k, move, b, t, id);
    case Subscribe(_, _) =>
    case Confirm(_, _) =>
    case Unsubscribe(_, _) =>
  }

  lemma LifeHolderBefore(k: Book, move: Label, b: BucketId, t: TaskId, id: SubId)
    requires Announced(k) && CanAct(k, Life(move)) && Awaits(k, b, id)
    requires Awaits(Does(k, Life(move)), b, id) && Holder(Does(k, Life(move)), t, id)
    ensures Holder(k, t, id)
  {
    var l := Does(k, Life(move));
    ServesBefore(k.client, move, t);
    assert t.bucket < k.client.pool.nextBucket;
    if move.SupervisorOpens? && move.task.bucket == t.bucket {
      assert t.bucket !in l.client.pool.table;
    }
    assert l.rooms[t.bucket] == k.rooms[t.bucket];
    assert b in k.client.pool.table && id in Ids(k.rooms[b]);
    assert id in Ids(k.rooms[t.bucket]);
  }

  /** From one state to the next the socket is the same, and still awaits the confirmation. */
  predicate AwaitsThroughout(k: Book, acts: seq<Act>, b: BucketId, id: SubId)
    requires CanDo(k, acts)
    decreases |acts|
  {
    && Awaits(k, b, id)
    && (acts != [] ==> AwaitsThroughout(Does(k, acts[0]), acts[1..], b, id))
  }

  lemma {:induction false} NoHolderNoStray(k: Book, acts: seq<Act>, b: BucketId, id: SubId)
    requires Announced(k) && CanDo(k, acts) && AwaitsThroughout(k, acts, b, id)
    requires !Known(k.ledger, id) && forall t :: !Holder(k, t, id)
    ensures !Known(DoesAll(k, acts).ledger, id)
    decreases |acts|
  {
    if acts != [] {
      var l := Does(k, acts[0]);
      ActKeeps(k, acts[0]);
      forall t ensures !Holder(l, t, id) {
        if Holder(l, t, id) {
          HolderBefore(k, acts[0], b, t, id);
        }
      }
      StaysUnknown(k, acts[0], b, id);
      NoHolderNoStray(l, acts[1..], b, id);
    }
  }

  lemma OwnConfirmation(k: Book, t: TaskId, b: BucketId, id: SubId)
    requires Announced(k) && CanAct(k, Confirm(t, id)) && Awaits(k, b, id) && !Holder(k, t, id)
    ensures t.bucket == b && id !in Does(k, Confirm(t, id)).rooms[b].pendings
  {
    assert id in Ids(k.rooms[t.bucket]) && id in Ids(k.rooms[b]);
  }

  lemma StaysUnknown(k: Book, act: Act, b: BucketId, id: SubId)
    requires Announced(k) && CanAct(k, act) && Awaits(k, b, id) && Awaits(Does(k, act), b, id)
    requires !Known(k.ledger, id) && forall t :: !Holder(k, t, id)
    ensures !Known(Does(k, act).ledger, id)
  {
    KnownAfterAct(k, act, id);
    if act.Confirm? && act.subId == id {
      OwnConfirmation(k, act.task, b, id);
    }
  }

  /** Some continuation on this socket silences the confirmation before it is read. */
  ghost predicate MayBeSilenced(k: Book, b: BucketId, id: SubId) {
    exists acts :: CanDo(k, acts) && AwaitsThroughout(k, acts, b, id) && Known(DoesAll(k, acts).ledger, id)
  }

  lemma HolderSilences(k: Book, b: BucketId, t: TaskId, id: SubId)
    requires Announced(k) && Awaits(k, b, id) && Holder(k, t, id)
    ensures MayBeSilenced(k, b, id)
  {
    var act := Confirm(t, id);
    var l := Does(k, act);
    KnownAfterAct(k, act, id);
    assert Awaits(l, b, id);
    assert CanDo(l, []) && DoesAll(l, []) == l && AwaitsThroughout(l, [], b, id);
    assert [act][1..] == [];
    assert CanDo(k, [act]) && DoesAll(k, [act]) == l && AwaitsThroughout(k, [act], b, id);
  }

  /** In every reachable state, while a socket awaits the confirmation of a subscription it owes:
      its announcement can still be silenced if and only if a stray stands, or a bucket out of the
      table still reads its socket and holds the same sub_id pending. */
  lemma SilencedIff(timeout: Option<real>, acts: seq<Act>, b: BucketId, id: SubId)
    requires CanDo(Blank(timeout), acts) && Awaits(DoesAll(Blank(timeout), acts), b, id)
    ensures
      var k := DoesAll(Blank(timeout), acts);
      MayBeSilenced(k, b, id) <==> Strayed(Blank(timeout), acts, id) || exists t :: Holder(k, t, id)
  {
    ReachedIsAnnounced(timeout, acts);
    var k := DoesAll(Blank(timeout), acts);
    EveryReturnIsAnnounced(timeout, acts, b, id);
    OwedIsOk(k, b, id);
    if Known(k.ledger, id) {
      assert CanDo(k, []) && AwaitsThroughout(k, [], b, id) && DoesAll(k, []) == k;
    } else if t :| Holder(k, t, id) {
      HolderSilences(k, b, t, id);
    } else if MayBeSilenced(k, b, id) {
      var more :| CanDo(k, more) && AwaitsThroughout(k, more, b, id) && Known(DoesAll(k, more).ledger, id);
      NoHolderNoStray(k, more, b, id);
    }
  }

  // ---- A run in which it happens ----

  ghost predicate Reached(k: Book) {
    exists acts :: CanDo(Blank(None), acts) && DoesAll(Blank(None), acts) == k
  }

  lemma {:induction false} OneMoreAct(k: Book, acts: seq<Act>, act: Act)
    requires CanDo(k, acts) && CanAct(DoesAll(k, acts), act)
    ensures CanDo(k, acts + [act]) && DoesAll(k, acts + [act]) == Does(DoesAll(k, acts), act)
    decreases |acts|
  {
    if acts == [] {
      assert acts + [act] == [act];
      assert DoesAll(Does(k, act), [act][1..]) == Does(k, act);
    } else {
      assert (acts + [act])[1..] == acts[1..] + [act];
      OneMoreAct(Does(k, acts[0]), acts[1..], act);
    }
  }

  lemma Reach(k: Book, act: Act)
    requires Reached(k) && CanAct(k, act)
    ensures Reached(Does(k, act))
  {
    var acts :| CanDo(Blank(None), acts) && DoesAll(Blank(None), acts) == k;
    OneMoreAct(Blank(None), acts, act);
  }

  const X := Frames.Text("x")

  /** The client's socket is up, and it is not closing. */
  predicate Running(k: Book) {
    k.client.up && !k.client.closing
  }

  lemma FirstSession() returns (k: Book)
    ensures Reached(k) && Running(k) && k.client.pool == EMPTY_POOL && k.rooms == map[] && k.ledger == FRESH
  {
    k := Blank(None);
    assert CanDo(k, []) && DoesAll(k, []) == k;
    Reach(k, Life(CallStart));
    k := Does(k, Life(CallStart));
    Reach(k, Life(RunStart(1.0)));
    k := Does(k, Life(RunStart(1.0)));
    Reach(k, Life(HandshakeDone));
    k := Does(k, Life(HandshakeDone));
  }

  const T0 := TaskId(0, 0)
  const T1 := TaskId(1, 1)
  const PENDING := Room([X], [], {}, [])

  /** The only bucket of the table, and where its only supervisor is. */
  predicate OnlyBucket(k: Book, b: BucketId, t: TaskId, pc: SupervisorPc) {
    var p := k.client.pool;
    && Running(k) && t.bucket == b && p.table.Keys == {b} && p.table[b] == Some(t)
    && b !in p.shut && b < p.nextBucket && b in k.rooms
    && t in p.tasks && p.tasks[t] == Supervisor(pc, false)
  }

  /** A supervisor that reads, whatever its bucket. */
  predicate StillReads(k: Book, t: TaskId, r: Room) {
    t in k.client.pool.tasks && k.client.pool.tasks[t] == Supervisor(Serving, false)
    && t.bucket in k.rooms && k.rooms[t.bucket] == r
  }

  /** What the supervisor of the only bucket does next. */
  lemma Moves(k: Book, b: BucketId, t: TaskId, move: Label, pc: SupervisorPc, next: SupervisorPc)
    requires Reached(k) && OnlyBucket(k, b, t, pc) && MoveOf(t, move, pc, next)
    ensures CanAct(k, Life(move))
    ensures
      var l := Does(k, Life(move));
      && Reached(l) && OnlyBucket(l, b, t, next)
      && l.rooms == RoomsAfter(k, move) && l.ledger == LedgerAfter(k, move)
      && l.client.pool.tasks == k.client.pool.tasks[t := Supervisor(next, false)]
      && l.client.pool.shut == k.client.pool.shut
      && l.client.pool.nextBucket == k.client.pool.nextBucket && l.client.pool.nextTask == k.client.pool.nextTask
  {
    Reach(k, Life(move));
  }

  predicate MoveOf(t: TaskId, move: Label, pc: SupervisorPc, next: SupervisorPc) {
    match move
    case SupervisorBegins(u) => u == t && pc == Ready && next == Connecting
    case SupervisorOpens(u) => u == t && pc == Connecting && next == Serving
    case SupervisorDrops(u, givesUp) => u == t && !givesUp && pc == Serving && next == Asleep
    case SupervisorWakes(u) => u == t && pc == Asleep && next == Connecting
    case _ => false
  }

  /** A bucket enters an empty table. */
  lemma BucketAdded(before: Book) returns (k: Book, t: TaskId)
    requires Reached(before) && Running(before) && before.client.pool.table == map[]
    requires before.client.pool.nextBucket !in before.client.pool.shut
    ensures t == TaskId(before.client.pool.nextBucket, before.client.pool.nextTask)
    ensures Reached(k) && OnlyBucket(k, t.bucket, t, Ready) && k.ledger == before.ledger
    ensures k.rooms == before.rooms[t.bucket := EMPTY_ROOM] && k.client.pool == Added(before.client.pool)
  {
    var p := before.client.pool;
    t := TaskId(p.nextBucket, p.nextTask);
    Reach(before, Life(SubscribeOpensBucket));
    k := Does(before, Life(SubscribeOpensBucket));
  }

  /** Its socket comes up. */
  lemma BucketOpens(before: Book) returns (k: Book, t: TaskId)
    requires Reached(before) && Running(before) && before.client.pool.table == map[]
    requires before.client.pool.nextBucket !in before.client.pool.shut
    ensures t == TaskId(before.client.pool.nextBucket, before.client.pool.nextTask)
    ensures Reached(k) && OnlyBucket(k, t.bucket, t, Serving) && k.ledger == before.ledger
    ensures k.rooms == before.rooms[t.bucket := EMPTY_ROOM]
    ensures k.client.pool.shut == before.client.pool.shut
    ensures k.client.pool.tasks == before.client.pool.tasks[t := Supervisor(Serving, false)]
    ensures k.client.pool.nextBucket == t.bucket + 1 && k.client.pool.nextTask == t.serial + 1
  {
    k, t := BucketAdded(before);
    Moves(k, t.bucket, t, SupervisorBegins(t), Ready, Connecting);
    k := Does(k, Life(SupervisorBegins(t)));
    Moves(k, t.bucket, t, SupervisorOpens(t), Connecting, Serving);
    k := Does(k, Life(SupervisorOpens(t)));
    assert Recovering(EMPTY_ROOM) == EMPTY_ROOM;
  }

  /** "x" is requested in the only bucket, which holds nothing yet. */
  lemma Requests(k: Book, b: BucketId, t: TaskId)
    requires Reached(k) && OnlyBucket(k, b, t, Serving) && k.rooms[b] == EMPTY_ROOM
    ensures CanAct(k, Subscribe(b, X))
    ensures
      var l := Does(k, Subscribe(b, X));
      Reached(l) && OnlyBucket(l, b, t, Serving) && l.rooms == k.rooms[b := PENDING]
      && l.client == k.client && l.ledger == k.ledger
  {
    assert Ids(EMPTY_ROOM) == [];
    assert Requested(EMPTY_ROOM, X) == PENDING;
    Reach(k, Subscribe(b, X));
  }

  /** "x" is requested in bucket 0, and unsubscribed before its answer: the bucket leaves the
      table, and its supervisor reads on. */
  lemma TakenAway() returns (k: Book)
    ensures Reached(k) && Running(k) && k.ledger == FRESH && StillReads(k, T0, PENDING)
    ensures
      var p := k.client.pool;
      p.table == map[] && p.shut == {0} && p.nextBucket == 1 && p.nextTask == 1
  {
    k := FirstSession();
    var t;
    k, t := BucketOpens(k);
    Requests(k, 0, t);
    k := Does(k, Subscribe(0, X));
    assert Ids(PENDING) == [X];
    Reach(k, Life(UnsubscribeLast(0)));
    k := Does(k, Life(UnsubscribeLast(0)));
  }

  /** "x" is requested again, in bucket 1. */
  lemma RequestedAgain() returns (k: Book)
    ensures Reached(k) && OnlyBucket(k, 1, T1, Serving) && k.ledger == FRESH
    ensures StillReads(k, T0, PENDING) && k.rooms[1] == PENDING
  {
    k := TakenAway();
    var t;
    k, t := BucketOpens(k);
    Requests(k, 1, t);
    k := Does(k, Subscribe(1, X));
  }

  /** Bucket 1 drops and comes back: its new socket owes "x". */
  lemma Restarted() returns (k: Book)
    ensures Reached(k) && OnlyBucket(k, 1, T1, Serving) && StillReads(k, T0, PENDING)
    ensures k.rooms[1] == Room([X], [], {X}, [])
  {
    k := RequestedAgain();
    Moves(k, 1, T1, SupervisorDrops(T1, false), Serving, Asleep);
    k := Does(k, Life(SupervisorDrops(T1, false)));
    Moves(k, 1, T1, SupervisorWakes(T1), Asleep, Connecting);
    k := Does(k, Life(SupervisorWakes(T1)));
    Moves(k, 1, T1, SupervisorOpens(T1), Connecting, Serving);
    k := Does(k, Life(SupervisorOpens(T1)));
    assert Recovering(PENDING) == Room([X], [], {X}, []);
  }

  /** Bucket 0 reads its late confirmation. */
  lemma StrayRead() returns (k: Book)
    ensures Reached(k) && OnlyBucket(k, 1, T1, Serving)
    ensures k.rooms[1] == Room([X], [], {X}, []) && Known(k.ledger, X)
  {
    k := Restarted();
    KnownAfterSaying(k.ledger, X, true, X);
    Reach(k, Confirm(T0, X));
    k := Does(k, Confirm(T0, X));
  }

  /** Then bucket 1 reads its own: "x" is confirmed and due there, and was never told. */
  lemma SilencedByAStray() returns (k: Book)
    ensures Reached(k) && Owes(k, 1, X) && X in k.rooms[1].confirmed && multiset(k.rooms[1].told)[X] == 0
  {
    k := StrayRead();
    Reach(k, Confirm(T1, X));
    k := Does(k, Confirm(T1, X));
  }
}

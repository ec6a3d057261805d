/** A subscription a bucket brings to a new socket is announced there once, unless a bucket that was
    taken away confirmed its sub_id meanwhile: the emitter's ledgers are reset by what brings the
    bucket back, and by nothing more. */
module Announcements {
  import opened Options
  import opened Lifecycle
  import opened SupervisorSafety
  import Emitter

  type SubId = Emitter.SubId

  /** What one bucket holds. `due` and `told` are history: what it brought to its current socket
      and still holds, and the "subscribed" events that socket had delivered. */
  datatype Room = Room(pendings: seq<SubId>, confirmed: seq<SubId>, due: set<SubId>, told: seq<SubId>)

  const EMPTY_ROOM := Room([], [], {}, [])

  function Ids(r: Room): seq<SubId> {
    r.pendings + r.confirmed
  }

  function Dropping(ids: seq<SubId>, id: SubId): (r: seq<SubId>)
    ensures forall x :: x in r <==> x in ids && x != id
  {
    if ids == [] then []
    else if ids[0] == id then Dropping(ids[1..], id)
    else [ids[0]] + Dropping(ids[1..], id)
  }

  /** The emitter's ledgers. `strays` is history: the sub_ids confirmed by a bucket that had been
      taken out of the table, and not covered by a reset since. */
  datatype Ledger = Ledger(once: Emitter.Ledger, strays: set<SubId>)

  const FRESH := Ledger(Emitter.CLEAR, {})

  /** The client, its buckets' subscriptions, and the emitter they share. */
  datatype Book = Book(client: Client, rooms: map<BucketId, Room>, ledger: Ledger)

  datatype Act =
    | Life(move: Label)
    | Subscribe(bucket: BucketId, subId: SubId)
    | Confirm(task: TaskId, subId: SubId)  // in the message loop that this supervisor runs
    | Unsubscribe(bucket: BucketId, subId: SubId)

  predicate Serves(p: Pool, t: TaskId) {
    Live(p, t) && p.tasks[t].pc.Serving?
  }

  /** The bucket's socket is up: its supervisor, the one the table names, is reading it. */
  predicate IsServed(p: Pool, b: BucketId) {
    b in p.table && p.table[b].Some? && Serves(p, p.table[b].value) && p.table[b].value.bucket == b
  }

  ghost predicate IsUp(p: Pool, b: BucketId) {
    exists t :: Serves(p, t) && t.bucket == b
  }

  predicate CanAct(k: Book, act: Act) {
    match act
    case Life(move) =>
      && Enabled(k.client, move)
      && (move.UnsubscribeLast? ==> move.bucket in k.rooms && |Ids(k.rooms[move.bucket])| == 1)
    case Subscribe(b, id) =>
      && IsServed(k.client.pool, b) && b in k.rooms
      && forall c :: c in k.client.pool.table && c in k.rooms ==> id !in Ids(k.rooms[c])
    case Confirm(t, id) => Serves(k.client.pool, t) && t.bucket in k.rooms && id in k.rooms[t.bucket].pendings
    case Unsubscribe(b, id) => IsServed(k.client.pool, b) && b in k.rooms && id in Ids(k.rooms[b])
  }

  // ---- What each act does to the rooms and the ledger ----

  /** A socket opens: everything held is requested again. */
  function Recovering(r: Room): Room {
    Room(Ids(r), [], set x | x in Ids(r), [])
  }

  function Requested(r: Room, id: SubId): Room {
    r.(pendings := r.pendings + [id])
  }

  function Confirmed(r: Room, id: SubId, delivered: bool): Room {
    r.(pendings := Dropping(r.pendings, id), confirmed := r.confirmed + [id],
       told := if delivered then r.told + [id] else r.told)
  }

  function Unsubscribed(r: Room, id: SubId): Room {
    r.(pendings := Dropping(r.pendings, id), confirmed := Dropping(r.confirmed, id), due := r.due - {id})
  }

  function RoomsAfter(k: Book, move: Label): map<BucketId, Room> {
    match move
    case SubscribeOpensBucket => k.rooms[k.client.pool.nextBucket := EMPTY_ROOM]
    case SupervisorOpens(t) =>
      if t.bucket in k.rooms && t.bucket !in k.client.pool.shut then
        k.rooms[t.bucket := Recovering(k.rooms[t.bucket])]
      else k.rooms
    case _ => k.rooms
  }

  /** "subscribed" is emitted, perhaps by a bucket out of the table. */
  function Said(ledger: Ledger, id: SubId, stray: bool): Ledger {
    Ledger(Emitter.After(ledger.once, Emitter.Emit(Emitter.Subscribed, id)),
           if stray then ledger.strays + {id} else ledger.strays)
  }

  function Forgot(ledger: Ledger, ids: seq<SubId>): Ledger {
    Ledger(Emitter.After(ledger.once, Emitter.ResetSubscription(ids)), ledger.strays - (set id | id in ids))
  }

  /** The client's new socket resets everything; a bucket's supervisor, what the bucket holds. */
  function LedgerAfter(k: Book, move: Label): Ledger {
    match move
    case HandshakeDone => Ledger(Emitter.After(k.ledger.once, Emitter.ResetConnection), {})
    case SupervisorDrops(t, _) =>
      if t.bucket in k.rooms && !BucketIsDone(k.client, t.bucket) then Forgot(k.ledger, Ids(k.rooms[t.bucket]))
      else k.ledger
    case _ => k.ledger
  }

  predicate Known(ledger: Ledger, id: SubId) {
    Emitter.Suppressed(ledger.once, Emitter.Subscribed, id)
  }

  /** Known, and not from a stray. */
  predicate Heard(ledger: Ledger, id: SubId) {
    Known(ledger, id) && id !in ledger.strays
  }

  function Does(k: Book, act: Act): Book
    requires CanAct(k, act)
  {
    match act
    case Life(move) => Book(Step(k.client, move), RoomsAfter(k, move), LedgerAfter(k, move))
    case Subscribe(b, id) => k.(rooms := k.rooms[b := Requested(k.rooms[b], id)])
    case Confirm(t, id) =>
      k.(rooms := k.rooms[t.bucket := Confirmed(k.rooms[t.bucket], id, !Known(k.ledger, id))],
         ledger := Said(k.ledger, id, t.bucket !in k.client.pool.table))
    case Unsubscribe(b, id) => k.(rooms := k.rooms[b := Unsubscribed(k.rooms[b], id)])
  }

  predicate CanDo(k: Book, acts: seq<Act>)
    decreases |acts|
  {
    acts != [] ==> CanAct(k, acts[0]) && CanDo(Does(k, acts[0]), acts[1..])
  }

  function DoesAll(k: Book, acts: seq<Act>): Book
    requires CanDo(k, acts)
    decreases |acts|
  {
    if acts == [] then k else DoesAll(Does(k, acts[0]), acts[1..])
  }

  function Blank(timeout: Option<real>): Book {
    Book(Initial(timeout), map[], FRESH)
  }

  // ---- The ledger ----

  lemma KnownAfterSaying(ledger: Ledger, id: SubId, stray: bool, x: SubId)
    ensures Known(Said(ledger, id, stray), x) <==> x == id || Known(ledger, x)
  {
  }

  lemma KnownAfterForgetting(ledger: Ledger, ids: seq<SubId>, x: SubId)
    ensures Known(Forgot(ledger, ids), x) <==> x !in ids && Known(ledger, x)
  {
  }

  lemma HeardAfterForgetting(ledger: Ledger, ids: seq<SubId>, x: SubId)
    ensures Heard(Forgot(ledger, ids), x) <==> x !in ids && Heard(ledger, x)
  {
    KnownAfterForgetting(ledger, ids, x);
  }

  // ---- What every state keeps ----

  /** A due subscription awaits a confirmation that only a stray can have silenced, or was
      confirmed, and told no more than once. */
  predicate DueOk(r: Room, ledger: Ledger, id: SubId) {
    || (id in r.pendings && id !in r.confirmed && multiset(r.told)[id] == 0 && !Heard(ledger, id))
    || (id in r.confirmed && id !in r.pendings && multiset(r.told)[id] <= 1)
  }

  /** On a socket, what it owes is in order; off it, nothing held was heard. */
  predicate RoomOk(r: Room, ledger: Ledger, serving: bool) {
    if serving then forall id :: id in r.due ==> DueOk(r, ledger, id)
    else forall id :: id in Ids(r) ==> !Heard(ledger, id)
  }

  ghost predicate RoomsOk(p: Pool, rooms: map<BucketId, Room>, ledger: Ledger) {
    && (forall b :: b in p.table ==> b in rooms)
    && (forall t :: Live(p, t) && t.bucket in p.table ==>
          RoomOk(rooms[t.bucket], ledger, p.tasks[t].pc.Serving?))
  }

  /** A sub_id belongs to one bucket. */
  ghost predicate Apart(p: Pool, rooms: map<BucketId, Room>) {
    forall b, c, id ::
      (b in p.table && c in p.table && b in rooms && c in rooms && id in Ids(rooms[b]) && id in Ids(rooms[c]))
      ==> b == c
  }

  ghost predicate Announced(k: Book) {
    && Safe(k.client)
    && RoomsOk(k.client.pool, k.rooms, k.ledger)
    && Apart(k.client.pool, k.rooms)
    && forall id :: id in k.ledger.strays ==> Known(k.ledger, id)
  }

  // ---- Steps that leave every socket as it is ----

  /** No supervisor went on, none was added. */
  ghost predicate Shrinks(p: Pool, q: Pool) {
    && (forall t :: Live(q, t) ==> Live(p, t) && q.tasks[t].pc == p.tasks[t].pc)
    && q.table.Keys <= p.table.Keys
  }

  lemma ShrinkingKeepsRooms(p: Pool, q: Pool, rooms: map<BucketId, Room>, ledger: Ledger)
    requires RoomsOk(p, rooms, ledger) && Apart(p, rooms) && Shrinks(p, q)
    ensures RoomsOk(q, rooms, ledger) && Apart(q, rooms)
  {
  }

  lemma StopShrinks(p: Pool, b: BucketId)
    ensures Shrinks(p, Stop(p, b))
  {
  }

  lemma StopAllShrinks(p: Pool)
    ensures Shrinks(p, StopAll(p)) && Shrinks(p, p) && Shrinks(p, Reopened(p))
    ensures Shrinks(p, StopAll(Reopened(p)))
  {
  }

  lemma ShrinksTransitive(p: Pool, q: Pool, r: Pool)
    requires Shrinks(p, q) && Shrinks(q, r)
    ensures Shrinks(p, r)
  {
  }

  lemma {:induction false} StopFromShrinks(s: Client, after: After, todo: seq<BucketId>)
    ensures Shrinks(s.pool, StopFrom(s, after, todo).pool)
    decreases |todo|
  {
    StopAllShrinks(s.pool);
    if todo == [] {
      StoppedPool(s, after);
    } else {
      var u := s.(pool := Stop(s.pool, todo[0]));
      StopShrinks(s.pool, todo[0]);
      StopFromShrinks(u, after, todo[1..]);
      ShrinksTransitive(s.pool, u.pool, StopFrom(u, after, todo[1..]).pool);
    }
  }

  lemma CloserShrinks(c: ClosePc, p: Pool)
    ensures Shrinks(p, CloserPool(c, p))
  {
    if c.StoppingBuckets? && c.todo != [] {
      StopShrinks(p, c.todo[0]);
    }
  }

  lemma BucketGoesShrinks(p: Pool, b: BucketId, t: TaskId, atOnce: bool)
    ensures Shrinks(p, Removed(p, b)) && Shrinks(p, Discarded(p, b, atOnce)) && Shrinks(p, CancelledLate(p, t))
  {
  }

  predicate MovesASupervisor(move: Label) {
    || move.SupervisorBegins? || move.SupervisorOpens? || move.SupervisorDrops? || move.SupervisorWakes?
    || move.HandshakeDone? || move.SubscribeOpensBucket?
  }

  lemma RunLabelShrinks(s: Client, move: Label)
    requires Enabled(s, move)
    requires move.RunStart? || move.Wake? || move.Interrupted? || move.Left? || move.StopResumes?
    ensures Shrinks(s.pool, Step(s, move).pool)
  {
    StopAllShrinks(s.pool);
    match move
    case RunStart(initial) => RunStartPool(s, initial);
    case Wake => WakePool(s);
    case Interrupted(failure) =>
      if failure.Raised? {
        StopFromShrinks(s, AfterError(failure.error), Keys(s.pool));
      }
    case Left =>
      if !s.pc.ending.Escaped? {
        StopFromShrinks(s, AfterLeaving(s.pc.ending, s.closing), Keys(s.pool));
      }
    case StopResumes => StopFromShrinks(s, s.pc.after, s.pc.todo);
  }

  lemma OtherLabelShrinks(s: Client, move: Label)
    requires Enabled(s, move) && !MovesASupervisor(move)
    ensures Shrinks(s.pool, Step(s, move).pool)
  {
    match move
    case RunStart(_) => RunLabelShrinks(s, move);
    case Wake => RunLabelShrinks(s, move);
    case Interrupted(_) => RunLabelShrinks(s, move);
    case Left => RunLabelShrinks(s, move);
    case StopResumes => RunLabelShrinks(s, move);
    case CloseResumes(at) => CloserShrinks(s.closers[at], s.pool);
    case NewBucketGoes(b, atOnce) => BucketGoesShrinks(s.pool, b, TaskId(0, 0), atOnce);
    case CancelDropped(t) => BucketGoesShrinks(s.pool, 0, t, false);
    case UnsubscribeLast(b) => BucketGoesShrinks(s.pool, b, TaskId(0, 0), false);
    case _ =>
  }

  // ---- Steps of one supervisor ----

  /** Only `t` went on, and it is not on a socket; the ledger knows no more than it did. */
  lemma SupervisorGoesOff(p: Pool, q: Pool, t: TaskId, rooms: map<BucketId, Room>, ledger: Ledger,
                          less: Ledger)
    requires RoomsOk(p, rooms, ledger) && Apart(p, rooms)
    requires forall u :: Live(q, u) ==> Live(p, u) && (u != t ==> q.tasks[u].pc == p.tasks[u].pc)
    requires q.table.Keys == p.table.Keys
    requires forall id :: Heard(less, id) ==> Heard(ledger, id)
    requires Live(q, t) && t.bucket in p.table ==>
      !q.tasks[t].pc.Serving? && RoomOk(rooms[t.bucket], less, false)
    ensures RoomsOk(q, rooms, less) && Apart(q, rooms)
  {
    forall u | Live(q, u) && u.bucket in q.table ensures RoomOk(rooms[u.bucket], less, q.tasks[u].pc.Serving?) {
      if u != t {
        assert RoomOk(rooms[u.bucket], ledger, p.tasks[u].pc.Serving?);
      }
    }
  }

  lemma MoveShape(p: Pool, t: TaskId, pc: SupervisorPc)
    requires Live(p, t)
    ensures forall u :: Live(WithPc(p, t, pc), u) ==>
      Live(p, u) && (u != t ==> WithPc(p, t, pc).tasks[u].pc == p.tasks[u].pc)
    ensures Live(WithPc(p, t, pc), t) ==> WithPc(p, t, pc).tasks[t].pc == pc
    ensures WithPc(p, t, pc).table == p.table
    ensures forall u :: Live(GivesUp(p, t), u) ==> Live(p, u) && u != t && GivesUp(p, t).tasks[u].pc == p.tasks[u].pc
    ensures GivesUp(p, t).table.Keys == p.table.Keys
  {
  }

  lemma RedialKeepsRooms(p: Pool, t: TaskId, pc: SupervisorPc, rooms: map<BucketId, Room>, ledger: Ledger)
    requires RoomsOk(p, rooms, ledger) && Apart(p, rooms)
    requires Live(p, t) && !p.tasks[t].pc.Serving? && !pc.Serving?
    ensures RoomsOk(WithPc(p, t, pc), rooms, ledger) && Apart(WithPc(p, t, pc), rooms)
  {
    MoveShape(p, t, pc);
    SupervisorGoesOff(p, WithPc(p, t, pc), t, rooms, ledger, ledger);
  }

  lemma DropKeepsRooms(p: Pool, t: TaskId, done: bool, givesUp: bool, rooms: map<BucketId, Room>,
                       ledger: Ledger)
    requires RoomsOk(p, rooms, ledger) && Apart(p, rooms) && Live(p, t) && (!done ==> t.bucket in p.table)
    ensures
      var less := if done then ledger else Forgot(ledger, Ids(rooms[t.bucket]));
      RoomsOk(Dropped(p, t, done, givesUp), rooms, less) && Apart(Dropped(p, t, done, givesUp), rooms)
  {
    var less := if done then ledger else Forgot(ledger, Ids(rooms[t.bucket]));
    forall id ensures !done ==> (Heard(less, id) <==> id !in Ids(rooms[t.bucket]) && Heard(ledger, id)) {
      if !done {
        HeardAfterForgetting(ledger, Ids(rooms[t.bucket]), id);
      }
    }
    MoveShape(p, t, if done then Finished else Asleep);
    SupervisorGoesOff(p, Dropped(p, t, done, givesUp), t, rooms, ledger, less);
  }

  /** A socket opens: everything it brings along is due, and unknown to the ledger. */
  lemma OpeningKeepsRooms(p: Pool, t: TaskId, rooms: map<BucketId, Room>, ledger: Ledger)
    requires PoolOk(p) && RoomsOk(p, rooms, ledger) && Apart(p, rooms)
    requires Live(p, t) && p.tasks[t].pc.Connecting? && t.bucket !in p.shut
    ensures t.bucket in rooms
    ensures
      var after := rooms[t.bucket := Recovering(rooms[t.bucket])];
      RoomsOk(Opened(p, t), after, ledger) && Apart(Opened(p, t), after)
  {
    assert t.bucket in p.table;
    var b := t.bucket;
    var after := rooms[b := Recovering(rooms[b])];
    var q := Opened(p, t);
    assert RoomOk(rooms[b], ledger, false);
    assert RoomOk(after[b], ledger, true);
    forall id ensures id in Ids(after[b]) <==> id in Ids(rooms[b]) {
    }
    forall u | Live(q, u) && u.bucket in q.table ensures RoomOk(after[u.bucket], ledger, q.tasks[u].pc.Serving?) {
      assert Live(p, u);
      if u.bucket == b {
        assert u == t;
      }
    }
  }

  // ---- Steps of the client that bring buckets back ----

  lemma NewSocketKeepsRooms(p: Pool, rooms: map<BucketId, Room>, ledger: Ledger)
    requires RoomsOk(p, rooms, ledger) && Apart(p, rooms) && NoneLive(p)
    ensures RoomsOk(p, rooms, FRESH)
    ensures RoomsOk(Supervised(p), rooms, FRESH) && Apart(Supervised(p), rooms)
  {
    var q := Supervised(p);
    forall u | Live(q, u) && u.bucket in q.table ensures !q.tasks[u].pc.Serving? {
      assert u.serial != p.nextTask ==> Live(p, u);
    }
  }

  lemma NewBucketKeepsRooms(p: Pool, rooms: map<BucketId, Room>, ledger: Ledger)
    requires PoolOk(p) && RoomsOk(p, rooms, ledger) && Apart(p, rooms)
    ensures
      var after := rooms[p.nextBucket := EMPTY_ROOM];
      RoomsOk(Added(p), after, ledger) && Apart(Added(p), after)
  {
    var q := Added(p);
    var after := rooms[p.nextBucket := EMPTY_ROOM];
    assert Ids(EMPTY_ROOM) == [];
    forall u | Live(q, u) && u.bucket in q.table ensures RoomOk(after[u.bucket], ledger, q.tasks[u].pc.Serving?) {
      if u.bucket != p.nextBucket {
        assert Live(p, u);
      }
    }
  }

  // ---- Subscriptions ----

  lemma ConfirmKeepsDue(r: Room, ledger: Ledger, id: SubId, x: SubId)
    requires DueOk(r, ledger, x) && id in r.pendings
    ensures DueOk(Confirmed(r, id, !Known(ledger, id)), Said(ledger, id, false), x)
  {
    KnownAfterSaying(ledger, id, false, x);
    CountOneMore(r.told, id, x);
  }

  lemma CountOneMore(s: seq<SubId>, id: SubId, x: SubId)
    ensures multiset(s + [id])[x] == multiset(s)[x] + if x == id then 1 else 0
  {
  }

  lemma ConfirmedIds(r: Room, id: SubId, delivered: bool, x: SubId)
    requires id in r.pendings
    ensures x in Ids(Confirmed(r, id, delivered)) <==> x in Ids(r)
  {
  }

  lemma ConfirmKeepsRooms(p: Pool, b: BucketId, id: SubId, rooms: map<BucketId, Room>, ledger: Ledger)
    requires PoolOk(p) && RoomsOk(p, rooms, ledger) && Apart(p, rooms)
    requires IsServed(p, b) && b in rooms && id in rooms[b].pendings
    ensures
      var after := rooms[b := Confirmed(rooms[b], id, !Known(ledger, id))];
      RoomsOk(p, after, Said(ledger, id, false)) && Apart(p, after)
  {
    var after := rooms[b := Confirmed(rooms[b], id, !Known(ledger, id))];
    forall x ensures x in Ids(after[b]) <==> x in Ids(rooms[b]) {
      ConfirmedIds(rooms[b], id, !Known(ledger, id), x);
    }
    assert RoomOk(rooms[b], ledger, true);
    forall x | x in after[b].due ensures DueOk(after[b], Said(ledger, id, false), x) {
      ConfirmKeepsDue(rooms[b], ledger, id, x);
    }
    forall u | Live(p, u) && u.bucket in p.table && u.bucket != b
      ensures RoomOk(after[u.bucket], Said(ledger, id, false), p.tasks[u].pc.Serving?)
    {
      OtherRoomUntouched(rooms[u.bucket], ledger, p.tasks[u].pc.Serving?, id);
    }
  }

  /** An announcement in one bucket changes nothing for the buckets that do not hold the id. */
  lemma OtherRoomUntouched(r: Room, ledger: Ledger, serving: bool, id: SubId)
    requires RoomOk(r, ledger, serving) && id !in Ids(r)
    ensures RoomOk(r, Said(ledger, id, false), serving)
  {
    forall x ensures Known(Said(ledger, id, false), x) <==> x == id || Known(ledger, x) {
      KnownAfterSaying(ledger, id, false, x);
    }
  }

  /** A stray is heard by nobody. */
  lemma StrayKeepsRooms(p: Pool, b: BucketId, id: SubId, rooms: map<BucketId, Room>, ledger: Ledger)
    requires RoomsOk(p, rooms, ledger) && Apart(p, rooms)
    requires b !in p.table && b in rooms && id in rooms[b].pendings
    ensures
      var after := rooms[b := Confirmed(rooms[b], id, !Known(ledger, id))];
      RoomsOk(p, after, Said(ledger, id, true)) && Apart(p, after)
  {
    forall x ensures Heard(Said(ledger, id, true), x) ==> Heard(ledger, x) {
      KnownAfterSaying(ledger, id, true, x);
    }
  }

  lemma SubscribeKeepsRooms(p: Pool, b: BucketId, id: SubId, rooms: map<BucketId, Room>, ledger: Ledger)
    requires PoolOk(p) && RoomsOk(p, rooms, ledger) && Apart(p, rooms) && IsServed(p, b) && b in rooms
    requires forall c :: c in p.table && c in rooms ==> id !in Ids(rooms[c])
    ensures
      var after := rooms[b := Requested(rooms[b], id)];
      RoomsOk(p, after, ledger) && Apart(p, after)
  {
    var after := rooms[b := Requested(rooms[b], id)];
    forall x ensures x in Ids(after[b]) <==> x == id || x in Ids(rooms[b]) {
    }
    assert RoomOk(rooms[b], ledger, true);
    forall x | x in after[b].due ensures DueOk(after[b], ledger, x) {
      assert DueOk(rooms[b], ledger, x);
    }
  }

  lemma UnsubscribeKeepsRooms(p: Pool, b: BucketId, id: SubId, rooms: map<BucketId, Room>, ledger: Ledger)
    requires PoolOk(p) && RoomsOk(p, rooms, ledger) && Apart(p, rooms) && IsServed(p, b) && b in rooms
    ensures
      var after := rooms[b := Unsubscribed(rooms[b], id)];
      RoomsOk(p, after, ledger) && Apart(p, after)
  {
    var after := rooms[b := Unsubscribed(rooms[b], id)];
    forall x ensures x in Ids(after[b]) <==> x != id && x in Ids(rooms[b]) {
    }
    assert RoomOk(rooms[b], ledger, true);
    forall x | x in after[b].due ensures DueOk(after[b], ledger, x) {
      assert DueOk(rooms[b], ledger, x);
    }
  }

  // ---- Every step, every run ----

  ghost predicate KeptBy(p: Pool, rooms: map<BucketId, Room>, ledger: Ledger) {
    RoomsOk(p, rooms, ledger) && Apart(p, rooms)
  }

  lemma BeginsKeeps(k: Book, t: TaskId)
    requires Announced(k) && Enabled(k.client, SupervisorBegins(t))
    ensures KeptBy(Begun(k.client.pool, t), k.rooms, k.ledger)
  {
    var pc := if t.bucket in k.client.pool.shut then Finished else Connecting;
    RedialKeepsRooms(k.client.pool, t, pc, k.rooms, k.ledger);
  }

  lemma OpensKeeps(k: Book, t: TaskId)
    requires Announced(k) && Enabled(k.client, SupervisorOpens(t))
    ensures KeptBy(Opened(k.client.pool, t), RoomsAfter(k, SupervisorOpens(t)), k.ledger)
  {
    if t.bucket in k.client.pool.shut {
      RedialKeepsRooms(k.client.pool, t, Finished, k.rooms, k.ledger);
    } else {
      OpeningKeepsRooms(k.client.pool, t, k.rooms, k.ledger);
    }
  }

  lemma DropsKeeps(k: Book, t: TaskId, givesUp: bool)
    requires Announced(k) && Enabled(k.client, SupervisorDrops(t, givesUp))
    ensures KeptBy(Dropped(k.client.pool, t, BucketIsDone(k.client, t.bucket), givesUp), k.rooms,
                   LedgerAfter(k, SupervisorDrops(t, givesUp)))
  {
    DropKeepsRooms(k.client.pool, t, BucketIsDone(k.client, t.bucket), givesUp, k.rooms, k.ledger);
  }

  lemma WakesKeeps(k: Book, t: TaskId)
    requires Announced(k) && Enabled(k.client, SupervisorWakes(t))
    ensures KeptBy(Woken(k.client.pool, t, BucketIsDone(k.client, t.bucket)), k.rooms, k.ledger)
  {
    var pc := if BucketIsDone(k.client, t.bucket) then Finished else Connecting;
    RedialKeepsRooms(k.client.pool, t, pc, k.rooms, k.ledger);
  }

  lemma LabelKeeps(k: Book, move: Label)
    requires Announced(k) && Enabled(k.client, move)
    ensures KeptBy(Step(k.client, move).pool, RoomsAfter(k, move), LedgerAfter(k, move))
  {
    if !MovesASupervisor(move) {
      OtherLabelShrinks(k.client, move);
      ShrinkingKeepsRooms(k.client.pool, Step(k.client, move).pool, k.rooms, k.ledger);
    } else if move.HandshakeDone? {
      NewSocketKeepsRooms(k.client.pool, k.rooms, k.ledger);
      HandshakeDonePool(k.client);
    } else if move.SubscribeOpensBucket? {
      NewBucketKeepsRooms(k.client.pool, k.rooms, k.ledger);
    } else {
      match move
      case SupervisorBegins(t) => BeginsKeeps(k, t);
      case SupervisorOpens(t) => OpensKeeps(k, t);
      case SupervisorDrops(t, givesUp) => DropsKeeps(k, t, givesUp);
      case SupervisorWakes(t) => WakesKeeps(k, t);
    }
  }

  lemma ConfirmKeeps(k: Book, t: TaskId, id: SubId)
    requires Announced(k) && CanAct(k, Confirm(t, id))
    ensures Announced(Does(k, Confirm(t, id)))
  {
    if t.bucket in k.client.pool.table {
      assert k.client.pool.table[t.bucket] == Some(t);
      ConfirmKeepsRooms(k.client.pool, t.bucket, id, k.rooms, k.ledger);
    } else {
      StrayKeepsRooms(k.client.pool, t.bucket, id, k.rooms, k.ledger);
    }
    StraysStayKnown(k, Confirm(t, id));
  }

  lemma StraysStayKnown(k: Book, act: Act)
    requires CanAct(k, act) && forall id :: id in k.ledger.strays ==> Known(k.ledger, id)
    ensures forall id :: id in Does(k, act).ledger.strays ==> Known(Does(k, act).ledger, id)
  {
    forall id | id in Does(k, act).ledger.strays ensures Known(Does(k, act).ledger, id) {
      KnownAfterAct(k, act, id);
    }
  }

  lemma ActKeeps(k: Book, act: Act)
    requires Announced(k) && CanAct(k, act)
    ensures Announced(Does(k, act))
  {
    StraysStayKnown(k, act);
    match act
    case Life(move) =>
      StepIsSafe(k.client, move);
      LabelKeeps(k, move);
    case Subscribe(b, id) => SubscribeKeepsRooms(k.client.pool, b, id, k.rooms, k.ledger);
    case Confirm(t, id) => ConfirmKeeps(k, t, id);
    case Unsubscribe(b, id) => UnsubscribeKeepsRooms(k.client.pool, b, id, k.rooms, k.ledger);
  }

  lemma {:induction false} ActsKeep(k: Book, acts: seq<Act>)
    requires Announced(k) && CanDo(k, acts)
    ensures Announced(DoesAll(k, acts))
    decreases |acts|
  {
    if acts != [] {
      ActKeeps(k, acts[0]);
      ActsKeep(Does(k, acts[0]), acts[1..]);
    }
  }

  // ---- What the owner hears ----

  /** `b`'s current socket was brought `id`, and `b` still holds it. */
  predicate Owes(k: Book, b: BucketId, id: SubId) {
    IsServed(k.client.pool, b) && b in k.rooms && id in k.rooms[b].due
  }

  lemma OwedIsOk(k: Book, b: BucketId, id: SubId)
    requires Announced(k) && Owes(k, b, id)
    ensures DueOk(k.rooms[b], k.ledger, id)
  {
    assert RoomOk(k.rooms[b], k.ledger, true);
  }

  lemma ReachedIsAnnounced(timeout: Option<real>, acts: seq<Act>)
    requires CanDo(Blank(timeout), acts)
    ensures Announced(DoesAll(Blank(timeout), acts))
  {
    InitiallySafe(timeout);
    assert Announced(Blank(timeout));
    ActsKeep(Blank(timeout), acts);
  }

  /** In every reachable state, whatever brought the bucket back: a subscription it brought to
      its current socket is still held; it has been told no more than once there; and while its
      confirmation is awaited it has not been told, and will be suppressed if and only if a bucket
      out of the table confirmed the same sub_id since it was last covered. */
  lemma EveryReturnIsAnnounced(timeout: Option<real>, acts: seq<Act>, b: BucketId, id: SubId)
    requires CanDo(Blank(timeout), acts) && Owes(DoesAll(Blank(timeout), acts), b, id)
    ensures
      var k := DoesAll(Blank(timeout), acts);
      var r := k.rooms[b];
      && id in Ids(r) && multiset(r.told)[id] <= 1
      && (id !in r.confirmed ==>
            multiset(r.told)[id] == 0 && (Known(k.ledger, id) <==> Strayed(Blank(timeout), acts, id)))
  {
    ReachedIsAnnounced(timeout, acts);
    OwedIsOk(DoesAll(Blank(timeout), acts), b, id);
    StraysAreHistory(Blank(timeout), acts, id);
  }

  /** From one state to the next, `b` has no socket. */
  ghost predicate Down(k: Book, acts: seq<Act>, b: BucketId)
    requires CanDo(k, acts)
    decreases |acts|
  {
    acts != [] ==> !IsUp(k.client.pool, b) && Down(Does(k, acts[0]), acts[1..], b)
  }

  lemma {:induction false} DownKeepsHolding(k: Book, acts: seq<Act>, b: BucketId)
    requires Announced(k) && b in k.rooms && b < k.client.pool.nextBucket
    requires CanDo(k, acts) && Down(k, acts, b)
    ensures Announced(DoesAll(k, acts))
    ensures b in DoesAll(k, acts).rooms && Ids(DoesAll(k, acts).rooms[b]) == Ids(k.rooms[b])
    decreases |acts|
  {
    if acts != [] {
      ActKeeps(k, acts[0]);
      TableGrows(k, acts[0]);
      DownKeepsHolding(Does(k, acts[0]), acts[1..], b);
    }
  }

  lemma TableGrows(k: Book, act: Act)
    requires CanAct(k, act)
    ensures Does(k, act).client.pool.nextBucket >= k.client.pool.nextBucket
  {
    if act.Life? {
      NextBucketGrows(k.client, act.move);
    }
  }

  lemma {:induction false} StopFromKeepsNumbering(s: Client, after: After, todo: seq<BucketId>)
    ensures StopFrom(s, after, todo).pool.nextBucket == s.pool.nextBucket
    ensures StopFrom(s, after, todo).pool.sockets == s.pool.sockets
    decreases |todo|
  {
    if todo == [] {
      StoppedPool(s, after);
    } else {
      StopFromKeepsNumbering(s.(pool := Stop(s.pool, todo[0])), after, todo[1..]);
    }
  }

  lemma NextBucketGrows(s: Client, move: Label)
    requires Enabled(s, move)
    ensures Step(s, move).pool.nextBucket >= s.pool.nextBucket
    ensures !move.SupervisorOpens? ==> Step(s, move).pool.sockets == s.pool.sockets
  {
    match move
    case RunStart(initial) => RunStartPool(s, initial);
    case Wake => WakePool(s);
    case HandshakeDone => HandshakeDonePool(s);
    case Interrupted(_) => LossKeepsNumbering(s, move);
    case Left => LossKeepsNumbering(s, move);
    case StopResumes => LossKeepsNumbering(s, move);
    case _ =>
  }

  lemma LossKeepsNumbering(s: Client, move: Label)
    requires Enabled(s, move) && (move.Interrupted? || move.Left? || move.StopResumes?)
    ensures Step(s, move).pool.nextBucket == s.pool.nextBucket && Step(s, move).pool.sockets == s.pool.sockets
  {
    match move
    case Interrupted(failure) =>
      if failure.Raised? {
        StopFromKeepsNumbering(s, AfterError(failure.error), Keys(s.pool));
      }
    case Left =>
      if !s.pc.ending.Escaped? {
        StopFromKeepsNumbering(s, AfterLeaving(s.pc.ending, s.closing), Keys(s.pool));
      }
    case StopResumes => StopFromKeepsNumbering(s, s.pc.after, s.pc.todo);
  }

  /** The supervisor's bucket is about to serve a new socket. */
  predicate Opens(k: Book, t: TaskId) {
    CanAct(k, Life(SupervisorOpens(t))) && t.bucket !in k.client.pool.shut
  }

  /** What a bucket holds when its socket dies is what its next socket owes, in whatever way the
      bucket was brought back and however long that took. */
  lemma NextSocketOwesEverything(timeout: Option<real>, before: seq<Act>, b: BucketId, down: seq<Act>, t: TaskId)
    requires CanDo(Blank(timeout), before)
    requires b in DoesAll(Blank(timeout), before).rooms && b < DoesAll(Blank(timeout), before).client.pool.nextBucket
    requires CanDo(DoesAll(Blank(timeout), before), down) && Down(DoesAll(Blank(timeout), before), down, b)
    requires Opens(DoesAll(DoesAll(Blank(timeout), before), down), t) && t.bucket == b
    ensures
      var died := DoesAll(Blank(timeout), before);
      var back := Does(DoesAll(died, down), Life(SupervisorOpens(t)));
      && IsServed(back.client.pool, b)
      && b in back.rooms && back.rooms[b].due == (set id | id in Ids(died.rooms[b]))
      && back.rooms[b].told == []
  {
    ReachedIsAnnounced(timeout, before);
    var died := DoesAll(Blank(timeout), before);
    DownKeepsHolding(died, down, b);
    OpeningOwes(DoesAll(died, down), t);
  }

  lemma OpeningOwes(k: Book, t: TaskId)
    requires Announced(k) && Opens(k, t) && t.bucket in k.rooms
    ensures
      var back := Does(k, Life(SupervisorOpens(t)));
      && IsServed(back.client.pool, t.bucket) && t.bucket in back.rooms
      && back.rooms[t.bucket].due == (set id | id in Ids(k.rooms[t.bucket]))
      && back.rooms[t.bucket].told == []
  {
    OpeningServes(k.client.pool, t);
  }

  lemma OpeningServes(p: Pool, t: TaskId)
    requires PoolOk(p) && Live(p, t) && t.bucket !in p.shut
    ensures IsServed(Opened(p, t), t.bucket)
  {
    var q := Opened(p, t);
    assert p.table[t.bucket] == Some(t);
  }

  predicate Holds(k: Book, c: BucketId, id: SubId) {
    c in k.client.pool.table && c in k.rooms && id in Ids(k.rooms[c])
  }

  /** A bucket-only restart forgets the announcements of that bucket's subscriptions and of no
      other. */
  lemma RestartTouchesOnlyItsOwn(timeout: Option<real>, acts: seq<Act>, t: TaskId, givesUp: bool, c: BucketId,
                                 id: SubId)
    requires CanDo(Blank(timeout), acts)
    requires CanAct(DoesAll(Blank(timeout), acts), Life(SupervisorDrops(t, givesUp)))
    requires Holds(DoesAll(Blank(timeout), acts), c, id)
    ensures
      var k := DoesAll(Blank(timeout), acts);
      var l := Does(k, Life(SupervisorDrops(t, givesUp)));
      Known(l.ledger, id) <==> Known(k.ledger, id) && (c != t.bucket || BucketIsDone(k.client, c))
  {
    ReachedIsAnnounced(timeout, acts);
    RestartForgetsItsOwn(DoesAll(Blank(timeout), acts), t, givesUp, c, id);
  }

  lemma RestartForgetsItsOwn(k: Book, t: TaskId, givesUp: bool, c: BucketId, id: SubId)
    requires Announced(k) && CanAct(k, Life(SupervisorDrops(t, givesUp))) && Holds(k, c, id)
    ensures Known(LedgerAfter(k, SupervisorDrops(t, givesUp)), id)
       <==> Known(k.ledger, id) && (c != t.bucket || BucketIsDone(k.client, c))
  {
    if t.bucket in k.rooms {
      KnownAfterForgetting(k.ledger, Ids(k.rooms[t.bucket]), id);
    }
  }

  /** What the ledgers do not cover: an id confirmed, unsubscribed and subscribed again on the
      same socket is pending once more, and its second confirmation will be suppressed. */
  lemma ReuseIsSilent(k: Book, t: TaskId, id: SubId)
    requires Announced(k) && CanAct(k, Confirm(t, id)) && t.bucket in k.client.pool.table
    ensures
      var b := t.bucket;
      var acts := [Confirm(t, id), Unsubscribe(b, id), Subscribe(b, id)];
      && CanDo(k, acts)
      && var l := DoesAll(k, acts);
         b in l.rooms && CanAct(l, Confirm(t, id)) && Known(l.ledger, id)
  {
    var b := t.bucket;
    assert k.client.pool.table[b] == Some(t);
    var k1 := Does(k, Confirm(t, id));
    KnownAfterSaying(k.ledger, id, false, id);
    ActKeeps(k, Confirm(t, id));
    assert id in Ids(k1.rooms[b]);
    var k2 := Does(k1, Unsubscribe(b, id));
    NoneHolds(k1, b, id);
    var k3 := Does(k2, Subscribe(b, id));
    ThreeActs(k, Confirm(t, id), Unsubscribe(b, id), Subscribe(b, id));
  }

  lemma NoneHolds(k: Book, b: BucketId, id: SubId)
    requires Announced(k) && CanAct(k, Unsubscribe(b, id))
    ensures
      var l := Does(k, Unsubscribe(b, id));
      forall c :: c in l.client.pool.table && c in l.rooms ==> id !in Ids(l.rooms[c])
  {
    var l := Does(k, Unsubscribe(b, id));
    forall c | c in l.client.pool.table && c in l.rooms ensures id !in Ids(l.rooms[c]) {
      if c != b {
        assert l.rooms[c] == k.rooms[c];
      }
    }
  }

  lemma ThreeActs(k: Book, x: Act, y: Act, z: Act)
    requires CanAct(k, x) && CanAct(Does(k, x), y) && CanAct(Does(Does(k, x), y), z)
    ensures CanDo(k, [x, y, z]) && DoesAll(k, [x, y, z]) == Does(Does(Does(k, x), y), z)
  {
    var k1, k2 := Does(k, x), Does(Does(k, x), y);
    var k3 := Does(k2, z);
    assert CanDo(k3, []) && DoesAll(k3, []) == k3;
    assert [z][1..] == [] && [y, z][1..] == [z] && [x, y, z][1..] == [y, z];
    assert CanDo(k2, [z]) && DoesAll(k2, [z]) == k3;
    assert CanDo(k1, [y, z]) && DoesAll(k1, [y, z]) == k3;
  }

  // ---- When a confirmation is announced ----

  /** The act makes the sub_id's announcement new again: the client's new socket, or the restart
      of a bucket that holds it. */
  predicate Covers(k: Book, act: Act, id: SubId) {
    act.Life? &&
    (|| act.move.HandshakeDone?
     || (act.move.SupervisorDrops? && act.move.task.bucket in k.rooms
         && !BucketIsDone(k.client, act.move.task.bucket) && id in Ids(k.rooms[act.move.task.bucket])))
  }

  /** The book before the `i`-th act. */
  function Before(k: Book, acts: seq<Act>, i: nat): Book
    requires CanDo(k, acts) && i <= |acts|
    decreases i
  {
    if i == 0 then k else Before(Does(k, acts[0]), acts[1..], i - 1)
  }

  /** The `i`-th act confirms the sub_id, in whatever bucket, and no later one covers it. */
  predicate StandsFrom(k: Book, acts: seq<Act>, i: nat, id: SubId)
    requires CanDo(k, acts)
  {
    && i < |acts| && acts[i].Confirm? && acts[i].subId == id
    && NoneCovers(k, acts, i + 1, id)
  }

  predicate NoneCovers(k: Book, acts: seq<Act>, from: nat, id: SubId)
    requires CanDo(k, acts)
  {
    forall j :: from <= j < |acts| ==> !Covers(Before(k, acts, j), acts[j], id)
  }

  ghost predicate Stands(k: Book, acts: seq<Act>, id: SubId)
    requires CanDo(k, acts)
  {
    exists i: nat :: StandsFrom(k, acts, i, id)
  }

  lemma KnownAfterAct(k: Book, act: Act, id: SubId)
    requires CanAct(k, act)
    ensures Known(Does(k, act).ledger, id)
       <==> (act.Confirm? && act.subId == id) || (Known(k.ledger, id) && !Covers(k, act, id))
  {
    match act
    case Life(move) =>
      if move.SupervisorDrops? && move.task.bucket in k.rooms {
        KnownAfterForgetting(k.ledger, Ids(k.rooms[move.task.bucket]), id);
      }
    case Confirm(t, x) => KnownAfterSaying(k.ledger, x, t.bucket !in k.client.pool.table, id);
    case _ =>
  }

  lemma NoneCoversLater(k: Book, acts: seq<Act>, from: nat, id: SubId)
    requires CanDo(k, acts) && acts != []
    ensures NoneCovers(k, acts, from + 1, id) <==> NoneCovers(Does(k, acts[0]), acts[1..], from, id)
  {
    var l, rest := Does(k, acts[0]), acts[1..];
    if NoneCovers(k, acts, from + 1, id) {
      forall j | from <= j < |rest| ensures !Covers(Before(l, rest, j), rest[j], id) {
        assert Before(k, acts, j + 1) == Before(l, rest, j);
      }
    }
    if NoneCovers(l, rest, from, id) {
      forall j | from + 1 <= j < |acts| ensures !Covers(Before(k, acts, j), acts[j], id) {
        assert Before(k, acts, j) == Before(l, rest, j - 1) && acts[j] == rest[j - 1];
      }
    }
  }

  lemma NoneCoversFromHere(k: Book, acts: seq<Act>, id: SubId)
    requires CanDo(k, acts) && acts != []
    ensures NoneCovers(k, acts, 0, id) <==> !Covers(k, acts[0], id) && NoneCovers(k, acts, 1, id)
  {
    assert Before(k, acts, 0) == k;
  }

  lemma StandsLater(k: Book, acts: seq<Act>, id: SubId)
    requires CanDo(k, acts) && acts != []
    ensures Stands(k, acts, id) <==>
      || Stands(Does(k, acts[0]), acts[1..], id)
      || (acts[0].Confirm? && acts[0].subId == id && NoneCovers(Does(k, acts[0]), acts[1..], 0, id))
  {
    var l, rest := Does(k, acts[0]), acts[1..];
    NoneCoversLater(k, acts, 0, id);
    if i: nat :| StandsFrom(l, rest, i, id) {
      NoneCoversLater(k, acts, i + 1, id);
      assert StandsFrom(k, acts, i + 1, id);
    }
    if acts[0].Confirm? && acts[0].subId == id && NoneCovers(l, rest, 0, id) {
      assert StandsFrom(k, acts, 0, id);
    }
    if i: nat :| StandsFrom(k, acts, i, id) {
      if i > 0 {
        NoneCoversLater(k, acts, i, id);
        assert StandsFrom(l, rest, i - 1, id);
      }
    }
  }

  /** The ledger is the history of confirmations and of what covers them. */
  lemma {:induction false} KnownIsHistory(k: Book, acts: seq<Act>, id: SubId)
    requires CanDo(k, acts)
    ensures Known(DoesAll(k, acts).ledger, id)
       <==> Stands(k, acts, id) || (Known(k.ledger, id) && NoneCovers(k, acts, 0, id))
    decreases |acts|
  {
    if acts != [] {
      var l, rest := Does(k, acts[0]), acts[1..];
      KnownIsHistory(l, rest, id);
      KnownAfterAct(k, acts[0], id);
      StandsLater(k, acts, id);
      NoneCoversLater(k, acts, 0, id);
      NoneCoversFromHere(k, acts, id);
    }
  }

  /** In every run, a confirmation is delivered if and only if no earlier one of the same sub_id,
      in whatever bucket and on whatever socket, stands uncovered. */
  lemma AnnouncedIff(timeout: Option<real>, acts: seq<Act>, t: TaskId, id: SubId)
    requires CanDo(Blank(timeout), acts) && CanAct(DoesAll(Blank(timeout), acts), Confirm(t, id))
    ensures
      var k := DoesAll(Blank(timeout), acts);
      var told := k.rooms[t.bucket].told;
      Does(k, Confirm(t, id)).rooms[t.bucket].told == (if Stands(Blank(timeout), acts, id) then told else told + [id])
  {
    KnownIsHistory(Blank(timeout), acts, id);
  }

  /** A sub_id that was never confirmed before is always announced. */
  lemma FirstIsAnnounced(timeout: Option<real>, acts: seq<Act>, t: TaskId, id: SubId)
    requires CanDo(Blank(timeout), acts) && CanAct(DoesAll(Blank(timeout), acts), Confirm(t, id))
    requires forall i :: 0 <= i < |acts| ==> !(acts[i].Confirm? && acts[i].subId == id)
    ensures
      var k := DoesAll(Blank(timeout), acts);
      Does(k, Confirm(t, id)).rooms[t.bucket].told == k.rooms[t.bucket].told + [id]
  {
    AnnouncedIff(timeout, acts, t, id);
  }

  // ---- Strays ----

  /** The `i`-th act confirms the sub_id in a bucket that is out of the table, and no later act
      covers it. */
  predicate StraysFrom(k: Book, acts: seq<Act>, i: nat, id: SubId)
    requires CanDo(k, acts)
  {
    StandsFrom(k, acts, i, id) && acts[i].task.bucket !in Before(k, acts, i).client.pool.table
  }

  ghost predicate Strayed(k: Book, acts: seq<Act>, id: SubId)
    requires CanDo(k, acts)
  {
    exists i: nat :: StraysFrom(k, acts, i, id)
  }

  lemma StrayAfterAct(k: Book, act: Act, id: SubId)
    requires CanAct(k, act)
    ensures id in Does(k, act).ledger.strays <==>
      || (act.Confirm? && act.subId == id && act.task.bucket !in k.client.pool.table)
      || (id in k.ledger.strays && !Covers(k, act, id))
  {
  }

  lemma StrayedLater(k: Book, acts: seq<Act>, id: SubId)
    requires CanDo(k, acts) && acts != []
    ensures Strayed(k, acts, id) <==>
      || Strayed(Does(k, acts[0]), acts[1..], id)
      || (acts[0].Confirm? && acts[0].subId == id && acts[0].task.bucket !in k.client.pool.table
          && NoneCovers(Does(k, acts[0]), acts[1..], 0, id))
  {
    var l, rest := Does(k, acts[0]), acts[1..];
    NoneCoversLater(k, acts, 0, id);
    assert Before(k, acts, 0) == k;
    if i: nat :| StraysFrom(l, rest, i, id) {
      NoneCoversLater(k, acts, i + 1, id);
      assert Before(k, acts, i + 1) == Before(l, rest, i);
      assert StraysFrom(k, acts, i + 1, id);
    }
    if acts[0].Confirm? && acts[0].subId == id && acts[0].task.bucket !in k.client.pool.table
      && NoneCovers(l, rest, 0, id)
    {
      assert StraysFrom(k, acts, 0, id);
    }
    if i: nat :| StraysFrom(k, acts, i, id) {
      if i > 0 {
        NoneCoversLater(k, acts, i, id);
        assert Before(k, acts, i) == Before(l, rest, i - 1);
        assert StraysFrom(l, rest, i - 1, id);
      }
    }
  }

  lemma {:induction false} StraysAreHistory(k: Book, acts: seq<Act>, id: SubId)
    requires CanDo(k, acts)
    ensures id in DoesAll(k, acts).ledger.strays
       <==> Strayed(k, acts, id) || (id in k.ledger.strays && NoneCovers(k, acts, 0, id))
    decreases |acts|
  {
    if acts != [] {
      var l, rest := Does(k, acts[0]), acts[1..];
      StraysAreHistory(l, rest, id);
      StrayAfterAct(k, acts[0], id);
      StrayedLater(k, acts, id);
      NoneCoversLater(k, acts, 0, id);
      NoneCoversFromHere(k, acts, id);
    }
  }
}

/** The client's run loop, its bucket supervisors and its `close()`, as one state machine.

    A step is the code between two suspension points. A label carries what the program does
    not decide: how a handshake or a connection ends, when a task resumes, how time passes.
    Fields marked history record what happened; no step reads them. */
module Lifecycle {
  import opened Options
  import Delay

  type BucketId = nat

  /** A supervisor task: the bucket it was created for, and when. */
  datatype TaskId = TaskId(bucket: BucketId, serial: nat)

  const STABLE_CONNECTION_TIME := 30.0
  const GOING_AWAY := 1001

  // ---- How a connection can end ----

  /** The exceptions `__run` handles. A `ConnectionClosedError` carries the received code. */
  datatype Error =
    | ConnectionClosed(code: Option<nat>)
    | InvalidStatus(status: nat)
    | InvalidMessage
    | OSError

  predicate IsLostConnection(e: Error) {
    e.ConnectionClosed? && (e.code.None? || e.code.value == 1006 || e.code.value == 1012)
  }

  predicate IsRetryableStatus(status: nat) {
    status == 408 || status == 429 || 500 <= status <= 599
  }

  predicate IsRetryable(e: Error) {
    match e
    case InvalidStatus(status) => IsRetryableStatus(status)
    case InvalidMessage => true
    case OSError => true
    case ConnectionClosed(_) => false
  }

  datatype Ending =
    | Raised(error: Error)
    | Ended(closeCode: Option<nat>)  // the message loop ran out, or the client hung up
    | Escaped                        // an exception `__run` does not handle

  /** What the run loop does once the supervisors are stopped. */
  datatype After =
    | AfterError(error: Error)
    | AfterGoingAway
    | AfterEnd

  /** How `start()` ended: normally, with an error of `__run`'s own, or with an exception it
      does not handle. */
  datatype Result = Returned | Failed | Crashed

  /** Where the task running `start()` is. */
  datatype RunPc =
    | NotStarted
    | Scheduled(epoch: nat)
    | Sleeping(until: real)
    | Handshake
    | AwaitBuckets
    | Reading
    | HangingUp
    | Leaving(ending: Ending)                 // the socket is being closed
    | Stopping(after: After, todo: seq<BucketId>)  // awaiting a cancelled supervisor
    | Done(result: Result)

  /** The client's own socket came up and has not been left yet. */
  predicate OnASocket(pc: RunPc) {
    pc.AwaitBuckets? || pc.Reading? || pc.HangingUp? || pc.Leaving?
  }

  datatype SupervisorPc = Ready | Connecting | Serving | Asleep | Finished

  datatype Supervisor = Supervisor(pc: SupervisorPc, cancelled: bool)

  /** Where a `close()` call is. */
  datatype ClosePc =
    | ClosingBuckets(todo: seq<BucketId>)
    | StoppingBuckets(todo: seq<BucketId>)
    | ClosingSocket
    | Closed

  /** `__reconnection`. `began` and `tries` are history: when the outage began, and how many
      connection attempts it has seen. */
  datatype Outage = Outage(deadline: Option<real>, attempts: nat, began: real, tries: nat)

  /** The bucket table and every supervisor ever created. */
  datatype Pool = Pool(
    table: map<BucketId, Option<TaskId>>,    // `__buckets`
    shut: set<BucketId>,                     // buckets whose `_closing` is set
    tasks: map<TaskId, Supervisor>,
    nextBucket: nat,
    nextTask: nat,
    dropped: set<TaskId>,                    // supervisors `__new_bucket` is about to cancel
    newest: map<BucketId, nat>,              // history: serial of a bucket's last supervisor
    sockets: map<BucketId, nat>)             // history: sockets each bucket opened

  datatype Client = Client(
    timeout: Option<real>,
    clock: real,
    pc: RunPc,
    closing: bool,
    closeRequested: bool,
    epoch: nat,
    reconnection: Option<Outage>,
    connectedAt: Option<real>,
    delay: Delay.Backoff,
    up: bool,                                // the client's socket is OPEN
    authentication: bool,
    pool: Pool,
    closers: seq<ClosePc>,
    // history
    authenticated: bool,                     // the current socket has received an OK auth reply
    cleanStart: bool,                        // the session began with no authentication left over
    disconnected: nat,                       // "disconnected" events of this `start()`
    attempts: nat,                           // connection attempts of the client's socket
    landed: bool,                            // a `close()` was called since this `start()` was
    downAt: real,                            // when the client's socket last went down
    sleptAt: real,                           // when the run loop last went to sleep
    drawn: seq<real>)                        // backoff delays drawn since the last reset

  datatype Label =
    | Tick(elapsed: real)
    | CallStart
    | RunStart(initial: real)
    | Wake
    | Interrupted(failure: Ending)  // off the socket: the handshake failed, or the task was cancelled
    | HandshakeDone
    | BucketsWaited
    | AuthReply
    | SocketDown
    | ReadingEnds(ending: Ending)
    | Left
    | StopResumes
    | CallClose
    | CloseResumes(at: nat)
    | SupervisorBegins(task: TaskId)
    | SupervisorOpens(task: TaskId)
    | SupervisorDrops(task: TaskId, givesUp: bool)
    | SupervisorWakes(task: TaskId)
    | SubscribeOpensBucket
    | NewBucketGoes(bucket: BucketId, atOnce: bool)
    | CancelDropped(task: TaskId)
    | UnsubscribeLast(bucket: BucketId)

  const EMPTY_POOL := Pool(map[], {}, map[], 0, 0, {}, map[], map[])

  function Initial(timeout: Option<real>): Client {
    Client(timeout, 0.0, NotStarted, false, false, 0, None, None, Delay.Fresh(1.0), false, false,
           EMPTY_POOL, [], false, true, 0, 0, false, 0.0, 0.0, [])
  }

  // ---- Supervisors and their table ----

  predicate Live(p: Pool, t: TaskId) {
    t in p.tasks && !p.tasks[t].cancelled && !p.tasks[t].pc.Finished?
  }

  function Cancel(p: Pool, t: TaskId): Pool {
    if t in p.tasks then p.(tasks := p.tasks[t := p.tasks[t].(cancelled := true)]) else p
  }

  /** `self.__buckets[bucket] = None`, then the cancellation of what was there. */
  function Stop(p: Pool, b: BucketId): Pool {
    if b in p.table && p.table[b].Some? then Cancel(p.(table := p.table[b := None]), p.table[b].value) else p
  }

  /** The `finally` of `__start`: every supervisor in the table is cancelled, none awaited. */
  function StopAll(p: Pool): Pool {
    p.(table := map b | b in p.table :: None,
       tasks := map t | t in p.tasks :: if t.bucket in p.table && p.table[t.bucket] == Some(t)
                                        then p.tasks[t].(cancelled := true) else p.tasks[t])
  }

  /** A new supervisor for every bucket in the table. */
  function Supervised(p: Pool): Pool {
    p.(table := map b | b in p.table :: Some(TaskId(b, p.nextTask)),
       tasks := p.tasks + map b | b in p.table :: TaskId(b, p.nextTask) := Supervisor(Ready, false),
       newest := p.newest + map b | b in p.table :: p.nextTask,
       nextTask := p.nextTask + 1)
  }

  /** A new bucket and its supervisor. */
  function Added(p: Pool): Pool {
    var t := TaskId(p.nextBucket, p.nextTask);
    p.(table := p.table[p.nextBucket := Some(t)],
       tasks := p.tasks[t := Supervisor(Ready, false)],
       newest := p.newest[p.nextBucket := p.nextTask],
       nextBucket := p.nextBucket + 1, nextTask := p.nextTask + 1)
  }

  function Removed(p: Pool, b: BucketId): Pool {
    p.(table := p.table - {b}, shut := p.shut + {b})
  }

  /** The failing paths of `__new_bucket`: a cancelled caller cancels the supervisor at once,
      a bucket that did not open is closed first. */
  function Discarded(p: Pool, b: BucketId, atOnce: bool): Pool {
    if b !in p.table || p.table[b].None? then Removed(p, b)
    else if atOnce then Cancel(Removed(p, b), p.table[b].value)
    else Removed(p, b).(dropped := p.dropped + {p.table[b].value})
  }

  function CancelledLate(p: Pool, t: TaskId): Pool {
    Cancel(p, t).(dropped := p.dropped - {t})
  }

  function Shut(p: Pool, b: BucketId): Pool {
    p.(shut := p.shut + {b})
  }

  /** A session reopens the buckets of the table. */
  function Reopened(p: Pool): Pool {
    p.(shut := p.shut - p.table.Keys)
  }

  function WithPc(p: Pool, t: TaskId, pc: SupervisorPc): Pool {
    if t in p.tasks then p.(tasks := p.tasks[t := p.tasks[t].(pc := pc)]) else p
  }

  /** The table's keys, in the order they were added. */
  function KeysFrom(table: map<BucketId, Option<TaskId>>, next: nat): seq<BucketId> {
    if next == 0 then []
    else KeysFrom(table, next - 1) + if next - 1 in table then [next - 1] else []
  }

  function Keys(p: Pool): seq<BucketId> {
    KeysFrom(p.table, p.nextBucket)
  }

  // ---- The run loop ----

  function Finish(s: Client, result: Result): Client {
    s.(pc := Done(result), pool := StopAll(s.pool))
  }

  /** `__emit_closed`, or the "disconnected" of a normal exit. */
  function Announce(s: Client): Client {
    s.(disconnected := s.disconnected + 1)
  }

  function Disconnect(s: Client): Client {
    Finish(Announce(s), Returned)
  }

  function Attempt(s: Client): Client {
    s.(pc := Handshake, attempts := s.attempts + 1)
  }

  predicate Expired(s: Client, o: Outage) {
    o.deadline.Some? && o.deadline.value - s.clock <= 0.0
  }

  function SleepUntil(s: Client, o: Outage, delay: real): real {
    var sleep := delay.Floor as real;
    s.clock + if o.deadline.Some? then Delay.Min(sleep, o.deadline.value - s.clock) else sleep
  }

  /** Another backoff delay is drawn. */
  function Draw(s: Client): Client {
    s.(delay := Delay.Advanced(s.delay), drawn := s.drawn + [Delay.Peek(s.delay)])
  }

  /** The top of the loop. */
  function LoopTop(s: Client): Client {
    if s.reconnection.None? then Attempt(s)
    else if Expired(s, s.reconnection.value) then Finish(Draw(s), Failed)
    else Draw(s).(pc := Sleeping(SleepUntil(s, s.reconnection.value, Delay.Peek(s.delay))), sleptAt := s.clock)
  }

  /** `__begin_outage`. */
  function BeginOutage(s: Client): Client {
    var stable := s.connectedAt.Some? && s.clock - s.connectedAt.value >= STABLE_CONNECTION_TIME;
    s.(reconnection := Some(Outage(
         if s.timeout.None? then None else Some(s.clock + s.timeout.value), 1, s.clock, 0)),
       authentication := false,
       delay := if stable then Delay.Fresh(s.delay.initial) else s.delay,
       drawn := if stable then [] else s.drawn,
       connectedAt := None)
  }

  function Stopped(s: Client, after: After): Client {
    match after
    case AfterEnd => Disconnect(s)
    case AfterGoingAway => LoopTop(BeginOutage(s))
    case AfterError(e) =>
      if s.closing then Disconnect(s)
      else if IsLostConnection(e) then LoopTop(BeginOutage(s))
      else if s.reconnection.Some? && IsRetryable(e) then
        var o := s.reconnection.value;
        LoopTop(s.(reconnection := Some(o.(attempts := o.attempts + 1))))
      else Finish(s, Failed)
  }

  /** `__stop_buckets` up to the next supervisor it has to wait for. */
  function StopFrom(s: Client, after: After, todo: seq<BucketId>): Client
    decreases |todo|
  {
    if todo == [] then Stopped(s, after)
    else
      var b := todo[0];
      var u := s.(pool := Stop(s.pool, b));
      if b in s.pool.table && s.pool.table[b].Some? && Live(s.pool, s.pool.table[b].value) then
        u.(pc := Stopping(after, todo[1..]))
      else StopFrom(u, after, todo[1..])
  }

  function SessionBegins(s: Client, initial: real): Client {
    s.(closing := false, closeRequested := false, closers := [], pool := Reopened(s.pool),
       delay := Delay.Fresh(initial), drawn := [], cleanStart := !s.authentication)
  }

  function RunStartStep(s: Client, initial: real): Client
    requires s.pc.Scheduled?
  {
    if s.pc.epoch != s.epoch then s.(pc := Done(Returned), disconnected := s.disconnected + 1)
    else
      LoopTop(SessionBegins(s, initial))
  }

  function WakeStep(s: Client): Client {
    if s.closing then Disconnect(s)
    else if s.reconnection.None? || Expired(s, s.reconnection.value) then Finish(s, Failed)
    else
      var o := s.reconnection.value;
      Attempt(s.(reconnection := Some(o.(tries := o.tries + 1))))
  }

  /** The supervisors once the client's socket is open. */
  function OnceOpen(closing: bool, p: Pool): Pool {
    if closing || p.table == map[] then p else Supervised(p)
  }

  function HandshakeDoneStep(s: Client): Client {
    s.(reconnection := None, up := true, authenticated := false, connectedAt := Some(s.clock),
       pool := OnceOpen(s.closing, s.pool),
       pc := if s.closing then HangingUp else if s.pool.table == map[] then Reading else AwaitBuckets)
  }

  /** What a connection that came up and ended so leads to. */
  function AfterLeaving(ending: Ending, closing: bool): After
    requires !ending.Escaped?
  {
    if ending.Raised? then AfterError(ending.error)
    else if !closing && ending.closeCode == Some(GOING_AWAY) then AfterGoingAway
    else AfterEnd
  }

  function LeftStep(s: Client): Client
    requires s.pc.Leaving?
  {
    if s.pc.ending.Escaped? then Finish(s, Crashed)
    else StopFrom(s, AfterLeaving(s.pc.ending, s.closing), Keys(s.pool))
  }

  function InterruptedStep(s: Client, failure: Ending): Client {
    match failure
    case Raised(e) => StopFrom(s, AfterError(e), Keys(s.pool))
    case _ => Finish(s, Crashed)
  }

  // ---- close() ----

  function CallCloseStep(s: Client): Client {
    s.(closing := true, epoch := s.epoch + 1, closeRequested := true,
       closers := s.closers + [ClosingBuckets(Keys(s.pool))],
       landed := s.landed || !(s.pc.NotStarted? || s.pc.Done?))
  }

  /** Where a `close()` goes next, and what it does to the supervisors on the way. */
  function CloserNext(c: ClosePc, p: Pool): ClosePc {
    match c
    case ClosingBuckets(todo) => if todo == [] then StoppingBuckets(Keys(p)) else ClosingBuckets(todo[1..])
    case StoppingBuckets(todo) => if todo == [] then ClosingSocket else StoppingBuckets(todo[1..])
    case ClosingSocket => Closed
    case Closed => Closed
  }

  function CloserPool(c: ClosePc, p: Pool): Pool {
    match c
    case ClosingBuckets(todo) => if todo == [] then p else Shut(p, todo[0])
    case StoppingBuckets(todo) => if todo == [] then p else Stop(p, todo[0])
    case _ => p
  }

  function CloseResumesStep(s: Client, at: nat): Client
    requires at < |s.closers|
  {
    s.(pool := CloserPool(s.closers[at], s.pool),
       closers := s.closers[at := CloserNext(s.closers[at], s.pool)])
  }

  // ---- Steps of the supervisors ----

  predicate BucketIsDone(s: Client, b: BucketId) {
    s.closing || b !in s.pool.table || b in s.pool.shut || !s.up
  }

  function Sockets(p: Pool, b: BucketId): nat {
    if b in p.sockets then p.sockets[b] else 0
  }

  /** `bucket.start()` up to its handshake: a closed bucket returns, and its supervisor is done. */
  function Begun(p: Pool, t: TaskId): Pool {
    WithPc(p, t, if t.bucket in p.shut then Finished else Connecting)
  }

  /** The handshake is done; the bucket may have been closed meanwhile. */
  function Opened(p: Pool, t: TaskId): Pool {
    if t.bucket in p.shut then WithPc(p, t, Finished)
    else WithPc(p, t, Serving).(sockets := p.sockets[t.bucket := Sockets(p, t.bucket) + 1])
  }

  /** A supervisor that gives up takes itself out of the table, if it is there. */
  function GivesUp(p: Pool, t: TaskId): Pool {
    var q := WithPc(p, t, Finished);
    if t.bucket in p.table && p.table[t.bucket] == Some(t) then q.(table := p.table[t.bucket := None]) else q
  }

  /** `bucket.start()` has ended. */
  function Dropped(p: Pool, t: TaskId, done: bool, givesUp: bool): Pool {
    if done then WithPc(p, t, Finished) else if givesUp then GivesUp(p, t) else WithPc(p, t, Asleep)
  }

  function Woken(p: Pool, t: TaskId, done: bool): Pool {
    WithPc(p, t, if done then Finished else Connecting)
  }

  // ---- The machine ----

  predicate Runnable(s: Client, t: TaskId, pc: SupervisorPc) {
    t in s.pool.tasks && s.pool.tasks[t].pc == pc && !s.pool.tasks[t].cancelled
  }

  predicate Enabled(s: Client, act: Label) {
    match act
    case Tick(elapsed) => elapsed >= 0.0
    case CallStart =>
      (s.pc.NotStarted? || s.pc.Done?) && forall i :: 0 <= i < |s.closers| ==> s.closers[i].Closed?
    case RunStart(initial) => s.pc.Scheduled? && Delay.Drawn(initial)
    case Wake => s.pc.Sleeping? && (s.clock >= s.pc.until || s.closeRequested)
    case Interrupted(failure) =>
      if failure.Raised? then s.pc.Handshake? && !failure.error.ConnectionClosed?
      else failure.Escaped? && (s.pc.Handshake? || s.pc.Sleeping? || s.pc.Stopping?)
    case HandshakeDone => s.pc.Handshake?
    case BucketsWaited => s.pc.AwaitBuckets?
    case AuthReply => s.pc.Reading?
    case SocketDown => s.up
    case ReadingEnds(ending) =>
      s.pc.Reading? || (s.pc.HangingUp? && !ending.Raised?) || (s.pc.AwaitBuckets? && ending.Escaped?)
    case Left => s.pc.Leaving? && !s.up
    case StopResumes => s.pc.Stopping?
    case CallClose => true
    case CloseResumes(at) =>
      at < |s.closers| && !s.closers[at].Closed? && (s.closers[at].ClosingSocket? ==> !s.up)
    case SupervisorBegins(t) => Runnable(s, t, Ready)
    case SupervisorOpens(t) => Runnable(s, t, Connecting)
    case SupervisorDrops(t, _) => Runnable(s, t, Connecting) || Runnable(s, t, Serving)
    case SupervisorWakes(t) => Runnable(s, t, Asleep)
    case SubscribeOpensBucket => s.up && !s.closing
    case NewBucketGoes(b, _) => b < s.pool.nextBucket
    case CancelDropped(t) => t in s.pool.dropped
    case UnsubscribeLast(b) => s.up && b in s.pool.table
  }

  function Step(s: Client, act: Label): Client
    requires Enabled(s, act)
  {
    match act
    case Tick(elapsed) => s.(clock := s.clock + elapsed)
    case CallStart => s.(pc := Scheduled(s.epoch), disconnected := 0, landed := false)
    case RunStart(initial) => RunStartStep(s, initial)
    case Wake => WakeStep(s)
    case Interrupted(failure) => InterruptedStep(s, failure)
    case HandshakeDone => HandshakeDoneStep(s)
    case BucketsWaited => s.(pc := if s.closing then HangingUp else Reading)
    case AuthReply => s.(authentication := true, authenticated := true)
    case SocketDown => s.(up := false, downAt := s.clock)
    case ReadingEnds(ending) => s.(pc := Leaving(ending))
    case Left => LeftStep(s)
    case StopResumes => StopFrom(s, s.pc.after, s.pc.todo)
    case CallClose => CallCloseStep(s)
    case CloseResumes(at) => CloseResumesStep(s, at)
    case SupervisorBegins(t) => s.(pool := Begun(s.pool, t))
    case SupervisorOpens(t) => s.(pool := Opened(s.pool, t))
    case SupervisorDrops(t, givesUp) => s.(pool := Dropped(s.pool, t, BucketIsDone(s, t.bucket), givesUp))
    case SupervisorWakes(t) => s.(pool := Woken(s.pool, t, BucketIsDone(s, t.bucket)))
    case SubscribeOpensBucket => s.(pool := Added(s.pool))
    case NewBucketGoes(b, atOnce) => s.(pool := Discarded(s.pool, b, atOnce))
    case CancelDropped(t) => s.(pool := CancelledLate(s.pool, t))
    case UnsubscribeLast(b) => s.(pool := Removed(s.pool, b))
  }

  predicate CanRun(s: Client, labels: seq<Label>)
    decreases |labels|
  {
    labels != [] ==> Enabled(s, labels[0]) && CanRun(Step(s, labels[0]), labels[1..])
  }

  function Run(s: Client, labels: seq<Label>): Client
    requires CanRun(s, labels)
    decreases |labels|
  {
    if labels == [] then s else Run(Step(s, labels[0]), labels[1..])
  }
}

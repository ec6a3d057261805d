/** One bucket, its socket and the server at the other end, as a state machine.

    A step is the code between two suspension points. A label carries every choice the
    program does not make itself: which frame comes next, whether a send still finds the
    socket alive (`ok`), which channel id the server picks. */
module BucketSystem {
  import opened Options
  import opened Frames
  import opened BucketState

  datatype ClientFrame =
    | SubscribeRequest(frame: Frame)
    | UnsubscribeRequest(chanId: nat)
    | Configuration

  datatype ServerFrame =
    | SubscribedReply(chanId: nat, frame: Frame, extra: Object)
    | Data(chanId: nat)
    | Notice   // heartbeats, "unsubscribed", "conf", plain info
    | Restart  // info 20051 or 20061

  /** Where the `start()` coroutine is: nowhere, between the sends of a recovery, or in the message loop. */
  datatype Phase = Down | Recovering | Reading

  datatype Event =
    | Announced(subId: Value)
    | Delivered(subId: Value, chanId: nat)

  datatype System = System(
    b: Bucket,
    phase: Phase,
    alive: bool,             // the client end of the socket is OPEN
    lingering: bool,         // closed at the client end; the server has not read that yet
    todo: seq<Frame>,        // what the running recovery has still to send
    toServer: seq<ClientFrame>,
    toClient: seq<ServerFrame>,
    open: set<nat>,          // the channels the server streams on this socket
    issued: set<nat>,        // the channel ids it has picked on this socket
    wanted: seq<Frame>,      // history: requests accepted and not unsubscribed since
    dropped: multiset<Frame>,// history: requests unsubscribed before their answer
    log: seq<Event>)         // history: what reached the emitter and the handlers

  datatype Label =
    | Open
    | SendNext(ok: bool)
    | Configure(ok: bool)
    | Subscribe(frame: Frame, ok: bool)
    | Unsubscribe(id: Value, ok: bool)
    | Receive(ok: bool)
    | ReadEnd
    | Serve(chanId: nat, extra: Object)
    | Push(message: ServerFrame)
    | Die
    | Close
    | Reopen  // a new session lets a closed bucket run again

  const INITIAL := System(EMPTY, Down, false, false, [], [], [], {}, {}, [], multiset{}, [])

  // ---- Contents of the two queues ----

  function RequestIn(m: ClientFrame): seq<Frame> {
    if m.SubscribeRequest? then [m.frame] else []
  }

  function ClosingIn(m: ClientFrame): seq<nat> {
    if m.UnsubscribeRequest? then [m.chanId] else []
  }

  function AnswerIn(m: ServerFrame): seq<Frame> {
    if m.SubscribedReply? then [m.frame] else []
  }

  function ConfirmingIn(m: ServerFrame): seq<nat> {
    if m.SubscribedReply? then [m.chanId] else []
  }

  /** Channels whose unsubscribe frame is on the wire. */
  function Closing(s: System): seq<nat> {
    FlatMap(s.toServer, ClosingIn)
  }

  /** Channels whose confirmation is on the wire. */
  function Confirming(s: System): seq<nat> {
    FlatMap(s.toClient, ConfirmingIn)
  }

  /** The subscribe requests of this socket that have no processed answer yet. */
  function Unanswered(s: System): multiset<Frame> {
    multiset(s.todo) + multiset(FlatMap(s.toServer, RequestIn)) + multiset(FlatMap(s.toClient, AnswerIn))
  }

  /** The server serves the socket: it knows of no close. */
  predicate Up(s: System) {
    s.alive || s.lingering
  }

  // ---- Steps ----

  /** The socket is gone: a recovery stops, a message loop drains what it had received. */
  function Dead(s: System): System {
    s.(alive := false, lingering := false, todo := [], toServer := [], open := {},
       phase := if s.phase.Reading? then Reading else Down,
       toClient := if s.phase.Reading? then s.toClient else [])
  }

  /** The message loop ends: the rest of the queue is never read. */
  function Ended(s: System): System {
    Dead(s).(phase := Down, toClient := [])
  }

  function Unsubscriptions(chans: seq<nat>): seq<ClientFrame> {
    if chans == [] then [] else [UnsubscribeRequest(chans[0])] + Unsubscriptions(chans[1..])
  }

  function OpenStep(s: System): System {
    var b := BucketState.Recovering(s.b).(connections := s.b.connections + 1);
    s.(b := b, phase := Recovering, alive := true, lingering := false, todo := b.pendings,
       toServer := [], toClient := [], open := {}, issued := {}, dropped := multiset{})
  }

  function SendNextStep(s: System, ok: bool): System
    requires s.todo != []
  {
    if ok then s.(toServer := s.toServer + [SubscribeRequest(s.todo[0])], todo := s.todo[1..])
    else Dead(s)
  }

  function ConfigureStep(s: System, ok: bool): System {
    if ok then s.(toServer := s.toServer + [Configuration], phase := Reading) else Dead(s)
  }

  function SubscribeStep(s: System, frame: Frame, ok: bool): System {
    var t := s.(b := BucketState.Subscribed(s.b, frame), wanted := s.wanted + [frame]);
    if ok then t.(toServer := t.toServer + [SubscribeRequest(frame)]) else Dead(t)
  }

  function PendingOf(pendings: seq<Frame>, id: Value): multiset<Frame> {
    if pendings == [] then multiset{}
    else if Id(pendings[0]) == id then multiset{pendings[0]}
    else PendingOf(pendings[1..], id)
  }

  function UnsubscribeStep(s: System, id: Value, ok: bool): System {
    var (b, chans) := BucketState.Unsubscribed(s.b, id, ok);
    var t := s.(b := b, wanted := WithoutId(s.wanted, id));
    if IsPending(s.b.pendings, id) then t.(dropped := s.dropped + PendingOf(s.b.pendings, id))
    else if ok || b == s.b then t.(toServer := s.toServer + Unsubscriptions(chans))
    else Dead(t)
  }

  ghost function ReceiveStep(s: System, ok: bool): System
    requires s.toClient != []
  {
    var t := s.(toClient := s.toClient[1..]);
    match s.toClient[0]
    case SubscribedReply(chanId, frame, extra) =>
      var (b, chans, announced) := BucketState.Confirmed(s.b, chanId, Recording(frame, chanId, extra));
      if announced then t.(b := b, log := s.log + [Announced(Id(frame))])
      else
        var u := t.(b := b, dropped := s.dropped - multiset{frame});
        if ok && s.alive then u.(toServer := s.toServer + Unsubscriptions(chans)) else Ended(u)
    case Data(chanId) =>
      var receivers := Route(s.b.subscriptions, chanId);
      if receivers == [] then t
      else t.(log := s.log + [Delivered(receivers[0][SnakeSubIdKey], chanId)])
    case Notice => t
    case Restart => Ended(t)
  }

  function ServeStep(s: System, chanId: nat, extra: Object): System
    requires s.toServer != []
  {
    var t := s.(toServer := s.toServer[1..]);
    match s.toServer[0]
    case SubscribeRequest(frame) =>
      t.(open := s.open + {chanId}, issued := s.issued + {chanId},
         toClient := s.toClient + [SubscribedReply(chanId, frame, extra)])
    case UnsubscribeRequest(closed) => t.(open := s.open - {closed}, toClient := s.toClient + [Notice])
    case Configuration => t.(toClient := s.toClient + [Notice])
  }

  /** `close()`: from here on nothing can be sent. A message loop reads on, and the server answers
      and streams, until the server has read the close or the socket dies; a recovery stops. */
  function CloseStep(s: System): System {
    var t := s.(b := s.b.(closing := true));
    if !s.alive then t
    else if s.phase.Reading? then t.(alive := false, lingering := true)
    else Dead(t)
  }

  /** When a label can happen. */
  predicate Enabled(s: System, act: Label) {
    match act
    case Open => s.phase.Down? && !s.b.closing
    case SendNext(_) => s.phase.Recovering? && s.todo != []
    case Configure(_) => s.phase.Recovering? && s.todo == []
    case Subscribe(_, _) => s.alive
    case Unsubscribe(_, _) => s.alive
    case Receive(_) => s.phase.Reading? && s.toClient != []
    case ReadEnd => s.phase.Reading? && !Up(s)
    case Serve(chanId, _) => Up(s) && s.toServer != [] && (s.toServer[0].SubscribeRequest? ==> chanId !in s.issued)
    case Push(message) => Up(s) && match message {
      case SubscribedReply(_, _, _) => false
      case Data(chanId) => chanId in s.open
      case _ => true
    }
    case Die => Up(s)
    case Close => true
    case Reopen => true
  }

  ghost function Step(s: System, act: Label): System
    requires Enabled(s, act)
  {
    match act
    case Open => OpenStep(s)
    case SendNext(ok) => SendNextStep(s, ok)
    case Configure(ok) => ConfigureStep(s, ok)
    case Subscribe(frame, ok) => SubscribeStep(s, frame, ok)
    case Unsubscribe(id, ok) => UnsubscribeStep(s, id, ok)
    case Receive(ok) => ReceiveStep(s, ok)
    case ReadEnd => Ended(s)
    case Serve(chanId, extra) => ServeStep(s, chanId, extra)
    case Push(message) => s.(toClient := s.toClient + [message])
    case Die => Dead(s)
    case Close => CloseStep(s)
    case Reopen => s.(b := s.b.(closing := false))
  }

  /** The state after a sequence of labels, if each could happen. */
  ghost function Run(s: System, labels: seq<Label>): Option<System>
    decreases |labels|
  {
    if labels == [] then Some(s)
    else if !Enabled(s, labels[0]) then None
    else Run(Step(s, labels[0]), labels[1..])
  }
}

/** What a bucket still dispatches once it was closed: how the client unsubscribes the only
    subscription of a bucket. */
module BucketClosing {
  import opened Options
  import opened Frames
  import opened BucketState
  import opened BucketSystem
  import opened BucketChannels
  import opened BucketIntent
  import opened BucketTheorems
  import opened ClientBuckets

  /** The bucket after one frame was read on a socket that can no longer be written to, if the
      loop reads on: a restart message ends it, and so does a confirmation to refuse. */
  ghost function Took(b: Bucket, m: ServerFrame): Option<Bucket> {
    match m
    case SubscribedReply(chanId, frame, extra) =>
      if Id(frame) in b.cancellations then None
      else Some(BucketState.Confirmed(b, chanId, Recording(frame, chanId, extra)).0)
    case Restart => None
    case _ => Some(b)
  }

  predicate HandedTo(b: Bucket, chanId: nat, id: Value) {
    var receivers := Route(b.subscriptions, chanId);
    receivers != [] && receivers[0][SnakeSubIdKey] == id
  }

  /** Read to its end, the queue has a data frame for the sub_id. */
  ghost predicate Delivers(b: Bucket, queue: seq<ServerFrame>, id: Value)
    decreases |queue|
  {
    queue != [] && (
      || Hands(b, queue[0], id)
      || (Took(b, queue[0]).Some? && Delivers(Took(b, queue[0]).value, queue[1..], id)))
  }

  predicate Hands(b: Bucket, m: ServerFrame, id: Value) {
    m.Data? && HandedTo(b, m.chanId, id)
  }

  /** The bucket once the queue is read to its end, if nothing in it ends the loop. */
  ghost function Drained(b: Bucket, queue: seq<ServerFrame>): Option<Bucket>
    decreases |queue|
  {
    if queue == [] then Some(b)
    else if Took(b, queue[0]).None? then None
    else Drained(Took(b, queue[0]).value, queue[1..])
  }

  /** The sub_id has a channel that data frames are looked up by: any but channel 0. */
  predicate HasEntry(b: Bucket, id: Value) {
    exists i :: 0 <= i < |b.subscriptions| && IsEntryOf(b.subscriptions[i], id)
  }

  predicate IsEntryOf(e: Entry, id: Value) {
    e.chanId != 0 && e.SubId() == id
  }

  /** Answered in order, one of the requests is the sub_id's, before any that would be refused. */
  predicate AwaitsAnswer(cancelled: set<Value>, requests: seq<Frame>, id: Value) {
    requests != [] && Id(requests[0]) !in cancelled
    && (Id(requests[0]) == id || AwaitsAnswer(cancelled, requests[1..], id))
  }

  /** The requests the server has not answered yet. */
  function Asked(s: System): seq<Frame> {
    FlatMap(s.toServer, RequestIn)
  }

  /** The queue can be read to its end; by then the sub_id has a channel, or will be given one. */
  ghost predicate Later(b: Bucket, queue: seq<ServerFrame>, asked: seq<Frame>, id: Value) {
    Drained(b, queue).Some? &&
    var after := Drained(b, queue).value;
    HasEntry(after, id) || AwaitsAnswer(after.cancellations, asked, id)
  }

  /** Closed, and no longer able to send. */
  predicate Shut(s: System) {
    s.b.closing && !s.alive && !s.phase.Recovering?
  }

  ghost predicate StillHears(s: System, id: Value) {
    && s.phase.Reading?
    && (Delivers(s.b, s.toClient, id) || (s.lingering && Later(s.b, s.toClient, Asked(s), id)))
  }

  predicate NeverReopens(labels: seq<Label>) {
    forall i :: 0 <= i < |labels| ==> !labels[i].Reopen?
  }

  // ---- One more frame in the queue ----

  lemma {:induction false} DrainedAppend(b: Bucket, queue: seq<ServerFrame>, m: ServerFrame)
    ensures Drained(b, queue + [m]) == if Drained(b, queue).None? then None else Took(Drained(b, queue).value, m)
    decreases |queue|
  {
    if queue == [] {
      assert queue + [m] == [m] && [m][1..] == [];
    } else {
      assert (queue + [m])[1..] == queue[1..] + [m];
      if Took(b, queue[0]).Some? {
        DrainedAppend(Took(b, queue[0]).value, queue[1..], m);
      }
    }
  }

  lemma {:induction false} DeliversAppend(b: Bucket, queue: seq<ServerFrame>, m: ServerFrame, id: Value)
    ensures Delivers(b, queue + [m], id)
       <==> Delivers(b, queue, id) || (Drained(b, queue).Some? && Hands(Drained(b, queue).value, m, id))
    decreases |queue|
  {
    if queue == [] {
      assert queue + [m] == [m] && [m][1..] == [];
    } else {
      assert (queue + [m])[1..] == queue[1..] + [m];
      if Took(b, queue[0]).Some? {
        DeliversAppend(Took(b, queue[0]).value, queue[1..], m, id);
      }
    }
  }

  lemma HandedHasEntry(b: Bucket, chanId: nat, id: Value)
    requires HandedTo(b, chanId, id)
    ensures HasEntry(b, id)
  {
    RouteIsAnEntry(b.subscriptions, chanId);
    var i :| 0 <= i < |b.subscriptions| && b.subscriptions[i].chanId == chanId
      && Route(b.subscriptions, chanId) == [b.subscriptions[i].subscription];
    assert IsEntryOf(b.subscriptions[i], id);
  }

  lemma {:induction false} PutMembers(entries: seq<Entry>, e: Entry, x: Entry)
    ensures x in Put(entries, e) ==> x in entries || x == e
    ensures e in Put(entries, e)
  {
    if entries != [] {
      PutMembers(entries[1..], e, x);
      assert entries == [entries[0]] + entries[1..];
    }
  }

  lemma EntryMakesHas(b: Bucket, e: Entry, id: Value)
    requires e in b.subscriptions && IsEntryOf(e, id)
    ensures HasEntry(b, id)
  {
    var i :| 0 <= i < |b.subscriptions| && b.subscriptions[i] == e;
    assert IsEntryOf(b.subscriptions[i], id);
  }

  /** A confirmation adds an entry for its own sub_id and for no other. */
  lemma ConfirmedEntry(b: Bucket, c: nat, f: Frame, x: Object, id: Value)
    requires Id(f) !in b.cancellations
    ensures
      var after := BucketState.Confirmed(b, c, Recording(f, c, x)).0;
      && (HasEntry(after, id) ==> HasEntry(b, id) || Id(f) == id)
      && (Id(f) == id && c != 0 ==> HasEntry(after, id))
      && after.cancellations == b.cancellations
  {
    var e := Entry(c, Recording(f, c, x));
    var after := BucketState.Confirmed(b, c, Recording(f, c, x)).0;
    assert after.subscriptions == Put(b.subscriptions, e);
    if HasEntry(after, id) && Id(f) != id {
      var i :| 0 <= i < |after.subscriptions| && IsEntryOf(after.subscriptions[i], id);
      PutMembers(b.subscriptions, e, after.subscriptions[i]);
      EntryMakesHas(b, after.subscriptions[i], id);
    }
    if Id(f) == id && c != 0 {
      PutMembers(b.subscriptions, e, e);
      EntryMakesHas(after, e, id);
    }
  }

  // ---- One frame read ----

  lemma ReceiveShape(s: System, ok: bool)
    requires !s.alive && Enabled(s, Receive(ok))
    ensures
      var t := ReceiveStep(s, ok);
      var took := Took(s.b, s.toClient[0]);
      if took.Some? then t == s.(b := took.value, toClient := s.toClient[1..], log := t.log)
      else t.phase.Down? && !t.alive && t.b.closing == s.b.closing && t.toServer == []
    ensures Took(s.b, s.toClient[0]).Some? ==> Took(s.b, s.toClient[0]).value.closing == s.b.closing
  {
  }

  lemma ReceiveHands(s: System, ok: bool, id: Value)
    requires !s.alive && Enabled(s, Receive(ok))
    ensures DeliveredTo(ReceiveStep(s, ok).log, id)
         == DeliveredTo(s.log, id) + if Hands(s.b, s.toClient[0], id) then 1 else 0
  {
    match s.toClient[0]
    case SubscribedReply(_, frame, _) => DeliveredOneMore(s.log, Announced(Id(frame)), id);
    case Data(chanId) =>
      var receivers := Route(s.b.subscriptions, chanId);
      if receivers != [] {
        DeliveredOneMore(s.log, Delivered(receivers[0][SnakeSubIdKey], chanId), id);
      }
    case _ =>
  }

  // ---- Nothing new is heard ----

  /** The server answers the oldest frame: its answer, and what is left to answer. */
  lemma ServeShape(s: System, c: nat, x: Object)
    requires Enabled(s, Serve(c, x))
    ensures
      var t := ServeStep(s, c, x);
      var m := s.toServer[0];
      && Asked(s) == RequestIn(m) + Asked(t) && (RequestIn(m) == [] ==> Asked(s) == Asked(t))
      && t.toClient == s.toClient + [if m.SubscribeRequest? then SubscribedReply(c, m.frame, x) else Notice]
      && t == s.(toServer := s.toServer[1..], toClient := t.toClient, open := t.open, issued := t.issued)
  {
  }

  lemma ServedHears(s: System, c: nat, x: Object, id: Value)
    requires s.lingering && s.phase.Reading? && Enabled(s, Serve(c, x)) && StillHears(ServeStep(s, c, x), id)
    ensures StillHears(s, id)
  {
    var t := ServeStep(s, c, x);
    ServeShape(s, c, x);
    var m := t.toClient[|s.toClient|];
    assert t.toClient == s.toClient + [m];
    DeliversAppend(s.b, s.toClient, m, id);
    DrainedAppend(s.b, s.toClient, m);
    if s.toServer[0].SubscribeRequest? && Drained(s.b, s.toClient).Some? {
      AnswerHears(Drained(s.b, s.toClient).value, c, s.toServer[0].frame, x, Asked(t), id);
    }
  }

  /** Once a request was answered, nobody hears who would not have heard before; and on a
      channel other than 0, everybody who would. */
  lemma AnswerHears(b: Bucket, c: nat, f: Frame, x: Object, rest: seq<Frame>, id: Value)
    ensures
      var took := Took(b, SubscribedReply(c, f, x));
      took.Some? && (HasEntry(took.value, id) || AwaitsAnswer(took.value.cancellations, rest, id)) ==>
        HasEntry(b, id) || AwaitsAnswer(b.cancellations, [f] + rest, id)
    ensures
      var took := Took(b, SubscribedReply(c, f, x));
      c != 0 && AwaitsAnswer(b.cancellations, [f] + rest, id) ==>
        took.Some? && (HasEntry(took.value, id) || AwaitsAnswer(took.value.cancellations, rest, id))
  {
    assert ([f] + rest)[1..] == rest;
    if Id(f) !in b.cancellations {
      ConfirmedEntry(b, c, f, x, id);
    }
  }

  lemma PushedHears(s: System, m: ServerFrame, id: Value)
    requires s.lingering && s.phase.Reading? && Enabled(s, Push(m))
    requires StillHears(s.(toClient := s.toClient + [m]), id)
    ensures StillHears(s, id)
  {
    DeliversAppend(s.b, s.toClient, m, id);
    DrainedAppend(s.b, s.toClient, m);
    if Drained(s.b, s.toClient).Some? && Hands(Drained(s.b, s.toClient).value, m, id) {
      HandedHasEntry(Drained(s.b, s.toClient).value, m.chanId, id);
    }
  }

  lemma ReceivedHears(s: System, ok: bool, id: Value)
    requires Shut(s) && Enabled(s, Receive(ok))
    ensures Shut(ReceiveStep(s, ok))
    ensures DeliveredTo(ReceiveStep(s, ok).log, id) >= DeliveredTo(s.log, id)
    ensures DeliveredTo(ReceiveStep(s, ok).log, id) > DeliveredTo(s.log, id) ==> StillHears(s, id)
    ensures StillHears(ReceiveStep(s, ok), id) ==> StillHears(s, id)
  {
    ReceiveShape(s, ok);
    ReceiveHands(s, ok, id);
  }

  lemma ShutOtherwise(s: System, act: Label, id: Value)
    requires Shut(s) && PhaseOk(s) && Enabled(s, act)
    requires !act.Reopen? && !act.Receive? && !act.Serve? && !act.Push?
    ensures Shut(Step(s, act)) && Step(s, act).log == s.log
    ensures StillHears(Step(s, act), id) ==> StillHears(s, id)
  {
  }

  /** A step of a shut bucket hands something to `id` only if it could be foreseen. */
  lemma ShutStep(s: System, act: Label, id: Value)
    requires Shut(s) && PhaseOk(s) && Enabled(s, act) && !act.Reopen?
    ensures Shut(Step(s, act))
    ensures DeliveredTo(Step(s, act).log, id) > DeliveredTo(s.log, id) ==> StillHears(s, id)
    ensures DeliveredTo(Step(s, act).log, id) >= DeliveredTo(s.log, id)
    ensures StillHears(Step(s, act), id) ==> StillHears(s, id)
  {
    match act
    case Receive(ok) => ReceivedHears(s, ok, id);
    case Serve(c, x) =>
      assert ServeStep(s, c, x).log == s.log;
      if StillHears(Step(s, act), id) {
        ServedHears(s, c, x, id);
      }
    case Push(m) =>
      if StillHears(Step(s, act), id) {
        PushedHears(s, m, id);
      }
    case _ => ShutOtherwise(s, act, id);
  }

  lemma {:induction false} ShutRun(s: System, labels: seq<Label>, id: Value)
    requires Shut(s) && Accounted(s) && NeverReopens(labels) && Run(s, labels).Some?
    ensures DeliveredTo(Run(s, labels).value.log, id) > DeliveredTo(s.log, id) ==> StillHears(s, id)
    decreases |labels|
  {
    if labels != [] {
      ShutStep(s, labels[0], id);
      StepKeepsAccounts(s, labels[0]);
      ShutRun(Step(s, labels[0]), labels[1..], id);
    }
  }

  // ---- What was foreseen can happen ----

  /** Some continuation that does not reopen the bucket hands the sub_id data. */
  ghost predicate MayStillHear(s: System, id: Value) {
    exists labels ::
      && NeverReopens(labels) && Run(s, labels).Some?
      && DeliveredTo(Run(s, labels).value.log, id) > DeliveredTo(s.log, id)
  }

  lemma HearsNow(s: System, act: Label, id: Value)
    requires Enabled(s, act) && !act.Reopen? && DeliveredTo(Step(s, act).log, id) > DeliveredTo(s.log, id)
    ensures MayStillHear(s, id)
  {
    assert Run(Step(s, act), []) == Some(Step(s, act));
    assert [act][1..] == [];
    assert Run(s, [act]) == Some(Step(s, act));
    assert NeverReopens([act]);
  }

  lemma HearsAfter(s: System, act: Label, id: Value)
    requires Enabled(s, act) && !act.Reopen? && MayStillHear(Step(s, act), id)
    requires DeliveredTo(Step(s, act).log, id) >= DeliveredTo(s.log, id)
    ensures MayStillHear(s, id)
  {
    var t := Step(s, act);
    var rest :|
      && NeverReopens(rest) && Run(t, rest).Some?
      && DeliveredTo(Run(t, rest).value.log, id) > DeliveredTo(t.log, id);
    var labels := [act] + rest;
    assert labels[0] == act && labels[1..] == rest;
    assert Run(s, labels) == Run(t, rest);
    assert NeverReopens(labels);
  }

  /** Reading one frame either hands it over or brings what follows nearer. */
  lemma ReadingOn(s: System, id: Value)
    requires Shut(s) && StillHears(s, id) && s.toClient != []
    ensures
      var t := ReceiveStep(s, false);
      || DeliveredTo(t.log, id) > DeliveredTo(s.log, id)
      || (&& Shut(t) && StillHears(t, id) && t.toServer == s.toServer && t.toClient == s.toClient[1..]
          && DeliveredTo(t.log, id) == DeliveredTo(s.log, id))
  {
    ReceiveShape(s, false);
    ReceiveHands(s, false, id);
  }

  lemma {:induction false} RouteFinds(entries: seq<Entry>, i: nat)
    requires i < |entries| && NoRepeat(multiset(Chans(entries))) && entries[i].chanId != 0
    ensures Route(entries, entries[i].chanId) == [entries[i].subscription]
  {
    if i > 0 {
      var rest := entries[1..];
      ChanAt(rest, i - 1);
      assert Chans(entries) == [entries[0].chanId] + Chans(rest);
      NoRepeatTail(entries[0].chanId, Chans(rest));
      RouteFinds(rest, i - 1);
    }
  }

  lemma NoRepeatTail(c: nat, rest: seq<nat>)
    requires NoRepeat(multiset([c] + rest))
    ensures NoRepeat(multiset(rest)) && c !in rest
  {
    assert multiset([c] + rest) == multiset{c} + multiset(rest);
    NoRepeatSubBag(multiset{c} + multiset(rest), multiset(rest));
    assert (multiset{c} + multiset(rest))[c] == 1;
  }

  lemma {:induction false} ChanAt(entries: seq<Entry>, i: nat)
    requires i < |entries|
    ensures entries[i].chanId in Chans(entries)
  {
    if i > 0 {
      ChanAt(entries[1..], i - 1);
    }
  }

  /** A recorded channel is open as long as the server serves the socket. */
  lemma EntryIsOpen(s: System, i: nat)
    requires Accounted(s) && Up(s) && i < |s.b.subscriptions| && s.b.subscriptions[i].chanId != 0
    ensures s.b.subscriptions[i].chanId in s.open
    ensures HandedTo(s.b, s.b.subscriptions[i].chanId, s.b.subscriptions[i].SubId())
  {
    var c := s.b.subscriptions[i].chanId;
    ChanAt(s.b.subscriptions, i);
    NoRepeatSubBag(Known(s), multiset(Chans(s.b.subscriptions)));
    RouteFinds(s.b.subscriptions, i);
    assert c in Known(s);
    assert c in multiset(s.open);
  }

  /** The server streams on a channel of the sub_id, and the loop reads it. */
  lemma StreamsOn(s: System, id: Value)
    requires Accounted(s) && Shut(s) && s.lingering && s.phase.Reading? && s.toClient == [] && HasEntry(s.b, id)
    ensures MayStillHear(s, id)
  {
    var i :| 0 <= i < |s.b.subscriptions| && IsEntryOf(s.b.subscriptions[i], id);
    EntryIsOpen(s, i);
    var m := Data(s.b.subscriptions[i].chanId);
    var t := s.(toClient := s.toClient + [m]);
    assert t.toClient[0] == m;
    ReceiveHands(t, false, id);
    HearsNow(t, Receive(false), id);
    assert Step(s, Push(m)) == t;
    HearsAfter(s, Push(m), id);
  }

  lemma {:induction false} FreshChannel(issued: set<nat>) returns (c: nat)
    ensures c != 0 && forall x :: x in issued ==> x < c
    decreases issued
  {
    if x :| x in issued {
      c := FreshChannel(issued - {x});
      if c <= x {
        c := x + 1;
      }
      assert forall y :: y in issued ==> y == x || y in issued - {x};
    } else {
      c := 1;
    }
  }

  /** The server answers its next frame. */
  lemma AnswersOn(s: System, c: nat, id: Value)
    requires Shut(s) && s.lingering && s.phase.Reading? && s.toClient == []
    requires AwaitsAnswer(s.b.cancellations, Asked(s), id) && c !in s.issued && c != 0
    ensures Enabled(s, Serve(c, map[]))
    ensures
      var t := ServeStep(s, c, map[]);
      Shut(t) && StillHears(t, id) && |t.toServer| < |s.toServer| && t.log == s.log
  {
    var t := ServeStep(s, c, map[]);
    ServeShape(s, c, map[]);
    var m := t.toClient[0];
    assert t.toClient == [] + [m];
    DrainedAppend(s.b, [], m);
    if s.toServer[0].SubscribeRequest? {
      AnswerHears(s.b, c, s.toServer[0].frame, map[], Asked(t), id);
    }
  }

  lemma {:induction false} HearsOn(s: System, id: Value)
    requires Accounted(s) && Shut(s) && StillHears(s, id)
    ensures MayStillHear(s, id)
    decreases |s.toServer|, |s.toClient|, 1
  {
    if s.toClient != [] {
      ReadsOn(s, id);
    } else {
      assert Drained(s.b, []) == Some(s.b) && s.lingering;
      if HasEntry(s.b, id) {
        StreamsOn(s, id);
      } else {
        var c := FreshChannel(s.issued);
        AnswersOn(s, c, id);
        StepKeepsAccounts(s, Serve(c, map[]));
        HearsOn(Step(s, Serve(c, map[])), id);
        HearsAfter(s, Serve(c, map[]), id);
      }
    }
  }

  lemma {:induction false} ReadsOn(s: System, id: Value)
    requires Accounted(s) && Shut(s) && StillHears(s, id) && s.toClient != []
    ensures MayStillHear(s, id)
    decreases |s.toServer|, |s.toClient|, 0
  {
    var act := Receive(false);
    var t := Step(s, act);
    ReadingOn(s, id);
    StepKeepsAccounts(s, act);
    if DeliveredTo(t.log, id) > DeliveredTo(s.log, id) {
      HearsNow(s, act, id);
    } else {
      HearsOn(t, id);
      HearsAfter(s, act, id);
    }
  }

  /** After `close()` on a bucket, in whatever state a run left it, a sub_id can still be handed
      data if and only if the message loop is running and: something received already is for it;
      or the server still serves the socket, and what was received can be read to its end and
      leaves the sub_id a channel, or the server a request of its to answer. */
  lemma ClosedBucketIsSilentIff(s: System, id: Value)
    requires Accounted(s)
    ensures
      var t := CloseStep(s);
      MayStillHear(t, id) <==>
        && s.phase.Reading?
        && (Delivers(t.b, s.toClient, id) || (Up(s) && Later(t.b, s.toClient, Asked(s), id)))
  {
    var t := CloseStep(s);
    CloseKeepsAccounts(s);
    if StillHears(t, id) {
      HearsOn(t, id);
    }
    if MayStillHear(t, id) {
      var labels :|
        && NeverReopens(labels) && Run(t, labels).Some?
        && DeliveredTo(Run(t, labels).value.log, id) > DeliveredTo(t.log, id);
      ShutRun(t, labels, id);
    }
  }

  // ---- In the caller's terms ----

  predicate NoRestart(queue: seq<ServerFrame>) {
    forall i :: 0 <= i < |queue| ==> !queue[i].Restart?
  }

  lemma {:induction false} SomeAnswerComes(asked: seq<Frame>, f: Frame)
    requires f in asked
    ensures AwaitsAnswer({}, asked, Id(f))
  {
    if f != asked[0] {
      SomeAnswerComes(asked[1..], f);
    }
  }

  lemma PendingIsAsked(s: System, id: Value)
    requires Tracked(s) && s.lingering && s.phase.Reading? && s.toClient == [] && s.b.cancellations == {}
    requires IsPending(s.b.pendings, id)
    ensures StillHears(s, id)
  {
    var i :| 0 <= i < |s.b.pendings| && Id(s.b.pendings[i]) == id;
    var f := s.b.pendings[i];
    assert f in Unanswered(s);
    assert f in multiset(Asked(s));
    SomeAnswerComes(Asked(s), f);
  }

  /** A closed bucket of a disciplined run whose queue can be read to its end. */
  ghost predicate Draining(s: System) {
    && Tracked(s) && Accounted(s) && Shut(s) && s.lingering && s.phase.Reading?
    && s.b.cancellations == {} && NoRestart(s.toClient) && 0 !in s.issued
  }

  lemma ReadsOneShape(s: System)
    requires Shut(s) && s.lingering && s.phase.Reading? && s.toClient != []
    requires s.b.cancellations == {} && NoRestart(s.toClient)
    ensures
      var t := ReceiveStep(s, false);
      && t.toClient == s.toClient[1..] && NoRestart(t.toClient) && Shut(t) && t.lingering && t.phase.Reading?
      && t.b.cancellations == {} && t.issued == s.issued && t.wanted == s.wanted
  {
    ReceiveShape(s, false);
    assert !s.toClient[0].Restart?;
  }

  lemma ReadsOneDrains(s: System)
    requires Draining(s) && s.toClient != []
    ensures Draining(ReceiveStep(s, false))
  {
    ReadsOneShape(s);
    ReceiveKeepsTrack(s, false);
    ReadingKeepsAccounts(s, false);
  }

  /** The first frame of the queue is read. */
  lemma ReadsOne(s: System, id: Value)
    requires Draining(s) && s.toClient != [] && Has(s.b, id)
    ensures
      var t := ReceiveStep(s, false);
      Draining(t) && t.toClient == s.toClient[1..] && Has(t.b, id) && DeliveredTo(t.log, id) >= DeliveredTo(s.log, id)
  {
    ReadsOneShape(s);
    ReadsOneDrains(s);
    ReceiveHands(s, false, id);
    HeldIsWanted(s, ReceiveStep(s, false), id);
  }

  lemma HeldIsWanted(s: System, t: System, id: Value)
    requires Tracked(s) && Tracked(t) && t.wanted == s.wanted
    ensures Has(t.b, id) <==> Has(s.b, id)
  {
    WantedIsHeld(s);
    WantedIsHeld(t);
    HasMeansHeld(s.b, id);
    HasMeansHeld(t.b, id);
  }

  lemma EntryOfThisSocket(s: System, i: nat)
    requires Accounted(s) && !s.phase.Down? && i < |s.b.subscriptions|
    ensures s.b.subscriptions[i].chanId in s.issued
  {
    ChanAt(s.b.subscriptions, i);
    assert s.b.subscriptions[i].chanId in Known(s);
  }

  lemma DrainedHolderHears(s: System, id: Value)
    requires Draining(s) && s.toClient == [] && Has(s.b, id)
    ensures MayStillHear(s, id)
  {
    if IsPending(s.b.pendings, id) {
      PendingIsAsked(s, id);
      HearsOn(s, id);
    } else {
      var i :| 0 <= i < |s.b.subscriptions| && s.b.subscriptions[i].SubId() == id;
      EntryOfThisSocket(s, i);
      EntryMakesHas(s.b, s.b.subscriptions[i], id);
      StreamsOn(s, id);
    }
  }

  lemma {:induction false} HoldersHear(s: System, id: Value)
    requires Draining(s) && Has(s.b, id)
    ensures MayStillHear(s, id)
    decreases |s.toClient|
  {
    if s.toClient == [] {
      DrainedHolderHears(s, id);
    } else {
      ReadsOne(s, id);
      HoldersHear(Step(s, Receive(false)), id);
      HearsAfter(s, Receive(false), id);
    }
  }

  lemma {:induction false} ShutTakesNoCalls(s: System, labels: seq<Label>, id: Value)
    requires Shut(s) && PhaseOk(s) && Accounted(s) && NeverReopens(labels) && Run(s, labels).Some?
    ensures NoCalls(labels)
    decreases |labels|
  {
    if labels != [] {
      ShutStep(s, labels[0], id);
      StepKeepsAccounts(s, labels[0]);
      ShutTakesNoCalls(Step(s, labels[0]), labels[1..], id);
      assert labels == [labels[0]] + labels[1..];
    }
  }

  /** What a shut bucket does not hold hears nothing. */
  lemma OthersHearNothing(s: System, id: Value)
    requires Tracked(s) && Accounted(s) && Shut(s) && !Has(s.b, id)
    ensures !MayStillHear(s, id)
  {
    HasMeansHeld(s.b, id);
    WantedIsHeld(s);
    forall f | f in s.wanted ensures Id(f) != id {
      assert f in multiset(s.wanted);
    }
    if MayStillHear(s, id) {
      var labels :|
        && NeverReopens(labels) && Run(s, labels).Some?
        && DeliveredTo(Run(s, labels).value.log, id) > DeliveredTo(s.log, id);
      ShutTakesNoCalls(s, labels, id);
      NoCallsIsDisciplined(s, labels);
      UnwantedGetsNothing(s, labels, id);
    }
  }

  lemma ClosingDrains(s: System)
    requires Tracked(s) && Accounted(s) && s.alive && s.phase.Reading?
    requires s.b.cancellations == {} && NoRestart(s.toClient) && 0 !in s.issued
    ensures Draining(CloseStep(s))
  {
    CloseKeepsTrack(s);
    CloseKeepsAccounts(s);
  }

  /** Closed on a live socket that the message loop reads, with no cancellation open and no
      restart unread, a disciplined bucket can still hand data to exactly the sub_ids it holds,
      confirmed or not. The server gave out no channel 0: its frames are looked up nowhere. */
  lemma ClosedBucketServesItsOwn(before: seq<Label>, id: Value)
    requires DisciplinedRun(INITIAL, before) && Run(INITIAL, before).Some?
    ensures
      var s := Run(INITIAL, before).value;
      s.alive && s.phase.Reading? && s.b.cancellations == {} && NoRestart(s.toClient) && 0 !in s.issued ==>
        (MayStillHear(CloseStep(s), id) <==> Has(s.b, id))
  {
    InitiallyTracked();
    RunKeepsTrack(INITIAL, before);
    var s := Run(INITIAL, before).value;
    if s.alive && s.phase.Reading? && s.b.cancellations == {} && NoRestart(s.toClient) && 0 !in s.issued {
      ClosedServesItsOwn(s, id);
    }
  }

  lemma ClosedServesItsOwn(s: System, id: Value)
    requires Tracked(s) && Accounted(s) && s.alive && s.phase.Reading?
    requires s.b.cancellations == {} && NoRestart(s.toClient) && 0 !in s.issued
    ensures MayStillHear(CloseStep(s), id) <==> Has(s.b, id)
  {
    ClosingDrains(s);
    CloseHolds(s, id);
    DrainingServesItsOwn(CloseStep(s), id);
  }

  lemma CloseHolds(s: System, id: Value)
    ensures Has(CloseStep(s).b, id) <==> Has(s.b, id)
  {
  }

  lemma DrainingServesItsOwn(s: System, id: Value)
    requires Draining(s)
    ensures MayStillHear(s, id) <==> Has(s.b, id)
  {
    if Has(s.b, id) {
      HoldersHear(s, id);
    } else {
      OthersHearNothing(s, id);
    }
  }

  /** The client's `unsubscribe`, in every reachable state: a bucket that holds more than the
      sub_id hands it nothing in any continuation that does not subscribe it again; a bucket
      that holds nothing else is closed, and is silent exactly under the condition of a closed
      bucket. */
  lemma ClientUnsubscribeIsSilent(calls: seq<Call>, id: Value, ok: bool, after: seq<Label>)
    requires CanCalls([], calls) && DisciplinedCalls([], calls)
    ensures
      var buckets := CallsRun([], calls);
      var at := FirstWith(buckets, id);
      at < |buckets| && buckets[at].alive ==>
        var s := buckets[at];
        if Count(s.b) == 1 then
          MayStillHear(CloseStep(s), id) <==>
            && s.phase.Reading?
            && (Delivers(CloseStep(s).b, s.toClient, id) || Later(CloseStep(s).b, s.toClient, Asked(s), id))
        else
          var t := UnsubscribeStep(s, id, ok);
          DisciplinedRun(t, after) && NeverSubscribes(after, id) && Run(t, after).Some? ==>
            DeliveredTo(Run(t, after).value.log, id) == DeliveredTo(t.log, id)
  {
    CallsStayOrderly([], calls);
    var buckets := CallsRun([], calls);
    var at := FirstWith(buckets, id);
    if at < |buckets| && buckets[at].alive {
      var s := buckets[at];
      assert Sound(s);
      if Count(s.b) == 1 {
        ClosedBucketIsSilentIff(s, id);
      } else {
        SilentOnceUnsubscribed(s, id, ok, after);
      }
    }
  }

  lemma SilentOnceUnsubscribed(s: System, id: Value, ok: bool, after: seq<Label>)
    requires Tracked(s) && Accounted(s) && s.alive
    ensures
      var t := UnsubscribeStep(s, id, ok);
      DisciplinedRun(t, after) && NeverSubscribes(after, id) && Run(t, after).Some? ==>
        DeliveredTo(Run(t, after).value.log, id) == DeliveredTo(t.log, id)
  {
    var t := UnsubscribeStep(s, id, ok);
    UnsubscribeIsSound(s, id, ok);
    if DisciplinedRun(t, after) && NeverSubscribes(after, id) {
      UnwantedGetsNothing(t, after, id);
    }
  }

  lemma UnsubscribeIsSound(s: System, id: Value, ok: bool)
    requires Tracked(s) && Accounted(s) && s.alive
    ensures
      var t := UnsubscribeStep(s, id, ok);
      Tracked(t) && Accounted(t) && NoneFor(t.wanted, id)
  {
    StepKeepsTrack(s, Unsubscribe(id, ok));
    StepKeepsAccounts(s, Unsubscribe(id, ok));
    UnsubscribeWants(s, id, ok);
  }

  lemma UnsubscribeWants(s: System, id: Value, ok: bool)
    ensures NoneFor(UnsubscribeStep(s, id, ok).wanted, id)
  {
    assert UnsubscribeStep(s, id, ok).wanted == WithoutId(s.wanted, id);
    WithoutIdHasNone(s.wanted, id, id);
  }
}

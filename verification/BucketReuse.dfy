/** What reusing the sub_id of a cancelled, unanswered request costs, from every state a
    disciplined run can be in. */
module BucketReuse {
  import opened Frames
  import opened BucketState
  import opened BucketSystem
  import opened BucketChannels
  import opened BucketIntent
  import opened BucketTheorems

  /** How many of the requests have this sub_id. */
  function Of(frames: seq<Frame>, id: Value): nat {
    if frames == [] then 0 else (if Id(frames[0]) == id then 1 else 0) + Of(frames[1..], id)
  }

  lemma {:induction false} OfConcat(a: seq<Frame>, b: seq<Frame>, id: Value)
    ensures Of(a + b, id) == Of(a, id) + Of(b, id)
  {
    if a == [] {
      assert a + b == b;
    } else {
      assert (a + b)[1..] == a[1..] + b;
      OfConcat(a[1..], b, id);
    }
  }

  lemma {:induction false} OfMember(frames: seq<Frame>, id: Value)
    ensures Of(frames, id) > 0 <==> exists f :: f in frames && Id(f) == id
  {
    if frames != [] {
      OfMember(frames[1..], id);
      if f :| f in frames && Id(f) == id {
        assert f == frames[0] || f in frames[1..];
      }
    }
  }

  /** The unanswered requests of one sub_id, wherever they are. */
  function Owed(s: System, id: Value): nat {
    Of(s.todo, id) + Of(FlatMap(s.toServer, RequestIn), id) + Of(FlatMap(s.toClient, AnswerIn), id)
  }

  function Recorded(s: System, id: Value): nat {
    Of(Requests(s.b.subscriptions), id)
  }

  /** More answers are due for the sub_id than the cancellations can refuse. */
  ghost predicate Overdue(s: System, id: Value) {
    && s.alive && Accounted(s)
    && Owed(s, id) + Recorded(s, id) > if id in s.b.cancellations then 1 else 0
  }

  lemma SendingStaysOverdue(s: System, id: Value)
    requires Overdue(s, id) && Enabled(s, SendNext(true))
    ensures Owed(SendNextStep(s, true), id) == Owed(s, id)
  {
    var t, f := SendNextStep(s, true), s.todo[0];
    Departs(s, [SubscribeRequest(f)]);
    FlatMapOne(SubscribeRequest(f), RequestIn);
    OfConcat(FlatMap(s.toServer, RequestIn), [f], id);
    assert Of([f], id) == if Id(f) == id then 1 else 0;
  }

  lemma ConfiguringOwesTheSame(s: System, id: Value)
    ensures Owed(ConfigureStep(s, true), id) == Owed(s, id)
  {
    Departs(s, [Configuration]);
    FlatMapOne(Configuration, RequestIn);
    OfConcat(FlatMap(s.toServer, RequestIn), [], id);
  }

  lemma ServingOwesTheSame(s: System, chanId: nat, extra: Object, id: Value)
    requires Enabled(s, Serve(chanId, extra))
    ensures Owed(ServeStep(s, chanId, extra), id) == Owed(s, id)
  {
    var t := ServeStep(s, chanId, extra);
    var m := t.toClient[|s.toClient|];
    assert t.toClient == s.toClient + [m];
    Arrives(s, m);
    assert AnswerIn(m) == RequestIn(s.toServer[0]);
    OfConcat(RequestIn(s.toServer[0]), FlatMap(t.toServer, RequestIn), id);
    OfConcat(FlatMap(s.toClient, AnswerIn), AnswerIn(m), id);
  }

  lemma PushingOwesTheSame(s: System, message: ServerFrame, id: Value)
    requires Enabled(s, Push(message))
    ensures Owed(s.(toClient := s.toClient + [message]), id) == Owed(s, id)
  {
    Arrives(s, message);
    OfConcat(FlatMap(s.toClient, AnswerIn), [], id);
  }

  lemma AnswerIsOwed(s: System, id: Value)
    requires s.toClient != []
    ensures Owed(s, id) == Owed(s.(toClient := s.toClient[1..]), id) + Of(AnswerIn(s.toClient[0]), id)
  {
    OfConcat(AnswerIn(s.toClient[0]), FlatMap(s.toClient[1..], AnswerIn), id);
  }

  lemma RecordedOneMore(entries: seq<Entry>, e: Entry, id: Value)
    requires e.chanId !in Chans(entries)
    ensures Of(Requests(Put(entries, e)), id)
         == Of(Requests(entries), id) + if Id(Reissue(e.subscription)) == id then 1 else 0
  {
    PutAppends(entries, e);
    FlatMapConcat(entries, [e], RequestOf);
    FlatMapOne(e, RequestOf);
    OfConcat(Requests(entries), RequestOf(e), id);
  }

  lemma RefusalOwesTheSame(t: System, chanId: nat, id: Value)
    ensures Owed(t.(toServer := t.toServer + Unsubscriptions([chanId])), id) == Owed(t, id)
  {
    Departs(t, Unsubscriptions([chanId]));
    UnsubscriptionsContents([chanId]);
    OfConcat(FlatMap(t.toServer, RequestIn), [], id);
  }

  lemma ChannelIsFresh(s: System)
    requires Accounted(s) && s.toClient != [] && s.toClient[0].SubscribedReply?
    ensures s.toClient[0].chanId !in Chans(s.b.subscriptions)
  {
    var c := s.toClient[0].chanId;
    assert Confirming(s)[0] == c;
    assert multiset(Confirming(s))[c] >= 1 && Known(s)[c] <= 1;
    assert multiset(Chans(s.b.subscriptions))[c] == 0;
  }

  lemma RefusingStaysOverdue(s: System, ok: bool, id: Value)
    requires Overdue(s, id) && s.toClient != [] && s.toClient[0].SubscribedReply?
    requires Id(s.toClient[0].frame) in s.b.cancellations
    requires Accounted(ReceiveStep(s, ok)) && ReceiveStep(s, ok).alive
    ensures Overdue(ReceiveStep(s, ok), id)
  {
    var m := s.toClient[0];
    AnswerIsOwed(s, id);
    assert Of(AnswerIn(m), id) == if Id(m.frame) == id then 1 else 0;
    RefusalOwesTheSame(s.(toClient := s.toClient[1..]), m.chanId, id);
  }

  lemma RecordingStaysOverdue(s: System, ok: bool, id: Value)
    requires Overdue(s, id) && s.toClient != [] && s.toClient[0].SubscribedReply?
    requires Id(s.toClient[0].frame) !in s.b.cancellations
    requires Accounted(ReceiveStep(s, ok))
    ensures Overdue(ReceiveStep(s, ok), id)
  {
    var m := s.toClient[0];
    AnswerIsOwed(s, id);
    assert Of(AnswerIn(m), id) == if Id(m.frame) == id then 1 else 0;
    ChannelIsFresh(s);
    RecordedOneMore(s.b.subscriptions, Entry(m.chanId, Recording(m.frame, m.chanId, m.extra)), id);
  }

  lemma OtherwiseStaysOverdue(s: System, ok: bool, id: Value)
    requires Overdue(s, id) && s.toClient != [] && !s.toClient[0].SubscribedReply?
    requires Accounted(ReceiveStep(s, ok)) && ReceiveStep(s, ok).alive
    ensures Overdue(ReceiveStep(s, ok), id)
  {
    var t := s.(toClient := s.toClient[1..]);
    AnswerIsOwed(s, id);
    OtherReceived(s, ok);
    assert Owed(t.(log := ReceiveStep(s, ok).log), id) == Owed(t, id);
  }

  lemma ReadingStaysOverdue(s: System, ok: bool, id: Value)
    requires Overdue(s, id) && Enabled(s, Receive(ok)) && ReceiveStep(s, ok).alive
    requires Accounted(ReceiveStep(s, ok))
    ensures Overdue(ReceiveStep(s, ok), id)
  {
    if !s.toClient[0].SubscribedReply? {
      OtherwiseStaysOverdue(s, ok, id);
    } else if Id(s.toClient[0].frame) in s.b.cancellations {
      RefusingStaysOverdue(s, ok, id);
    } else {
      RecordingStaysOverdue(s, ok, id);
    }
  }

  lemma StepStaysOverdue(s: System, act: Label, id: Value)
    requires Overdue(s, id) && Enabled(s, act) && !act.Subscribe? && !act.Unsubscribe?
    requires Step(s, act).alive
    ensures Overdue(Step(s, act), id)
  {
    StepKeepsAccounts(s, act);
    match act
    case SendNext(_) => SendingStaysOverdue(s, id);
    case Configure(_) => ConfiguringOwesTheSame(s, id);
    case Receive(ok) => ReadingStaysOverdue(s, ok, id);
    case Serve(chanId, extra) => ServingOwesTheSame(s, chanId, extra, id);
    case Push(message) => PushingOwesTheSame(s, message, id);
    case _ =>
  }

  /** No call, and the socket lives through it. */
  ghost predicate SameSocket(s: System, labels: seq<Label>)
    decreases |labels|
  {
    labels != [] ==>
      && Enabled(s, labels[0]) && !labels[0].Subscribe? && !labels[0].Unsubscribe?
      && Step(s, labels[0]).alive && SameSocket(Step(s, labels[0]), labels[1..])
  }

  lemma WantsTheSame(s: System, act: Label)
    requires Enabled(s, act) && !act.Subscribe? && !act.Unsubscribe?
    ensures Step(s, act).wanted == s.wanted
  {
  }

  lemma {:induction false} StaysOverdue(s: System, labels: seq<Label>, id: Value)
    requires Overdue(s, id) && SameSocket(s, labels)
    ensures Run(s, labels).Some? && Overdue(Run(s, labels).value, id)
    ensures Run(s, labels).value.wanted == s.wanted
    decreases |labels|
  {
    if labels != [] {
      StepStaysOverdue(s, labels[0], id);
      WantsTheSame(s, labels[0]);
      StaysOverdue(Step(s, labels[0]), labels[1..], id);
    }
  }

  /** A cancelled request is unanswered. */
  lemma CancelledIsOwed(s: System, id: Value)
    requires Tracked(s) && s.alive && id in s.b.cancellations
    ensures Owed(s, id) >= 1
  {
    var f :| f in s.dropped && Id(f) == id;
    assert f in Unanswered(s);
    OfMember(s.todo, id);
    OfMember(FlatMap(s.toServer, RequestIn), id);
    OfMember(FlatMap(s.toClient, AnswerIn), id);
  }

  lemma SubscribeIsOwed(s: System, frame: Frame)
    ensures Owed(SubscribeStep(s, frame, true), Id(frame)) == Owed(s, Id(frame)) + 1
  {
    Departs(s, [SubscribeRequest(frame)]);
    FlatMapOne(SubscribeRequest(frame), RequestIn);
    OfConcat(FlatMap(s.toServer, RequestIn), [frame], Id(frame));
    assert Of([frame], Id(frame)) == 1;
  }

  /** The state after a sub_id was requested and cancelled once more. */
  function Reused(s: System, frame: Frame): System {
    UnsubscribeStep(SubscribeStep(s, frame, true), Id(frame), true)
  }

  lemma ReuseIsOverdue(s: System, frame: Frame)
    requires Tracked(s) && Accounted(s) && s.alive && Id(frame) in s.b.cancellations
    ensures Overdue(Reused(s, frame), Id(frame)) && NoneFor(Reused(s, frame).wanted, Id(frame))
  {
    var t := SubscribeStep(s, frame, true);
    CancelledIsOwed(s, Id(frame));
    SubscribeIsOwed(s, frame);
    StepKeepsAccounts(s, Subscribe(frame, true));
    StepKeepsAccounts(t, Unsubscribe(Id(frame), true));
    assert Id(t.b.pendings[|s.b.pendings|]) == Id(frame);
    assert IsPending(t.b.pendings, Id(frame));
    WithoutIdHasNone(t.wanted, Id(frame), Id(frame));
  }

  /** From every state of a disciplined run: a sub_id whose cancelled request is unanswered,
      subscribed and unsubscribed again, is streamed to a caller who wants nothing as soon as
      the socket has answered everything. */
  lemma ReuseAlwaysStreams(before: seq<Label>, frame: Frame, after: seq<Label>)
    requires DisciplinedRun(INITIAL, before) && Run(INITIAL, before).Some?
    requires Run(INITIAL, before).value.alive && Id(frame) in Run(INITIAL, before).value.b.cancellations
    requires SameSocket(Reused(Run(INITIAL, before).value, frame), after)
    ensures
      var s := Reused(Run(INITIAL, before).value, frame);
      && Run(s, after).Some?
      && var t := Run(s, after).value;
         Unanswered(t) == multiset{} ==>
           NoneFor(t.wanted, Id(frame)) && exists f :: f in Requests(t.b.subscriptions) && Id(f) == Id(frame)
  {
    InitiallyTracked();
    RunKeepsTrack(INITIAL, before);
    var s := Reused(Run(INITIAL, before).value, frame);
    ReuseIsOverdue(Run(INITIAL, before).value, frame);
    StaysOverdue(s, after, Id(frame));
    var t := Run(s, after).value;
    if Unanswered(t) == multiset{} {
      NothingOwed(t, Id(frame));
      OfMember(Requests(t.b.subscriptions), Id(frame));
    }
  }

  lemma NothingOwed(s: System, id: Value)
    requires Unanswered(s) == multiset{}
    ensures Owed(s, id) == 0
  {
    assert multiset(s.todo) == multiset{} && multiset(FlatMap(s.toServer, RequestIn)) == multiset{}
      && multiset(FlatMap(s.toClient, AnswerIn)) == multiset{};
    assert |s.todo| == |multiset(s.todo)|;
    assert |FlatMap(s.toServer, RequestIn)| == |multiset(FlatMap(s.toServer, RequestIn))|;
    assert |FlatMap(s.toClient, AnswerIn)| == |multiset(FlatMap(s.toClient, AnswerIn))|;
  }
}

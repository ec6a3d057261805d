/** What a request is for plays no part in what a bucket does with it: its parameters forgotten,
    every run is still a run. */
module BucketErasure {
  import opened Frames
  import opened BucketState
  import opened BucketSystem

  // ---- A sequence, element by element ----

  function Image<T, U>(s: seq<T>, f: T -> U): (r: seq<U>)
    ensures |r| == |s| && forall i :: 0 <= i < |s| ==> r[i] == f(s[i])
  {
    if s == [] then [] else [f(s[0])] + Image(s[1..], f)
  }

  lemma ImageConcat<T, U>(a: seq<T>, b: seq<T>, f: T -> U)
    ensures Image(a + b, f) == Image(a, f) + Image(b, f)
  {
  }

  lemma ImageTail<T, U>(s: seq<T>, f: T -> U)
    requires s != []
    ensures Image(s, f) == [f(s[0])] + Image(s[1..], f) && Image(s, f)[1..] == Image(s[1..], f)
  {
  }

  // ---- Without parameters ----

  /** A request with nothing in it but its sub_id. */
  function Bare(id: Value): Frame {
    SubscribeFrame(SUBSCRIBE, id, map[])
  }

  function BareFrame(f: Frame): Frame {
    Bare(Id(f))
  }

  ghost function BareEntry(e: Entry): Entry {
    Entry(e.chanId, Recording(Bare(e.SubId()), e.chanId, map[]))
  }

  function BareRequest(m: ClientFrame): ClientFrame {
    if m.SubscribeRequest? then SubscribeRequest(BareFrame(m.frame)) else m
  }

  function BareReply(m: ServerFrame): ServerFrame {
    if m.SubscribedReply? then SubscribedReply(m.chanId, BareFrame(m.frame), map[]) else m
  }

  ghost function BareBucket(b: Bucket): Bucket {
    b.(pendings := Image(b.pendings, BareFrame), subscriptions := Image(b.subscriptions, BareEntry))
  }

  function BareLabel(act: Label): Label {
    match act
    case Subscribe(frame, ok) => Subscribe(BareFrame(frame), ok)
    case Serve(chanId, _) => Serve(chanId, map[])
    case _ => act
  }

  /** `e` is `s` without parameters; the two histories are not compared. */
  ghost predicate Erases(s: System, e: System) {
    && e.b == BareBucket(s.b) && e.phase == s.phase && e.alive == s.alive && e.lingering == s.lingering
    && e.todo == Image(s.todo, BareFrame)
    && e.toServer == Image(s.toServer, BareRequest) && e.toClient == Image(s.toClient, BareReply)
    && e.open == s.open && e.issued == s.issued
  }

  lemma BareIsClean(id: Value)
    ensures Clean(Bare(id)) && Id(Bare(id)) == id
  {
  }

  /** A recovery rebuilds the bare request. */
  lemma BareReissue(e: Entry)
    ensures Reissue(BareEntry(e).subscription) == BareFrame(Reissue(e.subscription))
    ensures BareEntry(e).SubId() == e.SubId()
  {
    BareIsClean(e.SubId());
    ReissueRoundTrip(Bare(e.SubId()), e.chanId, map[]);
  }

  // ---- The operations ----

  lemma {:induction false} PendingErases(pendings: seq<Frame>, id: Value)
    ensures IsPending(Image(pendings, BareFrame), id) <==> IsPending(pendings, id)
  {
    var bare := Image(pendings, BareFrame);
    forall i | 0 <= i < |pendings| ensures Id(bare[i]) == Id(pendings[i]) {
    }
  }

  lemma {:induction false} WithoutIdErases(pendings: seq<Frame>, id: Value)
    ensures WithoutId(Image(pendings, BareFrame), id) == Image(WithoutId(pendings, id), BareFrame)
  {
    if pendings != [] {
      ImageTail(pendings, BareFrame);
      WithoutIdErases(pendings[1..], id);
    }
  }

  lemma {:induction false} WithoutFirstErases(pendings: seq<Frame>, id: Value)
    ensures WithoutFirst(Image(pendings, BareFrame), id) == Image(WithoutFirst(pendings, id), BareFrame)
  {
    if pendings != [] {
      ImageTail(pendings, BareFrame);
      WithoutFirstErases(pendings[1..], id);
    }
  }

  lemma {:induction false} PutErases(entries: seq<Entry>, e: Entry)
    ensures Put(Image(entries, BareEntry), BareEntry(e)) == Image(Put(entries, e), BareEntry)
  {
    if entries != [] {
      ImageTail(entries, BareEntry);
      PutErases(entries[1..], e);
      ImageConcat([e], entries[1..], BareEntry);
      ImageConcat([entries[0]], Put(entries[1..], e), BareEntry);
    }
  }

  lemma {:induction false} DropEntriesErases(entries: seq<Entry>, id: Value, ok: bool)
    ensures
      var (rest, chans) := DropEntries(entries, id, ok);
      DropEntries(Image(entries, BareEntry), id, ok) == (Image(rest, BareEntry), chans)
  {
    if entries != [] {
      ImageTail(entries, BareEntry);
      BareReissue(entries[0]);
      DropEntriesErases(entries[1..], id, ok);
      ImageConcat([entries[0]], DropEntries(entries[1..], id, ok).0, BareEntry);
    }
  }

  lemma {:induction false} RequestsErase(entries: seq<Entry>)
    ensures Requests(Image(entries, BareEntry)) == Image(Requests(entries), BareFrame)
  {
    if entries != [] {
      ImageTail(entries, BareEntry);
      BareReissue(entries[0]);
      RequestsErase(entries[1..]);
      ImageConcat([Reissue(entries[0].subscription)], Requests(entries[1..]), BareFrame);
    }
  }

  lemma RecoveringErases(b: Bucket)
    ensures BucketState.Recovering(BareBucket(b)) == BareBucket(BucketState.Recovering(b))
  {
    RequestsErase(b.subscriptions);
    ImageConcat(b.pendings, Requests(b.subscriptions), BareFrame);
  }

  lemma SubscribedErases(b: Bucket, frame: Frame)
    ensures BucketState.Subscribed(BareBucket(b), BareFrame(frame)) == BareBucket(BucketState.Subscribed(b, frame))
  {
    ImageConcat(b.pendings, [frame], BareFrame);
  }

  lemma UnsubscribedErases(b: Bucket, id: Value, ok: bool)
    ensures
      var (after, chans) := BucketState.Unsubscribed(b, id, ok);
      BucketState.Unsubscribed(BareBucket(b), id, ok) == (BareBucket(after), chans)
  {
    PendingErases(b.pendings, id);
    WithoutFirstErases(b.pendings, id);
    DropEntriesErases(b.subscriptions, id, ok);
  }

  lemma ConfirmedErases(b: Bucket, chanId: nat, frame: Frame, extra: Object)
    ensures
      var (after, chans, announced) := BucketState.Confirmed(b, chanId, Recording(frame, chanId, extra));
      BucketState.Confirmed(BareBucket(b), chanId, Recording(BareFrame(frame), chanId, map[]))
        == (BareBucket(after), chans, announced)
  {
    var e := Entry(chanId, Recording(frame, chanId, extra));
    WithoutIdErases(b.pendings, Id(frame));
    assert e.SubId() == Id(frame);
    PutErases(b.subscriptions, e);
  }

  // ---- Every step ----

  lemma OpenErases(s: System, e: System)
    requires Erases(s, e)
    ensures Erases(OpenStep(s), OpenStep(e))
  {
    RecoveringErases(s.b);
  }

  lemma SendNextErases(s: System, e: System, ok: bool)
    requires Erases(s, e) && s.todo != []
    ensures Erases(SendNextStep(s, ok), SendNextStep(e, ok))
  {
    ImageTail(s.todo, BareFrame);
    ImageConcat(s.toServer, [SubscribeRequest(s.todo[0])], BareRequest);
  }

  lemma ConfigureErases(s: System, e: System, ok: bool)
    requires Erases(s, e)
    ensures Erases(ConfigureStep(s, ok), ConfigureStep(e, ok))
  {
    ImageConcat(s.toServer, [Configuration], BareRequest);
  }

  lemma SubscribeErases(s: System, e: System, frame: Frame, ok: bool)
    requires Erases(s, e)
    ensures Erases(SubscribeStep(s, frame, ok), SubscribeStep(e, BareFrame(frame), ok))
  {
    SubscribedErases(s.b, frame);
    ImageConcat(s.toServer, [SubscribeRequest(frame)], BareRequest);
  }

  lemma {:induction false} UnsubscriptionsErase(chans: seq<nat>)
    ensures Image(Unsubscriptions(chans), BareRequest) == Unsubscriptions(chans)
  {
    if chans != [] {
      UnsubscriptionsErase(chans[1..]);
      ImageConcat([UnsubscribeRequest(chans[0])], Unsubscriptions(chans[1..]), BareRequest);
    }
  }

  /** An `unsubscribe` that finds nothing leaves both as they were, and one that finds something
      neither. */
  lemma {:induction false} DropsNothingOrLess(entries: seq<Entry>, id: Value, ok: bool)
    ensures |DropEntries(entries, id, ok).0| <= |entries|
    ensures |DropEntries(entries, id, ok).0| == |entries| <==> DropEntries(entries, id, ok).0 == entries
  {
    if entries != [] {
      DropsNothingOrLess(entries[1..], id, ok);
    }
  }

  lemma SentErases(s: System, chans: seq<nat>)
    ensures Image(s.toServer + Unsubscriptions(chans), BareRequest)
         == Image(s.toServer, BareRequest) + Unsubscriptions(chans)
  {
    UnsubscriptionsErase(chans);
    ImageConcat(s.toServer, Unsubscriptions(chans), BareRequest);
  }

  lemma CancelErases(s: System, e: System, id: Value, ok: bool)
    requires Erases(s, e) && IsPending(s.b.pendings, id)
    ensures Erases(UnsubscribeStep(s, id, ok), UnsubscribeStep(e, id, ok))
  {
    PendingErases(s.b.pendings, id);
    UnsubscribedErases(s.b, id, ok);
  }

  lemma DropErases(s: System, e: System, id: Value, ok: bool)
    requires Erases(s, e) && !IsPending(s.b.pendings, id)
    ensures Erases(UnsubscribeStep(s, id, ok), UnsubscribeStep(e, id, ok))
  {
    PendingErases(s.b.pendings, id);
    UnsubscribedErases(s.b, id, ok);
    var after := BucketState.Unsubscribed(s.b, id, ok).0;
    DropsNothingOrLess(s.b.subscriptions, id, ok);
    assert after == s.b <==> BareBucket(after) == e.b;
    SentErases(s, BucketState.Unsubscribed(s.b, id, ok).1);
  }

  lemma ReplyErases(s: System, e: System, ok: bool)
    requires Erases(s, e) && s.toClient != [] && s.toClient[0].SubscribedReply?
    ensures Erases(ReceiveStep(s, ok), ReceiveStep(e, ok))
  {
    var m := s.toClient[0];
    ImageTail(s.toClient, BareReply);
    ConfirmedErases(s.b, m.chanId, m.frame, m.extra);
    SentErases(s, [m.chanId]);
  }

  /** A frame that answers no request ends the loop, or is read and at most logged. */
  lemma OtherRead(s: System, ok: bool)
    requires s.toClient != [] && !s.toClient[0].SubscribedReply?
    ensures
      var t, u := ReceiveStep(s, ok), s.(toClient := s.toClient[1..]);
      t == if s.toClient[0].Restart? then Ended(u) else u.(log := t.log)
  {
  }

  lemma OtherErases(s: System, e: System, ok: bool)
    requires Erases(s, e) && s.toClient != [] && !s.toClient[0].SubscribedReply?
    ensures Erases(ReceiveStep(s, ok), ReceiveStep(e, ok))
  {
    ImageTail(s.toClient, BareReply);
    assert e.toClient[0] == s.toClient[0];
    OtherRead(s, ok);
    OtherRead(e, ok);
  }

  /** The server's answer to its oldest frame. */
  function Reply(m: ClientFrame, chanId: nat, extra: Object): ServerFrame {
    if m.SubscribeRequest? then SubscribedReply(chanId, m.frame, extra) else Notice
  }

  lemma ServeShape(s: System, chanId: nat, extra: Object)
    requires s.toServer != []
    ensures
      var t, m := ServeStep(s, chanId, extra), s.toServer[0];
      && t == s.(toServer := s.toServer[1..], toClient := t.toClient, open := t.open, issued := t.issued)
      && t.toClient == s.toClient + [Reply(m, chanId, extra)]
      && t.open == (if m.SubscribeRequest? then s.open + {chanId}
                    else if m.UnsubscribeRequest? then s.open - {m.chanId} else s.open)
      && t.issued == if m.SubscribeRequest? then s.issued + {chanId} else s.issued
  {
  }

  lemma ServeErases(s: System, e: System, chanId: nat, extra: Object)
    requires Erases(s, e) && s.toServer != []
    ensures Erases(ServeStep(s, chanId, extra), ServeStep(e, chanId, map[]))
  {
    ImageTail(s.toServer, BareRequest);
    ServeShape(s, chanId, extra);
    ServeShape(e, chanId, map[]);
    ImageConcat(s.toClient, [Reply(s.toServer[0], chanId, extra)], BareReply);
    assert BareReply(Reply(s.toServer[0], chanId, extra)) == Reply(e.toServer[0], chanId, map[]);
  }

  lemma PushErases(s: System, e: System, m: ServerFrame)
    requires Erases(s, e) && !m.SubscribedReply?
    ensures Erases(s.(toClient := s.toClient + [m]), e.(toClient := e.toClient + [m]))
  {
    ImageConcat(s.toClient, [m], BareReply);
  }

  lemma EnabledErases(s: System, e: System, act: Label)
    requires Erases(s, e) && Enabled(s, act)
    ensures Enabled(e, BareLabel(act))
  {
  }

  lemma PlainErases(s: System, e: System, act: Label)
    requires Erases(s, e) && Enabled(s, act)
    requires act.ReadEnd? || act.Die? || act.Close? || act.Reopen?
    ensures Enabled(e, act) && Erases(Step(s, act), Step(e, act))
  {
  }

  /** Whatever a bucket does, it does without parameters too. */
  lemma StepErases(s: System, e: System, act: Label)
    requires Erases(s, e) && Enabled(s, act)
    ensures Enabled(e, BareLabel(act)) && Erases(Step(s, act), Step(e, BareLabel(act)))
  {
    EnabledErases(s, e, act);
    match act
    case Open => OpenErases(s, e);
    case SendNext(ok) => SendNextErases(s, e, ok);
    case Configure(ok) => ConfigureErases(s, e, ok);
    case Subscribe(frame, ok) => SubscribeErases(s, e, frame, ok);
    case Unsubscribe(id, ok) =>
      if IsPending(s.b.pendings, id) {
        CancelErases(s, e, id, ok);
      } else {
        DropErases(s, e, id, ok);
      }
    case Receive(ok) =>
      if s.toClient[0].SubscribedReply? {
        ReplyErases(s, e, ok);
      } else {
        OtherErases(s, e, ok);
      }
    case Serve(chanId, extra) => ServeErases(s, e, chanId, extra);
    case Push(m) => PushErases(s, e, m);
    case _ => PlainErases(s, e, act);
  }

  // ---- What can be asked of a bucket ----

  lemma HasErases(b: Bucket, id: Value)
    ensures Has(BareBucket(b), id) <==> Has(b, id)
    ensures Count(BareBucket(b)) == Count(b)
  {
    var bare := BareBucket(b);
    forall i | 0 <= i < |b.pendings| ensures Id(bare.pendings[i]) == Id(b.pendings[i]) {
    }
    forall i | 0 <= i < |b.subscriptions| ensures bare.subscriptions[i].SubId() == b.subscriptions[i].SubId() {
      BareReissue(b.subscriptions[i]);
    }
  }

  predicate HeadApart(frames: seq<Frame>)
    requires frames != []
  {
    forall g :: g in frames[1..] ==> Id(g) != Id(frames[0])
  }

  lemma UniqueParts(frames: seq<Frame>)
    requires frames != []
    ensures Unique(multiset(frames)) <==> Unique(multiset(frames[1..])) && HeadApart(frames)
  {
    var tail := multiset(frames[1..]);
    assert frames == [frames[0]] + frames[1..];
    assert multiset(frames) == multiset{frames[0]} + tail;
    assert forall g :: g in tail <==> g in frames[1..];
    if Unique(multiset(frames)) {
      UniqueSubBag(multiset(frames), tail);
      UniqueHead(frames[0], tail);
    } else if Unique(tail) && HeadApart(frames) {
      assert frames[0] !in tail;
    }
  }

  lemma HeadUnerased(frames: seq<Frame>)
    requires frames != [] && HeadApart(Image(frames, BareFrame))
    ensures HeadApart(frames)
  {
    var bare := Image(frames, BareFrame);
    forall g | g in frames[1..] ensures Id(g) != Id(frames[0]) {
      var i :| 0 <= i < |frames[1..]| && frames[1..][i] == g;
      assert bare[1..][i] == BareFrame(g);
    }
  }

  /** Frames whose sub_ids are distinct are distinct. */
  lemma {:induction false} UniqueUnerased(frames: seq<Frame>)
    requires Unique(multiset(Image(frames, BareFrame)))
    ensures Unique(multiset(frames))
  {
    if frames != [] {
      ImageTail(frames, BareFrame);
      UniqueParts(Image(frames, BareFrame));
      HeadUnerased(frames);
      UniqueUnerased(frames[1..]);
      UniqueParts(frames);
    }
  }
}

/** The caller's intent is met: requests, answers and cancellations of one bucket
    balance at every step, across any number of sockets. */
module BucketIntent {
  import opened Frames
  import opened BucketState
  import opened BucketSystem
  import opened BucketChannels

  /** The callers this module is about: parameters avoid the keys a confirmation strips,
      and a sub_id is neither held nor still waiting for the answer to a cancelled request. */
  predicate Disciplined(s: System, act: Label) {
    act.Subscribe? ==>
      Clean(act.frame) && !Has(s.b, Id(act.frame)) && Id(act.frame) !in s.b.cancellations
  }

  ghost predicate DisciplinedRun(s: System, labels: seq<Label>)
    decreases |labels|
  {
    labels != [] ==>
      && Enabled(s, labels[0])
      && Disciplined(s, labels[0])
      && DisciplinedRun(Step(s, labels[0]), labels[1..])
  }

  // ---- The balance, on bags alone ----

  /** `p` pending, `r` confirmed, `d` cancelled before an answer, `u` unanswered, `w` wanted. */
  ghost predicate Balanced(alive: bool, p: multiset<Frame>, r: multiset<Frame>, d: multiset<Frame>,
                           u: multiset<Frame>, w: multiset<Frame>)
  {
    && Unique(p + r + d)
    && u <= p + d
    && (alive ==> u == p + d)
    && p + r == w
  }

  predicate FreshIn(id: Value, m: multiset<Frame>) {
    forall g :: g in m ==> Id(g) != id
  }

  lemma PendingMeansInBag(pendings: seq<Frame>, id: Value)
    ensures IsPending(pendings, id) <==> !FreshIn(id, multiset(pendings))
  {
    if IsPending(pendings, id) {
      var i :| 0 <= i < |pendings| && Id(pendings[i]) == id;
      assert pendings[i] in multiset(pendings);
    }
  }

  lemma UniqueWithFresh(m: multiset<Frame>, f: Frame)
    requires Unique(m) && FreshIn(Id(f), m)
    ensures Unique(m + multiset{f})
  {
    assert f !in m;
  }

  lemma Accepting(alive: bool, p: multiset<Frame>, r: multiset<Frame>, d: multiset<Frame>,
                  u: multiset<Frame>, w: multiset<Frame>, f: Frame)
    requires Balanced(alive, p, r, d, u, w) && FreshIn(Id(f), p + r + d)
    ensures Balanced(alive, p + multiset{f}, r, d, u + multiset{f}, w + multiset{f})
    ensures Balanced(false, p + multiset{f}, r, d, u, w + multiset{f})
  {
    UniqueWithFresh(p + r + d, f);
    assert p + multiset{f} + r + d == p + r + d + multiset{f};
    assert p + multiset{f} + r == w + multiset{f};
    assert p + multiset{f} + d == p + d + multiset{f};
  }

  lemma Cancelling(alive: bool, p: multiset<Frame>, r: multiset<Frame>, d: multiset<Frame>,
                   u: multiset<Frame>, w: multiset<Frame>, f: Frame)
    requires Balanced(alive, p, r, d, u, w) && f in p
    ensures Balanced(alive, p - multiset{f}, r, d + multiset{f}, u, w - multiset{f})
  {
    assert p - multiset{f} + r + (d + multiset{f}) == p + r + d;
    assert p - multiset{f} + (d + multiset{f}) == p + d;
    assert p - multiset{f} + r == w - multiset{f};
  }

  lemma Dropping(alive: bool, p: multiset<Frame>, r: multiset<Frame>, d: multiset<Frame>,
                 u: multiset<Frame>, w: multiset<Frame>, left: multiset<Frame>)
    requires Balanced(alive, p, r, d, u, w) && left <= r
    ensures Balanced(alive, p, left, d, u, p + left)
  {
    UniqueSubBag(p + r + d, p + left + d);
  }

  lemma OneLess(u: multiset<Frame>, m: multiset<Frame>, f: Frame)
    requires u + multiset{f} <= m
    ensures u <= m - multiset{f}
    ensures u + multiset{f} == m ==> u == m - multiset{f}
  {
    forall g ensures u[g] <= (m - multiset{f})[g] {
      assert (u + multiset{f})[g] <= m[g];
    }
  }

  /** An answered request is pending or cancelled, and nothing else has its sub_id. */
  lemma Answered(alive: bool, p: multiset<Frame>, r: multiset<Frame>, d: multiset<Frame>,
                 u: multiset<Frame>, w: multiset<Frame>, f: Frame)
    requires Balanced(alive, p, r, d, u + multiset{f}, w)
    ensures f in p + d
    ensures FreshIn(Id(f), p + r + d - multiset{f})
  {
    var all := p + r + d;
    assert f in u + multiset{f};
    assert f in all;
    assert all == multiset{f} + (all - multiset{f});
    UniqueHead(f, all - multiset{f});
  }

  lemma AnsweringPending(alive: bool, p: multiset<Frame>, r: multiset<Frame>, d: multiset<Frame>,
                         u: multiset<Frame>, w: multiset<Frame>, f: Frame)
    requires Balanced(alive, p, r, d, u + multiset{f}, w) && f in p
    ensures Balanced(alive, p - multiset{f}, r + multiset{f}, d, u, w)
    ensures FreshIn(Id(f), p - multiset{f}) && FreshIn(Id(f), d)
  {
    Answered(alive, p, r, d, u, w, f);
    OneLess(u, p + d, f);
    assert p - multiset{f} + d == p + d - multiset{f};
    assert p - multiset{f} + (r + multiset{f}) + d == p + r + d;
    assert p - multiset{f} + (r + multiset{f}) == w;
    assert p - multiset{f} + r + d == p + r + d - multiset{f};
  }

  lemma AnsweringCancelled(alive: bool, p: multiset<Frame>, r: multiset<Frame>, d: multiset<Frame>,
                           u: multiset<Frame>, w: multiset<Frame>, f: Frame)
    requires Balanced(alive, p, r, d, u + multiset{f}, w) && f in d
    ensures Balanced(alive, p, r, d - multiset{f}, u, w)
    ensures FreshIn(Id(f), p) && FreshIn(Id(f), d - multiset{f})
  {
    Answered(alive, p, r, d, u, w, f);
    OneLess(u, p + d, f);
    assert p + (d - multiset{f}) == p + d - multiset{f};
    assert p + r + (d - multiset{f}) == p + r + d - multiset{f};
    UniqueSubBag(p + r + d, p + r + (d - multiset{f}));
  }

  lemma Losing(alive: bool, p: multiset<Frame>, r: multiset<Frame>, d: multiset<Frame>,
               u: multiset<Frame>, w: multiset<Frame>, less: multiset<Frame>)
    requires Balanced(alive, p, r, d, u, w) && less <= u
    ensures Balanced(false, p, r, d, less, w)
  {
  }

  // ---- The balance of a system ----

  predicate AllClean(m: multiset<Frame>) {
    forall f :: f in m ==> Clean(f)
  }

  /** The cancellation set names exactly the requests cancelled before their answer. */
  ghost predicate Names(ids: set<Value>, d: multiset<Frame>) {
    && (forall f :: f in d ==> Id(f) in ids)
    && (forall id :: id in ids ==> exists f :: f in d && Id(f) == id)
  }

  lemma NamesGrow(ids: set<Value>, d: multiset<Frame>, f: Frame)
    requires Names(ids, d)
    ensures Names(ids + {Id(f)}, d + multiset{f})
  {
    forall id | id in ids + {Id(f)} ensures exists g :: g in d + multiset{f} && Id(g) == id {
      var g :| (g in d || g == f) && Id(g) == id;
      assert g in d + multiset{f};
    }
  }

  lemma NamesShrink(ids: set<Value>, d: multiset<Frame>, f: Frame)
    requires Names(ids, d) && FreshIn(Id(f), d - multiset{f})
    ensures Names(ids - {Id(f)}, d - multiset{f})
  {
    forall id | id in ids - {Id(f)} ensures exists g :: g in d - multiset{f} && Id(g) == id {
      var g :| g in d && Id(g) == id;
      assert g in d - multiset{f};
    }
  }

  ghost predicate SystemBalanced(s: System) {
    Balanced(Up(s), multiset(s.b.pendings), multiset(Requests(s.b.subscriptions)), s.dropped,
             Unanswered(s), multiset(s.wanted))
  }

  ghost predicate Tracked(s: System) {
    && PhaseOk(s)
    && SystemBalanced(s)
    && Names(s.b.cancellations, s.dropped)
    && AllClean(multiset(s.wanted) + s.dropped)
  }

  lemma DeathKeepsTrack(s: System)
    requires Tracked(s)
    ensures Tracked(Dead(s)) && Tracked(Ended(s))
  {
    forall t | t == Dead(s) || t == Ended(s) ensures Tracked(t) {
      Losing(Up(s), multiset(s.b.pendings), multiset(Requests(s.b.subscriptions)), s.dropped,
             Unanswered(s), multiset(s.wanted), Unanswered(t));
    }
  }

  lemma RequestsFresh(b: Bucket, id: Value)
    requires !Has(b, id)
    ensures FreshIn(id, multiset(b.pendings)) && FreshIn(id, multiset(Requests(b.subscriptions)))
  {
    forall g | g in Requests(b.subscriptions) ensures Id(g) != id {
      FlatMapMember(b.subscriptions, RequestOf, g);
    }
  }

  /** One more subscribe frame on the wire. */
  lemma UnansweredGrows(s: System, frame: Frame, t: System)
    requires t.toServer == s.toServer + [SubscribeRequest(frame)]
    requires t.toClient == s.toClient && t.todo == s.todo
    ensures Unanswered(t) == Unanswered(s) + multiset{frame}
  {
    Departs(s, [SubscribeRequest(frame)]);
    var before := FlatMap(s.toServer, RequestIn);
    assert FlatMap(t.toServer, RequestIn) == before + [frame];
    assert multiset(before + [frame]) == multiset(before) + multiset{frame};
  }

  lemma SubscribeOnALiveSocket(s: System, frame: Frame)
    requires Tracked(s) && s.alive && Disciplined(s, Subscribe(frame, true))
    ensures Tracked(SubscribeStep(s, frame, true))
  {
    var t := SubscribeStep(s, frame, true);
    RequestsFresh(s.b, Id(frame));
    var p, r, w := multiset(s.b.pendings), multiset(Requests(s.b.subscriptions)), multiset(s.wanted);
    Accepting(true, p, r, s.dropped, Unanswered(s), w, frame);
    UnansweredGrows(s, frame, t);
    assert SystemBalanced(t) by {
      assert multiset(t.b.pendings) == p + multiset{frame};
      assert multiset(t.wanted) == w + multiset{frame};
    }
    assert AllClean(multiset(t.wanted) + t.dropped);
  }

  lemma SubscribeOnADeadSocket(s: System, frame: Frame)
    requires Tracked(s) && s.alive && Disciplined(s, Subscribe(frame, false))
    ensures Tracked(SubscribeStep(s, frame, false))
  {
    RequestsFresh(s.b, Id(frame));
    var p, r, u, w := multiset(s.b.pendings), multiset(Requests(s.b.subscriptions)), Unanswered(s), multiset(s.wanted);
    Accepting(true, p, r, s.dropped, u, w, frame);
    var t := SubscribeStep(s, frame, false);
    assert multiset(t.b.pendings) == p + multiset{frame};
    assert multiset(t.wanted) == w + multiset{frame};
    Losing(false, p + multiset{frame}, r, s.dropped, u, w + multiset{frame}, Unanswered(t));
  }

  lemma {:induction false} PendingOfId(pendings: seq<Frame>, id: Value)
    ensures IsPending(pendings, id) ==>
      exists f :: f in pendings && Id(f) == id && PendingOf(pendings, id) == multiset{f}
  {
    if pendings != [] && Id(pendings[0]) != id {
      PendingOfId(pendings[1..], id);
      if IsPending(pendings, id) {
        var i :| 0 <= i < |pendings| && Id(pendings[i]) == id;
        assert Id(pendings[1..][i - 1]) == id;
      }
    }
  }

  lemma WantedWithout(wanted: seq<Frame>, id: Value, f: Frame)
    requires Unique(multiset(wanted)) && f in wanted && Id(f) == id
    ensures multiset(WithoutId(wanted, id)) == multiset(wanted) - multiset{f}
  {
    forall g ensures multiset(WithoutId(wanted, id))[g] == (multiset(wanted) - multiset{f})[g] {
      WithoutIdBag(wanted, id, g);
      assert f in multiset(wanted);
      if g in multiset(wanted) && Id(g) == id {
        assert g == f;
      }
    }
  }

  /** Unsubscribing a request that has no answer yet. */
  lemma CancelKeepsTrack(s: System, id: Value, ok: bool)
    requires Tracked(s) && s.alive && IsPending(s.b.pendings, id)
    ensures Tracked(UnsubscribeStep(s, id, ok))
  {
    PendingOfId(s.b.pendings, id);
    var f :| f in s.b.pendings && Id(f) == id && PendingOf(s.b.pendings, id) == multiset{f};
    var t := UnsubscribeStep(s, id, ok);
    CancelledBags(s, f, t);
    var p, r, w := multiset(s.b.pendings), multiset(Requests(s.b.subscriptions)), multiset(s.wanted);
    Cancelling(true, p, r, s.dropped, Unanswered(s), w, f);
    assert Unanswered(t) == Unanswered(s);
    NamesGrow(s.b.cancellations, s.dropped, f);
  }

  /** `n` is `m` without the requests of `id`. */
  ghost predicate Without(m: multiset<Frame>, id: Value, n: multiset<Frame>) {
    forall f: Frame :: n[f] == if Id(f) == id then 0 else m[f]
  }

  lemma WithoutIdIs(frames: seq<Frame>, id: Value)
    ensures Without(multiset(frames), id, multiset(WithoutId(frames, id)))
  {
    forall f: Frame {
      WithoutIdBag(frames, id, f);
    }
  }

  lemma DroppedAre(entries: seq<Entry>, id: Value, ok: bool)
    requires Unique(multiset(Requests(entries)))
    ensures Without(multiset(Requests(entries)), id, multiset(Requests(DropEntries(entries, id, ok).0)))
  {
    forall f: Frame {
      DropEntriesRequests(entries, id, ok, f);
    }
  }

  lemma WithoutSplits(p: multiset<Frame>, r: multiset<Frame>, id: Value, left: multiset<Frame>, kept: multiset<Frame>)
    requires FreshIn(id, p) && Without(r, id, left) && Without(p + r, id, kept)
    ensures kept == p + left && left <= r && kept <= p + r
  {
    forall f: Frame ensures kept[f] == (p + left)[f] {
      assert Id(f) == id ==> f !in p;
    }
  }

  lemma DropBalances(p: multiset<Frame>, r: multiset<Frame>, d: multiset<Frame>, u: multiset<Frame>,
                     w: multiset<Frame>, id: Value, left: multiset<Frame>, kept: multiset<Frame>)
    requires Balanced(true, p, r, d, u, w) && AllClean(w + d)
    requires FreshIn(id, p) && Without(r, id, left) && Without(w, id, kept)
    ensures Balanced(true, p, left, d, u, kept) && AllClean(kept + d)
  {
    WithoutSplits(p, r, id, left, kept);
    Dropping(true, p, r, d, u, w, left);
    forall f | f in kept + d ensures Clean(f) {
      assert f in w + d;
    }
  }

  lemma RequestsOfUnsubscriptions(s: System, chans: seq<nat>)
    ensures FlatMap(s.toServer + Unsubscriptions(chans), RequestIn) == FlatMap(s.toServer, RequestIn)
  {
    UnsubscriptionsContents(chans);
    Departs(s, Unsubscriptions(chans));
  }

  /** Unsubscribing a confirmed subscription, or an unknown id. */
  lemma DropKeepsTrack(s: System, id: Value, ok: bool)
    requires Tracked(s) && s.alive && !IsPending(s.b.pendings, id)
    ensures Tracked(UnsubscribeStep(s, id, ok))
  {
    var (rest, chans) := DropEntries(s.b.subscriptions, id, ok);
    var p, r := multiset(s.b.pendings), multiset(Requests(s.b.subscriptions));
    var w, left := multiset(s.wanted), multiset(Requests(rest));
    var t := UnsubscribeStep(s, id, ok);
    UniqueSubBag(p + r + s.dropped, r);
    DroppedAre(s.b.subscriptions, id, ok);
    WithoutIdIs(s.wanted, id);
    DropBalances(p, r, s.dropped, Unanswered(s), w, id, left, multiset(t.wanted));
    if t.alive {
      RequestsOfUnsubscriptions(s, chans);
      assert Unanswered(t) == Unanswered(s);
    } else {
      Losing(true, p, left, s.dropped, Unanswered(s), multiset(t.wanted), Unanswered(t));
    }
  }

  lemma CancelledBags(s: System, f: Frame, t: System)
    requires Tracked(s) && f in s.b.pendings
    requires t.b.pendings == WithoutFirst(s.b.pendings, Id(f)) && t.wanted == WithoutId(s.wanted, Id(f))
    ensures multiset(t.b.pendings) == multiset(s.b.pendings) - multiset{f}
    ensures multiset(t.wanted) == multiset(s.wanted) - multiset{f}
    ensures AllClean(multiset(t.wanted) + (s.dropped + multiset{f}))
  {
    var p, r, w := multiset(s.b.pendings), multiset(Requests(s.b.subscriptions)), multiset(s.wanted);
    UniqueSubBag(p + r + s.dropped, p);
    UniqueSubBag(p + r + s.dropped, w);
    assert f in p && f in w;
    forall g | g in s.b.pendings && Id(g) == Id(f) ensures g == f {
      assert g in p;
    }
    WithoutFirstBag(s.b.pendings, Id(f), f);
    WantedWithout(s.wanted, Id(f), f);
    forall g | g in multiset(t.wanted) + (s.dropped + multiset{f}) ensures Clean(g) {
      assert g in w + s.dropped;
    }
  }

  /** The first frame of the queue to the client, an answer to `f`, taken off. */
  lemma AnswerTaken(s: System, f: Frame, t: System)
    requires s.toClient != [] && AnswerIn(s.toClient[0]) == [f]
    requires t.toClient == s.toClient[1..] && t.todo == s.todo
    requires FlatMap(t.toServer, RequestIn) == FlatMap(s.toServer, RequestIn)
    ensures Unanswered(s) == Unanswered(t) + multiset{f}
  {
    var rest := FlatMap(t.toClient, AnswerIn);
    assert FlatMap(s.toClient, AnswerIn) == [f] + rest;
    assert multiset([f] + rest) == multiset{f} + multiset(rest);
  }

  lemma {:induction false} PutRequests(entries: seq<Entry>, e: Entry)
    requires e.chanId !in Chans(entries)
    ensures multiset(Requests(Put(entries, e))) == multiset(Requests(entries)) + multiset{Reissue(e.subscription)}
  {
    PutAppends(entries, e);
    FlatMapConcat(entries, [e], RequestOf);
    assert Requests(entries + [e]) == Requests(entries) + [Reissue(e.subscription)];
  }

  /** An answer to a request that is still wanted moves it from pending to confirmed. */
  lemma ConfirmKeepsTrack(s: System, ok: bool)
    requires Tracked(s) && Accounted(s) && s.phase.Reading? && s.toClient != [] && s.toClient[0].SubscribedReply?
    requires s.toClient[0].frame in s.b.pendings
    ensures Tracked(ReceiveStep(s, ok))
    ensures Id(s.toClient[0].frame) !in s.b.cancellations
  {
    var m := s.toClient[0];
    var f := m.frame;
    var t := ReceiveStep(s, ok);
    var p, r, w := multiset(s.b.pendings), multiset(Requests(s.b.subscriptions)), multiset(s.wanted);
    var u := s.(toClient := s.toClient[1..]);
    AnswerTaken(s, f, u);
    AnsweringPending(Up(s), p, r, s.dropped, Unanswered(u), w, f);
    UniqueSubBag(p + r + s.dropped, p);
    WantedWithout(s.b.pendings, Id(f), f);
    TakesOff(s);
    FreshKey(Chans(s.b.subscriptions), FlatMap(s.toClient[1..], ConfirmingIn), m.chanId);
    PutRequests(s.b.subscriptions, Entry(m.chanId, Recording(f, m.chanId, m.extra)));
    assert Clean(f) by { assert f in p + r && f in w + s.dropped; }
    ReissueRoundTrip(f, m.chanId, m.extra);
    assert Unanswered(t) == Unanswered(u);
  }

  lemma WithoutAbsent(pendings: seq<Frame>, id: Value)
    requires FreshIn(id, multiset(pendings))
    ensures multiset(WithoutId(pendings, id)) == multiset(pendings)
  {
    forall f: Frame ensures multiset(WithoutId(pendings, id))[f] == multiset(pendings)[f] {
      WithoutIdBag(pendings, id, f);
      assert Id(f) == id ==> f !in multiset(pendings);
    }
  }

  /** An answer to a cancelled request is refused: the channel is closed at once. */
  lemma RefuseKeepsTrack(s: System, ok: bool)
    requires Tracked(s) && s.phase.Reading? && s.toClient != [] && s.toClient[0].SubscribedReply?
    requires s.toClient[0].frame in s.dropped
    ensures Tracked(ReceiveStep(s, ok))
    ensures Id(s.toClient[0].frame) in s.b.cancellations
  {
    var f := s.toClient[0].frame;
    var t := ReceiveStep(s, ok);
    var p, r, w := multiset(s.b.pendings), multiset(Requests(s.b.subscriptions)), multiset(s.wanted);
    var u := s.(toClient := s.toClient[1..]);
    AnswerTaken(s, f, u);
    AnsweringCancelled(Up(s), p, r, s.dropped, Unanswered(u), w, f);
    WithoutAbsent(s.b.pendings, Id(f));
    NamesShrink(s.b.cancellations, s.dropped, f);
    assert AllClean(w + (s.dropped - multiset{f}));
    if ok && s.alive {
      RequestsOfUnsubscriptions(s, [s.toClient[0].chanId]);
      assert Unanswered(t) == Unanswered(u);
    } else {
      Losing(Up(s), p, r, s.dropped - multiset{f}, Unanswered(u), w, Unanswered(t));
    }
  }

  /** Every answer the client reads is to a request it still tracks. */
  lemma AnswerIsTracked(s: System)
    requires Tracked(s) && s.toClient != [] && s.toClient[0].SubscribedReply?
    ensures s.toClient[0].frame in s.b.pendings || s.toClient[0].frame in s.dropped
  {
    var f := s.toClient[0].frame;
    var u := s.(toClient := s.toClient[1..]);
    AnswerTaken(s, f, u);
    assert f in Unanswered(s);
  }

  lemma ReceiveKeepsTrack(s: System, ok: bool)
    requires Tracked(s) && Accounted(s) && s.phase.Reading? && s.toClient != []
    ensures Tracked(ReceiveStep(s, ok))
  {
    if s.toClient[0].SubscribedReply? {
      AnswerIsTracked(s);
      if s.toClient[0].frame in s.b.pendings {
        ConfirmKeepsTrack(s, ok);
      } else {
        RefuseKeepsTrack(s, ok);
      }
    } else {
      OtherKeepsTrack(s, ok);
    }
  }

  lemma NothingAnswered(s: System, t: System)
    requires s.toClient != [] && !s.toClient[0].SubscribedReply?
    requires t == s.(toClient := s.toClient[1..])
    ensures Unanswered(t) == Unanswered(s)
  {
    assert FlatMap(s.toClient, AnswerIn) == FlatMap(t.toClient, AnswerIn);
  }

  lemma OtherKeepsTrack(s: System, ok: bool)
    requires Tracked(s) && s.phase.Reading? && s.toClient != [] && !s.toClient[0].SubscribedReply?
    ensures Tracked(ReceiveStep(s, ok))
  {
    var t := s.(toClient := s.toClient[1..]);
    NothingAnswered(s, t);
    SameKeepsTrack(s, t);
    OtherReceived(s, ok);
    DeathKeepsTrack(t);
    LoggedKeepsTrack(t, t.(log := ReceiveStep(s, ok).log));
  }

  lemma LoggedKeepsTrack(s: System, t: System)
    requires Tracked(s) && t.(log := s.log) == s
    ensures Tracked(t)
  {
  }

  lemma ConfigureKeepsTrack(s: System, ok: bool)
    requires Tracked(s) && Enabled(s, Configure(ok))
    ensures Tracked(ConfigureStep(s, ok))
  {
    if ok {
      Departs(s, [Configuration]);
      assert FlatMap(s.toServer + [Configuration], RequestIn) == FlatMap(s.toServer, RequestIn);
      SameKeepsTrack(s, ConfigureStep(s, ok));
    } else {
      DeathKeepsTrack(s);
    }
  }

  lemma PushKeepsTrack(s: System, message: ServerFrame)
    requires Tracked(s) && Enabled(s, Push(message))
    ensures Tracked(s.(toClient := s.toClient + [message]))
  {
    Arrives(s, message);
    assert FlatMap(s.toClient + [message], AnswerIn) == FlatMap(s.toClient, AnswerIn);
    SameKeepsTrack(s, s.(toClient := s.toClient + [message]));
  }

  lemma CloseKeepsTrack(s: System)
    requires Tracked(s)
    ensures Tracked(CloseStep(s))
  {
    var t := s.(b := s.b.(closing := true));
    SameKeepsTrack(s, t);
    DeathKeepsTrack(t);
    if s.alive && s.phase.Reading? {
      SameKeepsTrack(t, t.(alive := false, lingering := true));
    }
  }

  lemma ReopenKeepsTrack(s: System)
    requires Tracked(s)
    ensures Tracked(s.(b := s.b.(closing := false)))
  {
    SameKeepsTrack(s, s.(b := s.b.(closing := false)));
  }

  /** Recovery makes every held request pending and owes the server all of them. */
  lemma OpenKeepsTrack(s: System)
    requires Tracked(s)
    ensures Tracked(OpenStep(s))
    ensures Held(OpenStep(s).b) == Held(s.b)
  {
    var p, r := multiset(s.b.pendings), multiset(Requests(s.b.subscriptions));
    var t := OpenStep(s);
    assert multiset(t.b.pendings) == p + r;
    UniqueSubBag(p + r + s.dropped, p + r);
    assert Unanswered(t) == p + r;
    assert AllClean(multiset(t.wanted) + t.dropped) by {
      assert AllClean(multiset(s.wanted) + s.dropped);
    }
  }

  lemma SameKeepsTrack(s: System, t: System)
    requires Tracked(s) && PhaseOk(t) && Unanswered(t) == Unanswered(s) && Up(t) == Up(s)
    requires t.b.(closing := s.b.closing) == s.b && t.wanted == s.wanted && t.dropped == s.dropped
    ensures Tracked(t)
  {
  }

  lemma BagMoves(moved: seq<Frame>, from: seq<Frame>, to: seq<Frame>, others: multiset<Frame>)
    ensures others + multiset(moved + from) + multiset(to) == others + multiset(from) + multiset(to + moved)
    ensures multiset(moved + from) + multiset(to) + others == multiset(from) + multiset(to + moved) + others
  {
    assert multiset(moved + from) == multiset(moved) + multiset(from);
    assert multiset(to + moved) == multiset(to) + multiset(moved);
  }

  /** The server answers the oldest frame: a request's place moves to the other queue. */
  lemma ServeMoves(s: System, chanId: nat, extra: Object)
    requires Enabled(s, Serve(chanId, extra))
    ensures Unanswered(ServeStep(s, chanId, extra)) == Unanswered(s)
  {
    var t := ServeStep(s, chanId, extra);
    var m := t.toClient[|s.toClient|];
    assert t.toClient == s.toClient + [m];
    Arrives(s, m);
    assert AnswerIn(m) == RequestIn(s.toServer[0]);
    BagMoves(RequestIn(s.toServer[0]), FlatMap(t.toServer, RequestIn), FlatMap(s.toClient, AnswerIn), multiset(s.todo));
  }

  lemma SendNextMoves(s: System)
    requires Enabled(s, SendNext(true))
    ensures Unanswered(SendNextStep(s, true)) == Unanswered(s)
  {
    var t := SendNextStep(s, true);
    var f := s.todo[0];
    Departs(s, [SubscribeRequest(f)]);
    assert FlatMap(t.toServer, RequestIn) == FlatMap(s.toServer, RequestIn) + [f];
    assert s.todo == [f] + t.todo;
    BagMoves([f], t.todo, FlatMap(s.toServer, RequestIn), multiset(FlatMap(s.toClient, AnswerIn)));
  }

  lemma SendNextKeepsTrack(s: System, ok: bool)
    requires Tracked(s) && Enabled(s, SendNext(ok))
    ensures Tracked(SendNextStep(s, ok))
  {
    if ok {
      SendNextMoves(s);
      SameKeepsTrack(s, SendNextStep(s, ok));
    } else {
      DeathKeepsTrack(s);
    }
  }

  lemma ServeKeepsPhase(s: System, chanId: nat, extra: Object)
    requires PhaseOk(s) && Enabled(s, Serve(chanId, extra))
    ensures
      var t := ServeStep(s, chanId, extra);
      PhaseOk(t) && t.b == s.b && t.wanted == s.wanted && t.dropped == s.dropped && Up(t) == Up(s)
  {
  }

  lemma ServeKeepsTrack(s: System, chanId: nat, extra: Object)
    requires Tracked(s) && Enabled(s, Serve(chanId, extra))
    ensures Tracked(ServeStep(s, chanId, extra))
  {
    ServeMoves(s, chanId, extra);
    ServeKeepsPhase(s, chanId, extra);
    SameKeepsTrack(s, ServeStep(s, chanId, extra));
  }

  lemma StepKeepsTrack(s: System, act: Label)
    requires Tracked(s) && Accounted(s) && Enabled(s, act) && Disciplined(s, act)
    ensures Tracked(Step(s, act))
  {
    match act
    case Open => OpenKeepsTrack(s);
    case SendNext(ok) => SendNextKeepsTrack(s, ok);
    case Configure(ok) => ConfigureKeepsTrack(s, ok);
    case Subscribe(frame, ok) =>
      if ok {
        SubscribeOnALiveSocket(s, frame);
      } else {
        SubscribeOnADeadSocket(s, frame);
      }
    case Unsubscribe(id, ok) =>
      if IsPending(s.b.pendings, id) {
        CancelKeepsTrack(s, id, ok);
      } else {
        DropKeepsTrack(s, id, ok);
      }
    case Receive(ok) => ReceiveKeepsTrack(s, ok);
    case ReadEnd => DeathKeepsTrack(s);
    case Serve(chanId, extra) => ServeKeepsTrack(s, chanId, extra);
    case Push(message) => PushKeepsTrack(s, message);
    case Die => DeathKeepsTrack(s);
    case Close => CloseKeepsTrack(s);
    case Reopen => ReopenKeepsTrack(s);
  }
}

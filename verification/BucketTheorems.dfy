/** What the balance of `BucketIntent` means for a caller, over whole runs. */
module BucketTheorems {
  import opened Frames
  import opened BucketState
  import opened BucketSystem
  import opened BucketChannels
  import opened BucketIntent

  lemma {:induction false} DisciplinedRunHappens(s: System, labels: seq<Label>)
    requires DisciplinedRun(s, labels)
    ensures Run(s, labels).Some?
    decreases |labels|
  {
    if labels != [] {
      DisciplinedRunHappens(Step(s, labels[0]), labels[1..]);
    }
  }

  lemma {:induction false} RunKeepsTrack(s: System, labels: seq<Label>)
    requires Tracked(s) && Accounted(s) && DisciplinedRun(s, labels)
    ensures Run(s, labels).Some?
    ensures Tracked(Run(s, labels).value) && Accounted(Run(s, labels).value)
    decreases |labels|
  {
    if labels != [] {
      StepKeepsTrack(s, labels[0]);
      StepKeepsAccounts(s, labels[0]);
      RunKeepsTrack(Step(s, labels[0]), labels[1..]);
    }
  }

  lemma InitiallyTracked()
    ensures Tracked(INITIAL) && Accounted(INITIAL)
  {
  }

  /** A new request keeps the balance exactly when the caller is disciplined. */
  lemma DisciplineIsNeeded(s: System, frame: Frame)
    requires Tracked(s) && s.alive
    ensures Tracked(SubscribeStep(s, frame, true)) <==> Disciplined(s, Subscribe(frame, true))
  {
    if Disciplined(s, Subscribe(frame, true)) {
      SubscribeOnALiveSocket(s, frame);
    } else if Tracked(SubscribeStep(s, frame, true)) {
      var t := SubscribeStep(s, frame, true);
      var all := multiset(t.b.pendings) + multiset(Requests(t.b.subscriptions)) + t.dropped;
      var before := multiset(s.b.pendings) + multiset(Requests(s.b.subscriptions)) + s.dropped;
      assert multiset(t.b.pendings) == multiset{frame} + multiset(s.b.pendings);
      assert all == multiset{frame} + before;
      UniqueHead(frame, before);
      assert frame in multiset(t.wanted) + t.dropped;
      HasMeansHeld(s.b, Id(frame));
      assert false;
    }
  }

  lemma HasMeansHeld(b: Bucket, id: Value)
    ensures Has(b, id) <==> exists f :: f in Held(b) && Id(f) == id
  {
    if Has(b, id) {
      if i :| 0 <= i < |b.pendings| && Id(b.pendings[i]) == id {
        assert b.pendings[i] in Held(b);
      } else {
        var i :| 0 <= i < |b.subscriptions| && b.subscriptions[i].SubId() == id;
        var f := Reissue(b.subscriptions[i].subscription);
        assert f in RequestOf(b.subscriptions[i]);
        FlatMapMember(b.subscriptions, RequestOf, f);
        assert f in Held(b);
      }
    } else {
      RequestsFresh(b, id);
    }
  }

  lemma UnansweredOnce(alive: bool, p: multiset<Frame>, r: multiset<Frame>, d: multiset<Frame>,
                       u: multiset<Frame>, w: multiset<Frame>, f: Frame)
    requires Balanced(alive, p, r, d, u, w) && f in u
    ensures u[f] == 1
    ensures (f in p && FreshIn(Id(f), d)) || (f in d && FreshIn(Id(f), p))
  {
    var rest := u - multiset{f};
    assert u == rest + multiset{f};
    Answered(alive, p, r, d, rest, w, f);
    assert (p + r + d)[f] == 1;
    assert u[f] <= (p + d)[f];
    if f in p {
      AnsweringPending(alive, p, r, d, rest, w, f);
    } else {
      AnsweringCancelled(alive, p, r, d, rest, w, f);
    }
  }

  /** Every unanswered request is there once, and its sub_id is either pending or
      cancelled, never both. */
  lemma EveryAnswerIsExpected(labels: seq<Label>, f: Frame)
    requires DisciplinedRun(INITIAL, labels)
    ensures Run(INITIAL, labels).Some?
    ensures
      var s := Run(INITIAL, labels).value;
      f in Unanswered(s) ==>
        && Unanswered(s)[f] == 1
        && (IsPending(s.b.pendings, Id(f)) <==> Id(f) !in s.b.cancellations)
  {
    InitiallyTracked();
    RunKeepsTrack(INITIAL, labels);
    var s := Run(INITIAL, labels).value;
    if f in Unanswered(s) {
      var p := multiset(s.b.pendings);
      var r, w := multiset(Requests(s.b.subscriptions)), multiset(s.wanted);
      UnansweredOnce(Up(s), p, r, s.dropped, Unanswered(s), w, f);
      PendingMeansInBag(s.b.pendings, Id(f));
    }
  }

  /** When nothing is left to answer on a live socket, what is streamed is exactly what was
      accepted and not unsubscribed since, request by request. */
  lemma QuiescentSetIsWanted(labels: seq<Label>)
    requires DisciplinedRun(INITIAL, labels)
    ensures Run(INITIAL, labels).Some?
    ensures
      var s := Run(INITIAL, labels).value;
      s.alive && Unanswered(s) == multiset{} ==>
        && s.b.pendings == [] && s.b.cancellations == {}
        && multiset(Requests(s.b.subscriptions)) == multiset(s.wanted)
        && (Closing(s) == [] ==> s.open == (set c | c in Chans(s.b.subscriptions)) && |s.open| == |s.wanted|)
  {
    InitiallyTracked();
    RunKeepsTrack(INITIAL, labels);
    var s := Run(INITIAL, labels).value;
    if s.alive && Unanswered(s) == multiset{} {
      assert |multiset(s.b.pendings)| == |s.b.pendings|;
      assert s.dropped == multiset{};
      assert multiset(Requests(s.b.subscriptions)) == multiset(s.wanted);
      NoLeakedChannel(labels);
      NothingConfirming(s);
      RequestsLength(s.b.subscriptions);
      assert |multiset(s.wanted)| == |s.wanted|;
      assert |multiset(Requests(s.b.subscriptions))| == |s.b.subscriptions|;
    }
  }

  lemma NothingConfirming(s: System)
    requires Unanswered(s) == multiset{}
    ensures Confirming(s) == []
  {
    if Confirming(s) != [] {
      var c := Confirming(s)[0];
      FlatMapMember(s.toClient, ConfirmingIn, c);
      var i :| 0 <= i < |s.toClient| && c in ConfirmingIn(s.toClient[i]);
      var f := s.toClient[i].frame;
      assert f in AnswerIn(s.toClient[i]);
      FlatMapMember(s.toClient, AnswerIn, f);
      assert false;
    }
  }

  // ---- Conservation ----

  predicate NoCalls(labels: seq<Label>) {
    forall i :: 0 <= i < |labels| ==> !labels[i].Subscribe? && !labels[i].Unsubscribe?
  }

  lemma {:induction false} NoCallsIsDisciplined(s: System, labels: seq<Label>)
    requires NoCalls(labels) && Run(s, labels).Some?
    ensures DisciplinedRun(s, labels)
    ensures Run(s, labels).value.wanted == s.wanted
    decreases |labels|
  {
    if labels != [] {
      NoCallsIsDisciplined(Step(s, labels[0]), labels[1..]);
    }
  }

  /** However often the socket dies, and wherever in a recovery, the requests a bucket
      stands for (sub_id, channel, parameters) stay the same; once all are confirmed, so
      does the dictionary's content. */
  lemma RecoveryConserves(before: seq<Label>, during: seq<Label>)
    requires DisciplinedRun(INITIAL, before)
    ensures Run(INITIAL, before).Some?
    ensures
      var s := Run(INITIAL, before).value;
      NoCalls(during) && Run(s, during).Some? ==>
        var t := Run(s, during).value;
        && Held(t.b) == Held(s.b)
        && (s.b.pendings == [] && t.b.pendings == [] ==>
              multiset(Requests(t.b.subscriptions)) == multiset(Requests(s.b.subscriptions)))
  {
    InitiallyTracked();
    RunKeepsTrack(INITIAL, before);
    var s := Run(INITIAL, before).value;
    if NoCalls(during) && Run(s, during).Some? {
      NoCallsIsDisciplined(s, during);
      RunKeepsTrack(s, during);
    }
  }

  // ---- Data after unsubscribe ----

  predicate NeverSubscribes(labels: seq<Label>, id: Value) {
    forall i :: 0 <= i < |labels| ==> (labels[i].Subscribe? ==> Id(labels[i].frame) != id)
  }

  predicate NoneFor(frames: seq<Frame>, id: Value) {
    forall i :: 0 <= i < |frames| ==> Id(frames[i]) != id
  }

  /** How many data frames a log shows handed to `id`. */
  function DeliveredTo(log: seq<Event>, id: Value): nat {
    if log == [] then 0
    else
      var last := log[|log| - 1];
      DeliveredTo(log[..|log| - 1], id) + if last.Delivered? && last.subId == id then 1 else 0
  }

  lemma DeliveredOneMore(log: seq<Event>, e: Event, id: Value)
    ensures DeliveredTo(log + [e], id) == DeliveredTo(log, id) + if e.Delivered? && e.subId == id then 1 else 0
  {
    assert (log + [e])[..|log|] == log;
  }

  lemma {:induction false} RouteIsAnEntry(entries: seq<Entry>, chanId: nat)
    requires Route(entries, chanId) != []
    ensures exists i ::
      0 <= i < |entries| && entries[i].chanId == chanId && Route(entries, chanId) == [entries[i].subscription]
    ensures chanId != 0
  {
    if entries[0].chanId != chanId {
      RouteIsAnEntry(entries[1..], chanId);
      var i :| 0 <= i < |entries[1..]| && entries[1..][i].chanId == chanId
        && Route(entries[1..], chanId) == [entries[1..][i].subscription];
      assert entries[i + 1] == entries[1..][i];
    }
  }

  lemma {:induction false} WithoutIdHasNone(frames: seq<Frame>, id: Value, other: Value)
    ensures NoneFor(WithoutId(frames, id), id)
    ensures NoneFor(frames, other) ==> NoneFor(WithoutId(frames, id), other)
  {
    if frames != [] {
      WithoutIdHasNone(frames[1..], id, other);
      assert NoneFor(frames, other) ==> NoneFor(frames[1..], other) && Id(frames[0]) != other;
    }
  }

  /** What a step adds to the log. */
  function Logged(s: System, act: Label): seq<Event>
    requires Enabled(s, act)
  {
    if !act.Receive? then []
    else match s.toClient[0]
      case SubscribedReply(_, frame, _) => if Id(frame) in s.b.cancellations then [] else [Announced(Id(frame))]
      case Data(chanId) =>
        var receivers := Route(s.b.subscriptions, chanId);
        if receivers == [] then [] else [Delivered(receivers[0][SnakeSubIdKey], chanId)]
      case _ => []
  }

  lemma LoggedIsAdded(s: System, act: Label)
    requires Enabled(s, act)
    ensures Step(s, act).log == s.log + Logged(s, act)
  {
  }

  lemma RoutedIsWanted(s: System, chanId: nat)
    requires Held(s.b) == multiset(s.wanted) && Route(s.b.subscriptions, chanId) != []
    ensures !NoneFor(s.wanted, Route(s.b.subscriptions, chanId)[0][SnakeSubIdKey])
  {
    RouteIsAnEntry(s.b.subscriptions, chanId);
    var i :| 0 <= i < |s.b.subscriptions| && s.b.subscriptions[i].chanId == chanId
      && Route(s.b.subscriptions, chanId) == [s.b.subscriptions[i].subscription];
    EntryIsHeld(s.b, i);
    var f := Reissue(s.b.subscriptions[i].subscription);
    assert f in multiset(s.wanted);
  }

  lemma DataIsOfThisSocket(s: System)
    requires Accounted(s) && s.phase.Reading? && s.toClient != [] && s.toClient[0].Data?
    ensures s.toClient[0].chanId in s.issued
  {
    assert DataOfThisSocket(s);
  }

  lemma LoggedIsWanted(s: System, act: Label)
    requires Enabled(s, act) && Held(s.b) == multiset(s.wanted)
    requires act.Receive? && s.toClient[0].Data? ==> s.toClient[0].chanId in s.issued
    ensures forall e :: e in Logged(s, act) && e.Delivered? ==> e.chanId in s.issued && !NoneFor(s.wanted, e.subId)
  {
    if act.Receive? && s.toClient[0].Data? && Route(s.b.subscriptions, s.toClient[0].chanId) != [] {
      RoutedIsWanted(s, s.toClient[0].chanId);
    }
  }

  /** A data frame is only ever handed to a sub_id that is wanted, on a channel that the
      current socket's server picked. */
  lemma DeliveryIsWanted(s: System, act: Label)
    requires Tracked(s) && Accounted(s) && Enabled(s, act)
    ensures forall e :: e in Logged(s, act) && e.Delivered? ==> e.chanId in s.issued && !NoneFor(s.wanted, e.subId)
  {
    if act.Receive? && s.toClient[0].Data? {
      DataIsOfThisSocket(s);
    }
    LoggedIsWanted(s, act);
  }

  lemma EntryIsHeld(b: Bucket, i: nat)
    requires i < |b.subscriptions|
    ensures Reissue(b.subscriptions[i].subscription) in Held(b)
  {
    var f := Reissue(b.subscriptions[i].subscription);
    assert f in RequestOf(b.subscriptions[i]);
    FlatMapMember(b.subscriptions, RequestOf, f);
  }

  /** In every disciplined run, each data frame handed over is for a wanted sub_id and came
      on a channel of the socket of that moment. */
  lemma EveryDeliveryIsWanted(labels: seq<Label>, act: Label)
    requires DisciplinedRun(INITIAL, labels)
    ensures Run(INITIAL, labels).Some?
    ensures
      var s := Run(INITIAL, labels).value;
      Enabled(s, act) ==>
        && Step(s, act).log == s.log + Logged(s, act)
        && forall e :: e in Logged(s, act) && e.Delivered? ==> e.chanId in s.issued && !NoneFor(s.wanted, e.subId)
  {
    InitiallyTracked();
    RunKeepsTrack(INITIAL, labels);
    var s := Run(INITIAL, labels).value;
    if Enabled(s, act) {
      LoggedIsAdded(s, act);
      DeliveryIsWanted(s, act);
    }
  }

  lemma UnwantedStep(s: System, act: Label, id: Value)
    requires Tracked(s) && Accounted(s) && Enabled(s, act)
    requires NoneFor(s.wanted, id) && (act.Subscribe? ==> Id(act.frame) != id)
    ensures DeliveredTo(Step(s, act).log, id) == DeliveredTo(s.log, id)
  {
    LoggedIsAdded(s, act);
    DeliveryIsWanted(s, act);
    var added := Logged(s, act);
    if added == [] {
      assert s.log + added == s.log;
    } else {
      assert added == [added[0]];
      DeliveredOneMore(s.log, added[0], id);
    }
  }

  lemma StaysUnwanted(s: System, act: Label, id: Value)
    requires Enabled(s, act) && NoneFor(s.wanted, id) && (act.Subscribe? ==> Id(act.frame) != id)
    ensures NoneFor(Step(s, act).wanted, id)
  {
    if act.Unsubscribe? {
      WithoutIdHasNone(s.wanted, act.id, id);
    }
  }

  lemma {:induction false} UnwantedGetsNothing(s: System, labels: seq<Label>, id: Value)
    requires Tracked(s) && Accounted(s) && DisciplinedRun(s, labels)
    requires NoneFor(s.wanted, id) && NeverSubscribes(labels, id)
    ensures Run(s, labels).Some?
    ensures DeliveredTo(Run(s, labels).value.log, id) == DeliveredTo(s.log, id)
    decreases |labels|
  {
    if labels != [] {
      StepKeepsTrack(s, labels[0]);
      StepKeepsAccounts(s, labels[0]);
      UnwantedStep(s, labels[0], id);
      StaysUnwanted(s, labels[0], id);
      UnwantedGetsNothing(Step(s, labels[0]), labels[1..], id);
    }
  }

  /** After `unsubscribe(id)`, and until that id is subscribed again, no data frame is
      handed to it, whatever the sockets do. */
  lemma SilentAfterUnsubscribe(before: seq<Label>, id: Value, ok: bool, after: seq<Label>)
    requires DisciplinedRun(INITIAL, before + [Unsubscribe(id, ok)] + after)
    requires NeverSubscribes(after, id)
    ensures Run(INITIAL, before + [Unsubscribe(id, ok)]).Some?
    ensures Run(INITIAL, before + [Unsubscribe(id, ok)] + after).Some?
    ensures
      DeliveredTo(Run(INITIAL, before + [Unsubscribe(id, ok)] + after).value.log, id)
      == DeliveredTo(Run(INITIAL, before + [Unsubscribe(id, ok)]).value.log, id)
  {
    var first := before + [Unsubscribe(id, ok)];
    InitiallyTracked();
    SplitRun(INITIAL, first, after);
    RunKeepsTrack(INITIAL, first);
    NothingWantedAfter(before, id, ok);
    UnwantedGetsNothing(Run(INITIAL, first).value, after, id);
  }

  lemma NothingWantedAfter(before: seq<Label>, id: Value, ok: bool)
    requires DisciplinedRun(INITIAL, before + [Unsubscribe(id, ok)])
    ensures Run(INITIAL, before + [Unsubscribe(id, ok)]).Some?
    ensures NoneFor(Run(INITIAL, before + [Unsubscribe(id, ok)]).value.wanted, id)
  {
    SplitRun(INITIAL, before, [Unsubscribe(id, ok)]);
    var u := Run(INITIAL, before).value;
    assert Run(Step(u, Unsubscribe(id, ok)), []) == Run(u, [Unsubscribe(id, ok)]);
    WithoutIdHasNone(u.wanted, id, id);
  }

  lemma {:induction false} SplitRun(s: System, first: seq<Label>, second: seq<Label>)
    requires DisciplinedRun(s, first + second)
    ensures DisciplinedRun(s, first) && Run(s, first).Some?
    ensures DisciplinedRun(Run(s, first).value, second)
    ensures Run(s, first + second) == Run(Run(s, first).value, second)
    decreases |first|
  {
    if first == [] {
      assert first + second == second;
    } else {
      assert (first + second)[1..] == first[1..] + second;
      SplitRun(Step(s, first[0]), first[1..], second);
    }
  }
}

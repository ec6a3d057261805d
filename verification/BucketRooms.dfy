/** The buckets of `Announcements` are those of `BucketSystem`: seen by its sub_ids alone, a run of
    one bucket, its socket and its server is a run of a room. */
module BucketRooms {
  import opened Frames
  import opened BucketState
  import opened BucketSystem
  import opened BucketChannels
  import opened BucketIntent
  import opened BucketTheorems
  import Announcements

  // ---- The projection ----

  function IdOf(f: Frame): seq<Value> {
    [Id(f)]
  }

  function SubIdOf(e: Entry): seq<Value> {
    [e.SubId()]
  }

  function PendingIds(pendings: seq<Frame>): seq<Value> {
    FlatMap(pendings, IdOf)
  }

  function ConfirmedIds(entries: seq<Entry>): seq<Value> {
    FlatMap(entries, SubIdOf)
  }

  /** The bucket holds what the room holds, in the same order. */
  predicate IsRoom(r: Announcements.Room, b: Bucket) {
    r.pendings == PendingIds(b.pendings) && r.confirmed == ConfirmedIds(b.subscriptions)
  }

  /** What a room can do. */
  datatype RoomAct =
    | Opens
    | Asks(subId: Value)
    | Confirms(subId: Value)
    | Forgets(subId: Value)

  /** The guards of `Announcements`. */
  predicate RoomCan(r: Announcements.Room, act: RoomAct) {
    match act
    case Asks(id) => id !in Announcements.Ids(r)
    case Confirms(id) => id in r.pendings
    case _ => true
  }

  /** The transitions of `Announcements`. */
  function RoomDoes(r: Announcements.Room, act: RoomAct): Announcements.Room {
    match act
    case Opens => Announcements.Recovering(r)
    case Asks(id) => Announcements.Requested(r, id)
    case Confirms(id) => Announcements.Confirmed(r, id, false)
    case Forgets(id) => Announcements.Unsubscribed(r, id)
  }

  /** A confirmation that is recorded and announced. */
  predicate Records(s: System, act: Label) {
    act.Receive? && s.toClient != [] && s.toClient[0].SubscribedReply? && Id(s.toClient[0].frame) !in s.b.cancellations
  }

  /** What a step is for the room, if anything. */
  function Projected(s: System, act: Label): seq<RoomAct> {
    match act
    case Open => [Opens]
    case Subscribe(frame, _) => [Asks(Id(frame))]
    case Unsubscribe(id, _) => [Forgets(id)]
    case Receive(_) => if Records(s, act) then [Confirms(Id(s.toClient[0].frame))] else []
    case _ => []
  }

  ghost function ProjectedRun(s: System, labels: seq<Label>): seq<RoomAct>
    requires Run(s, labels).Some?
    decreases |labels|
  {
    if labels == [] then [] else Projected(s, labels[0]) + ProjectedRun(Step(s, labels[0]), labels[1..])
  }

  predicate RoomCanAll(r: Announcements.Room, acts: seq<RoomAct>)
    decreases |acts|
  {
    acts != [] ==> RoomCan(r, acts[0]) && RoomCanAll(RoomDoes(r, acts[0]), acts[1..])
  }

  function RoomDoesAll(r: Announcements.Room, acts: seq<RoomAct>): Announcements.Room
    decreases |acts|
  {
    if acts == [] then r else RoomDoesAll(RoomDoes(r, acts[0]), acts[1..])
  }

  /** The sub_ids announced, in order. */
  function AnnouncedIn(log: seq<Event>): seq<Value> {
    FlatMap(log, AnnouncedBy)
  }

  function AnnouncedBy(e: Event): seq<Value> {
    if e.Announced? then [e.subId] else []
  }

  function ConfirmedBy(act: RoomAct): seq<Value> {
    if act.Confirms? then [act.subId] else []
  }

  function ConfirmsIn(acts: seq<RoomAct>): seq<Value> {
    FlatMap(acts, ConfirmedBy)
  }

  // ---- The operations of a bucket, seen so ----

  lemma {:induction false} WithoutIdProjects(pendings: seq<Frame>, id: Value)
    ensures PendingIds(WithoutId(pendings, id)) == Announcements.Dropping(PendingIds(pendings), id)
  {
    if pendings != [] {
      WithoutIdProjects(pendings[1..], id);
      assert PendingIds(pendings)[1..] == PendingIds(pendings[1..]);
    }
  }

  lemma {:induction false} AbsentDropsNothing(ids: seq<Value>, id: Value)
    requires id !in ids
    ensures Announcements.Dropping(ids, id) == ids
  {
    if ids != [] {
      AbsentDropsNothing(ids[1..], id);
    }
  }

  lemma {:induction false} PendingIdsMember(pendings: seq<Frame>, id: Value)
    ensures id in PendingIds(pendings) <==> IsPending(pendings, id)
  {
    FlatMapMember(pendings, IdOf, id);
  }

  lemma {:induction false} ConfirmedIdsMember(entries: seq<Entry>, id: Value)
    ensures id in ConfirmedIds(entries) <==> exists i :: 0 <= i < |entries| && entries[i].SubId() == id
  {
    FlatMapMember(entries, SubIdOf, id);
  }

  lemma {:induction false} RequestsProject(entries: seq<Entry>)
    ensures PendingIds(Requests(entries)) == ConfirmedIds(entries)
  {
    if entries != [] {
      RequestsProject(entries[1..]);
      assert Requests(entries) == [Reissue(entries[0].subscription)] + Requests(entries[1..]);
      assert Requests(entries)[1..] == Requests(entries[1..]);
    }
  }

  lemma FreshProjects(frames: seq<Frame>, id: Value)
    ensures id !in PendingIds(frames) <==> FreshIn(id, multiset(frames))
  {
    PendingIdsMember(frames, id);
    PendingMeansInBag(frames, id);
  }

  lemma UniqueTail(frames: seq<Frame>)
    requires frames != [] && Unique(multiset(frames))
    ensures Unique(multiset(frames[1..])) && Id(frames[0]) !in PendingIds(frames[1..])
  {
    assert frames == [frames[0]] + frames[1..];
    assert multiset(frames) == multiset{frames[0]} + multiset(frames[1..]);
    UniqueSubBag(multiset(frames), multiset(frames[1..]));
    UniqueHead(frames[0], multiset(frames[1..]));
    FreshProjects(frames[1..], Id(frames[0]));
  }

  /** The first pending request of a sub_id is its only one. */
  lemma {:induction false} WithoutFirstProjects(pendings: seq<Frame>, id: Value)
    requires Unique(multiset(pendings))
    ensures PendingIds(WithoutFirst(pendings, id)) == Announcements.Dropping(PendingIds(pendings), id)
  {
    if pendings != [] {
      UniqueTail(pendings);
      assert PendingIds(pendings)[1..] == PendingIds(pendings[1..]);
      if Id(pendings[0]) == id {
        AbsentDropsNothing(PendingIds(pendings[1..]), id);
      } else {
        WithoutFirstProjects(pendings[1..], id);
      }
    }
  }

  lemma EntriesTail(entries: seq<Entry>)
    requires entries != [] && Unique(multiset(Requests(entries)))
    ensures Unique(multiset(Requests(entries[1..])))
    ensures entries[0].SubId() !in ConfirmedIds(entries[1..])
  {
    assert Requests(entries)
        == [Reissue(entries[0].subscription)] + Requests(entries[1..]);
    UniqueTail(Requests(entries));
    RequestsProject(entries[1..]);
  }

  /** So is its only channel, whether its frame goes out or not. */
  lemma {:induction false} DropEntriesProjects(entries: seq<Entry>, id: Value, ok: bool)
    requires Unique(multiset(Requests(entries)))
    ensures ConfirmedIds(DropEntries(entries, id, ok).0) == Announcements.Dropping(ConfirmedIds(entries), id)
  {
    if entries != [] {
      EntriesTail(entries);
      assert ConfirmedIds(entries)[1..] == ConfirmedIds(entries[1..]);
      DropEntriesProjects(entries[1..], id, ok);
      if entries[0].SubId() == id {
        AbsentDropsNothing(ConfirmedIds(entries[1..]), id);
      }
    }
  }

  lemma ApartInBag(p: multiset<Frame>, q: multiset<Frame>, rest: multiset<Frame>, f: Frame)
    requires Unique(p + q + rest) && f in p
    ensures FreshIn(Id(f), q)
  {
    var tail := p - multiset{f} + q + rest;
    assert p + q + rest == multiset{f} + tail;
    UniqueHead(f, tail);
    forall g | g in q ensures Id(g) != Id(f) {
      assert g in tail;
    }
  }

  // ---- Every step ----

  lemma OpenProjects(r: Announcements.Room, s: System)
    requires IsRoom(r, s.b)
    ensures IsRoom(RoomDoes(r, Opens), OpenStep(s).b)
  {
    FlatMapConcat(s.b.pendings, Requests(s.b.subscriptions), IdOf);
    RequestsProject(s.b.subscriptions);
  }

  lemma SubscribeProjects(r: Announcements.Room, s: System, frame: Frame, ok: bool)
    requires IsRoom(r, s.b) && !Has(s.b, Id(frame))
    ensures RoomCan(r, Asks(Id(frame)))
    ensures IsRoom(RoomDoes(r, Asks(Id(frame))), SubscribeStep(s, frame, ok).b)
  {
    FlatMapConcat(s.b.pendings, [frame], IdOf);
    FlatMapOne(frame, IdOf);
    PendingIdsMember(s.b.pendings, Id(frame));
    ConfirmedIdsMember(s.b.subscriptions, Id(frame));
  }

  /** A sub_id is pending or confirmed, not both, and at most once. */
  predicate Separate(b: Bucket) {
    Unique(multiset(b.pendings) + multiset(Requests(b.subscriptions)))
  }

  lemma TrackedIsSeparate(s: System)
    requires Tracked(s)
    ensures Separate(s.b)
  {
    var held := multiset(s.b.pendings) + multiset(Requests(s.b.subscriptions));
    UniqueSubBag(held + s.dropped, held);
  }

  lemma PendingIsNotConfirmed(b: Bucket, id: Value)
    requires Separate(b) && IsPending(b.pendings, id)
    ensures id !in ConfirmedIds(b.subscriptions)
  {
    var i :| 0 <= i < |b.pendings| && Id(b.pendings[i]) == id;
    var p, r := multiset(b.pendings), multiset(Requests(b.subscriptions));
    assert p + r + multiset{} == p + r;
    ApartInBag(p, r, multiset{}, b.pendings[i]);
    FreshProjects(Requests(b.subscriptions), id);
    RequestsProject(b.subscriptions);
  }

  lemma CancelProjects(r: Announcements.Room, b: Bucket, id: Value, ok: bool)
    requires IsRoom(r, b) && Separate(b) && IsPending(b.pendings, id)
    ensures IsRoom(RoomDoes(r, Forgets(id)), BucketState.Unsubscribed(b, id, ok).0)
  {
    UniqueSubBag(multiset(b.pendings) + multiset(Requests(b.subscriptions)), multiset(b.pendings));
    WithoutFirstProjects(b.pendings, id);
    PendingIsNotConfirmed(b, id);
    AbsentDropsNothing(r.confirmed, id);
  }

  lemma DropProjects(r: Announcements.Room, b: Bucket, id: Value, ok: bool)
    requires IsRoom(r, b) && Separate(b) && !IsPending(b.pendings, id)
    ensures IsRoom(RoomDoes(r, Forgets(id)), BucketState.Unsubscribed(b, id, ok).0)
  {
    var held := multiset(b.pendings) + multiset(Requests(b.subscriptions));
    UniqueSubBag(held, multiset(Requests(b.subscriptions)));
    DropEntriesProjects(b.subscriptions, id, ok);
    PendingIdsMember(b.pendings, id);
    AbsentDropsNothing(r.pendings, id);
  }

  lemma UnsubscribeShape(s: System, id: Value, ok: bool)
    ensures UnsubscribeStep(s, id, ok).b == BucketState.Unsubscribed(s.b, id, ok).0
  {
  }

  lemma UnsubscribeProjects(r: Announcements.Room, s: System, id: Value, ok: bool)
    requires IsRoom(r, s.b) && Separate(s.b)
    ensures IsRoom(RoomDoes(r, Forgets(id)), UnsubscribeStep(s, id, ok).b)
  {
    UnsubscribeShape(s, id, ok);
    if IsPending(s.b.pendings, id) {
      CancelProjects(r, s.b, id, ok);
    } else {
      DropProjects(r, s.b, id, ok);
    }
  }

  lemma AnswerIsPending(s: System, act: Label)
    requires Tracked(s) && Accounted(s) && Enabled(s, act) && Records(s, act)
    ensures s.toClient[0].frame in s.b.pendings
  {
    AnswerIsTracked(s);
    if s.toClient[0].frame !in s.b.pendings {
      RefuseKeepsTrack(s, true);
    }
  }

  lemma ConfirmProjects(r: Announcements.Room, s: System, ok: bool)
    requires IsRoom(r, s.b) && Tracked(s) && Accounted(s) && Enabled(s, Receive(ok)) && Records(s, Receive(ok))
    ensures RoomCan(r, Confirms(Id(s.toClient[0].frame)))
    ensures IsRoom(RoomDoes(r, Confirms(Id(s.toClient[0].frame))), ReceiveStep(s, ok).b)
  {
    var m := s.toClient[0];
    AnswerIsPending(s, Receive(ok));
    PendingIdsMember(s.b.pendings, Id(m.frame));
    WithoutIdProjects(s.b.pendings, Id(m.frame));
    TakesOff(s);
    FreshKey(Chans(s.b.subscriptions), FlatMap(s.toClient[1..], ConfirmingIn), m.chanId);
    var e := Entry(m.chanId, Recording(m.frame, m.chanId, m.extra));
    PutAppends(s.b.subscriptions, e);
    FlatMapConcat(s.b.subscriptions, [e], SubIdOf);
    FlatMapOne(e, SubIdOf);
  }

  lemma CancelledIsNotPending(s: System, id: Value)
    requires Tracked(s) && id in s.b.cancellations
    ensures id !in PendingIds(s.b.pendings)
  {
    var p, r := multiset(s.b.pendings), multiset(Requests(s.b.subscriptions));
    var f :| f in s.dropped && Id(f) == id;
    assert p + r + s.dropped == s.dropped + p + r;
    ApartInBag(s.dropped, p, r, f);
    FreshProjects(s.b.pendings, id);
  }

  lemma RefusalShape(s: System, ok: bool)
    requires Enabled(s, Receive(ok)) && !Records(s, Receive(ok))
    ensures
      var t := ReceiveStep(s, ok);
      && t.b.subscriptions == s.b.subscriptions
      && t.b.pendings == if s.toClient[0].SubscribedReply? then WithoutId(s.b.pendings, Id(s.toClient[0].frame))
                         else s.b.pendings
    ensures s.toClient[0].SubscribedReply? ==> Id(s.toClient[0].frame) in s.b.cancellations
  {
  }

  /** A refused confirmation is of a sub_id that is not pending. */
  lemma RefusalProjects(r: Announcements.Room, s: System, ok: bool)
    requires IsRoom(r, s.b) && Tracked(s) && Enabled(s, Receive(ok)) && !Records(s, Receive(ok))
    ensures IsRoom(r, ReceiveStep(s, ok).b)
  {
    RefusalShape(s, ok);
    if s.toClient[0].SubscribedReply? {
      var id := Id(s.toClient[0].frame);
      CancelledIsNotPending(s, id);
      WithoutIdProjects(s.b.pendings, id);
      AbsentDropsNothing(PendingIds(s.b.pendings), id);
    }
  }

  lemma OtherProjects(r: Announcements.Room, s: System, act: Label)
    requires IsRoom(r, s.b) && Enabled(s, act)
    requires !act.Open? && !act.Subscribe? && !act.Unsubscribe? && !act.Receive?
    ensures IsRoom(r, Step(s, act).b)
  {
  }

  predicate StepsTo(r: Announcements.Room, acts: seq<RoomAct>, b: Bucket) {
    RoomCanAll(r, acts) && IsRoom(RoomDoesAll(r, acts), b)
  }

  lemma OneAct(r: Announcements.Room, act: RoomAct, b: Bucket)
    requires RoomCan(r, act) && IsRoom(RoomDoes(r, act), b)
    ensures StepsTo(r, [act], b)
  {
    assert [act][1..] == [];
    assert RoomDoesAll(RoomDoes(r, act), []) == RoomDoes(r, act);
  }

  lemma NoAct(r: Announcements.Room, b: Bucket)
    requires IsRoom(r, b)
    ensures StepsTo(r, [], b)
  {
  }

  lemma RecordingIsOfARoom(r: Announcements.Room, s: System, ok: bool)
    requires IsRoom(r, s.b) && Tracked(s) && Accounted(s) && Enabled(s, Receive(ok)) && Records(s, Receive(ok))
    ensures StepsTo(r, Projected(s, Receive(ok)), ReceiveStep(s, ok).b)
  {
    ConfirmProjects(r, s, ok);
    OneAct(r, Confirms(Id(s.toClient[0].frame)), ReceiveStep(s, ok).b);
  }

  lemma RefusingIsOfARoom(r: Announcements.Room, s: System, ok: bool)
    requires IsRoom(r, s.b) && Tracked(s) && Enabled(s, Receive(ok)) && !Records(s, Receive(ok))
    ensures StepsTo(r, Projected(s, Receive(ok)), ReceiveStep(s, ok).b)
  {
    RefusalProjects(r, s, ok);
    NoAct(r, ReceiveStep(s, ok).b);
  }

  lemma CallIsOfARoom(r: Announcements.Room, s: System, act: Label)
    requires IsRoom(r, s.b) && Tracked(s) && Enabled(s, act) && Disciplined(s, act)
    requires act.Subscribe? || act.Unsubscribe?
    ensures StepsTo(r, Projected(s, act), Step(s, act).b)
  {
    match act
    case Subscribe(frame, ok) =>
      SubscribeProjects(r, s, frame, ok);
      OneAct(r, Asks(Id(frame)), SubscribeStep(s, frame, ok).b);
    case Unsubscribe(id, ok) =>
      TrackedIsSeparate(s);
      UnsubscribeProjects(r, s, id, ok);
      OneAct(r, Forgets(id), UnsubscribeStep(s, id, ok).b);
  }

  lemma InnerIsOfARoom(r: Announcements.Room, s: System, act: Label)
    requires IsRoom(r, s.b) && Enabled(s, act) && !act.Subscribe? && !act.Unsubscribe? && !act.Receive?
    ensures StepsTo(r, Projected(s, act), Step(s, act).b)
  {
    if act.Open? {
      OpenProjects(r, s);
      OneAct(r, Opens, OpenStep(s).b);
    } else {
      OtherProjects(r, s, act);
      NoAct(r, Step(s, act).b);
    }
  }

  /** Every step of a disciplined bucket is what the room does, or nothing to it. */
  lemma StepIsOfARoom(r: Announcements.Room, s: System, act: Label)
    requires IsRoom(r, s.b) && Tracked(s) && Accounted(s) && Enabled(s, act) && Disciplined(s, act)
    ensures StepsTo(r, Projected(s, act), Step(s, act).b)
  {
    if act.Receive? {
      if Records(s, act) {
        RecordingIsOfARoom(r, s, act.ok);
      } else {
        RefusingIsOfARoom(r, s, act.ok);
      }
    } else if act.Subscribe? || act.Unsubscribe? {
      CallIsOfARoom(r, s, act);
    } else {
      InnerIsOfARoom(r, s, act);
    }
  }

  lemma StepStaysSound(s: System, act: Label)
    requires Tracked(s) && Accounted(s) && Enabled(s, act) && Disciplined(s, act)
    ensures Tracked(Step(s, act)) && Accounted(Step(s, act))
  {
    StepKeepsTrack(s, act);
    StepKeepsAccounts(s, act);
  }

  lemma LoggedProjects(s: System, act: Label)
    requires Enabled(s, act)
    ensures AnnouncedIn(Logged(s, act)) == ConfirmsIn(Projected(s, act))
  {
    if Records(s, act) {
      FlatMapOne(Announced(Id(s.toClient[0].frame)), AnnouncedBy);
      FlatMapOne(Confirms(Id(s.toClient[0].frame)), ConfirmedBy);
    } else {
      if Logged(s, act) != [] {
        FlatMapOne(Logged(s, act)[0], AnnouncedBy);
      }
      if Projected(s, act) != [] {
        FlatMapOne(Projected(s, act)[0], ConfirmedBy);
      }
    }
  }

  // ---- Every run ----

  lemma {:induction false} RoomRunsOn(r: Announcements.Room, a: seq<RoomAct>, b: seq<RoomAct>)
    requires RoomCanAll(r, a) && RoomCanAll(RoomDoesAll(r, a), b)
    ensures RoomCanAll(r, a + b) && RoomDoesAll(r, a + b) == RoomDoesAll(RoomDoesAll(r, a), b)
    decreases |a|
  {
    if a == [] {
      assert a + b == b;
    } else {
      assert (a + b)[1..] == a[1..] + b;
      RoomRunsOn(RoomDoes(r, a[0]), a[1..], b);
    }
  }

  /** Bucket and room agree, and the run goes on from here. */
  ghost predicate Agrees(r: Announcements.Room, s: System, labels: seq<Label>) {
    IsRoom(r, s.b) && Tracked(s) && Accounted(s) && DisciplinedRun(s, labels)
  }

  lemma FirstStepAgrees(r: Announcements.Room, s: System, labels: seq<Label>)
    requires Agrees(r, s, labels) && labels != []
    ensures Enabled(s, labels[0]) && RoomCanAll(r, Projected(s, labels[0]))
    ensures Agrees(RoomDoesAll(r, Projected(s, labels[0])), Step(s, labels[0]), labels[1..])
  {
    StepIsOfARoom(r, s, labels[0]);
    StepStaysSound(s, labels[0]);
  }

  lemma {:induction false} RunIsOfARoom(r: Announcements.Room, s: System, labels: seq<Label>)
    requires Agrees(r, s, labels) && Run(s, labels).Some?
    ensures StepsTo(r, ProjectedRun(s, labels), Run(s, labels).value.b)
    decreases |labels|
  {
    if labels != [] {
      FirstStepAgrees(r, s, labels);
      RunIsOfARoom(RoomDoesAll(r, Projected(s, labels[0])), Step(s, labels[0]), labels[1..]);
      RunJoins(r, s, labels);
    }
  }

  lemma RunJoins(r: Announcements.Room, s: System, labels: seq<Label>)
    requires labels != [] && Run(s, labels).Some? && RoomCanAll(r, Projected(s, labels[0]))
    requires
      var t := Step(s, labels[0]);
      StepsTo(RoomDoesAll(r, Projected(s, labels[0])), ProjectedRun(t, labels[1..]), Run(t, labels[1..]).value.b)
    ensures StepsTo(r, ProjectedRun(s, labels), Run(s, labels).value.b)
  {
    RoomRunsOn(r, Projected(s, labels[0]), ProjectedRun(Step(s, labels[0]), labels[1..]));
  }

  lemma {:induction false} RunAnnounces(s: System, labels: seq<Label>)
    requires Run(s, labels).Some?
    ensures AnnouncedIn(Run(s, labels).value.log) == AnnouncedIn(s.log) + ConfirmsIn(ProjectedRun(s, labels))
    decreases |labels|
  {
    if labels != [] {
      var act := labels[0];
      LoggedIsAdded(s, act);
      LoggedProjects(s, act);
      FlatMapConcat(s.log, Logged(s, act), AnnouncedBy);
      RunAnnounces(Step(s, act), labels[1..]);
      FlatMapConcat(Projected(s, act), ProjectedRun(Step(s, act), labels[1..]), ConfirmedBy);
    }
  }

  /** Every run of a disciplined bucket, seen by its sub_ids, is a run of an empty room: each of its
      acts meets the guard it has in `Announcements`, the two hold the same sub_ids in the same
      order, and "subscribed" is emitted exactly for what the room confirms. */
  lemma BucketIsARoom(labels: seq<Label>)
    requires DisciplinedRun(INITIAL, labels)
    ensures Run(INITIAL, labels).Some?
    ensures
      var t := Run(INITIAL, labels).value;
      var acts := ProjectedRun(INITIAL, labels);
      && RoomCanAll(Announcements.EMPTY_ROOM, acts)
      && IsRoom(RoomDoesAll(Announcements.EMPTY_ROOM, acts), t.b)
      && AnnouncedIn(t.log) == ConfirmsIn(acts)
  {
    InitiallyTracked();
    DisciplinedRunHappens(INITIAL, labels);
    RunIsOfARoom(Announcements.EMPTY_ROOM, INITIAL, labels);
    RunAnnounces(INITIAL, labels);
  }
}

/** The buckets of one client: how `subscribe` and `unsubscribe` choose one, and what that
    keeps true of all of them together, in every interleaving. */
module ClientBuckets {
  import opened Frames
  import opened BucketState
  import opened BucketSystem
  import opened BucketChannels
  import opened BucketIntent

  type Buckets = seq<System>

  /** What one pass of the `subscribe` loop comes to. */
  datatype Pass =
    | Refused           // SubIdError
    | Placed(at: nat)   // handed to this bucket
    | Full              // no open bucket with room: wait for one, or open a new one

  datatype Call =
    | Inner(at: nat, act: Label)          // anything a bucket does by itself
    | SubscribePass(frame: Frame, ok: bool)
    | UnsubscribeCall(id: Value, ok: bool)
    | NewBucket
    | Discard(at: nat)                    // a new bucket that did not open in time

  function FirstWith(buckets: Buckets, id: Value): nat {
    if buckets == [] || Has(buckets[0].b, id) then 0 else 1 + FirstWith(buckets[1..], id)
  }

  predicate Taken(buckets: Buckets, id: Value) {
    exists i :: 0 <= i < |buckets| && Has(buckets[i].b, id)
  }

  predicate HasRoom(s: System) {
    s.alive && !IsFull(s.b)
  }

  function FirstWithRoom(buckets: Buckets): nat {
    if buckets == [] || HasRoom(buckets[0]) then 0 else 1 + FirstWithRoom(buckets[1..])
  }

  function PassOf(buckets: Buckets, id: Value): Pass {
    if Taken(buckets, id) then Refused
    else if FirstWithRoom(buckets) < |buckets| then Placed(FirstWithRoom(buckets))
    else Full
  }

  predicate CallEnabled(buckets: Buckets, call: Call) {
    match call
    case Inner(at, act) => at < |buckets| && !act.Subscribe? && !act.Unsubscribe? && Enabled(buckets[at], act)
    case Discard(at) => at < |buckets|
    case _ => true
  }

  /** `unsubscribe`, with `at` the first bucket that has the sub_id: a bucket left with nothing
      is taken away, and one whose socket is gone is left as it is. */
  function UnsubscribedAt(buckets: Buckets, at: nat, id: Value, ok: bool): Buckets {
    if at >= |buckets| then buckets
    else if Count(buckets[at].b) == 1 then buckets[..at] + buckets[at + 1..]
    else if !buckets[at].alive then buckets
    else buckets[at := UnsubscribeStep(buckets[at], id, ok)]
  }

  ghost function CallStep(buckets: Buckets, call: Call): Buckets
    requires CallEnabled(buckets, call)
  {
    match call
    case Inner(at, act) => buckets[at := Step(buckets[at], act)]
    case SubscribePass(frame, ok) =>
      var pass := PassOf(buckets, Id(frame));
      if pass.Placed? then buckets[pass.at := SubscribeStep(buckets[pass.at], frame, ok)] else buckets
    case UnsubscribeCall(id, ok) => UnsubscribedAt(buckets, FirstWith(buckets, id), id, ok)
    case NewBucket => buckets + [INITIAL]
    case Discard(at) => buckets[..at] + buckets[at + 1..]
  }

  /** Callers as in `BucketIntent`: clean parameters, and no sub_id whose cancelled request
      is still unanswered by the bucket that would take it. */
  predicate DisciplinedCall(buckets: Buckets, call: Call) {
    call.SubscribePass? ==>
      var pass := PassOf(buckets, Id(call.frame));
      pass.Placed? && pass.at < |buckets| ==>
        Clean(call.frame) && Id(call.frame) !in buckets[pass.at].b.cancellations
  }

  ghost predicate CanCalls(buckets: Buckets, calls: seq<Call>)
    decreases |calls|
  {
    calls != [] ==> CallEnabled(buckets, calls[0]) && CanCalls(CallStep(buckets, calls[0]), calls[1..])
  }

  ghost predicate DisciplinedCalls(buckets: Buckets, calls: seq<Call>)
    requires CanCalls(buckets, calls)
    decreases |calls|
  {
    calls != [] ==>
      DisciplinedCall(buckets, calls[0]) && DisciplinedCalls(CallStep(buckets, calls[0]), calls[1..])
  }

  ghost function CallsRun(buckets: Buckets, calls: seq<Call>): Buckets
    requires CanCalls(buckets, calls)
    decreases |calls|
  {
    if calls == [] then buckets else CallsRun(CallStep(buckets, calls[0]), calls[1..])
  }

  // ---- Capacity and identity ----

  function HeldBy(s: System): seq<Frame> {
    s.b.pendings + Requests(s.b.subscriptions)
  }

  /** Every request of every bucket. */
  function Holdings(buckets: Buckets): multiset<Frame> {
    multiset(FlatMap(buckets, HeldBy))
  }

  ghost predicate Sound(s: System) {
    Tracked(s) && Accounted(s) && Count(s.b) <= MAXIMUM_SUBSCRIPTIONS
  }

  ghost predicate AllSound(buckets: Buckets) {
    forall i :: 0 <= i < |buckets| ==> Sound(buckets[i])
  }

  ghost predicate Orderly(buckets: Buckets) {
    AllSound(buckets) && Unique(Holdings(buckets))
  }

  /** The holdings of all buckets but one. */
  function Others(buckets: Buckets, at: nat): multiset<Frame>
    requires at < |buckets|
  {
    multiset(FlatMap(buckets[..at], HeldBy) + FlatMap(buckets[at + 1..], HeldBy))
  }

  lemma HeldByIsHeld(s: System)
    ensures multiset(HeldBy(s)) == Held(s.b)
  {
  }

  lemma HoldingsWith(buckets: Buckets, at: nat, t: System)
    requires at < |buckets|
    ensures Holdings(buckets[at := t]) == Others(buckets, at) + Held(t.b)
  {
    var before, after := buckets[..at], buckets[at + 1..];
    assert buckets[at := t] == before + [t] + after;
    FlatMapConcat(before + [t], after, HeldBy);
    FlatMapConcat(before, [t], HeldBy);
    FlatMapOne(t, HeldBy);
    var x, y := FlatMap(before, HeldBy), FlatMap(after, HeldBy);
    assert FlatMap(buckets[at := t], HeldBy) == x + HeldBy(t) + y;
    MiddleOut(x, HeldBy(t), y);
    HeldByIsHeld(t);
  }

  lemma MiddleOut(x: seq<Frame>, m: seq<Frame>, y: seq<Frame>)
    ensures multiset(x + m + y) == multiset(x + y) + multiset(m)
  {
    assert multiset(x + m + y) == multiset(x) + multiset(m) + multiset(y);
    assert multiset(x + y) == multiset(x) + multiset(y);
  }

  lemma HoldingsWithout(buckets: Buckets, at: nat)
    requires at < |buckets|
    ensures Holdings(buckets) == Others(buckets, at) + Held(buckets[at].b)
    ensures Holdings(buckets[..at] + buckets[at + 1..]) == Others(buckets, at)
  {
    HoldingsWith(buckets, at, buckets[at]);
    assert buckets[at := buckets[at]] == buckets;
    FlatMapConcat(buckets[..at], buckets[at + 1..], HeldBy);
  }

  lemma UntakenIsFresh(buckets: Buckets, id: Value)
    requires !Taken(buckets, id)
    ensures FreshIn(id, Holdings(buckets))
  {
    forall f | f in FlatMap(buckets, HeldBy) ensures Id(f) != id {
      FlatMapMember(buckets, HeldBy, f);
      var i :| 0 <= i < |buckets| && f in HeldBy(buckets[i]);
      RequestsFresh(buckets[i].b, id);
    }
  }

  lemma CountIsHeld(b: Bucket)
    ensures Count(b) == |Held(b)|
  {
    RequestsLength(b.subscriptions);
    assert |multiset(b.pendings)| == |b.pendings|;
    assert |multiset(Requests(b.subscriptions))| == |Requests(b.subscriptions)|;
  }

  lemma {:induction false} FirstWithRoomFits(buckets: Buckets)
    ensures FirstWithRoom(buckets) <= |buckets|
    ensures FirstWithRoom(buckets) < |buckets| ==> HasRoom(buckets[FirstWithRoom(buckets)])
  {
    if buckets != [] && !HasRoom(buckets[0]) {
      FirstWithRoomFits(buckets[1..]);
    }
  }

  lemma WantedIsHeld(s: System)
    requires Tracked(s)
    ensures Held(s.b) == multiset(s.wanted)
  {
  }

  lemma InnerKeepsWanted(s: System, act: Label)
    requires Enabled(s, act) && !act.Subscribe? && !act.Unsubscribe?
    ensures Step(s, act).wanted == s.wanted
  {
  }

  /** What a bucket does by itself changes neither how much it holds nor for whom. */
  lemma InnerKeepsHeld(s: System, act: Label)
    requires Sound(s) && Enabled(s, act) && !act.Subscribe? && !act.Unsubscribe?
    ensures Sound(Step(s, act)) && Held(Step(s, act).b) == Held(s.b)
  {
    var t := Step(s, act);
    StepKeepsTrack(s, act);
    StepKeepsAccounts(s, act);
    InnerKeepsWanted(s, act);
    WantedIsHeld(s);
    WantedIsHeld(t);
    CountIsHeld(s.b);
    CountIsHeld(t.b);
  }

  lemma PlacedIsSound(s: System, frame: Frame, ok: bool)
    requires Sound(s) && HasRoom(s) && Disciplined(s, Subscribe(frame, ok))
    ensures Sound(SubscribeStep(s, frame, ok))
    ensures Held(SubscribeStep(s, frame, ok).b) == Held(s.b) + multiset{frame}
  {
    StepKeepsTrack(s, Subscribe(frame, ok));
    StepKeepsAccounts(s, Subscribe(frame, ok));
    var t := SubscribeStep(s, frame, ok);
    assert t.b.pendings == s.b.pendings + [frame];
    assert multiset(t.b.pendings) == multiset(s.b.pendings) + multiset{frame};
    assert t.b.subscriptions == s.b.subscriptions;
  }

  lemma UnsubscribeShrinks(s: System, id: Value, ok: bool)
    requires Tracked(s) && Tracked(UnsubscribeStep(s, id, ok))
    ensures Held(UnsubscribeStep(s, id, ok).b) <= Held(s.b)
  {
    WantedIsHeld(s);
    WantedIsHeld(UnsubscribeStep(s, id, ok));
    WantedShrinks(s, id, ok);
  }

  lemma WantedShrinks(s: System, id: Value, ok: bool)
    ensures multiset(UnsubscribeStep(s, id, ok).wanted) <= multiset(s.wanted)
  {
    WithoutIdIs(s.wanted, id);
    assert UnsubscribeStep(s, id, ok).wanted == WithoutId(s.wanted, id);
  }

  lemma UnsubscribedIsSound(s: System, id: Value, ok: bool)
    requires Sound(s) && s.alive
    ensures Sound(UnsubscribeStep(s, id, ok))
    ensures Held(UnsubscribeStep(s, id, ok).b) <= Held(s.b)
  {
    var t := UnsubscribeStep(s, id, ok);
    StepKeepsTrack(s, Unsubscribe(id, ok));
    StepKeepsAccounts(s, Unsubscribe(id, ok));
    UnsubscribeShrinks(s, id, ok);
    CountIsHeld(s.b);
    CountIsHeld(t.b);
    SmallerBag(Held(s.b), Held(t.b));
  }

  lemma SmallerBag(m: multiset<Frame>, n: multiset<Frame>)
    requires n <= m
    ensures |n| <= |m|
  {
    assert m == n + (m - n);
  }

  /** Replacing one bucket by a sound one that holds no more, or something fresh. */
  lemma ReplacedStaysOrderly(buckets: Buckets, at: nat, t: System)
    requires AllSound(buckets) && at < |buckets| && Sound(t)
    requires Unique(Others(buckets, at) + Held(t.b))
    ensures Orderly(buckets[at := t])
  {
    HoldingsWith(buckets, at, t);
  }

  lemma FewerAreUnique(others: multiset<Frame>, held: multiset<Frame>, less: multiset<Frame>)
    requires Unique(others + held) && less <= held
    ensures Unique(others + less)
  {
    UniqueSubBag(others + held, others + less);
  }

  lemma ShrunkStaysOrderly(buckets: Buckets, at: nat, t: System)
    requires Orderly(buckets) && at < |buckets| && Sound(t) && Held(t.b) <= Held(buckets[at].b)
    ensures Orderly(buckets[at := t])
  {
    HoldingsWithout(buckets, at);
    FewerAreUnique(Others(buckets, at), Held(buckets[at].b), Held(t.b));
    ReplacedStaysOrderly(buckets, at, t);
  }

  lemma SoundTogether(a: Buckets, b: Buckets)
    requires AllSound(a) && AllSound(b)
    ensures AllSound(a + b)
  {
    forall i | 0 <= i < |a + b| ensures Sound((a + b)[i]) {
      assert (a + b)[i] == if i < |a| then a[i] else b[i - |a|];
    }
  }

  lemma SoundApart(buckets: Buckets, at: nat)
    requires AllSound(buckets) && at < |buckets|
    ensures AllSound(buckets[..at]) && AllSound(buckets[at + 1..])
  {
    var after := buckets[at + 1..];
    forall i | 0 <= i < |after| ensures Sound(after[i]) {
      assert after[i] == buckets[at + 1 + i];
    }
  }

  lemma RemovedStaysOrderly(buckets: Buckets, at: nat)
    requires Orderly(buckets) && at < |buckets|
    ensures Orderly(buckets[..at] + buckets[at + 1..])
  {
    SoundApart(buckets, at);
    SoundTogether(buckets[..at], buckets[at + 1..]);
    HoldingsWithout(buckets, at);
    UniqueSubBag(Holdings(buckets), Others(buckets, at));
  }

  lemma PlacedStaysOrderly(buckets: Buckets, at: nat, frame: Frame, ok: bool)
    requires Orderly(buckets) && at < |buckets| && HasRoom(buckets[at]) && !Taken(buckets, Id(frame))
    requires Clean(frame) && Id(frame) !in buckets[at].b.cancellations
    ensures Orderly(buckets[at := SubscribeStep(buckets[at], frame, ok)])
  {
    var s := buckets[at];
    assert !Has(s.b, Id(frame));
    PlacedIsSound(s, frame, ok);
    UntakenIsFresh(buckets, Id(frame));
    HoldingsWithout(buckets, at);
    UniqueWithFresh(Holdings(buckets), frame);
    OneMore(Others(buckets, at), Held(s.b), frame);
    ReplacedStaysOrderly(buckets, at, SubscribeStep(s, frame, ok));
  }

  lemma SubscribePassStaysOrderly(buckets: Buckets, frame: Frame, ok: bool)
    requires Orderly(buckets) && DisciplinedCall(buckets, SubscribePass(frame, ok))
    ensures Orderly(CallStep(buckets, SubscribePass(frame, ok)))
  {
    FirstWithRoomFits(buckets);
    if PassOf(buckets, Id(frame)).Placed? {
      PlacedStaysOrderly(buckets, PassOf(buckets, Id(frame)).at, frame, ok);
    }
  }

  lemma OneMore(others: multiset<Frame>, held: multiset<Frame>, frame: Frame)
    ensures others + (held + multiset{frame}) == others + held + multiset{frame}
  {
  }

  lemma UnsubscribeCallStaysOrderly(buckets: Buckets, at: nat, id: Value, ok: bool)
    requires Orderly(buckets)
    ensures Orderly(UnsubscribedAt(buckets, at, id, ok))
  {
    if at < |buckets| {
      if Count(buckets[at].b) == 1 {
        RemovedStaysOrderly(buckets, at);
      } else if buckets[at].alive {
        UnsubscribedStaysOrderly(buckets, at, id, ok);
      }
    }
  }

  lemma UnsubscribedStaysOrderly(buckets: Buckets, at: nat, id: Value, ok: bool)
    requires Orderly(buckets) && at < |buckets| && buckets[at].alive
    ensures Orderly(buckets[at := UnsubscribeStep(buckets[at], id, ok)])
  {
    UnsubscribedIsSound(buckets[at], id, ok);
    ShrunkStaysOrderly(buckets, at, UnsubscribeStep(buckets[at], id, ok));
  }

  lemma InitiallySound()
    ensures Sound(INITIAL)
  {
  }

  lemma NewBucketStaysOrderly(buckets: Buckets)
    requires Orderly(buckets)
    ensures Orderly(buckets + [INITIAL])
  {
    FlatMapConcat(buckets, [INITIAL], HeldBy);
    FlatMapOne(INITIAL, HeldBy);
    assert HeldBy(INITIAL) == [];
    InitiallySound();
    SoundTogether(buckets, [INITIAL]);
  }

  lemma CallStaysOrderly(buckets: Buckets, call: Call)
    requires Orderly(buckets) && CallEnabled(buckets, call) && DisciplinedCall(buckets, call)
    ensures Orderly(CallStep(buckets, call))
  {
    match call
    case Inner(at, act) =>
      InnerKeepsHeld(buckets[at], act);
      ShrunkStaysOrderly(buckets, at, Step(buckets[at], act));
    case SubscribePass(frame, ok) => SubscribePassStaysOrderly(buckets, frame, ok);
    case UnsubscribeCall(id, ok) => UnsubscribeCallStaysOrderly(buckets, FirstWith(buckets, id), id, ok);
    case NewBucket => NewBucketStaysOrderly(buckets);
    case Discard(at) => RemovedStaysOrderly(buckets, at);
  }

  lemma {:induction false} CallsStayOrderly(buckets: Buckets, calls: seq<Call>)
    requires Orderly(buckets) && CanCalls(buckets, calls) && DisciplinedCalls(buckets, calls)
    ensures Orderly(CallsRun(buckets, calls))
    decreases |calls|
  {
    if calls != [] {
      CallStaysOrderly(buckets, calls[0]);
      CallsStayOrderly(CallStep(buckets, calls[0]), calls[1..]);
    }
  }

  /** In every reachable state each bucket holds at most 25 subscriptions, and no two
      requests of the client, in one bucket or in two, share a sub_id. */
  lemma CleanCapacityAndIdentity(calls: seq<Call>)
    requires CanCalls([], calls) && DisciplinedCalls([], calls)
    ensures forall i :: 0 <= i < |CallsRun([], calls)| ==> Count(CallsRun([], calls)[i].b) <= MAXIMUM_SUBSCRIPTIONS
    ensures Unique(Holdings(CallsRun([], calls)))
  {
    CallsStayOrderly([], calls);
  }

  // ---- The bucket table as the client updates it ----

  lemma {:induction false} FirstWithIs(buckets: Buckets, id: Value, at: nat)
    requires at <= |buckets| && forall i :: 0 <= i < at ==> !Has(buckets[i].b, id)
    requires at == |buckets| || Has(buckets[at].b, id)
    ensures FirstWith(buckets, id) == at
    decreases at
  {
    if at > 0 {
      assert forall i :: 0 <= i < |buckets| - 1 ==> buckets[1..][i] == buckets[i + 1];
      FirstWithIs(buckets[1..], id, at - 1);
    }
  }

  lemma {:induction false} FirstWithRoomSkips(buckets: Buckets, at: nat)
    requires at <= |buckets| && forall i :: 0 <= i < at ==> !HasRoom(buckets[i])
    ensures FirstWithRoom(buckets) == at + FirstWithRoom(buckets[at..])
    decreases at
  {
    if at > 0 {
      assert buckets[1..][at - 1..] == buckets[at..];
      assert forall i :: 0 <= i < at - 1 ==> buckets[1..][i] == buckets[i + 1];
      FirstWithRoomSkips(buckets[1..], at - 1);
    }
  }

  /** The socket is up, and the bucket does not hold exactly 25 subscriptions. */
  predicate Fits(s: System) {
    s.alive && Count(s.b) != 25
  }

  /** The first bucket with the sub_id goes if that is all it holds; else it drops it, unless its
      socket is gone. No other bucket is touched. */
  predicate Takes(before: Buckets, at: nat, id: Value, ok: bool, after: Buckets) {
    && at < |before| && Has(before[at].b, id) && (forall k :: 0 <= k < at ==> !Has(before[k].b, id))
    && if Count(before[at].b) == 1 then after == before[..at] + before[at + 1..]
       else if before[at].alive then after == before[at := UnsubscribeStep(before[at], id, ok)]
       else after == before
  }

  class BucketTable {
    var buckets: Buckets

    /** One pass of the `subscribe` loop, up to the send of the bucket it picks. */
    method Subscribe(frame: Frame, ok: bool) returns (pass: Pass)
      modifies this
      ensures pass == PassOf(old(buckets), Id(frame))
      ensures pass == Refused <==> exists i :: 0 <= i < |old(buckets)| && Has(old(buckets)[i].b, Id(frame))
      ensures pass.Placed? ==> pass.at < |old(buckets)| && Fits(old(buckets)[pass.at])
      ensures pass.Placed? ==> forall k :: 0 <= k < pass.at ==> !Fits(old(buckets)[k])
      ensures pass == Full ==> forall k :: 0 <= k < |old(buckets)| ==> !Fits(old(buckets)[k])
      ensures buckets == CallStep(old(buckets), SubscribePass(frame, ok))
    {
      for i := 0 to |buckets|
        invariant forall k :: 0 <= k < i ==> !Has(buckets[k].b, Id(frame))
        invariant buckets == old(buckets)
      {
        if Has(buckets[i].b, Id(frame)) {
          return Refused;
        }
      }
      for i := 0 to |buckets|
        invariant forall k :: 0 <= k < i ==> !HasRoom(buckets[k])
        invariant buckets == old(buckets)
      {
        if HasRoom(buckets[i]) {
          FirstWithRoomSkips(buckets, i);
          buckets := buckets[i := SubscribeStep(buckets[i], frame, ok)];
          return Placed(i);
        }
      }
      FirstWithRoomSkips(buckets, |buckets|);
      pass := Full;
    }

    /** `unsubscribe`: the last subscription of a bucket takes the bucket with it. */
    method Unsubscribe(id: Value, ok: bool) returns (known: bool)
      modifies this
      ensures known <==> exists i :: 0 <= i < |old(buckets)| && Has(old(buckets)[i].b, id)
      ensures !known ==> buckets == old(buckets)
      ensures known ==> exists at: nat :: Takes(old(buckets), at, id, ok, buckets)
      ensures buckets == CallStep(old(buckets), UnsubscribeCall(id, ok))
    {
      for i := 0 to |buckets|
        invariant forall k :: 0 <= k < i ==> !Has(buckets[k].b, id)
        invariant buckets == old(buckets)
      {
        if Has(buckets[i].b, id) {
          FirstWithIs(buckets, id, i);
          if Count(buckets[i].b) == 1 {
            buckets := buckets[..i] + buckets[i + 1..];
          } else if buckets[i].alive {
            buckets := buckets[i := UnsubscribeStep(buckets[i], id, ok)];
          }
          assert Takes(old(buckets), i, id, ok, buckets);
          return true;
        }
      }
      FirstWithIs(buckets, id, |buckets|);
      known := false;
    }
  }
}

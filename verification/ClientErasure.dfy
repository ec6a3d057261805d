/** Capacity and identity for requests with any parameters: the buckets of a client do what they
    would do without them. */
module ClientErasure {
  import opened Frames
  import opened BucketState
  import opened BucketSystem
  import opened BucketErasure
  import opened ClientBuckets

  ghost predicate AllErase(buckets: Buckets, bare: Buckets) {
    |bare| == |buckets| && forall i :: 0 <= i < |buckets| ==> Erases(buckets[i], bare[i])
  }

  function BareCall(call: Call): Call {
    match call
    case Inner(at, act) => Inner(at, BareLabel(act))
    case SubscribePass(frame, ok) => SubscribePass(BareFrame(frame), ok)
    case _ => call
  }

  function BareCalls(calls: seq<Call>): seq<Call> {
    Image(calls, BareCall)
  }

  /** No bucket is given a sub_id whose cancelled request it still awaits the answer to. */
  predicate FreshCall(buckets: Buckets, call: Call) {
    call.SubscribePass? ==>
      var pass := PassOf(buckets, Id(call.frame));
      pass.Placed? && pass.at < |buckets| ==> Id(call.frame) !in buckets[pass.at].b.cancellations
  }

  ghost predicate FreshCalls(buckets: Buckets, calls: seq<Call>)
    requires CanCalls(buckets, calls)
    decreases |calls|
  {
    calls != [] ==> FreshCall(buckets, calls[0]) && FreshCalls(CallStep(buckets, calls[0]), calls[1..])
  }

  // ---- The questions the client asks of its buckets ----

  lemma TailErases(buckets: Buckets, bare: Buckets)
    requires AllErase(buckets, bare) && buckets != []
    ensures AllErase(buckets[1..], bare[1..])
  {
  }

  lemma {:induction false} FirstWithErases(buckets: Buckets, bare: Buckets, id: Value)
    requires AllErase(buckets, bare)
    ensures FirstWith(bare, id) == FirstWith(buckets, id)
    ensures Taken(bare, id) <==> Taken(buckets, id)
  {
    forall i | 0 <= i < |buckets| ensures Has(bare[i].b, id) <==> Has(buckets[i].b, id) {
      HasErases(buckets[i].b, id);
    }
    if buckets != [] {
      TailErases(buckets, bare);
      FirstWithErases(buckets[1..], bare[1..], id);
    }
  }

  lemma {:induction false} FirstWithRoomErases(buckets: Buckets, bare: Buckets)
    requires AllErase(buckets, bare)
    ensures FirstWithRoom(bare) == FirstWithRoom(buckets)
    ensures FirstWithRoom(buckets) <= |buckets|
  {
    if buckets != [] {
      HasErases(buckets[0].b, SUBSCRIBE);
      TailErases(buckets, bare);
      FirstWithRoomErases(buckets[1..], bare[1..]);
    }
  }

  lemma PassErases(buckets: Buckets, bare: Buckets, id: Value)
    requires AllErase(buckets, bare)
    ensures PassOf(bare, id) == PassOf(buckets, id)
    ensures PassOf(buckets, id).Placed? ==> PassOf(buckets, id).at < |buckets|
  {
    FirstWithErases(buckets, bare, id);
    FirstWithRoomErases(buckets, bare);
  }

  // ---- Every call ----

  lemma ReplacedErases(buckets: Buckets, bare: Buckets, at: nat, s: System, e: System)
    requires AllErase(buckets, bare) && at < |buckets| && Erases(s, e)
    ensures AllErase(buckets[at := s], bare[at := e])
  {
  }

  lemma RemovedErases(buckets: Buckets, bare: Buckets, at: nat)
    requires AllErase(buckets, bare) && at < |buckets|
    ensures AllErase(buckets[..at] + buckets[at + 1..], bare[..at] + bare[at + 1..])
  {
  }

  lemma UnsubscribedAtErases(buckets: Buckets, bare: Buckets, at: nat, id: Value, ok: bool)
    requires AllErase(buckets, bare)
    ensures AllErase(UnsubscribedAt(buckets, at, id, ok), UnsubscribedAt(bare, at, id, ok))
  {
    if at < |buckets| {
      HasErases(buckets[at].b, id);
      RemovedErases(buckets, bare, at);
      if buckets[at].alive {
        StepErases(buckets[at], bare[at], Unsubscribe(id, ok));
        ReplacedErases(buckets, bare, at, UnsubscribeStep(buckets[at], id, ok), UnsubscribeStep(bare[at], id, ok));
      }
    }
  }

  lemma SubscribePassErases(buckets: Buckets, bare: Buckets, frame: Frame, ok: bool)
    requires AllErase(buckets, bare)
    ensures AllErase(CallStep(buckets, SubscribePass(frame, ok)), CallStep(bare, SubscribePass(BareFrame(frame), ok)))
  {
    PassErases(buckets, bare, Id(frame));
    var pass := PassOf(buckets, Id(frame));
    if pass.Placed? {
      SubscribeErases(buckets[pass.at], bare[pass.at], frame, ok);
      ReplacedErases(buckets, bare, pass.at, SubscribeStep(buckets[pass.at], frame, ok),
                     SubscribeStep(bare[pass.at], BareFrame(frame), ok));
    }
  }

  lemma InnerErases(buckets: Buckets, bare: Buckets, at: nat, act: Label)
    requires AllErase(buckets, bare) && CallEnabled(buckets, Inner(at, act))
    ensures CallEnabled(bare, Inner(at, BareLabel(act)))
    ensures AllErase(CallStep(buckets, Inner(at, act)), CallStep(bare, Inner(at, BareLabel(act))))
  {
    StepErases(buckets[at], bare[at], act);
    ReplacedErases(buckets, bare, at, Step(buckets[at], act), Step(bare[at], BareLabel(act)));
  }

  lemma CallErases(buckets: Buckets, bare: Buckets, call: Call)
    requires AllErase(buckets, bare) && CallEnabled(buckets, call)
    ensures CallEnabled(bare, BareCall(call))
    ensures AllErase(CallStep(buckets, call), CallStep(bare, BareCall(call)))
  {
    match call
    case Inner(at, act) => InnerErases(buckets, bare, at, act);
    case SubscribePass(frame, ok) => SubscribePassErases(buckets, bare, frame, ok);
    case UnsubscribeCall(id, ok) =>
      FirstWithErases(buckets, bare, id);
      UnsubscribedAtErases(buckets, bare, FirstWith(buckets, id), id, ok);
    case NewBucket => assert Erases(INITIAL, INITIAL);
    case Discard(at) => RemovedErases(buckets, bare, at);
  }

  /** Without parameters a fresh call is a disciplined one. */
  lemma FreshIsDisciplined(buckets: Buckets, bare: Buckets, call: Call)
    requires AllErase(buckets, bare) && FreshCall(buckets, call)
    ensures DisciplinedCall(bare, BareCall(call))
  {
    if call.SubscribePass? {
      PassErases(buckets, bare, Id(call.frame));
      BareIsClean(Id(call.frame));
    }
  }

  lemma {:induction false} CallsErase(buckets: Buckets, bare: Buckets, calls: seq<Call>)
    requires AllErase(buckets, bare) && CanCalls(buckets, calls) && FreshCalls(buckets, calls)
    ensures CanCalls(bare, BareCalls(calls)) && DisciplinedCalls(bare, BareCalls(calls))
    ensures AllErase(CallsRun(buckets, calls), CallsRun(bare, BareCalls(calls)))
    decreases |calls|
  {
    if calls != [] {
      ImageTail(calls, BareCall);
      CallErases(buckets, bare, calls[0]);
      FreshIsDisciplined(buckets, bare, calls[0]);
      CallsErase(CallStep(buckets, calls[0]), CallStep(bare, BareCall(calls[0])), calls[1..]);
    }
  }

  // ---- Capacity and identity ----

  lemma HeldErases(s: System, e: System)
    requires Erases(s, e)
    ensures HeldBy(e) == Image(HeldBy(s), BareFrame)
  {
    RequestsErase(s.b.subscriptions);
    ImageConcat(s.b.pendings, Requests(s.b.subscriptions), BareFrame);
  }

  lemma {:induction false} HoldingsErase(buckets: Buckets, bare: Buckets)
    requires AllErase(buckets, bare)
    ensures FlatMap(bare, HeldBy) == Image(FlatMap(buckets, HeldBy), BareFrame)
  {
    if buckets != [] {
      TailErases(buckets, bare);
      HoldingsErase(buckets[1..], bare[1..]);
      HeldErases(buckets[0], bare[0]);
      ImageConcat(HeldBy(buckets[0]), FlatMap(buckets[1..], HeldBy), BareFrame);
    }
  }

  /** In every reachable state, whatever the parameters of the requests: each bucket holds at most
      25 subscriptions, and no two requests of the client, in one bucket or in two, share a
      sub_id. */
  lemma CapacityAndIdentity(calls: seq<Call>)
    requires CanCalls([], calls) && FreshCalls([], calls)
    ensures forall i :: 0 <= i < |CallsRun([], calls)| ==> Count(CallsRun([], calls)[i].b) <= 25
    ensures Unique(Holdings(CallsRun([], calls)))
  {
    CallsErase([], [], calls);
    CleanCapacityAndIdentity(BareCalls(calls));
    var buckets, bare := CallsRun([], calls), CallsRun([], BareCalls(calls));
    forall i | 0 <= i < |buckets| ensures Count(buckets[i].b) <= 25 {
      HasErases(buckets[i].b, SUBSCRIBE);
    }
    HoldingsErase(buckets, bare);
    UniqueUnerased(FlatMap(buckets, HeldBy));
  }
}

/** `resubscribe` frees a subscription's slot and sub_id, waits, and takes both again. What the
    window in between does to the capacity and the identity of the buckets. */
module Resubscribe {
  import opened Options
  import opened Frames
  import opened BucketState
  import opened BucketSystem
  import opened BucketIntent
  import opened BucketTheorems
  import opened ClientBuckets

  /** A `resubscribe` between its two halves: the bucket, and the request it will send there. */
  datatype Window = Window(at: nat, frame: Frame)

  datatype Client = Client(buckets: Buckets, windows: seq<Window>)

  datatype Act =
    | Plain(call: Call)
    | Off(id: Value, ok: bool)      // the first half: the confirmed subscription is dropped
    | On(which: nat, ok: bool)      // the second half

  const START := Client([], [])

  // ---- The machine ----

  function EntryOf(entries: seq<Entry>, id: Value): seq<Entry> {
    if entries == [] then []
    else if entries[0].SubId() == id then [entries[0]]
    else EntryOf(entries[1..], id)
  }

  /** The index of the bucket the call takes out of the table, if it does. */
  function Removes(buckets: Buckets, call: Call): Option<nat> {
    match call
    case Discard(at) => Some(at)
    case UnsubscribeCall(id, _) =>
      var at := FirstWith(buckets, id);
      if at < |buckets| && Count(buckets[at].b) == 1 then Some(at) else None
    case _ => None
  }

  /** The windows of the buckets that are left, at their new places. */
  function Shifted(windows: seq<Window>, gone: nat): seq<Window> {
    if windows == [] then []
    else
      var w, rest := windows[0], Shifted(windows[1..], gone);
      if w.at == gone then rest
      else if w.at > gone then [w.(at := w.at - 1)] + rest
      else [w] + rest
  }

  predicate CanAct(c: Client, act: Act) {
    match act
    case Plain(call) => CallEnabled(c.buckets, call)
    case Off(id, _) =>
      var at := FirstWith(c.buckets, id);
      at < |c.buckets| && c.buckets[at].alive && EntryOf(c.buckets[at].b.subscriptions, id) != []
    case On(which, _) =>
      which < |c.windows| && c.windows[which].at < |c.buckets| && c.buckets[c.windows[which].at].alive
  }

  ghost function Does(c: Client, act: Act): Client
    requires CanAct(c, act)
  {
    match act
    case Plain(call) =>
      var gone := Removes(c.buckets, call);
      Client(CallStep(c.buckets, call), if gone.Some? then Shifted(c.windows, gone.value) else c.windows)
    case Off(id, ok) =>
      var at := FirstWith(c.buckets, id);
      var e := EntryOf(c.buckets[at].b.subscriptions, id)[0];
      Client(c.buckets[at := UnsubscribeStep(c.buckets[at], id, ok)],
             if ok then c.windows + [Window(at, Reissue(e.subscription))] else c.windows)
    case On(which, ok) =>
      var w := c.windows[which];
      Client(c.buckets[w.at := SubscribeStep(c.buckets[w.at], w.frame, ok)],
             c.windows[..which] + c.windows[which + 1..])
  }

  ghost predicate CanDo(c: Client, acts: seq<Act>)
    decreases |acts|
  {
    acts != [] ==> CanAct(c, acts[0]) && CanDo(Does(c, acts[0]), acts[1..])
  }

  ghost function DoesAll(c: Client, acts: seq<Act>): Client
    requires CanDo(c, acts)
    decreases |acts|
  {
    if acts == [] then c else DoesAll(Does(c, acts[0]), acts[1..])
  }

  // ---- What the two halves keep ----

  predicate CleanWindows(windows: seq<Window>) {
    forall i :: 0 <= i < |windows| ==> Clean(windows[i].frame)
  }

  ghost predicate Settled(c: Client) {
    Orderly(c.buckets) && CleanWindows(c.windows)
  }

  lemma SettledFrom(c: Client, buckets: Buckets, windows: seq<Window>)
    requires Orderly(buckets) && CleanWindows(windows) && c == Client(buckets, windows)
    ensures Settled(c)
  {
  }

  lemma OneWindowLess(windows: seq<Window>, which: nat)
    requires CleanWindows(windows) && which < |windows|
    ensures CleanWindows(windows[..which] + windows[which + 1..])
  {
  }

  lemma OneWindowMore(windows: seq<Window>, w: Window)
    requires CleanWindows(windows) && Clean(w.frame)
    ensures CleanWindows(windows + [w])
  {
  }

  /** The second half finds its slot and its sub_id free, and no cancellation for it. */
  predicate Fits(c: Client, act: Act) {
    act.On? && CanAct(c, act) ==>
      var w := c.windows[act.which];
      !IsFull(c.buckets[w.at].b) && !Taken(c.buckets, Id(w.frame)) && Id(w.frame) !in c.buckets[w.at].b.cancellations
  }

  predicate Careful(c: Client, act: Act) {
    Fits(c, act) && (act.Plain? ==> DisciplinedCall(c.buckets, act.call))
  }

  lemma {:induction false} EntryOfFits(entries: seq<Entry>, id: Value)
    ensures EntryOf(entries, id) != [] ==> EntryOf(entries, id)[0] in entries && EntryOf(entries, id)[0].SubId() == id
    ensures EntryOf(entries, id) == [] ==> forall e :: e in entries ==> e.SubId() != id
  {
    if entries != [] {
      EntryOfFits(entries[1..], id);
    }
  }

  /** A window is at the bucket it was at: it moves with it when one before it goes, and goes with it. */
  predicate Follows(w: Window, before: Buckets, u: Window, after: Buckets) {
    && w.frame == u.frame && w.at < |before| && u.at < |after| && after[u.at] == before[w.at]
  }

  function AtItsNewPlace(w: Window, gone: nat): Window {
    if w.at > gone then w.(at := w.at - 1) else w
  }

  lemma SameBucket(w: Window, buckets: Buckets, gone: nat)
    requires gone < |buckets| && w.at < |buckets| && w.at != gone
    ensures Follows(w, buckets, AtItsNewPlace(w, gone), buckets[..gone] + buckets[gone + 1..])
  {
  }

  lemma {:induction false} WindowIsKept(windows: seq<Window>, i: nat, gone: nat) returns (j: nat)
    requires i < |windows| && windows[i].at != gone
    ensures j < |Shifted(windows, gone)| && Shifted(windows, gone)[j] == AtItsNewPlace(windows[i], gone)
  {
    if i == 0 {
      j := 0;
    } else {
      j := WindowIsKept(windows[1..], i - 1, gone);
      j := if windows[0].at == gone then j else j + 1;
    }
  }

  lemma {:induction false} WindowWasThere(windows: seq<Window>, j: nat, gone: nat) returns (i: nat)
    requires j < |Shifted(windows, gone)|
    ensures i < |windows| && windows[i].at != gone && Shifted(windows, gone)[j] == AtItsNewPlace(windows[i], gone)
  {
    if windows[0].at == gone {
      i := WindowWasThere(windows[1..], j, gone);
      i := i + 1;
    } else if j == 0 {
      i := 0;
    } else {
      i := WindowWasThere(windows[1..], j - 1, gone);
      i := i + 1;
    }
  }

  /** When a bucket leaves the table every other's windows are kept, and no window is left but those. */
  lemma WindowsFollow(windows: seq<Window>, buckets: Buckets, gone: nat)
    requires gone < |buckets| && forall i :: 0 <= i < |windows| ==> windows[i].at < |buckets|
    ensures
      var after, left := buckets[..gone] + buckets[gone + 1..], Shifted(windows, gone);
      forall w :: w in windows && w.at != gone ==> exists u :: u in left && Follows(w, buckets, u, after)
    ensures
      var after, left := buckets[..gone] + buckets[gone + 1..], Shifted(windows, gone);
      forall u :: u in left ==> exists w :: w in windows && w.at != gone && Follows(w, buckets, u, after)
  {
    var after, left := buckets[..gone] + buckets[gone + 1..], Shifted(windows, gone);
    forall w | w in windows && w.at != gone ensures exists u :: u in left && Follows(w, buckets, u, after) {
      var i :| 0 <= i < |windows| && windows[i] == w;
      var j := WindowIsKept(windows, i, gone);
      SameBucket(w, buckets, gone);
      assert left[j] in left;
    }
    forall u | u in left ensures exists w :: w in windows && w.at != gone && Follows(w, buckets, u, after) {
      var j :| 0 <= j < |left| && left[j] == u;
      var i := WindowWasThere(windows, j, gone);
      SameBucket(windows[i], buckets, gone);
    }
  }

  /** So it is with every call that takes a bucket out of the table, and a call that takes none away
      leaves the windows as they were. */
  lemma WindowsFollowCalls(c: Client, call: Call)
    requires CallEnabled(c.buckets, call) && forall i :: 0 <= i < |c.windows| ==> c.windows[i].at < |c.buckets|
    ensures
      var t := Does(c, Plain(call));
      if |t.buckets| < |c.buckets| then
        && (forall u :: u in t.windows ==> exists w :: w in c.windows && Follows(w, c.buckets, u, t.buckets))
        && |t.buckets| == |c.buckets| - 1
      else t.windows == c.windows
  {
    RemovesOne(c.buckets, call);
    var gone := Removes(c.buckets, call);
    if gone.Some? {
      WindowsFollow(c.windows, c.buckets, gone.value);
      var t := Does(c, Plain(call));
      var after := c.buckets[..gone.value] + c.buckets[gone.value + 1..];
      assert t == Client(after, Shifted(c.windows, gone.value));
      forall u | u in t.windows ensures exists w :: w in c.windows && Follows(w, c.buckets, u, t.buckets) {
        var w :| w in c.windows && w.at != gone.value && Follows(w, c.buckets, u, after);
      }
    }
  }

  lemma RemovesOne(buckets: Buckets, call: Call)
    requires CallEnabled(buckets, call)
    ensures
      var gone := Removes(buckets, call);
      if gone.Some? then
        gone.value < |buckets| && CallStep(buckets, call) == buckets[..gone.value] + buckets[gone.value + 1..]
      else |CallStep(buckets, call)| >= |buckets|
  {
    match call
    case Discard(_) =>
    case UnsubscribeCall(id, ok) =>
      var at := FirstWith(buckets, id);
      assert CallStep(buckets, call) == UnsubscribedAt(buckets, at, id, ok);
    case _ =>
  }

  lemma {:induction false} ShiftedAreClean(windows: seq<Window>, gone: nat)
    requires CleanWindows(windows)
    ensures CleanWindows(Shifted(windows, gone))
  {
    if windows != [] {
      assert forall i :: 0 <= i < |windows[1..]| ==> windows[1..][i] == windows[i + 1];
      ShiftedAreClean(windows[1..], gone);
    }
  }

  lemma RecordedIsClean(s: System, e: Entry)
    requires Tracked(s) && e in s.b.subscriptions
    ensures Clean(Reissue(e.subscription))
  {
    var i :| 0 <= i < |s.b.subscriptions| && s.b.subscriptions[i] == e;
    EntryIsHeld(s.b, i);
    WantedIsHeld(s);
    assert Reissue(e.subscription) in multiset(s.wanted) + s.dropped;
  }

  lemma WindowIsClean(c: Client, id: Value, ok: bool)
    requires Settled(c) && CanAct(c, Off(id, ok))
    ensures Clean(Reissue(EntryOf(c.buckets[FirstWith(c.buckets, id)].b.subscriptions, id)[0].subscription))
  {
    var s := c.buckets[FirstWith(c.buckets, id)];
    assert Sound(s);
    EntryOfFits(s.b.subscriptions, id);
    RecordedIsClean(s, EntryOf(s.b.subscriptions, id)[0]);
  }

  lemma OffStaysSettled(c: Client, id: Value, ok: bool)
    requires Settled(c) && CanAct(c, Off(id, ok))
    ensures Settled(Does(c, Off(id, ok)))
  {
    var at := FirstWith(c.buckets, id);
    var w := Window(at, Reissue(EntryOf(c.buckets[at].b.subscriptions, id)[0].subscription));
    UnsubscribedStaysOrderly(c.buckets, at, id, ok);
    WindowIsClean(c, id, ok);
    OneWindowMore(c.windows, w);
    SettledFrom(Does(c, Off(id, ok)), c.buckets[at := UnsubscribeStep(c.buckets[at], id, ok)],
                if ok then c.windows + [w] else c.windows);
  }

  lemma FreshIffUntaken(buckets: Buckets, id: Value)
    ensures FreshIn(id, Holdings(buckets)) <==> !Taken(buckets, id)
  {
    if Taken(buckets, id) {
      var i :| 0 <= i < |buckets| && Has(buckets[i].b, id);
      HasMeansHeld(buckets[i].b, id);
      var f :| f in Held(buckets[i].b) && Id(f) == id;
      HoldingsWithout(buckets, i);
      assert f in Holdings(buckets);
    } else {
      UntakenIsFresh(buckets, id);
    }
  }

  lemma OneMoreIsUnique(m: multiset<Frame>, f: Frame)
    requires Unique(m)
    ensures Unique(m + multiset{f}) <==> FreshIn(Id(f), m)
  {
    assert m + multiset{f} == multiset{f} + m;
    if Unique(multiset{f} + m) {
      UniqueHead(f, m);
    }
    if FreshIn(Id(f), m) {
      UniqueWithFresh(m, f);
    }
  }

  lemma SubscribeHolds(s: System, frame: Frame, ok: bool)
    ensures Held(SubscribeStep(s, frame, ok).b) == Held(s.b) + multiset{frame}
    ensures Count(SubscribeStep(s, frame, ok).b) == Count(s.b) + 1
  {
    var u := SubscribeStep(s, frame, ok);
    assert u.b.pendings == s.b.pendings + [frame] && u.b.subscriptions == s.b.subscriptions;
    assert multiset(s.b.pendings + [frame]) == multiset(s.b.pendings) + multiset{frame};
  }

  lemma SubscribeAdds(buckets: Buckets, at: nat, frame: Frame, ok: bool)
    requires at < |buckets|
    ensures Holdings(buckets[at := SubscribeStep(buckets[at], frame, ok)]) == Holdings(buckets) + multiset{frame}
  {
    HoldingsWith(buckets, at, SubscribeStep(buckets[at], frame, ok));
    HoldingsWithout(buckets, at);
    SubscribeHolds(buckets[at], frame, ok);
  }

  lemma OnAddsOne(c: Client, which: nat, ok: bool)
    requires CanAct(c, On(which, ok))
    ensures
      var w := c.windows[which];
      var t := Does(c, On(which, ok));
      && Holdings(t.buckets) == Holdings(c.buckets) + multiset{w.frame}
      && Count(t.buckets[w.at].b) == Count(c.buckets[w.at].b) + 1
  {
    var w := c.windows[which];
    SubscribeAdds(c.buckets, w.at, w.frame, ok);
    SubscribeHolds(c.buckets[w.at], w.frame, ok);
  }

  /** The second half keeps the capacity if and only if the window left a slot free, and the
      sub_ids distinct if and only if nobody took its own. */
  lemma WindowClosesIff(c: Client, which: nat, ok: bool)
    requires Settled(c) && CanAct(c, On(which, ok))
    ensures
      var w := c.windows[which];
      var t := Does(c, On(which, ok));
      && (Count(t.buckets[w.at].b) <= 25 <==> Count(c.buckets[w.at].b) < 25)
      && (Unique(Holdings(t.buckets)) <==> !Taken(c.buckets, Id(w.frame)))
  {
    var w := c.windows[which];
    assert Sound(c.buckets[w.at]);
    OnAddsOne(c, which, ok);
    OneMoreIsUnique(Holdings(c.buckets), w.frame);
    FreshIffUntaken(c.buckets, Id(w.frame));
  }

  lemma OnStaysOrderly(c: Client, which: nat, ok: bool)
    requires Settled(c) && CanAct(c, On(which, ok)) && Fits(c, On(which, ok))
    ensures Orderly(Does(c, On(which, ok)).buckets)
  {
    PlacedStaysOrderly(c.buckets, c.windows[which].at, c.windows[which].frame, ok);
  }

  lemma OnStaysClean(c: Client, which: nat, ok: bool)
    requires CleanWindows(c.windows) && CanAct(c, On(which, ok))
    ensures CleanWindows(Does(c, On(which, ok)).windows)
  {
    OneWindowLess(c.windows, which);
  }

  lemma OnStaysSettled(c: Client, which: nat, ok: bool)
    requires Settled(c) && CanAct(c, On(which, ok)) && Fits(c, On(which, ok))
    ensures Settled(Does(c, On(which, ok)))
  {
    OnStaysOrderly(c, which, ok);
    OnStaysClean(c, which, ok);
  }

  lemma ActStaysSettled(c: Client, act: Act)
    requires Settled(c) && CanAct(c, act) && Careful(c, act)
    ensures Settled(Does(c, act))
  {
    match act
    case Plain(call) =>
      CallStaysOrderly(c.buckets, call);
      if Removes(c.buckets, call).Some? {
        ShiftedAreClean(c.windows, Removes(c.buckets, call).value);
      }
    case Off(id, ok) => OffStaysSettled(c, id, ok);
    case On(which, ok) => OnStaysSettled(c, which, ok);
  }

  ghost predicate CarefulRun(c: Client, acts: seq<Act>)
    requires CanDo(c, acts)
    decreases |acts|
  {
    acts != [] ==> Careful(c, acts[0]) && CarefulRun(Does(c, acts[0]), acts[1..])
  }

  lemma {:induction false} RunStaysSettled(c: Client, acts: seq<Act>)
    requires Settled(c) && CanDo(c, acts) && CarefulRun(c, acts)
    ensures Settled(DoesAll(c, acts))
    decreases |acts|
  {
    if acts != [] {
      ActStaysSettled(c, acts[0]);
      RunStaysSettled(Does(c, acts[0]), acts[1..]);
    }
  }

  /** With `resubscribe` among the calls, capacity and identity hold in every run whose second
      halves all find their slot and their sub_id free. */
  lemma CapacityWithResubscribe(acts: seq<Act>)
    requires CanDo(START, acts) && CarefulRun(START, acts)
    ensures
      var buckets := DoesAll(START, acts).buckets;
      && (forall i :: 0 <= i < |buckets| ==> Count(buckets[i].b) <= 25)
      && Unique(Holdings(buckets))
  {
    RunStaysSettled(START, acts);
  }

  // ---- What the window may let in ----

  /** Calls that leave every bucket where it is in the table, and drop nothing. */
  predicate OnlyAdds(call: Call) {
    call.Inner? || call.SubscribePass? || call.NewBucket?
  }

  ghost function PlacedInto(buckets: Buckets, calls: seq<Call>, at: nat): nat
    requires CanCalls(buckets, calls)
    decreases |calls|
  {
    if calls == [] then 0
    else
      Adds(buckets, calls[0], at) + PlacedInto(CallStep(buckets, calls[0]), calls[1..], at)
  }

  lemma InnerAddsNothing(s: System, act: Label)
    requires Sound(s) && Enabled(s, act) && !act.Subscribe? && !act.Unsubscribe?
    ensures Count(Step(s, act).b) == Count(s.b)
  {
    InnerKeepsHeld(s, act);
    CountIsHeld(s.b);
    CountIsHeld(Step(s, act).b);
  }

  ghost function Adds(buckets: Buckets, call: Call, at: nat): nat {
    if call.SubscribePass? && PassOf(buckets, Id(call.frame)) == Placed(at) then 1 else 0
  }

  lemma PassAddsOne(buckets: Buckets, frame: Frame, ok: bool, at: nat)
    requires at < |buckets|
    ensures
      var after := CallStep(buckets, SubscribePass(frame, ok));
      at < |after| && Count(after[at].b) == Count(buckets[at].b) + Adds(buckets, SubscribePass(frame, ok), at)
  {
    FirstWithRoomFits(buckets);
    SubscribeHolds(buckets[at], frame, ok);
  }

  lemma InnerCallAdds(buckets: Buckets, i: nat, act: Label, at: nat)
    requires AllSound(buckets) && at < |buckets| && CallEnabled(buckets, Inner(i, act))
    ensures
      var after := CallStep(buckets, Inner(i, act));
      at < |after| && Count(after[at].b) == Count(buckets[at].b)
  {
    if i == at {
      InnerAddsNothing(buckets[i], act);
    }
  }

  lemma AddsOne(buckets: Buckets, call: Call, at: nat)
    requires Orderly(buckets) && at < |buckets| && CallEnabled(buckets, call) && OnlyAdds(call)
    ensures at < |CallStep(buckets, call)|
    ensures Count(CallStep(buckets, call)[at].b) == Count(buckets[at].b) + Adds(buckets, call, at)
  {
    match call
    case Inner(i, act) => InnerCallAdds(buckets, i, act, at);
    case SubscribePass(frame, ok) => PassAddsOne(buckets, frame, ok, at);
    case _ =>
  }

  predicate AllAdd(calls: seq<Call>) {
    calls != [] ==> OnlyAdds(calls[0]) && AllAdd(calls[1..])
  }

  lemma AddsOneOrderly(buckets: Buckets, call: Call, at: nat)
    requires Orderly(buckets) && at < |buckets| && CallEnabled(buckets, call) && OnlyAdds(call)
    requires DisciplinedCall(buckets, call)
    ensures Orderly(CallStep(buckets, call)) && at < |CallStep(buckets, call)|
    ensures Count(CallStep(buckets, call)[at].b) == Count(buckets[at].b) + Adds(buckets, call, at)
  {
    AddsOne(buckets, call, at);
    CallStaysOrderly(buckets, call);
  }

  lemma {:induction false} AddsPasses(buckets: Buckets, calls: seq<Call>, at: nat)
    requires Orderly(buckets) && at < |buckets| && CanCalls(buckets, calls) && DisciplinedCalls(buckets, calls)
    requires AllAdd(calls)
    ensures at < |CallsRun(buckets, calls)|
    ensures Count(CallsRun(buckets, calls)[at].b) == Count(buckets[at].b) + PlacedInto(buckets, calls, at)
    decreases |calls|
  {
    if calls != [] {
      AddsOneOrderly(buckets, calls[0], at);
      AddsPasses(CallStep(buckets, calls[0]), calls[1..], at);
    }
  }

  /** From the first half to the second: with nothing dropped meanwhile, the bucket ends within
      its capacity if and only if the subscriptions accepted in the window and those it held at
      its beginning fit together. A full bucket must let nobody in. */
  lemma ResubscribeFitsIff(c: Client, id: Value, during: seq<Call>, ok: bool)
    requires Settled(c) && CanAct(c, Off(id, true)) && c.windows == []
    requires CanCalls(Does(c, Off(id, true)).buckets, during)
    requires DisciplinedCalls(Does(c, Off(id, true)).buckets, during)
    requires AllAdd(during)
    requires
      var t := Client(CallsRun(Does(c, Off(id, true)).buckets, during), Does(c, Off(id, true)).windows);
      CanAct(t, On(0, ok))
    ensures
      var at := FirstWith(c.buckets, id);
      var off := Does(c, Off(id, true));
      var t := Client(CallsRun(off.buckets, during), off.windows);
      Count(Does(t, On(0, ok)).buckets[at].b) <= 25
      <==> Count(c.buckets[at].b) + PlacedInto(off.buckets, during, at) <= 25
  {
    var at := FirstWith(c.buckets, id);
    var off := Does(c, Off(id, true));
    OffStaysSettled(c, id, true);
    OffFreesOne(c, id);
    AddsPasses(off.buckets, during, at);
    OnAddsOne(Client(CallsRun(off.buckets, during), off.windows), 0, ok);
  }

  lemma OffFreesOne(c: Client, id: Value)
    requires Settled(c) && CanAct(c, Off(id, true))
    ensures
      var at := FirstWith(c.buckets, id);
      Count(Does(c, Off(id, true)).buckets[at].b) == Count(c.buckets[at].b) - 1
  {
    var at := FirstWith(c.buckets, id);
    var s := c.buckets[at];
    EntryOfFits(s.b.subscriptions, id);
    HeldAreUnique(c.buckets, at);
    OneSlotFreed(s.b, EntryOf(s.b.subscriptions, id)[0]);
  }

  lemma HeldAreUnique(buckets: Buckets, at: nat)
    requires Unique(Holdings(buckets)) && at < |buckets|
    ensures Unique(Held(buckets[at].b))
  {
    HoldingsWithout(buckets, at);
    UniqueSubBag(Holdings(buckets), Held(buckets[at].b));
  }

  /** With distinct sub_ids, a confirmed one is not pending, and unsubscribing frees one slot. */
  lemma OneSlotFreed(b: Bucket, e: Entry)
    requires Unique(Held(b)) && e in b.subscriptions
    ensures !IsPending(b.pendings, e.SubId())
    ensures |DropEntries(b.subscriptions, e.SubId(), true).0| == |b.subscriptions| - 1
  {
    var f, id := Reissue(e.subscription), e.SubId();
    var p, r := multiset(b.pendings), multiset(Requests(b.subscriptions));
    var i :| 0 <= i < |b.subscriptions| && b.subscriptions[i] == e;
    assert f in RequestOf(b.subscriptions[i]);
    FlatMapMember(b.subscriptions, RequestOf, f);
    assert Held(b) == multiset{f} + (p + (r - multiset{f}));
    UniqueHead(f, p + (r - multiset{f}));
    PendingMeansInBag(b.pendings, id);
    UniqueSubBag(Held(b), r);
    DroppedAre(b.subscriptions, id, true);
    var rest := DropEntries(b.subscriptions, id, true).0;
    OnlyOneWith(r, id, f, multiset(Requests(rest)));
    RequestsLength(rest);
    RequestsLength(b.subscriptions);
  }

  lemma OnlyOneWith(r: multiset<Frame>, id: Value, f: Frame, left: multiset<Frame>)
    requires Unique(r) && f in r && Id(f) == id && Without(r, id, left)
    ensures left == r - multiset{f} && |left| == |r| - 1
  {
    forall g: Frame ensures left[g] == (r - multiset{f})[g] {
      assert g in r && Id(g) == id ==> g == f;
    }
  }

  // ---- Past the capacity ----

  /** The test is for equality: a live bucket past the capacity has room for anybody, and takes
      every subscription an earlier bucket does not. */
  lemma PastCapacityRefusesNobody(buckets: Buckets, at: nat, id: Value)
    requires at < |buckets| && buckets[at].alive && Count(buckets[at].b) > 25
    requires !Taken(buckets, id)
    ensures PassOf(buckets, id).Placed? && PassOf(buckets, id).at <= at
  {
    RoomIsFound(buckets, at);
  }

  lemma {:induction false} RoomIsFound(buckets: Buckets, at: nat)
    requires at < |buckets| && HasRoom(buckets[at])
    ensures FirstWithRoom(buckets) <= at
  {
    if at > 0 && !HasRoom(buckets[0]) {
      RoomIsFound(buckets[1..], at - 1);
    }
  }
}

/** Runs in which `resubscribe` breaks the capacity and the identity of the buckets. */
module ResubscribeLimits {
  import opened Frames
  import opened BucketState
  import opened BucketSystem
  import opened BucketTheorems
  import opened ClientBuckets
  import opened Resubscribe

  ghost predicate Reached(c: Client) {
    exists acts :: CanDo(START, acts) && DoesAll(START, acts) == c
  }

  lemma {:induction false} OneMoreAct(c: Client, acts: seq<Act>, act: Act)
    requires CanDo(c, acts) && CanAct(DoesAll(c, acts), act)
    ensures CanDo(c, acts + [act]) && DoesAll(c, acts + [act]) == Does(DoesAll(c, acts), act)
    decreases |acts|
  {
    if acts == [] {
      assert acts + [act] == [act];
      assert DoesAll(Does(c, act), [act][1..]) == Does(c, act);
    } else {
      assert (acts + [act])[1..] == acts[1..] + [act];
      OneMoreAct(Does(c, acts[0]), acts[1..], act);
    }
  }

  lemma Reach(c: Client, act: Act)
    requires Reached(c) && CanAct(c, act)
    ensures Reached(Does(c, act))
  {
    var acts :| CanDo(START, acts) && DoesAll(START, acts) == c;
    OneMoreAct(START, acts, act);
  }

  /** Reached by a run so far without fault. */
  ghost predicate Fine(c: Client) {
    Reached(c) && Settled(c)
  }

  lemma Carry(c: Client, act: Act, t: Client)
    requires Fine(c) && CanAct(c, act) && Careful(c, act) && t == Does(c, act)
    ensures Fine(t)
  {
    Reach(c, act);
    ActStaysSettled(c, act);
  }

  /** A client with one bucket and no `resubscribe` under way. */
  function Just(s: System): Client {
    Client([s], [])
  }

  lemma JustInner(s: System, act: Label)
    requires Enabled(s, act) && !act.Subscribe? && !act.Unsubscribe?
    ensures
      && CanAct(Just(s), Plain(Inner(0, act))) && Careful(Just(s), Plain(Inner(0, act)))
      && Does(Just(s), Plain(Inner(0, act))) == Just(Step(s, act))
  {
  }

  lemma FineIsSound(s: System)
    requires Fine(Just(s))
    ensures Sound(s)
  {
    assert Just(s).buckets[0] == s;
  }

  lemma Runs(s: System, act: Label)
    requires Fine(Just(s)) && Enabled(s, act) && !act.Subscribe? && !act.Unsubscribe?
    ensures Fine(Just(Step(s, act))) && Held(Step(s, act).b) == Held(s.b)
  {
    JustInner(s, act);
    Carry(Just(s), Plain(Inner(0, act)), Just(Step(s, act)));
    FineIsSound(s);
    InnerKeepsHeld(s, act);
  }

  function Ticker(i: nat): Frame {
    SubscribeFrame(Text("ticker"), Number(i), map[])
  }

  function Tickers(n: nat): seq<Frame> {
    if n == 0 then [] else Tickers(n - 1) + [Ticker(n - 1)]
  }

  lemma {:induction false} TickerIds(n: nat)
    ensures |Tickers(n)| == n
    ensures forall i :: 0 <= i < n ==> Tickers(n)[i] == Ticker(i)
  {
    if n > 0 {
      TickerIds(n - 1);
    }
  }

  lemma TickerIsClean(i: nat)
    ensures Clean(Ticker(i)) && Id(Ticker(i)) == Number(i)
  {
    CleanRequest(Text("ticker"), Number(i), map[]);
  }

  /** A bucket whose socket is up, with `n` requests sent and nothing served yet. */
  predicate Filled(s: System, n: nat) {
    && s.alive && s.phase.Reading? && s.toClient == [] && s.issued == {}
    && |s.toServer| == n + 1 && s.toServer[0] == Configuration
    && (n > 0 ==> s.toServer[1] == SubscribeRequest(Ticker(0)))
    && s.b.pendings == Tickers(n) && s.b.subscriptions == [] && s.b.cancellations == {}
  }

  lemma StartIsFine()
    ensures Fine(START) && Fine(Just(INITIAL))
  {
    assert CanDo(START, []) && DoesAll(START, []) == START;
    assert Does(START, Plain(NewBucket)) == Just(INITIAL);
    Carry(START, Plain(NewBucket), Just(INITIAL));
  }

  lemma FirstBucket() returns (s: System)
    ensures Fine(Just(s)) && Filled(s, 0)
  {
    StartIsFine();
    Runs(INITIAL, Open);
    s := Step(INITIAL, Open);
    Runs(s, Configure(true));
    s := Step(s, Configure(true));
  }

  /** Where there is one bucket, a pass is decided by it. */
  lemma OneBucketPass(s: System, frame: Frame)
    requires HasRoom(s) && !Has(s.b, Id(frame))
    ensures PassOf([s], Id(frame)) == Placed(0)
    ensures CallStep([s], SubscribePass(frame, true)) == [SubscribeStep(s, frame, true)]
  {
  }

  lemma {:induction false} FilledTo(n: nat) returns (s: System)
    requires n <= MAXIMUM_SUBSCRIPTIONS
    ensures Fine(Just(s)) && Filled(s, n)
  {
    if n == 0 {
      s := FirstBucket();
    } else {
      var before := FilledTo(n - 1);
      OneMoreTicker(before, n - 1);
      s := SubscribeStep(before, Ticker(n - 1), true);
    }
  }

  lemma FilledIsOpen(s: System, n: nat)
    requires Filled(s, n) && n < MAXIMUM_SUBSCRIPTIONS
    ensures HasRoom(s) && !Has(s.b, Number(n)) && Filled(SubscribeStep(s, Ticker(n), true), n + 1)
  {
    TickerIds(n);
    forall i | 0 <= i < n ensures Id(Tickers(n)[i]) != Number(n) {
      TickerIsClean(i);
    }
  }

  lemma OneMoreTicker(s: System, n: nat)
    requires Fine(Just(s)) && Filled(s, n) && n < MAXIMUM_SUBSCRIPTIONS
    ensures Fine(Just(SubscribeStep(s, Ticker(n), true))) && Filled(SubscribeStep(s, Ticker(n), true), n + 1)
  {
    FilledIsOpen(s, n);
    TickerIsClean(n);
    OneBucketPass(s, Ticker(n));
    var t := SubscribeStep(s, Ticker(n), true);
    assert Does(Just(s), Plain(SubscribePass(Ticker(n), true))) == Just(t);
    Carry(Just(s), Plain(SubscribePass(Ticker(n), true)), Just(t));
  }

  /** The server has answered the first request, and the bucket has read it. */
  predicate FirstConfirmed(s: System) {
    s.alive && |s.b.subscriptions| == 1 && s.b.subscriptions[0].SubId() == Number(0)
  }

  lemma ServedTwice(s: System, n: nat)
    requires Filled(s, n) && n > 0
    ensures Enabled(s, Serve(0, map[])) && Enabled(ServeStep(s, 0, map[]), Serve(1, map[]))
    ensures
      var t := ServeStep(ServeStep(s, 0, map[]), 1, map[]);
      && t.alive && t.phase.Reading? && t.toClient == [Notice, SubscribedReply(1, Ticker(0), map[])]
      && t.b == s.b
  {
    var u := ServeStep(s, 0, map[]);
    assert u.toServer[0] == s.toServer[1] && u.toClient == [Notice];
  }

  lemma ReadTwice(s: System)
    requires s.alive && s.phase.Reading? && s.toClient == [Notice, SubscribedReply(1, Ticker(0), map[])]
    requires s.b.subscriptions == [] && s.b.cancellations == {}
    ensures Enabled(s, Receive(true)) && Enabled(Step(s, Receive(true)), Receive(true))
    ensures FirstConfirmed(Step(Step(s, Receive(true)), Receive(true)))
  {
    var t := Step(s, Receive(true));
    assert t.toClient == [SubscribedReply(1, Ticker(0), map[])] && t.b == s.b;
    TickerIsClean(0);
    assert Put([], Entry(1, Recording(Ticker(0), 1, map[]))) == [Entry(1, Recording(Ticker(0), 1, map[]))];
  }

  /** The bucket is full, and its first request is confirmed. */
  lemma FullAndConfirmed() returns (s: System)
    ensures Fine(Just(s)) && FirstConfirmed(s)
    ensures IsFull(s.b) && Held(s.b) == multiset(Tickers(MAXIMUM_SUBSCRIPTIONS))
  {
    var filled := FilledTo(MAXIMUM_SUBSCRIPTIONS);
    assert Requests(filled.b.subscriptions) == [];
    ServedTwice(filled, MAXIMUM_SUBSCRIPTIONS);
    Runs(filled, Serve(0, map[]));
    s := Step(filled, Serve(0, map[]));
    Runs(s, Serve(1, map[]));
    s := Step(s, Serve(1, map[]));
    ReadTwice(s);
    Runs(s, Receive(true));
    s := Step(s, Receive(true));
    Runs(s, Receive(true));
    s := Step(s, Receive(true));
    FullCount(s.b);
  }

  lemma FullCount(b: Bucket)
    requires Held(b) == multiset(Tickers(MAXIMUM_SUBSCRIPTIONS))
    ensures IsFull(b)
  {
    TickerIds(MAXIMUM_SUBSCRIPTIONS);
    CountIsHeld(b);
    assert |multiset(Tickers(MAXIMUM_SUBSCRIPTIONS))| == |Tickers(MAXIMUM_SUBSCRIPTIONS)|;
  }

  /** The first half of a `resubscribe` of that request; what the second half will send. */
  lemma WindowOpens() returns (s: System, frame: Frame)
    ensures Reached(Client([s], [Window(0, frame)])) && Id(frame) == Number(0)
    ensures s.alive && Count(s.b) == MAXIMUM_SUBSCRIPTIONS - 1
    ensures Held(s.b) <= multiset(Tickers(MAXIMUM_SUBSCRIPTIONS)) && !Has(s.b, Number(0))
  {
    var full := FullAndConfirmed();
    frame := Reissue(full.b.subscriptions[0].subscription);
    s := UnsubscribeStep(full, Number(0), true);
    FirstIsFound(full);
    OffDoes(full);
    Reach(Just(full), Off(Number(0), true));
    OffCount(full);
    FineIsSound(full);
    OffShrinks(full);
  }

  lemma OffDoes(s: System)
    requires FirstConfirmed(s)
    requires CanAct(Just(s), Off(Number(0), true)) && FirstWith([s], Number(0)) == 0
    requires EntryOf(s.b.subscriptions, Number(0)) == s.b.subscriptions
    ensures Does(Just(s), Off(Number(0), true)) ==
      Client([UnsubscribeStep(s, Number(0), true)], [Window(0, Reissue(s.b.subscriptions[0].subscription))])
  {
  }

  lemma OffCount(s: System)
    requires Fine(Just(s)) && FirstConfirmed(s) && CanAct(Just(s), Off(Number(0), true))
    requires FirstWith([s], Number(0)) == 0
    ensures Count(UnsubscribeStep(s, Number(0), true).b) == Count(s.b) - 1
  {
    OffFreesOne(Just(s), Number(0));
  }

  lemma FirstIsFound(s: System)
    requires FirstConfirmed(s)
    ensures FirstWith([s], Number(0)) == 0 && CanAct(Just(s), Off(Number(0), true))
    ensures EntryOf(s.b.subscriptions, Number(0)) == s.b.subscriptions
  {
    assert Has(s.b, Number(0));
    assert s.b.subscriptions == [s.b.subscriptions[0]];
  }

  lemma OffShrinks(s: System)
    requires Sound(s) && s.alive
    ensures
      var t := UnsubscribeStep(s, Number(0), true);
      t.alive && Held(t.b) <= Held(s.b) && !Has(t.b, Number(0))
  {
    UnsubscribedIsSound(s, Number(0), true);
    OffWants(s);
    HasMeansHeld(UnsubscribeStep(s, Number(0), true).b, Number(0));
  }

  lemma OffWants(s: System)
    requires Sound(UnsubscribeStep(s, Number(0), true)) && s.alive
    ensures
      var t := UnsubscribeStep(s, Number(0), true);
      t.alive && forall f :: f in Held(t.b) ==> Id(f) != Number(0)
  {
    var t := UnsubscribeStep(s, Number(0), true);
    assert t.wanted == WithoutId(s.wanted, Number(0));
    WithoutIdHasNone(s.wanted, Number(0), Number(0));
    WantedIsHeld(t);
  }

  /** A subscribe is accepted in the window, and the second half follows. */
  lemma WindowCloses(s: System, resumed: Frame, frame: Frame) returns (t: System)
    requires Reached(Client([s], [Window(0, resumed)])) && HasRoom(s) && !Has(s.b, Id(frame))
    ensures Reached(Just(t)) && t.alive
    ensures Count(t.b) == Count(s.b) + 2
    ensures Held(t.b) == Held(s.b) + multiset{frame} + multiset{resumed}
  {
    var c := Client([s], [Window(0, resumed)]);
    var u := SubscribeStep(s, frame, true);
    OneBucketPass(s, frame);
    var d := Client([u], [Window(0, resumed)]);
    assert Does(c, Plain(SubscribePass(frame, true))) == d;
    Reach(c, Plain(SubscribePass(frame, true)));
    t := SubscribeStep(u, resumed, true);
    assert Does(d, On(0, true)) == Just(t);
    Reach(d, On(0, true));
    SubscribeHolds(s, frame, true);
    SubscribeHolds(u, resumed, true);
  }

  lemma NotAmongTickers(b: Bucket, n: nat)
    requires Held(b) <= multiset(Tickers(n))
    ensures !Has(b, Number(n))
  {
    HasMeansHeld(b, Number(n));
    TickerIds(n);
    forall f | f in Held(b) ensures Id(f) != Number(n) {
      assert f in multiset(Tickers(n));
      var i :| 0 <= i < n && Tickers(n)[i] == f;
      TickerIsClean(i);
    }
  }

  /** A full bucket; somebody subscribes in the window, and the second half overfills it. */
  lemma OverfilledBucket() returns (s: System)
    ensures Reached(Just(s)) && s.alive && Count(s.b) == 26
  {
    var open, resumed := WindowOpens();
    NotAmongTickers(open.b, MAXIMUM_SUBSCRIPTIONS);
    TickerIsClean(MAXIMUM_SUBSCRIPTIONS);
    s := WindowCloses(open, resumed, Ticker(MAXIMUM_SUBSCRIPTIONS));
  }

  /** Somebody takes the freed sub_id in the window, and the second half duplicates it. */
  lemma DuplicatedId() returns (s: System)
    ensures Reached(Just(s)) && s.alive && !Unique(Held(s.b))
  {
    var open, resumed := WindowOpens();
    TickerIsClean(0);
    s := WindowCloses(open, resumed, Ticker(0));
    NotUnique(Held(open.b), Ticker(0), resumed);
  }

  lemma NotUnique(m: multiset<Frame>, f: Frame, g: Frame)
    requires Id(f) == Id(g)
    ensures !Unique(m + multiset{f} + multiset{g})
  {
    var tail := m + multiset{f};
    assert tail + multiset{g} == multiset{g} + tail;
    assert f in tail;
    if Unique(multiset{g} + tail) {
      UniqueHead(g, tail);
    }
  }
}

/** No channel is leaked: whatever the callers do, the client can account for every
    channel the server streams. */
module BucketChannels {
  import opened Frames
  import opened BucketState
  import opened BucketSystem

  predicate NoRepeat(m: multiset<nat>) {
    forall c :: c in m ==> m[c] == 1
  }

  predicate Within(m: multiset<nat>, issued: set<nat>) {
    forall c :: c in m ==> c in issued
  }

  /** The books of a live socket: every open channel is known or being closed, once. */
  predicate Books(open: set<nat>, known: multiset<nat>, closing: multiset<nat>) {
    multiset(open) == known + closing
  }

  /** The channels the client can name: its dictionary keys and the confirmations on their way. */
  function Known(s: System): multiset<nat> {
    multiset(Chans(s.b.subscriptions)) + multiset(Confirming(s))
  }

  ghost predicate PhaseOk(s: System) {
    && (s.phase.Down? ==> !Up(s) && s.toClient == [])
    && (s.phase.Recovering? ==> s.alive)
    && (s.phase.Reading? ==> s.todo == [])
    && (!Up(s) ==> s.todo == [] && s.toServer == [])
    && (s.lingering ==> !s.alive && s.phase.Reading?)
  }

  ghost predicate DataOfThisSocket(s: System) {
    forall i :: 0 <= i < |s.toClient| && s.toClient[i].Data? ==> s.toClient[i].chanId in s.issued
  }

  /** Every channel id the client holds or is about to read was picked on this socket. */
  ghost predicate OfThisSocket(s: System) {
    && Within(Known(s), s.issued)
    && DataOfThisSocket(s)
    && (Up(s) ==> s.open <= s.issued)
  }

  ghost predicate Accounted(s: System) {
    && PhaseOk(s)
    && (s.phase.Down? || OfThisSocket(s))
    && NoRepeat(Known(s))
    && (Up(s) ==> Books(s.open, Known(s), multiset(Closing(s))))
  }

  lemma NoRepeatSubBag(m: multiset<nat>, n: multiset<nat>)
    requires NoRepeat(m) && n <= m
    ensures NoRepeat(n)
  {
    forall c | c in n ensures n[c] == 1 {
      assert c in m;
    }
  }

  lemma BagOfOneMore(keys: seq<nat>, confirming: seq<nat>, c: nat)
    ensures multiset(keys) + multiset(confirming + [c]) == multiset(keys) + multiset(confirming) + multiset{c}
    ensures multiset(keys + [c]) + multiset(confirming) == multiset(keys) + multiset([c] + confirming)
  {
    assert multiset(confirming + [c]) == multiset(confirming) + multiset{c};
    assert multiset(keys + [c]) == multiset(keys) + multiset{c};
    assert multiset([c] + confirming) == multiset{c} + multiset(confirming);
  }

  lemma BagOfFewer(keys: multiset<nat>, rest: multiset<nat>, gone: multiset<nat>, others: multiset<nat>)
    requires keys == rest + gone && NoRepeat(keys + others)
    ensures keys + others == rest + others + gone && NoRepeat(rest + others)
  {
    assert keys + others == rest + others + gone;
    NoRepeatSubBag(keys + others, rest + others);
  }

  lemma FreshKey(keys: seq<nat>, confirming: seq<nat>, c: nat)
    requires NoRepeat(multiset(keys) + multiset([c] + confirming))
    ensures c !in keys
  {
    var m := multiset(keys) + multiset([c] + confirming);
    assert multiset([c] + confirming) == multiset{c} + multiset(confirming);
    assert m[c] == 1;
  }

  lemma OpeningBooks(open: set<nat>, known: multiset<nat>, closing: multiset<nat>, c: nat)
    requires Books(open, known, closing) && NoRepeat(known) && c !in open
    ensures Books(open + {c}, known + multiset{c}, closing) && NoRepeat(known + multiset{c})
  {
    assert multiset(open + {c}) == multiset(open) + multiset{c};
    assert c !in multiset(open);
  }

  lemma ClosingBooks(open: set<nat>, known: multiset<nat>, closing: multiset<nat>, c: nat)
    requires Books(open, known, multiset{c} + closing)
    ensures Books(open - {c}, known, closing)
  {
    assert c in multiset(open);
    assert multiset(open - {c}) == multiset(open) - multiset{c};
  }

  lemma MovingBooks(open: set<nat>, known: multiset<nat>, moved: multiset<nat>, closing: multiset<nat>)
    requires Books(open, known + moved, closing)
    ensures Books(open, known, closing + moved)
  {
  }

  lemma {:induction false} UnsubscriptionsContents(chans: seq<nat>)
    ensures FlatMap(Unsubscriptions(chans), ClosingIn) == chans
    ensures FlatMap(Unsubscriptions(chans), RequestIn) == []
  {
    if chans != [] {
      UnsubscriptionsContents(chans[1..]);
    }
  }

  /** The queue to the client after one more frame. */
  lemma Arrives(s: System, m: ServerFrame)
    ensures FlatMap(s.toClient + [m], ConfirmingIn) == Confirming(s) + ConfirmingIn(m)
    ensures FlatMap(s.toClient + [m], AnswerIn) == FlatMap(s.toClient, AnswerIn) + AnswerIn(m)
  {
    FlatMapConcat(s.toClient, [m], ConfirmingIn);
    FlatMapConcat(s.toClient, [m], AnswerIn);
  }

  /** The queue to the server after some more frames. */
  lemma Departs(s: System, ms: seq<ClientFrame>)
    ensures FlatMap(s.toServer + ms, ClosingIn) == Closing(s) + FlatMap(ms, ClosingIn)
    ensures FlatMap(s.toServer + ms, RequestIn) == FlatMap(s.toServer, RequestIn) + FlatMap(ms, RequestIn)
  {
    FlatMapConcat(s.toServer, ms, ClosingIn);
    FlatMapConcat(s.toServer, ms, RequestIn);
  }

  lemma DeathKeepsAccounts(s: System)
    requires Accounted(s)
    ensures Accounted(Dead(s)) && Accounted(Ended(s))
  {
    NoRepeatSubBag(Known(s), Known(Dead(s)));
    NoRepeatSubBag(Known(s), Known(Ended(s)));
  }

  lemma DroppingKeepsAccounts(s: System, id: Value)
    requires Accounted(s) && s.alive && !IsPending(s.b.pendings, id)
    ensures Accounted(UnsubscribeStep(s, id, true))
  {
    var t := UnsubscribeStep(s, id, true);
    var (rest, chans) := DropEntries(s.b.subscriptions, id, true);
    DropEntriesChans(s.b.subscriptions, id);
    UnsubscriptionsContents(chans);
    Departs(s, Unsubscriptions(chans));
    assert t.toServer == s.toServer + Unsubscriptions(chans) && t.toClient == s.toClient;
    assert t.b.subscriptions == rest;
    BagOfFewer(multiset(Chans(s.b.subscriptions)), multiset(Chans(rest)), multiset(chans), multiset(Confirming(s)));
    assert Known(s) == Known(t) + multiset(chans);
    MovingBooks(s.open, Known(t), multiset(chans), multiset(Closing(s)));
    assert Closing(t) == Closing(s) + chans;
    assert multiset(Closing(t)) == multiset(Closing(s)) + multiset(chans);
  }

  lemma DroppingOnADeadSocket(s: System, id: Value)
    requires Accounted(s) && s.alive && !IsPending(s.b.pendings, id)
    ensures Accounted(UnsubscribeStep(s, id, false))
  {
    var t := UnsubscribeStep(s, id, false);
    var rest := DropEntries(s.b.subscriptions, id, false).0;
    DropEntriesShrinks(s.b.subscriptions, id, false);
    if rest == s.b.subscriptions {
      NothingDropped(s.b.subscriptions, id);
      assert t.toServer == s.toServer + [];
      assert t.toServer == s.toServer;
    } else {
      var u := s.(b := s.b.(subscriptions := rest), wanted := WithoutId(s.wanted, id));
      assert t == Dead(u);
      FewerKeysWhenDead(s, u);
    }
  }

  lemma FewerKeysWhenDead(s: System, u: System)
    requires Accounted(s) && u.phase == s.phase && u.toClient == s.toClient && u.issued == s.issued
    requires multiset(Chans(u.b.subscriptions)) <= multiset(Chans(s.b.subscriptions))
    ensures Accounted(Dead(u))
  {
    NoRepeatSubBag(Known(s), Known(Dead(u)));
  }

  lemma UnsubscribeKeepsAccounts(s: System, id: Value, ok: bool)
    requires Accounted(s) && s.alive
    ensures Accounted(UnsubscribeStep(s, id, ok))
  {
    if IsPending(s.b.pendings, id) {
      var t := UnsubscribeStep(s, id, ok);
      assert t.b.subscriptions == s.b.subscriptions && t.toServer == s.toServer && t.toClient == s.toClient;
    } else if ok {
      DroppingKeepsAccounts(s, id);
    } else {
      DroppingOnADeadSocket(s, id);
    }
  }

  lemma {:induction false} NothingDropped(entries: seq<Entry>, id: Value)
    requires DropEntries(entries, id, false).0 == entries
    ensures DropEntries(entries, id, false).1 == []
  {
    if entries != [] && entries[0].SubId() != id {
      assert ([entries[0]] + DropEntries(entries[1..], id, false).0)[1..] == DropEntries(entries[1..], id, false).0;
      NothingDropped(entries[1..], id);
    }
  }

  /** The first frame of the queue to the client, taken off. */
  lemma TakesOff(s: System)
    requires s.toClient != []
    ensures Confirming(s) == ConfirmingIn(s.toClient[0]) + FlatMap(s.toClient[1..], ConfirmingIn)
    ensures Known(s) == multiset(ConfirmingIn(s.toClient[0])) + Known(s.(toClient := s.toClient[1..]))
    ensures DataOfThisSocket(s) ==> DataOfThisSocket(s.(toClient := s.toClient[1..]))
  {
    assert multiset(Confirming(s))
        == multiset(ConfirmingIn(s.toClient[0])) + multiset(FlatMap(s.toClient[1..], ConfirmingIn));
  }

  lemma RefusalKeepsAccounts(s: System, ok: bool)
    requires Accounted(s) && s.phase.Reading? && s.toClient != [] && s.toClient[0].SubscribedReply?
    requires Id(s.toClient[0].frame) in s.b.cancellations
    ensures Accounted(ReceiveStep(s, ok))
  {
    var c := s.toClient[0].chanId;
    var t := ReceiveStep(s, ok);
    TakesOff(s);
    var u := s.(toClient := s.toClient[1..]);
    NoRepeatSubBag(Known(s), Known(u));
    if ok && s.alive {
      UnsubscriptionsContents([c]);
      Departs(s, Unsubscriptions([c]));
      assert t.toServer == s.toServer + Unsubscriptions([c]) && t.toClient == u.toClient;
      assert Known(t) == Known(u);
      MovingBooks(s.open, Known(t), multiset{c}, multiset(Closing(s)));
      assert multiset(Closing(t)) == multiset(Closing(s)) + multiset{c};
      assert DataOfThisSocket(t) by { assert DataOfThisSocket(u); }
    } else {
      assert t.toClient == [] && t.b.subscriptions == s.b.subscriptions;
      NoRepeatSubBag(Known(u), Known(t));
    }
  }

  lemma ConfirmationKeepsAccounts(s: System, ok: bool)
    requires Accounted(s) && s.phase.Reading? && s.toClient != [] && s.toClient[0].SubscribedReply?
    requires Id(s.toClient[0].frame) !in s.b.cancellations
    ensures Accounted(ReceiveStep(s, ok))
  {
    var m := s.toClient[0];
    var c := m.chanId;
    var t := ReceiveStep(s, ok);
    TakesOff(s);
    FreshKey(Chans(s.b.subscriptions), FlatMap(s.toClient[1..], ConfirmingIn), c);
    var e := Entry(c, Recording(m.frame, c, m.extra));
    PutAppends(s.b.subscriptions, e);
    FlatMapConcat(s.b.subscriptions, [e], ChanOf);
    assert Chans(t.b.subscriptions) == Chans(s.b.subscriptions) + [c];
    BagOfOneMore(Chans(s.b.subscriptions), Confirming(t), c);
    assert t.toClient == s.toClient[1..] && t.toServer == s.toServer;
    assert Known(t) == Known(s);
    assert DataOfThisSocket(t) by { assert DataOfThisSocket(s.(toClient := s.toClient[1..])); }
  }

  lemma ReadingKeepsAccounts(s: System, ok: bool)
    requires Accounted(s) && s.phase.Reading? && s.toClient != []
    ensures Accounted(ReceiveStep(s, ok))
  {
    if s.toClient[0].SubscribedReply? {
      if Id(s.toClient[0].frame) in s.b.cancellations {
        RefusalKeepsAccounts(s, ok);
      } else {
        ConfirmationKeepsAccounts(s, ok);
      }
    } else {
      PassingKeepsAccounts(s, ok);
    }
  }

  lemma SkippingKeepsAccounts(s: System)
    requires Accounted(s) && s.phase.Reading? && s.toClient != [] && !s.toClient[0].SubscribedReply?
    ensures Accounted(s.(toClient := s.toClient[1..]))
  {
    TakesOff(s);
    var t := s.(toClient := s.toClient[1..]);
    assert Known(t) == Known(s) && Closing(t) == Closing(s);
  }

  lemma LogKeepsAccounts(s: System, t: System)
    requires Accounted(s) && t.(log := s.log) == s
    ensures Accounted(t)
  {
    assert Known(t) == Known(s) && Closing(t) == Closing(s);
  }

  /** A frame that answers no request is logged, passed over, or ends the message loop. */
  lemma OtherReceived(s: System, ok: bool)
    requires s.toClient != [] && !s.toClient[0].SubscribedReply?
    ensures
      var t, u := s.(toClient := s.toClient[1..]), ReceiveStep(s, ok);
      u == Ended(t) || u == t.(log := u.log)
  {
  }

  lemma PassingKeepsAccounts(s: System, ok: bool)
    requires Accounted(s) && s.phase.Reading? && s.toClient != [] && !s.toClient[0].SubscribedReply?
    ensures Accounted(ReceiveStep(s, ok))
  {
    var t := s.(toClient := s.toClient[1..]);
    SkippingKeepsAccounts(s);
    OtherReceived(s, ok);
    DeathKeepsAccounts(t);
    LogKeepsAccounts(t, t.(log := ReceiveStep(s, ok).log));
  }

  /** One frame more on its way to the client. */
  lemma ArrivalKeepsOrigins(s: System, m: ServerFrame, t: System)
    requires DataOfThisSocket(s) && s.issued <= t.issued
    requires t.toClient == s.toClient + [m]
    requires m.Data? ==> m.chanId in t.issued
    ensures DataOfThisSocket(t)
  {
  }

  lemma ServingARequest(s: System, chanId: nat, extra: Object)
    requires Accounted(s) && Enabled(s, Serve(chanId, extra)) && s.toServer[0].SubscribeRequest?
    ensures Accounted(ServeStep(s, chanId, extra))
  {
    var m := SubscribedReply(chanId, s.toServer[0].frame, extra);
    var t := ServeStep(s, chanId, extra);
    Arrives(s, m);
    ArrivalKeepsOrigins(s, m, t);
    BagOfOneMore(Chans(s.b.subscriptions), Confirming(s), chanId);
    assert Known(t) == Known(s) + multiset{chanId};
    assert Closing(t) == Closing(s);
    OpeningBooks(s.open, Known(s), multiset(Closing(s)), chanId);
  }

  lemma ServingAnUnsubscribe(s: System, chanId: nat, extra: Object)
    requires Accounted(s) && Enabled(s, Serve(chanId, extra)) && s.toServer[0].UnsubscribeRequest?
    ensures Accounted(ServeStep(s, chanId, extra))
  {
    var t := ServeStep(s, chanId, extra);
    var c := s.toServer[0].chanId;
    Arrives(s, Notice);
    ArrivalKeepsOrigins(s, Notice, t);
    assert Known(t) == Known(s);
    assert Closing(s) == [c] + Closing(t);
    assert multiset(Closing(s)) == multiset{c} + multiset(Closing(t));
    ClosingBooks(s.open, Known(s), multiset(Closing(t)), c);
  }

  lemma ServingAConfiguration(s: System, chanId: nat, extra: Object)
    requires Accounted(s) && Enabled(s, Serve(chanId, extra)) && s.toServer[0].Configuration?
    ensures Accounted(ServeStep(s, chanId, extra))
  {
    var t := ServeStep(s, chanId, extra);
    Arrives(s, Notice);
    ArrivalKeepsOrigins(s, Notice, t);
    assert Known(t) == Known(s);
    assert Closing(s) == Closing(t);
  }

  lemma ServerKeepsAccounts(s: System, chanId: nat, extra: Object)
    requires Accounted(s) && Enabled(s, Serve(chanId, extra))
    ensures Accounted(ServeStep(s, chanId, extra))
  {
    match s.toServer[0]
    case SubscribeRequest(_) => ServingARequest(s, chanId, extra);
    case UnsubscribeRequest(_) => ServingAnUnsubscribe(s, chanId, extra);
    case Configuration => ServingAConfiguration(s, chanId, extra);
  }

  lemma SendingKeepsAccounts(s: System, m: ClientFrame, t: System)
    requires Accounted(s) && Up(s) && ClosingIn(m) == []
    requires t.toServer == s.toServer + [m] && t.toClient == s.toClient
    requires t.b.subscriptions == s.b.subscriptions && t.open == s.open && t.issued == s.issued
    requires PhaseOk(t) && Up(t) && !s.phase.Down?
    ensures Accounted(t)
  {
    Departs(s, [m]);
    assert Closing(t) == Closing(s);
    assert Known(t) == Known(s);
  }

  lemma PushKeepsAccounts(s: System, message: ServerFrame)
    requires Accounted(s) && Enabled(s, Push(message))
    ensures Accounted(s.(toClient := s.toClient + [message]))
  {
    Arrives(s, message);
    var t := s.(toClient := s.toClient + [message]);
    assert Known(t) == Known(s) && Closing(t) == Closing(s);
  }

  lemma OpenIsAccounted(s: System)
    ensures Accounted(OpenStep(s))
  {
    var t := OpenStep(s);
    assert Known(t) == multiset{} && Closing(t) == [];
  }

  lemma FlagKeepsAccounts(s: System, closing: bool)
    requires Accounted(s)
    ensures Accounted(s.(b := s.b.(closing := closing)))
  {
    var t := s.(b := s.b.(closing := closing));
    assert Known(t) == Known(s) && Closing(t) == Closing(s);
  }

  lemma CloseKeepsAccounts(s: System)
    requires Accounted(s)
    ensures Accounted(CloseStep(s))
  {
    var t := s.(b := s.b.(closing := true));
    FlagKeepsAccounts(s, true);
    DeathKeepsAccounts(t);
    if s.alive && s.phase.Reading? {
      LingeringKeepsAccounts(t);
    }
  }

  lemma LingeringKeepsAccounts(s: System)
    requires Accounted(s) && s.alive && s.phase.Reading?
    ensures Accounted(s.(alive := false, lingering := true))
  {
    var t := s.(alive := false, lingering := true);
    assert Known(t) == Known(s) && Closing(t) == Closing(s);
  }

  lemma SubscribeKeepsAccounts(s: System, frame: Frame, ok: bool)
    requires Accounted(s) && s.alive
    ensures Accounted(SubscribeStep(s, frame, ok))
  {
    var t := s.(b := BucketState.Subscribed(s.b, frame), wanted := s.wanted + [frame]);
    assert Known(t) == Known(s) && Closing(t) == Closing(s);
    if ok {
      SendingKeepsAccounts(s, SubscribeRequest(frame), SubscribeStep(s, frame, ok));
    } else {
      DeathKeepsAccounts(t);
    }
  }

  lemma StepKeepsAccounts(s: System, act: Label)
    requires Accounted(s) && Enabled(s, act)
    ensures Accounted(Step(s, act))
  {
    match act
    case Open => OpenIsAccounted(s);
    case SendNext(ok) =>
      if ok {
        SendingKeepsAccounts(s, SubscribeRequest(s.todo[0]), Step(s, act));
      } else {
        DeathKeepsAccounts(s);
      }
    case Configure(ok) =>
      if ok {
        SendingKeepsAccounts(s, Configuration, Step(s, act));
      } else {
        DeathKeepsAccounts(s);
      }
    case Subscribe(frame, ok) => SubscribeKeepsAccounts(s, frame, ok);
    case Unsubscribe(id, ok) => UnsubscribeKeepsAccounts(s, id, ok);
    case Receive(ok) => ReadingKeepsAccounts(s, ok);
    case ReadEnd => DeathKeepsAccounts(s);
    case Serve(chanId, extra) => ServerKeepsAccounts(s, chanId, extra);
    case Push(message) => PushKeepsAccounts(s, message);
    case Die => DeathKeepsAccounts(s);
    case Close => CloseKeepsAccounts(s);
    case Reopen => FlagKeepsAccounts(s, false);
  }

  lemma {:induction false} RunKeepsAccounts(s: System, labels: seq<Label>)
    requires Accounted(s) && Run(s, labels).Some?
    ensures Accounted(Run(s, labels).value)
    decreases |labels|
  {
    if labels != [] {
      StepKeepsAccounts(s, labels[0]);
      RunKeepsAccounts(Step(s, labels[0]), labels[1..]);
    }
  }

  /** In every reachable state with a live socket, the server's open channels are the
      disjoint union of the dictionary keys, the channels whose confirmation is in
      flight and the channels whose unsubscribe is in flight. */
  lemma NoLeakedChannel(labels: seq<Label>)
    requires Run(INITIAL, labels).Some?
    ensures
      var s := Run(INITIAL, labels).value;
      var keys := set c | c in Chans(s.b.subscriptions);
      var confirming := set c | c in Confirming(s);
      var closing := set c | c in Closing(s);
      Up(s) ==>
        && s.open == keys + confirming + closing
        && keys !! confirming !! closing
        && |s.open| == |s.b.subscriptions| + |Confirming(s)| + |Closing(s)|
  {
    RunKeepsAccounts(INITIAL, labels);
    var s := Run(INITIAL, labels).value;
    if Up(s) {
      BooksAreSets(s.open, Chans(s.b.subscriptions), Confirming(s), Closing(s));
      ChansLength(s.b.subscriptions);
    }
  }

  /** Books that balance say where each open channel is, once. */
  lemma BooksAreSets(open: set<nat>, keys: seq<nat>, confirming: seq<nat>, closing: seq<nat>)
    requires Books(open, multiset(keys) + multiset(confirming), multiset(closing))
    ensures
      var a, b, c := set x | x in keys, set x | x in confirming, set x | x in closing;
      open == a + b + c && a !! b !! c && |open| == |keys| + |confirming| + |closing|
  {
    var a, b, c := set x | x in keys, set x | x in confirming, set x | x in closing;
    var m := multiset(open);
    assert m == multiset(keys) + multiset(confirming) + multiset(closing);
    forall x ensures x in open <==> x in a + b + c {
      assert x in m <==> x in multiset(keys) || x in multiset(confirming) || x in multiset(closing);
    }
    forall x | x in open ensures !(x in a && x in b) && !(x in c && x in a + b) {
      assert m[x] == 1;
    }
    assert |open| == |m|;
  }

  lemma {:induction false} ChansLength(entries: seq<Entry>)
    ensures |Chans(entries)| == |entries|
  {
    if entries != [] {
      ChansLength(entries[1..]);
    }
  }

  /** Once both queues are empty the two sides agree exactly. */
  lemma QuietSidesAgree(labels: seq<Label>)
    requires Run(INITIAL, labels).Some?
    ensures
      var s := Run(INITIAL, labels).value;
      Up(s) && s.toServer == [] && s.toClient == [] ==>
        && s.open == (set c | c in Chans(s.b.subscriptions))
        && |s.open| == |s.b.subscriptions|
  {
    NoLeakedChannel(labels);
  }
}

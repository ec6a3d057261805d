/** Runs outside the discipline of `BucketIntent`, showing that it is needed. */
module BucketMisuse {
  import opened Options
  import opened Frames
  import opened BucketState
  import opened BucketSystem

  ghost predicate Reached(s: System) {
    exists labels :: Run(INITIAL, labels) == Some(s)
  }

  lemma {:induction false} RunOneMore(s: System, labels: seq<Label>, act: Label)
    requires Run(s, labels).Some? && Enabled(Run(s, labels).value, act)
    ensures Run(s, labels + [act]) == Some(Step(Run(s, labels).value, act))
    decreases |labels|
  {
    if labels == [] {
      assert labels + [act] == [act];
      assert Run(Step(s, act), [act][1..]) == Some(Step(s, act));
    } else {
      assert (labels + [act])[1..] == labels[1..] + [act];
      RunOneMore(Step(s, labels[0]), labels[1..], act);
    }
  }

  lemma Reach(s: System, act: Label)
    requires Reached(s) && Enabled(s, act)
    ensures Reached(Step(s, act))
  {
    var labels :| Run(INITIAL, labels) == Some(s);
    RunOneMore(INITIAL, labels, act);
  }

  const TICKER: Frame := SubscribeFrame(Text("ticker"), Text("a"), map[])

  /** The first socket is open and configured, and `a` was subscribed and unsubscribed
      before its answer. */
  lemma CancelledOnce() returns (s: System)
    ensures Reached(s)
    ensures s.phase.Reading? && s.alive && s.todo == [] && s.toClient == [] && s.issued == {} && s.open == {}
    ensures s.toServer == [Configuration, SubscribeRequest(TICKER)]
    ensures s.b.pendings == [] && s.b.subscriptions == [] && s.b.cancellations == {Text("a")}
    ensures !s.b.closing && s.wanted == []
  {
    s := INITIAL;
    assert Run(INITIAL, []) == Some(s);
    Reach(s, Open);
    s := Step(s, Open);
    Reach(s, Configure(true));
    s := Step(s, Configure(true));
    Reach(s, Subscribe(TICKER, true));
    s := Step(s, Subscribe(TICKER, true));
    Reach(s, Unsubscribe(Text("a"), true));
    s := Step(s, Unsubscribe(Text("a"), true));
  }

  lemma OnlyPendingTaken()
    ensures WithoutId([TICKER], Text("a")) == []
    ensures WithoutFirst([TICKER], Text("a")) == []
    ensures IsPending([TICKER], Text("a"))
  {
    assert Id([TICKER][0]) == Text("a") && [TICKER][1..] == [];
  }

  /** `a` was subscribed a second time, and perhaps cancelled a second time too. */
  lemma SentTwice(cancelAgain: bool) returns (s: System)
    ensures Reached(s)
    ensures s.phase.Reading? && s.alive && s.todo == [] && s.toClient == [] && s.issued == {} && s.open == {}
    ensures s.toServer == [Configuration, SubscribeRequest(TICKER), SubscribeRequest(TICKER)]
    ensures s.b.pendings == (if cancelAgain then [] else [TICKER])
    ensures s.b.subscriptions == [] && s.b.cancellations == {Text("a")} && !s.b.closing
    ensures s.wanted == if cancelAgain then [] else [TICKER]
  {
    OnlyPendingTaken();
    s := CancelledOnce();
    Reach(s, Subscribe(TICKER, true));
    s := Step(s, Subscribe(TICKER, true));
    assert s.b.pendings == [TICKER] && s.wanted == [TICKER];
    if cancelAgain {
      Reach(s, Unsubscribe(Text("a"), true));
      s := Step(s, Unsubscribe(Text("a"), true));
    }
  }

  /** Both requests have reached the server. */
  lemma RequestedTwice(cancelAgain: bool) returns (s: System)
    ensures Reached(s)
    ensures s.phase.Reading? && s.alive && s.todo == [] && s.toServer == []
    ensures s.toClient == [Notice, SubscribedReply(1, TICKER, map[]), SubscribedReply(2, TICKER, map[])]
    ensures s.b.pendings == (if cancelAgain then [] else [TICKER])
    ensures s.b.subscriptions == [] && s.b.cancellations == {Text("a")} && !s.b.closing
    ensures s.wanted == (if cancelAgain then [] else [TICKER]) && s.open == {1, 2}
  {
    s := SentTwice(cancelAgain);
    Reach(s, Serve(0, map[]));
    s := Step(s, Serve(0, map[]));
    Reach(s, Serve(1, map[]));
    s := Step(s, Serve(1, map[]));
    Reach(s, Serve(2, map[]));
    s := Step(s, Serve(2, map[]));
  }

  /** The client has read the first of the two answers, and refused it. */
  lemma FirstAnswerRefused(cancelAgain: bool) returns (s: System)
    ensures Reached(s)
    ensures s.phase.Reading? && s.alive && s.todo == []
    ensures s.toServer == [UnsubscribeRequest(1)]
    ensures s.toClient == [SubscribedReply(2, TICKER, map[])]
    ensures s.b.pendings == [] && s.b.subscriptions == [] && s.b.cancellations == {} && s.open == {1, 2}
    ensures s.wanted == if cancelAgain then [] else [TICKER]
  {
    OnlyPendingTaken();
    s := RequestedTwice(cancelAgain);
    Reach(s, Receive(true));
    s := Step(s, Receive(true));
    Reach(s, Receive(true));
    s := Step(s, Receive(true));
    assert Unsubscriptions([1]) == [UnsubscribeRequest(1)];
  }

  /** Subscribing again under a sub_id whose cancelled request is still unanswered, and
      cancelling that too: one cancellation stands for two answers, and the second channel
      streams to a caller who wants nothing. */
  lemma ReuseStreamsUnwanted() returns (s: System)
    ensures Reached(s)
    ensures s.alive && s.toServer == [] && s.toClient == [] && s.todo == []
    ensures s.wanted == [] && s.b.pendings == []
    ensures s.open == {2} && Chans(s.b.subscriptions) == [2]
  {
    s := FirstAnswerRefused(true);
    Reach(s, Receive(true));
    s := Step(s, Receive(true));
    var e := Entry(2, Recording(TICKER, 2, map[]));
    assert s.b.subscriptions == [e];
    FlatMapOne(e, ChanOf);
    Reach(s, Serve(0, map[]));
    s := Step(s, Serve(0, map[]));
    Reach(s, Receive(true));
    s := Step(s, Receive(true));
  }

  /** The same reuse without the second cancellation: the first answer takes the new request
      off the pending list, and a socket that dies then loses the subscription for good. */
  lemma ReuseLosesWanted() returns (s: System)
    ensures Reached(s)
    ensures !s.alive && s.phase.Down?
    ensures s.wanted == [TICKER] && Held(s.b) == multiset{}
  {
    s := FirstAnswerRefused(false);
    Reach(s, Die);
    s := Step(s, Die);
    Reach(s, ReadEnd);
    s := Step(s, ReadEnd);
  }
}

/** A run of the client that reuses the sub_id of a cancelled, unanswered request, and ends with
    that sub_id confirmed twice in one bucket. */
module ClientMisuse {
  import opened Frames
  import opened BucketState
  import opened BucketSystem
  import opened ClientBuckets

  ghost predicate Reached(buckets: Buckets) {
    exists calls :: CanCalls([], calls) && CallsRun([], calls) == buckets
  }

  lemma {:induction false} OneMoreCall(buckets: Buckets, calls: seq<Call>, call: Call)
    requires CanCalls(buckets, calls) && CallEnabled(CallsRun(buckets, calls), call)
    ensures CanCalls(buckets, calls + [call])
    ensures CallsRun(buckets, calls + [call]) == CallStep(CallsRun(buckets, calls), call)
    decreases |calls|
  {
    if calls == [] {
      assert calls + [call] == [call];
      assert CallsRun(CallStep(buckets, call), [call][1..]) == CallStep(buckets, call);
    } else {
      assert (calls + [call])[1..] == calls[1..] + [call];
      OneMoreCall(CallStep(buckets, calls[0]), calls[1..], call);
    }
  }

  lemma Reach(buckets: Buckets, call: Call, after: Buckets)
    requires Reached(buckets) && CallEnabled(buckets, call) && after == CallStep(buckets, call)
    ensures Reached(after)
  {
    var calls :| CanCalls([], calls) && CallsRun([], calls) == buckets;
    OneMoreCall([], calls, call);
  }

  // ---- The calls of a client with one bucket ----

  lemma Inside(s: System, act: Label)
    requires Reached([s]) && Enabled(s, act) && !act.Subscribe? && !act.Unsubscribe?
    ensures Reached([Step(s, act)])
  {
    Reach([s], Inner(0, act), [Step(s, act)]);
  }

  lemma Subscribes(s: System, frame: Frame)
    requires Reached([s]) && HasRoom(s) && !Has(s.b, Id(frame))
    ensures Reached([SubscribeStep(s, frame, true)])
  {
    assert !Taken([s], Id(frame)) && FirstWithRoom([s]) == 0;
    Reach([s], SubscribePass(frame, true), [SubscribeStep(s, frame, true)]);
  }

  lemma Unsubscribes(s: System, id: Value)
    requires Reached([s]) && s.alive && Has(s.b, id) && Count(s.b) > 1
    ensures Reached([UnsubscribeStep(s, id, true)])
  {
    assert FirstWith([s], id) == 0;
    Reach([s], UnsubscribeCall(id, true), [UnsubscribeStep(s, id, true)]);
  }

  // ---- The run ----

  const A: Frame := SubscribeFrame(Text("ticker"), Text("a"), map[])
  const B: Frame := SubscribeFrame(Text("ticker"), Text("b"), map[])

  ghost predicate At(s: System, b: Bucket, toServer: seq<ClientFrame>, toClient: seq<ServerFrame>, issued: set<nat>) {
    && Reached([s]) && s.alive && s.phase.Reading? && s.b == b
    && s.toServer == toServer && s.toClient == toClient && s.issued == issued
  }

  ghost function On(pendings: seq<Frame>, entries: seq<Entry>, cancellations: set<Value>): Bucket {
    Bucket(pendings, entries, cancellations, false, 1)
  }

  ghost function EntryOf(chanId: nat, frame: Frame): Entry {
    Entry(chanId, Recording(frame, chanId, map[]))
  }

  function ReplyOf(chanId: nat, frame: Frame): ServerFrame {
    SubscribedReply(chanId, frame, map[])
  }

  lemma Configured() returns (s: System)
    ensures At(s, On([], [], {}), [Configuration], [], {})
  {
    s := INITIAL;
    assert CanCalls([], []) && CallsRun([], []) == [];
    Reach([], NewBucket, [s]);
    Inside(s, Open);
    s := Step(s, Open);
    Inside(s, Configure(true));
    s := Step(s, Configure(true));
  }

  lemma RequestedBoth() returns (s: System)
    ensures At(s, On([A, B], [], {}), [Configuration, SubscribeRequest(A), SubscribeRequest(B)], [], {})
  {
    s := Configured();
    Subscribes(s, A);
    s := SubscribeStep(s, A, true);
    assert s.b.pendings == [A];
    Subscribes(s, B);
    s := SubscribeStep(s, B, true);
  }

  /** `a` and `b` are requested, `a` is cancelled, and requested again. */
  lemma RequestedAgain() returns (s: System)
    ensures At(s, On([B, A], [], {Text("a")}),
               [Configuration, SubscribeRequest(A), SubscribeRequest(B), SubscribeRequest(A)], [], {})
  {
    s := RequestedBoth();
    assert Id(s.b.pendings[0]) == Text("a");
    Unsubscribes(s, Text("a"));
    s := UnsubscribeStep(s, Text("a"), true);
    assert s.b.pendings == [B];
    Subscribes(s, A);
    s := SubscribeStep(s, A, true);
  }

  lemma Answered() returns (s: System)
    ensures At(s, On([B, A], [], {Text("a")}), [], [Notice, ReplyOf(1, A), ReplyOf(2, B), ReplyOf(3, A)],
               {1, 2, 3})
  {
    s := RequestedAgain();
    Inside(s, Serve(0, map[]));
    s := Step(s, Serve(0, map[]));
    Inside(s, Serve(1, map[]));
    s := Step(s, Serve(1, map[]));
    Inside(s, Serve(2, map[]));
    s := Step(s, Serve(2, map[]));
    Inside(s, Serve(3, map[]));
    s := Step(s, Serve(3, map[]));
  }

  lemma WithoutA()
    ensures WithoutId([B, A], Text("a")) == [B] && WithoutId([A], Text("a")) == []
    ensures WithoutId([B, A], Text("b")) == [A]
  {
    assert [B, A][1..] == [A] && [A][1..] == [];
    assert WithoutId([A], Text("a")) == [] && WithoutId([A], Text("b")) == [A];
  }

  /** The first answer is refused, and takes the new request off the pending list: nobody has `a`,
      and it is requested once more. */
  lemma Forgotten() returns (s: System)
    ensures At(s, On([B, A], [], {}), [UnsubscribeRequest(1), SubscribeRequest(A)],
               [ReplyOf(2, B), ReplyOf(3, A)], {1, 2, 3})
  {
    WithoutA();
    s := Answered();
    Inside(s, Receive(true));
    s := Step(s, Receive(true));
    Inside(s, Receive(true));
    s := Step(s, Receive(true));
    assert Unsubscriptions([1]) == [UnsubscribeRequest(1)];
    assert s.b == On([B], [], {});
    Subscribes(s, A);
    s := SubscribeStep(s, A, true);
  }

  /** The answers to the second and to the third request are both still to come. */
  lemma TwoToCome() returns (s: System)
    ensures At(s, On([B, A], [], {}), [], [ReplyOf(2, B), ReplyOf(3, A), Notice, ReplyOf(4, A)], {1, 2, 3, 4})
  {
    s := Forgotten();
    Inside(s, Serve(0, map[]));
    s := Step(s, Serve(0, map[]));
    Inside(s, Serve(4, map[]));
    s := Step(s, Serve(4, map[]));
  }

  lemma SecondConfirmed() returns (s: System)
    ensures At(s, On([], [EntryOf(2, B), EntryOf(3, A)], {}), [], [Notice, ReplyOf(4, A)], {1, 2, 3, 4})
  {
    WithoutA();
    s := TwoToCome();
    Inside(s, Receive(true));
    s := Step(s, Receive(true));
    assert s.b == On([A], [EntryOf(2, B)], {});
    Inside(s, Receive(true));
    s := Step(s, Receive(true));
    assert Put([EntryOf(2, B)], EntryOf(3, A)) == [EntryOf(2, B), EntryOf(3, A)];
  }

  lemma PutsLast(x: Entry, y: Entry, z: Entry)
    requires x.chanId != z.chanId && y.chanId != z.chanId
    ensures Put([x, y], z) == [x, y, z]
  {
    assert [x, y][1..] == [y];
    assert Put([y], z) == [y, z];
  }

  lemma ThirdConfirmed() returns (s: System)
    ensures Reached([s]) && s.alive && s.b.subscriptions == [EntryOf(2, B), EntryOf(3, A), EntryOf(4, A)]
  {
    s := SecondConfirmed();
    Inside(s, Receive(true));
    s := Step(s, Receive(true));
    assert s.b == On([], [EntryOf(2, B), EntryOf(3, A)], {}) && s.toClient == [ReplyOf(4, A)];
    PutsLast(EntryOf(2, B), EntryOf(3, A), EntryOf(4, A));
    Inside(s, Receive(true));
    s := Step(s, Receive(true));
  }

  /** Reusing the sub_id of a cancelled request before its answer: a reachable state of the client
      in which one bucket has it confirmed twice. */
  lemma ReuseDuplicates() returns (s: System)
    ensures Reached([s]) && s.alive && |s.b.subscriptions| == 3
    ensures s.b.subscriptions[1].SubId() == s.b.subscriptions[2].SubId() == Text("a")
  {
    s := ThirdConfirmed();
  }
}

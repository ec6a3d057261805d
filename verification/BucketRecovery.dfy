/** A recovery that meets no failure sends everything and ends in the message loop; one that does
    leaves the bucket as it was, without a socket. */
module BucketRecovery {
  import opened Options
  import opened Frames
  import opened BucketState
  import opened BucketSystem

  function Sends(n: nat): seq<Label> {
    if n == 0 then [] else [SendNext(true)] + Sends(n - 1)
  }

  /** The subscribe frames of these requests, in order. */
  function Asking(frames: seq<Frame>): seq<ClientFrame> {
    if frames == [] then [] else [SubscribeRequest(frames[0])] + Asking(frames[1..])
  }

  lemma {:induction false} RunsOn(s: System, a: seq<Label>, b: seq<Label>)
    requires Run(s, a).Some?
    ensures Run(s, a + b) == Run(Run(s, a).value, b)
    decreases |a|
  {
    if a == [] {
      assert a + b == b;
    } else {
      assert (a + b)[1..] == a[1..] + b;
      RunsOn(Step(s, a[0]), a[1..], b);
    }
  }

  lemma {:induction false} SendsAll(s: System)
    requires s.phase.Recovering?
    ensures Run(s, Sends(|s.todo|)) == Some(s.(todo := [], toServer := s.toServer + Asking(s.todo)))
    decreases |s.todo|
  {
    if s.todo == [] {
      assert s.toServer + Asking(s.todo) == s.toServer;
    } else {
      var t := SendNextStep(s, true);
      SendsAll(t);
      assert Sends(|s.todo|)[1..] == Sends(|t.todo|);
      assert s.toServer + Asking(s.todo) == t.toServer + Asking(t.todo);
    }
  }

  /** Every request the bucket holds, the pending ones first. */
  function All(b: Bucket): seq<Frame> {
    b.pendings + Requests(b.subscriptions)
  }

  /** A bucket without a socket, once its owner lets it run: its next recovery can send all it holds,
      in order, and then its configuration, on a socket that has seen nothing else; everything is
      pending again, and nothing is confirmed or cancelled. */
  lemma RecoveryCompletes(s: System)
    requires s.phase.Down?
    ensures
      var labels := [Reopen, Open] + Sends(|All(s.b)|) + [Configure(true)];
      Run(s, labels).Some? &&
      var t := Run(s, labels).value;
      && t.phase.Reading? && t.alive && t.todo == [] && t.toClient == [] && t.open == {} && t.issued == {}
      && t.toServer == Asking(All(s.b)) + [Configuration]
      && t.b == Bucket(All(s.b), [], {}, false, s.b.connections + 1)
  {
    var opens := [Reopen, Open];
    var u := s.(b := s.b.(closing := false));
    var v := OpenStep(u);
    assert opens[1..] == [Open] && [Open][1..] == [];
    assert Run(u, [Open]) == Run(v, []) == Some(v);
    assert Run(s, opens) == Some(v);
    RunsOn(s, opens, Sends(|All(s.b)|));
    SendsAll(v);
    var w := v.(todo := [], toServer := v.toServer + Asking(v.todo));
    assert w.toServer == Asking(All(s.b));
    RunsOn(s, opens + Sends(|All(s.b)|), [Configure(true)]);
    assert [Configure(true)][1..] == [];
    assert Run(w, [Configure(true)]) == Some(ConfigureStep(w, true));
  }

  /** A send of the recovery that finds the socket dead ends it: no socket is left, nothing is left to
      send, and the bucket still holds what it held. */
  lemma FailedSendEndsIt(s: System, act: Label)
    requires Enabled(s, act) && act in {SendNext(false), Configure(false)}
    ensures
      var t := Step(s, act);
      !t.alive && !t.lingering && t.phase.Down? && t.todo == [] && t.toServer == [] && t.toClient == [] && t.b == s.b
  {
  }

  /** A request whose send finds the socket dead stays pending, unsent, and the socket is gone; so is it
      after an unsubscribe frame that could not be sent. */
  lemma FailedCallEndsIt(s: System, frame: Frame, id: Value)
    ensures
      var t := SubscribeStep(s, frame, false);
      !t.alive && t.toServer == [] && t.b.pendings == s.b.pendings + [frame] && t.b.subscriptions == s.b.subscriptions
    ensures
      var t := UnsubscribeStep(s, id, false);
      !IsPending(s.b.pendings, id) && t.b.subscriptions != s.b.subscriptions ==> !t.alive && t.toServer == []
  {
  }
}

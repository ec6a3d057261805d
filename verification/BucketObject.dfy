/** The bucket as the object its methods update in place. Each method is the code between
    two suspension points of its coroutine, proved against the function of `BucketState`
    that the protocol theorems are about. */
module BucketObject {
  import opened Frames
  import opened BucketState

  /** The first request of an id is at the first index that has it. */
  lemma {:induction false} WithoutFirstAt(pendings: seq<Frame>, at: nat, id: Value)
    requires at < |pendings| && Id(pendings[at]) == id && forall k :: 0 <= k < at ==> Id(pendings[k]) != id
    ensures WithoutFirst(pendings, id) == pendings[..at] + pendings[at + 1..]
    decreases at
  {
    if at > 0 {
      var rest := pendings[1..];
      assert forall k :: 0 <= k < at - 1 ==> rest[k] == pendings[k + 1];
      WithoutFirstAt(rest, at - 1, id);
      HeadSlices(pendings, at);
    }
  }

  lemma HeadSlices(s: seq<Frame>, at: nat)
    requires 0 < at < |s|
    ensures [s[0]] + (s[1..][..at - 1] + s[1..][at..]) == s[..at] + s[at + 1..]
  {
  }

  /** An assignment goes to the first entry of its channel, or after the last one. */
  lemma {:induction false} PutAt(entries: seq<Entry>, at: nat, e: Entry)
    requires at <= |entries| && forall k :: 0 <= k < at ==> entries[k].chanId != e.chanId
    requires at < |entries| ==> entries[at].chanId == e.chanId
    ensures Put(entries, e) == if at < |entries| then entries[at := e] else entries + [e]
    decreases at
  {
    if at > 0 {
      var rest := entries[1..];
      assert forall k :: 0 <= k < at - 1 ==> rest[k] == entries[k + 1];
      PutAt(rest, at - 1, e);
      HeadUpdated(entries, at, e);
    } else if entries != [] {
      HeadUpdated(entries, 0, e);
    }
  }

  lemma HeadUpdated(s: seq<Entry>, at: nat, x: Entry)
    requires s != [] && at <= |s|
    ensures at == 0 ==> [x] + s[1..] == s[0 := x]
    ensures 0 < at < |s| ==> [s[0]] + s[1..][at - 1 := x] == s[at := x]
    ensures at == |s| ==> [s[0]] + (s[1..] + [x]) == s + [x]
  {
  }

  class BfxWebSocketBucket {
    var pendings: seq<Frame>
    var subscriptions: seq<Entry>
    var cancellations: set<Value>
    var closing: bool
    var connections: nat
    var openedAt: real

    function Contents(): Bucket
      reads this
    {
      Bucket(pendings, subscriptions, cancellations, closing, connections)
    }

    constructor ()
      ensures Contents() == EMPTY
    {
      pendings, subscriptions, cancellations := [], [], {};
      closing, connections, openedAt := false, 0, 0.0;
    }

    method Ids() returns (ids: seq<Value>)
      ensures |ids| == Count(Contents())
      ensures forall i :: 0 <= i < |pendings| ==> ids[i] == Id(pendings[i])
      ensures forall i :: 0 <= i < |subscriptions| ==> ids[|pendings| + i] == subscriptions[i].SubId()
    {
      ids := [];
      for i := 0 to |pendings|
        invariant |ids| == i
        invariant forall k :: 0 <= k < i ==> ids[k] == Id(pendings[k])
      {
        ids := ids + [Id(pendings[i])];
      }
      for i := 0 to |subscriptions|
        invariant |ids| == |pendings| + i
        invariant forall k :: 0 <= k < |pendings| ==> ids[k] == Id(pendings[k])
        invariant forall k :: 0 <= k < i ==> ids[|pendings| + k] == subscriptions[k].SubId()
      {
        ids := ids + [subscriptions[i].SubId()];
      }
    }

    method HasId(id: Value) returns (found: bool)
      ensures found <==> Has(Contents(), id)
    {
      for i := 0 to |pendings|
        invariant forall k :: 0 <= k < i ==> Id(pendings[k]) != id
      {
        if Id(pendings[i]) == id {
          return true;
        }
      }
      for i := 0 to |subscriptions|
        invariant forall k :: 0 <= k < i ==> subscriptions[k].SubId() != id
      {
        if subscriptions[i].SubId() == id {
          return true;
        }
      }
      found := false;
    }

    /** The step of `start()` that follows a completed handshake. A bucket closed in the
        meantime goes no further. */
    method Opened(now: real) returns (serving: bool, todo: seq<Frame>)
      modifies this
      ensures serving <==> !old(closing)
      ensures serving ==>
        && Contents() == Recovering(old(Contents())).(connections := old(connections) + 1)
        && todo == pendings && openedAt == now
      ensures !serving ==> Contents() == old(Contents()) && todo == [] && openedAt == old(openedAt)
    {
      if closing {
        return false, [];
      }
      connections := connections + 1;
      openedAt := now;
      todo := RecoverState();
      serving := true;
    }

    /** `__recover_state` up to its first send: returns the copy its sends iterate over. */
    method RecoverState() returns (todo: seq<Frame>)
      modifies this`pendings, this`subscriptions, this`cancellations
      ensures Contents() == Recovering(old(Contents()))
      ensures todo == pendings
    {
      cancellations := {};
      var taken := 0;
      while subscriptions != []
        invariant 0 <= taken <= |old(subscriptions)|
        invariant subscriptions == old(subscriptions)[taken..]
        invariant pendings + Requests(subscriptions) == old(pendings) + Requests(old(subscriptions))
        invariant cancellations == {}
        decreases |subscriptions|
      {
        var subscription := subscriptions[0].subscription;
        assert Requests(subscriptions) == [Reissue(subscription)] + Requests(subscriptions[1..]);
        subscriptions := subscriptions[1..];
        pendings := pendings + [Reissue(subscription)];
        taken := taken + 1;
      }
      assert pendings == pendings + Requests(subscriptions);
      todo := pendings;
    }

    method Subscribe(channel: Value, subId: Value, uuid: Value, params: Object) returns (frame: Frame)
      modifies this`pendings
      ensures frame == SubscribeFrame(channel, ChooseId(subId, uuid), params)
      ensures Id(frame) == if subId == Text("") then uuid else subId
      ensures frame[EventKey] == Text("subscribe") && frame[ChannelKey] == channel
      ensures forall k :: k in params && k !in {EventKey, ChannelKey, SubIdKey} ==> k in frame && frame[k] == params[k]
      ensures forall k :: k in frame ==> k in params || k in {EventKey, ChannelKey, SubIdKey}
      ensures pendings == old(pendings) + [frame]
      ensures Contents() == Subscribed(old(Contents()), frame)
    {
      frame := SubscribeFrame(channel, ChooseId(subId, uuid), params);
      pendings := pendings + [frame];
    }

    /** `ok` says whether a send still finds the socket alive. Returns the channels an
        unsubscribe frame went out for. */
    method Unsubscribe(id: Value, ok: bool) returns (sent: seq<nat>)
      modifies this`pendings, this`subscriptions, this`cancellations
      ensures (Contents(), sent) == Unsubscribed(old(Contents()), id, ok)
    {
      var cancelled := CancelPending(id);
      if cancelled {
        return [];
      }
      sent := DropConfirmed(id, ok);
    }

    /** The loop over the pending requests. */
    method CancelPending(id: Value) returns (cancelled: bool)
      modifies this`pendings, this`cancellations
      ensures cancelled <==> IsPending(old(pendings), id)
      ensures Contents() == if !cancelled then old(Contents())
                            else old(Contents()).(pendings := WithoutFirst(old(pendings), id),
                                                  cancellations := old(cancellations) + {id})
    {
      var at := 0;
      while at < |pendings| && Id(pendings[at]) != id
        invariant 0 <= at <= |pendings|
        invariant forall k :: 0 <= k < at ==> Id(pendings[k]) != id
      {
        at := at + 1;
      }
      cancelled := at < |pendings|;
      if cancelled {
        WithoutFirstAt(pendings, at, id);
        pendings := pendings[..at] + pendings[at + 1..];
        cancellations := cancellations + {id};
      }
    }

    /** The loop over the confirmed subscriptions. */
    method DropConfirmed(id: Value, ok: bool) returns (sent: seq<nat>)
      modifies this`subscriptions
      ensures (subscriptions, sent) == DropEntries(old(subscriptions), id, ok)
    {
      sent := [];
      var kept, left := [], subscriptions;
      ghost var goal := DropEntries(left, id, ok);
      while left != []
        invariant subscriptions == kept + left
        invariant kept + DropEntries(left, id, ok).0 == goal.0
        invariant sent + DropEntries(left, id, ok).1 == goal.1
        invariant !ok ==> sent == []
        decreases |left|
      {
        var e := left[0];
        left := left[1..];
        ghost var rest := DropEntries(left, id, ok);
        if e.SubId() == id {
          subscriptions := kept + left;
          if !ok {
            return;
          }
          assert sent + [e.chanId] + rest.1 == sent + ([e.chanId] + rest.1);
          sent := sent + [e.chanId];
        } else {
          assert kept + [e] + left == subscriptions;
          assert kept + [e] + rest.0 == kept + ([e] + rest.0);
          kept := kept + [e];
        }
      }
      assert subscriptions == goal.0 && sent == goal.1;
    }

    /** A "subscribed" message. Returns the channels an unsubscribe frame is sent for, and
        whether "subscribed" is emitted. */
    method OnSubscribed(chanId: nat, message: Object) returns (refused: seq<nat>, announced: bool)
      requires ChannelKey in message && SnakeSubIdKey in message && ChanIdKey in message
      requires message[ChanIdKey] == Number(chanId)
      modifies this`pendings, this`subscriptions, this`cancellations
      ensures IsSubscription(Recorded(message))
      ensures (Contents(), refused, announced) == Confirmed(old(Contents()), chanId, Recorded(message))
    {
      var id := message[SnakeSubIdKey];
      TakePending(id);
      if id in cancellations {
        cancellations := cancellations - {id};
        return [chanId], false;
      }
      Record(chanId, Strip(message, {ChanIdKey, EventKey, PairKey, CurrencyKey}));
      return [], true;
    }

    method TakePending(id: Value)
      modifies this`pendings
      ensures pendings == WithoutId(old(pendings), id)
    {
      var kept := [];
      for i := 0 to |pendings|
        invariant pendings == old(pendings)
        invariant kept + WithoutId(pendings[i..], id) == WithoutId(pendings, id)
      {
        assert pendings[i..][1..] == pendings[i + 1..];
        if Id(pendings[i]) != id {
          kept := kept + [pendings[i]];
        }
      }
      pendings := kept;
    }

    /** `__subscriptions[chan_id] = subscription`. */
    method Record(chanId: nat, subscription: Subscription)
      modifies this`subscriptions
      ensures subscriptions == Put(old(subscriptions), Entry(chanId, subscription))
    {
      var e := Entry(chanId, subscription);
      var at := 0;
      while at < |subscriptions| && subscriptions[at].chanId != chanId
        invariant 0 <= at <= |subscriptions|
        invariant forall k :: 0 <= k < at ==> subscriptions[k].chanId != chanId
      {
        at := at + 1;
      }
      PutAt(subscriptions, at, e);
      subscriptions := if at < |subscriptions| then subscriptions[at := e] else subscriptions + [e];
    }

    method Close()
      modifies this`closing
      ensures Contents() == old(Contents()).(closing := true)
    {
      closing := true;
    }
  }
}

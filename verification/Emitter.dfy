/** The event emitter's once-only ledgers, and the history they stand for. */
module Emitter {
  import Frames

  type SubId = Frames.Value

  /** The events delivered once per connection, once per subscription, and always. */
  datatype Event =
    | Open
    | Authenticated
    | OrderSnapshot
    | PositionSnapshot
    | FundingOfferSnapshot
    | FundingCreditSnapshot
    | FundingLoanSnapshot
    | WalletSnapshot
    | Subscribed
    | TradingTradesSnapshot
    | FundingTradesSnapshot
    | TradingBookSnapshot
    | FundingBookSnapshot
    | TradingRawBookSnapshot
    | FundingRawBookSnapshot
    | CandlesSnapshot
    | Common(name: string)

  predicate OncePerConnection(e: Event) {
    || e.Open? || e.Authenticated? || e.OrderSnapshot? || e.PositionSnapshot? || e.FundingOfferSnapshot?
    || e.FundingCreditSnapshot? || e.FundingLoanSnapshot? || e.WalletSnapshot?
  }

  predicate OncePerSubscription(e: Event) {
    !OncePerConnection(e) && !e.Common?
  }

  /** A call on the emitter. `subId` is the sub_id of the first argument, when there is one. */
  datatype Call =
    | Emit(event: Event, subId: SubId)
    | ResetConnection
    | ResetSubscription(subIds: seq<SubId>)

  /** `_connection` and `_subscriptions`. */
  datatype Ledger = Ledger(connection: seq<Event>, subscriptions: map<SubId, seq<Event>>)

  const CLEAR := Ledger([], map[])

  function Row(subscriptions: map<SubId, seq<Event>>, subId: SubId): seq<Event> {
    if subId in subscriptions then subscriptions[subId] else []
  }

  predicate Suppressed(ledger: Ledger, e: Event, subId: SubId) {
    || (OncePerConnection(e) && e in ledger.connection)
    || (OncePerSubscription(e) && e in Row(ledger.subscriptions, subId))
  }

  function Without(subscriptions: map<SubId, seq<Event>>, subIds: seq<SubId>): map<SubId, seq<Event>> {
    map s | s in subscriptions && s !in subIds :: subscriptions[s]
  }

  function After(ledger: Ledger, call: Call): Ledger {
    match call
    case Emit(e, subId) =>
      if OncePerConnection(e) && e !in ledger.connection then
        ledger.(connection := ledger.connection + [e])
      else if OncePerSubscription(e) then
        var row := Row(ledger.subscriptions, subId);
        ledger.(subscriptions := ledger.subscriptions[subId := if e in row then row else row + [e]])
      else ledger
    case ResetConnection => CLEAR
    case ResetSubscription(subIds) => ledger.(subscriptions := Without(ledger.subscriptions, subIds))
  }

  function AfterAll(calls: seq<Call>): Ledger {
    if calls == [] then CLEAR else After(AfterAll(calls[..|calls| - 1]), calls[|calls| - 1])
  }

  // ---- The history ----

  const PER_CONNECTION: set<Event> := {
    Open, Authenticated, OrderSnapshot, PositionSnapshot,
    FundingOfferSnapshot, FundingCreditSnapshot, FundingLoanSnapshot, WalletSnapshot
  }

  const PER_SUBSCRIPTION: set<Event> := {
    Subscribed, TradingTradesSnapshot, FundingTradesSnapshot, TradingBookSnapshot,
    FundingBookSnapshot, TradingRawBookSnapshot, FundingRawBookSnapshot, CandlesSnapshot
  }

  /** The same event, for the purpose of delivering it once. */
  predicate Same(call: Call, e: Event, subId: SubId) {
    && call.Emit? && call.event == e
    && (e in PER_CONNECTION || (e in PER_SUBSCRIPTION && call.subId == subId))
  }

  /** The reset makes the event new again. */
  predicate Covers(call: Call, e: Event, subId: SubId) {
    call.ResetConnection? || (call.ResetSubscription? && e in PER_SUBSCRIPTION && subId in call.subIds)
  }

  predicate LastsFrom(calls: seq<Call>, i: nat, e: Event, subId: SubId) {
    && i < |calls|
    && Same(calls[i], e, subId)
    && forall j :: i < j < |calls| ==> !Covers(calls[j], e, subId)
  }

  /** An equal event occurred since the last reset that covers it. */
  ghost predicate Occurred(calls: seq<Call>, e: Event, subId: SubId) {
    exists i: nat :: LastsFrom(calls, i, e, subId)
  }

  lemma OccurredOneMore(calls: seq<Call>, call: Call, e: Event, subId: SubId)
    ensures Occurred(calls + [call], e, subId)
       <==> Same(call, e, subId) || (Occurred(calls, e, subId) && !Covers(call, e, subId))
  {
    var more := calls + [call];
    if Same(call, e, subId) {
      assert LastsFrom(more, |calls|, e, subId);
    } else if Occurred(calls, e, subId) && !Covers(call, e, subId) {
      var i: nat :| LastsFrom(calls, i, e, subId);
      assert LastsFrom(more, i, e, subId);
    } else if Occurred(more, e, subId) {
      var i: nat :| LastsFrom(more, i, e, subId);
      assert more[|calls|] == call;
      assert forall j :: 0 <= j < |calls| ==> calls[j] == more[j];
      assert LastsFrom(calls, i, e, subId);
    }
  }

  lemma ScopesAre(e: Event)
    ensures OncePerConnection(e) <==> e in PER_CONNECTION
    ensures OncePerSubscription(e) <==> e in PER_SUBSCRIPTION
    ensures !(e in PER_CONNECTION && e in PER_SUBSCRIPTION)
  {
  }

  lemma SuppressedAfter(ledger: Ledger, call: Call, e: Event, subId: SubId)
    ensures Suppressed(After(ledger, call), e, subId)
       <==> Same(call, e, subId) || (Suppressed(ledger, e, subId) && !Covers(call, e, subId))
  {
    ScopesAre(e);
  }

  /** For every sequence of emits and resets, a once-only event is suppressed exactly when an
      equal one occurred since the last reset that covers it. Other events never are. */
  lemma {:induction false} LedgerIsHistory(calls: seq<Call>, e: Event, subId: SubId)
    ensures Suppressed(AfterAll(calls), e, subId) <==> Occurred(calls, e, subId)
  {
    if calls != [] {
      var before, call := calls[..|calls| - 1], calls[|calls| - 1];
      assert calls == before + [call];
      LedgerIsHistory(before, e, subId);
      SuppressedAfter(AfterAll(before), call, e, subId);
      OccurredOneMore(before, call, e, subId);
    }
  }

  /** A reset for some subscriptions leaves every other once-only event as it was. */
  lemma OtherLedgersUntouched(calls: seq<Call>, subIds: seq<SubId>, e: Event, subId: SubId)
    requires subId !in subIds || e in PER_CONNECTION
    ensures Suppressed(AfterAll(calls + [ResetSubscription(subIds)]), e, subId)
       <==> Suppressed(AfterAll(calls), e, subId)
  {
    LedgerIsHistory(calls, e, subId);
    LedgerIsHistory(calls + [ResetSubscription(subIds)], e, subId);
    OccurredOneMore(calls, ResetSubscription(subIds), e, subId);
  }

  lemma AfterOneMore(calls: seq<Call>, call: Call)
    ensures AfterAll(calls + [call]) == After(AfterAll(calls), call)
  {
    assert (calls + [call])[..|calls|] == calls;
  }

  /** Whatever is emitted for one subscription, each of the eight per-subscription events stays as
      deliverable as it was for every other; for its own it is now suppressed. */
  lemma SubscriptionsApart(calls: seq<Call>, emitted: Event, a: SubId, e: Event, b: SubId)
    requires e in PER_SUBSCRIPTION
    ensures
      var after := AfterAll(calls + [Emit(emitted, a)]);
      if a == b && emitted == e then Suppressed(after, e, b)
      else Suppressed(after, e, b) <==> Suppressed(AfterAll(calls), e, b)
  {
    LedgerIsHistory(calls, e, b);
    LedgerIsHistory(calls + [Emit(emitted, a)], e, b);
    OccurredOneMore(calls, Emit(emitted, a), e, b);
  }

  /** Each of the eight per-connection events, once emitted, is suppressed for every sub_id as long
      as the connection is not reset, and deliverable after it is. */
  lemma {:induction false} ConnectionEventsOnce(calls: seq<Call>, e: Event, a: SubId, later: seq<Call>, b: SubId)
    requires e in PER_CONNECTION && forall i :: 0 <= i < |later| ==> !later[i].ResetConnection?
    ensures Suppressed(AfterAll(calls + [Emit(e, a)] + later), e, b)
    ensures !Suppressed(AfterAll(calls + [ResetConnection]), e, b)
  {
    var all := calls + [Emit(e, a)] + later;
    LedgerIsHistory(all, e, b);
    assert LastsFrom(all, |calls|, e, b);
    AfterOneMore(calls, ResetConnection);
  }

  /** All other events are always delivered. */
  lemma OthersAlwaysDelivered(calls: seq<Call>, name: string, subId: SubId)
    ensures !Suppressed(AfterAll(calls), Common(name), subId)
  {
  }

  class BfxEventEmitter {
    var connection: seq<Event>
    var subscriptions: map<SubId, seq<Event>>

    function Contents(): Ledger
      reads this
    {
      Ledger(connection, subscriptions)
    }

    constructor ()
      ensures Contents() == CLEAR
    {
      connection, subscriptions := [], map[];
    }

    method ResetConnectionScope()
      modifies this
      ensures Contents() == After(old(Contents()), ResetConnection)
    {
      connection := [];
      subscriptions := map[];
    }

    method ResetSubscriptionScope(subIds: seq<SubId>)
      modifies this`subscriptions
      ensures Contents() == After(old(Contents()), ResetSubscription(subIds))
    {
      for i := 0 to |subIds|
        invariant subscriptions == Without(old(subscriptions), subIds[..i])
      {
        subscriptions := subscriptions - {subIds[i]};
        assert subIds[..i + 1] == subIds[..i] + [subIds[i]];
      }
      assert subIds[..|subIds|] == subIds;
    }

    /** `delivered` says whether the listeners were called. */
    method EmitEvent(e: Event, subId: SubId) returns (delivered: bool)
      modifies this
      ensures delivered <==> !Suppressed(old(Contents()), e, subId)
      ensures e in PER_CONNECTION ==> (delivered <==> e !in old(connection))
      ensures e in PER_SUBSCRIPTION ==>
        (delivered <==> subId !in old(subscriptions) || e !in old(subscriptions)[subId])
      ensures e !in PER_CONNECTION && e !in PER_SUBSCRIPTION ==> delivered
      ensures Contents() == After(old(Contents()), Emit(e, subId))
    {
      ScopesAre(e);
      if OncePerConnection(e) {
        if e in connection {
          return false;
        }
        connection := connection + [e];
      }
      if OncePerSubscription(e) {
        if subId !in subscriptions {
          subscriptions := subscriptions[subId := []];
        }
        if e in subscriptions[subId] {
          return false;
        }
        subscriptions := subscriptions[subId := subscriptions[subId] + [e]];
      }
      delivered := true;
    }
  }
}

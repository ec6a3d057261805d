/** The JSON objects a bucket sends and receives, and the two pure helpers that
    turn a confirmed subscription back into a subscribe request. */
module Frames {

  /** Object keys. The seven named ones are those the code mentions; `SubIdKey` is
      "subId" (sent), `SnakeSubIdKey` is "sub_id" (received, after decoding). */
  datatype Key =
    | EventKey
    | ChannelKey
    | SubIdKey
    | ChanIdKey
    | SnakeSubIdKey
    | PairKey
    | CurrencyKey
    | Param(name: string)

  datatype Value = Text(text: string) | Number(number: nat)

  type Object = map<Key, Value>

  const SUBSCRIBE := Text("subscribe")
  const SUBSCRIBED := Text("subscribed")

  predicate IsFrame(o: Object) {
    && EventKey in o && o[EventKey] == SUBSCRIBE
    && ChannelKey in o
    && SubIdKey in o
  }

  /** A subscribe request. */
  type Frame = o: Object | IsFrame(o)
    witness map[EventKey := SUBSCRIBE, ChannelKey := SUBSCRIBE, SubIdKey := SUBSCRIBE]

  predicate IsSubscription(o: Object) {
    ChannelKey in o && SnakeSubIdKey in o
  }

  /** What a bucket keeps for a confirmed channel. */
  type Subscription = o: Object | IsSubscription(o)
    witness map[ChannelKey := SUBSCRIBE, SnakeSubIdKey := SUBSCRIBE]

  function Id(frame: Frame): Value {
    frame[SubIdKey]
  }

  /** `sub_id or str(uuid4())`: a missing or empty sub_id gets a generated one. */
  function ChooseId(subId: Value, uuid: Value): Value {
    if subId == Text("") then uuid else subId
  }

  /** `_subscribe_frame`: the fixed keys override caller parameters of the same name. */
  function SubscribeFrame(channel: Value, subId: Value, params: Object): Frame {
    params[EventKey := SUBSCRIBE][ChannelKey := channel][SubIdKey := subId]
  }

  /** `_strip`. */
  function Strip(message: Object, keys: set<Key>): Object {
    map k | k in message && k !in keys :: message[k]
  }

  // ---- The decoder's names ----

  predicate IsCapital(c: char) {
    'A' <= c <= 'Z'
  }

  function Lower(c: char): char {
    if IsCapital(c) then 'a' + (c - 'A') else c
  }

  /** `_to_snake_case`: an underscore before every capital but a leading one, then lower case. */
  function Snake(name: string): string {
    if name == "" then ""
    else
      var n := |name| - 1;
      Snake(name[..n]) + (if n > 0 && IsCapital(name[n]) then "_" else "") + [Lower(name[n])]
  }

  predicate NoCapital(name: string) {
    forall i :: 0 <= i < |name| ==> !IsCapital(name[i])
  }

  lemma {:induction false} SnakeHasNoCapital(name: string)
    ensures NoCapital(Snake(name))
    ensures |Snake(name)| >= |name|
  {
    if name != "" {
      SnakeHasNoCapital(name[..|name| - 1]);
    }
  }

  /** How many of the characters of `name` after the first, up to index i, are capitals. */
  function CapitalsTo(name: string, i: nat): nat
    requires i < |name|
  {
    if i == 0 then 0 else CapitalsTo(name, i - 1) + if IsCapital(name[i]) then 1 else 0
  }

  lemma {:induction false} CapitalsOfPrefix(name: string, n: nat, i: nat)
    requires i < n <= |name|
    ensures CapitalsTo(name[..n], i) == CapitalsTo(name, i)
  {
    if i > 0 {
      CapitalsOfPrefix(name, n, i - 1);
    }
  }

  /** Where the decoder puts each character, in lower case, and that it puts an underscore before
      each capital but a leading one; there is nothing else in the name it makes. */
  lemma {:induction false} SnakePlaces(name: string, i: nat)
    requires i < |name|
    ensures |Snake(name)| == |name| + CapitalsTo(name, |name| - 1)
    ensures
      var at := i + CapitalsTo(name, i);
      && at < |Snake(name)| && Snake(name)[at] == Lower(name[i])
      && (i > 0 && IsCapital(name[i]) ==> Snake(name)[at - 1] == '_')
    decreases |name|
  {
    var n := |name| - 1;
    var before := name[..n];
    assert Snake(name) == Snake(before) + (if n > 0 && IsCapital(name[n]) then "_" else "") + [Lower(name[n])];
    if n > 0 {
      SnakePlaces(before, if i < n then i else n - 1);
      CapitalsOfPrefix(name, n, n - 1);
      CapitalsOfPrefix(name, n, if i < n then i else n - 1);
    }
  }

  /** The decoder keeps a name exactly when it has no capital letter. */
  lemma {:induction false} SnakeKeeps(name: string)
    ensures Snake(name) == name <==> NoCapital(name)
  {
    if name != "" {
      var n := |name| - 1;
      var before := name[..n];
      assert name == before + [name[n]];
      if NoCapital(name) {
        SnakeKeeps(before);
      } else {
        SnakeHasNoCapital(name);
      }
    }
  }

  /** The key a name is. */
  function KeyOf(name: string): Key {
    match name
    case "event" => EventKey
    case "channel" => ChannelKey
    case "subId" => SubIdKey
    case "chan_id" => ChanIdKey
    case "sub_id" => SnakeSubIdKey
    case "pair" => PairKey
    case "currency" => CurrencyKey
    case _ => Param(name)
  }

  /** The names that are not a parameter's. */
  const OWN_NAMES: set<string> := {"event", "channel", "subId", "chan_id", "sub_id", "pair", "currency"}

  lemma OwnNames(name: string)
    ensures KeyOf(name) == Param(name) <==> name !in OWN_NAMES
  {
  }

  /** A key as the decoder spells it. */
  function Renamed(k: Key): Key {
    match k
    case SubIdKey => SnakeSubIdKey
    case Param(name) => KeyOf(Snake(name))
    case _ => k
  }

  /** No parameter becomes a key of the decoder's spelling that is not its own. */
  lemma RenamedIsFinal(k: Key)
    ensures Renamed(Renamed(k)) == Renamed(k)
  {
    if k.Param? {
      SnakeHasNoCapital(k.name);
      SnakeKeeps(Snake(k.name));
      assert Snake(k.name) != "subId" by {
        assert IsCapital("subId"[3]);
      }
    }
  }

  /** Where two names become one the order of the message decides, which is not said here. */
  ghost function Echoed(frame: Frame): Object {
    map k | k in (set c | c in frame :: Renamed(c)) :: ValueAt(frame, k)
  }

  ghost function ValueAt(frame: Frame, k: Key): Value
    requires exists c :: c in frame && Renamed(c) == k
  {
    var c :| c in frame && Renamed(c) == k;
    frame[c]
  }

  /** The server's decoded answer to `frame`: it echoes the request under the received spelling
      of its keys, names the channel it opened, and may add the pair or the currency. Its own
      fields come last. */
  ghost function Confirmation(frame: Frame, chanId: nat, extra: Object): Object {
    (Echoed(frame) + map k | k in extra && k in {PairKey, CurrencyKey} :: extra[k])
    [EventKey := SUBSCRIBED][ChannelKey := frame[ChannelKey]]
    [ChanIdKey := Number(chanId)][SnakeSubIdKey := frame[SubIdKey]]
  }

  /** The subscription `__on_subscribed` records for a confirmation. */
  function Recorded(message: Object): Object {
    Strip(message, {ChanIdKey, EventKey, PairKey, CurrencyKey})
  }

  /** The request `__recover_state` rebuilds from a recorded subscription. */
  function Reissue(subscription: Subscription): Frame {
    SubscribeFrame(
      subscription[ChannelKey],
      subscription[SnakeSubIdKey],
      subscription - {ChannelKey, SnakeSubIdKey})
  }

  /** No parameter of the request uses a key the confirmation path overwrites or strips, or
      one the decoder spells differently. */
  predicate Clean(frame: Frame) {
    && frame.Keys !! {ChanIdKey, SnakeSubIdKey, PairKey, CurrencyKey}
    && forall k :: k in frame && k.Param? ==> Renamed(k) == k
  }

  lemma ConfirmationIsRecordable(frame: Frame, chanId: nat, extra: Object)
    ensures IsSubscription(Recorded(Confirmation(frame, chanId, extra)))
    ensures Recorded(Confirmation(frame, chanId, extra))[SnakeSubIdKey] == Id(frame)
  {
  }

  /** The subscription recorded for the server's answer to `frame`. */
  ghost function Recording(frame: Frame, chanId: nat, extra: Object): (subscription: Subscription)
    ensures subscription[SnakeSubIdKey] == Id(frame)
  {
    ConfirmationIsRecordable(frame, chanId, extra);
    Recorded(Confirmation(frame, chanId, extra))
  }

  /** Confirming a request and recovering it gives the request back exactly when it is clean. */
  lemma ReissueRoundTrip(frame: Frame, chanId: nat, extra: Object)
    ensures Reissue(Recording(frame, chanId, extra)) == frame <==> Clean(frame)
  {
    var again := Reissue(Recording(frame, chanId, extra));
    if Clean(frame) {
      CleanSurvives(frame, chanId, extra);
    } else if k :| k in frame && k in {ChanIdKey, SnakeSubIdKey, PairKey, CurrencyKey} {
      assert k !in again;
    } else {
      var k :| k in frame && k.Param? && Renamed(k) != k;
      if k in again {
        assert k in Echoed(frame);
        var c :| c in frame && Renamed(c) == k;
        RenamedIsFinal(c);
      }
    }
  }

  lemma CleanSurvives(frame: Frame, chanId: nat, extra: Object)
    requires Clean(frame)
    ensures Reissue(Recording(frame, chanId, extra)) == frame
  {
    var again := Reissue(Recording(frame, chanId, extra));
    forall k ensures k in again <==> k in frame {
      assert k in frame && k != SubIdKey ==> Renamed(k) == k && k in Echoed(frame);
    }
    forall k | k in frame ensures again[k] == frame[k] {
      if k.Param? {
        assert Renamed(k) == k && k in Echoed(frame);
        var c :| c in frame && Renamed(c) == k && Echoed(frame)[k] == frame[c];
        assert c == k;
      }
    }
    assert again == frame;
  }

  /** A request built from caller parameters is clean exactly when no parameter has one of the
      names the client uses for itself, or a capital letter. */
  lemma CleanRequest(channel: Value, subId: Value, params: Object)
    ensures Clean(SubscribeFrame(channel, subId, params)) <==>
      && params.Keys !! {ChanIdKey, SnakeSubIdKey, PairKey, CurrencyKey}
      && forall k :: k in params && k.Param? ==> k.name !in OWN_NAMES && NoCapital(k.name)
    ensures Id(SubscribeFrame(channel, subId, params)) == subId
  {
    var frame := SubscribeFrame(channel, subId, params);
    assert frame.Keys == params.Keys + {EventKey, ChannelKey, SubIdKey};
    forall k | k in params && k.Param? ensures Renamed(k) == k <==> k.name !in OWN_NAMES && NoCapital(k.name) {
      ParamKept(k.name);
      OwnNames(k.name);
    }
  }

  lemma ParamKept(name: string)
    ensures Renamed(Param(name)) == Param(name) <==> KeyOf(name) == Param(name) && NoCapital(name)
  {
    SnakeKeeps(name);
    assert KeyOf(Snake(name)) == Param(name) ==> Snake(name) == name;
  }
}

/** The value of a bucket, and what each of its operations does to that value. */
module BucketState {
  import opened Frames

  const MAXIMUM_SUBSCRIPTIONS := 25

  /** One item of the insertion-ordered `__subscriptions` dictionary. */
  datatype Entry = Entry(chanId: nat, subscription: Subscription) {
    function SubId(): Value {
      subscription[SnakeSubIdKey]
    }
  }

  datatype Bucket = Bucket(
    pendings: seq<Frame>,
    subscriptions: seq<Entry>,
    cancellations: set<Value>,
    closing: bool,
    connections: nat)

  const EMPTY := Bucket([], [], {}, false, 0)

  /** Concatenates `f` over a sequence. */
  function FlatMap<T, U>(s: seq<T>, f: T -> seq<U>): seq<U> {
    if s == [] then [] else f(s[0]) + FlatMap(s[1..], f)
  }

  lemma {:induction false} FlatMapConcat<T, U>(a: seq<T>, b: seq<T>, f: T -> seq<U>)
    ensures FlatMap(a + b, f) == FlatMap(a, f) + FlatMap(b, f)
  {
    if a == [] {
      assert a + b == b;
    } else {
      FlatMapConcat(a[1..], b, f);
      assert (a + b)[1..] == a[1..] + b;
    }
  }

  lemma FlatMapOne<T, U>(x: T, f: T -> seq<U>)
    ensures FlatMap([x], f) == f(x)
  {
    assert FlatMap([x][1..], f) == [];
  }

  lemma {:induction false} FlatMapMember<T, U>(s: seq<T>, f: T -> seq<U>, x: U)
    ensures x in FlatMap(s, f) <==> exists i :: 0 <= i < |s| && x in f(s[i])
  {
    if s != [] {
      FlatMapMember(s[1..], f, x);
      assert forall i :: 0 <= i < |s| - 1 ==> s[1..][i] == s[i + 1];
    }
  }

  function ChanOf(e: Entry): seq<nat> {
    [e.chanId]
  }

  function RequestOf(e: Entry): seq<Frame> {
    [Reissue(e.subscription)]
  }

  /** The keys of the subscription dictionary. */
  function Chans(entries: seq<Entry>): seq<nat> {
    FlatMap(entries, ChanOf)
  }

  /** The requests that would bring the confirmed subscriptions back. */
  function Requests(entries: seq<Entry>): seq<Frame> {
    FlatMap(entries, RequestOf)
  }

  /** Every request a bucket stands for, confirmed or not. */
  function Held(b: Bucket): multiset<Frame> {
    multiset(b.pendings) + multiset(Requests(b.subscriptions))
  }

  function Count(b: Bucket): nat {
    |b.pendings| + |b.subscriptions|
  }

  predicate IsFull(b: Bucket) {
    Count(b) == MAXIMUM_SUBSCRIPTIONS
  }

  predicate Has(b: Bucket, id: Value) {
    || (exists i :: 0 <= i < |b.pendings| && Id(b.pendings[i]) == id)
    || (exists i :: 0 <= i < |b.subscriptions| && b.subscriptions[i].SubId() == id)
  }

  // ---- Operations ----

  function WithoutId(pendings: seq<Frame>, id: Value): seq<Frame> {
    if pendings == [] then []
    else if Id(pendings[0]) == id then WithoutId(pendings[1..], id)
    else [pendings[0]] + WithoutId(pendings[1..], id)
  }

  /** Removes the first pending request of `id`, if there is one. */
  function WithoutFirst(pendings: seq<Frame>, id: Value): seq<Frame> {
    if pendings == [] then []
    else if Id(pendings[0]) == id then pendings[1..]
    else [pendings[0]] + WithoutFirst(pendings[1..], id)
  }

  predicate IsPending(pendings: seq<Frame>, id: Value) {
    exists i :: 0 <= i < |pendings| && Id(pendings[i]) == id
  }

  /** Dictionary assignment: replaces in place, or appends. */
  function Put(entries: seq<Entry>, e: Entry): seq<Entry> {
    if entries == [] then [e]
    else if entries[0].chanId == e.chanId then [e] + entries[1..]
    else [entries[0]] + Put(entries[1..], e)
  }

  /** The `unsubscribe` loop over confirmed channels: each match is deleted, then its
      frame is sent; a send that finds the socket dead ends the loop. Returns what is
      left of the dictionary and the channels whose frames went out. */
  function DropEntries(entries: seq<Entry>, id: Value, ok: bool): (r: (seq<Entry>, seq<nat>)) {
    if entries == [] then ([], [])
    else if entries[0].SubId() == id then
      if ok then
        var (rest, chans) := DropEntries(entries[1..], id, ok);
        (rest, [entries[0].chanId] + chans)
      else (entries[1..], [])
    else
      var (rest, chans) := DropEntries(entries[1..], id, ok);
      ([entries[0]] + rest, chans)
  }

  function Subscribed(b: Bucket, frame: Frame): Bucket {
    b.(pendings := b.pendings + [frame])
  }

  /** The new value, and the channels an unsubscribe frame was sent for. */
  function Unsubscribed(b: Bucket, id: Value, ok: bool): (Bucket, seq<nat>) {
    if IsPending(b.pendings, id) then
      (b.(pendings := WithoutFirst(b.pendings, id), cancellations := b.cancellations + {id}), [])
    else
      var (rest, chans) := DropEntries(b.subscriptions, id, ok);
      (b.(subscriptions := rest), chans)
  }

  /** The new value, the channels an unsubscribe frame was tried for, and whether
      "subscribed" was emitted. */
  function Confirmed(b: Bucket, chanId: nat, subscription: Subscription): (Bucket, seq<nat>, bool) {
    var id := subscription[SnakeSubIdKey];
    var pendings := WithoutId(b.pendings, id);
    if id in b.cancellations then
      (b.(pendings := pendings, cancellations := b.cancellations - {id}), [chanId], false)
    else
      (b.(pendings := pendings, subscriptions := Put(b.subscriptions, Entry(chanId, subscription))), [], true)
  }

  /** The part of `__recover_state` before its first send. */
  function Recovering(b: Bucket): Bucket {
    b.(cancellations := {}, pendings := b.pendings + Requests(b.subscriptions), subscriptions := [])
  }

  /** The subscription a data frame of channel `chanId` is handed to, if any: channel 0
      is never looked up. */
  function Route(entries: seq<Entry>, chanId: nat): seq<Subscription> {
    if chanId == 0 || entries == [] then []
    else if entries[0].chanId == chanId then [entries[0].subscription]
    else Route(entries[1..], chanId)
  }

  // ---- Facts about the operations ----

  /** No two requests of the bag share a sub_id, and none is there twice. */
  predicate Unique(m: multiset<Frame>) {
    && (forall f :: f in m ==> m[f] == 1)
    && (forall f, g :: f in m && g in m && Id(f) == Id(g) ==> f == g)
  }

  lemma {:induction false} WithoutIdBag(pendings: seq<Frame>, id: Value, f: Frame)
    ensures multiset(WithoutId(pendings, id))[f] == if Id(f) == id then 0 else multiset(pendings)[f]
  {
    if pendings != [] {
      assert pendings == [pendings[0]] + pendings[1..];
      WithoutIdBag(pendings[1..], id, f);
    }
  }

  lemma {:induction false} WithoutFirstBag(pendings: seq<Frame>, id: Value, f: Frame)
    requires f in pendings && Id(f) == id
    requires forall g :: g in pendings && Id(g) == id ==> g == f
    ensures multiset(WithoutFirst(pendings, id)) == multiset(pendings) - multiset{f}
  {
    assert pendings == [pendings[0]] + pendings[1..];
    if Id(pendings[0]) != id {
      WithoutFirstBag(pendings[1..], id, f);
    }
  }

  lemma {:induction false} WithoutIdSize(pendings: seq<Frame>, id: Value)
    ensures |WithoutId(pendings, id)| <= |pendings|
    ensures IsPending(pendings, id) ==> |WithoutId(pendings, id)| < |pendings|
    ensures |WithoutFirst(pendings, id)| == |pendings| - if IsPending(pendings, id) then 1 else 0
  {
    if pendings != [] {
      WithoutIdSize(pendings[1..], id);
      assert IsPending(pendings, id) <==> Id(pendings[0]) == id || IsPending(pendings[1..], id) by {
        if IsPending(pendings[1..], id) {
          var i :| 0 <= i < |pendings[1..]| && Id(pendings[1..][i]) == id;
          assert Id(pendings[i + 1]) == id;
        }
        if IsPending(pendings, id) && Id(pendings[0]) != id {
          var i :| 0 <= i < |pendings| && Id(pendings[i]) == id;
          assert Id(pendings[1..][i - 1]) == id;
        }
      }
    }
  }

  /** Assigning an unused channel appends. */
  lemma {:induction false} PutAppends(entries: seq<Entry>, e: Entry)
    requires e.chanId !in Chans(entries)
    ensures Put(entries, e) == entries + [e]
  {
    if entries != [] {
      PutAppends(entries[1..], e);
    }
  }

  /** The channels that left the dictionary are those a frame went out for, in order. */
  lemma {:induction false} DropEntriesChans(entries: seq<Entry>, id: Value)
    ensures multiset(Chans(entries))
         == multiset(Chans(DropEntries(entries, id, true).0)) + multiset(DropEntries(entries, id, true).1)
  {
    if entries != [] {
      DropEntriesChans(entries[1..], id);
    }
  }

  lemma {:induction false} DropEntriesShrinks(entries: seq<Entry>, id: Value, ok: bool)
    ensures multiset(Chans(DropEntries(entries, id, ok).0)) <= multiset(Chans(entries))
    ensures |DropEntries(entries, id, ok).0| <= |entries|
  {
    if entries != [] {
      DropEntriesShrinks(entries[1..], id, ok);
      assert multiset(Chans(entries)) == multiset{entries[0].chanId} + multiset(Chans(entries[1..]));
      var rest := DropEntries(entries[1..], id, ok).0;
      assert Chans([entries[0]] + rest) == [entries[0].chanId] + Chans(rest);
      assert multiset([entries[0].chanId] + Chans(rest)) == multiset{entries[0].chanId} + multiset(Chans(rest));
    }
  }

  lemma UniqueSubBag(m: multiset<Frame>, n: multiset<Frame>)
    requires Unique(m) && n <= m
    ensures Unique(n)
  {
    forall f | f in n ensures n[f] == 1 {
      assert f in m;
    }
    forall f, g | f in n && g in n && Id(f) == Id(g) ensures f == g {
      assert f in m && g in m;
    }
  }

  lemma UniqueHead(first: Frame, tail: multiset<Frame>)
    requires Unique(multiset{first} + tail)
    ensures forall g :: g in tail ==> Id(g) != Id(first)
  {
    var m := multiset{first} + tail;
    forall g | g in tail ensures Id(g) != Id(first) {
      assert g in m && first in m && m[g] == 1;
    }
  }

  /** With distinct sub_ids, dropping an id takes away exactly its own request. */
  lemma {:induction false} DropEntriesRequests(entries: seq<Entry>, id: Value, ok: bool, f: Frame)
    requires Unique(multiset(Requests(entries)))
    ensures multiset(Requests(DropEntries(entries, id, ok).0))[f]
         == if Id(f) == id then 0 else multiset(Requests(entries))[f]
  {
    if entries != [] {
      var first := Reissue(entries[0].subscription);
      var tail := Requests(entries[1..]);
      assert Id(first) == entries[0].SubId();
      assert Requests(entries) == [first] + tail;
      assert multiset(Requests(entries)) == multiset{first} + multiset(tail);
      UniqueSubBag(multiset(Requests(entries)), multiset(tail));
      DropEntriesRequests(entries[1..], id, ok, f);
      var rest := DropEntries(entries[1..], id, ok).0;
      assert Requests([entries[0]] + rest) == [first] + Requests(rest);
      UniqueHead(first, multiset(tail));
    }
  }

  lemma {:induction false} RequestsLength(entries: seq<Entry>)
    ensures |Requests(entries)| == |entries|
  {
    if entries != [] {
      RequestsLength(entries[1..]);
    }
  }

  lemma {:induction false} DroppedIdIsGone(entries: seq<Entry>, id: Value)
    ensures forall e :: e in DropEntries(entries, id, true).0 ==> e.SubId() != id
  {
    if entries != [] {
      DroppedIdIsGone(entries[1..], id);
    }
  }
}

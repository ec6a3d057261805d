/** One bucket's supervisor: when it gives up, and how long it sleeps between attempts. */
module GiveUp {
  import opened Lifecycle
  import Delay

  const BUCKET_RESTART_LIMIT := 5

  /** How `bucket.start()` ended. */
  datatype Ending =
    | Returned
    | Dropped(error: Lifecycle.Error)
    | Unexpected

  /** One attempt: how it ended, and what the bucket then says of its sockets. Its uptime is
      counted from the last socket that opened, be it this attempt's or an earlier one's. */
  datatype Outcome = Outcome(ending: Ending, connections: nat, uptime: real)

  /** A failure that counts: a bug, or a refusal the server means. */
  predicate Fails(o: Outcome) {
    match o.ending
    case Returned => false
    case Dropped(e) => e.InvalidStatus? && !IsRetryableStatus(e.status)
    case Unexpected => true
  }

  /** The endings that count, spelled out: neither a return nor a lost socket, nor a refusal that
      asks to come back later. */
  predicate Counts(e: Ending) {
    match e
    case Returned => false
    case Dropped(ConnectionClosed(_)) => false
    case Dropped(OSError) => false
    case Dropped(InvalidMessage) => false
    case Dropped(InvalidStatus(status)) => status != 408 && status != 429 && !(500 <= status <= 599)
    case Unexpected => true
  }

  /** `first` is the bucket's number of sockets when the supervisor began. */
  predicate OpenedAt(first: nat, outcomes: seq<Outcome>, i: nat)
    requires i < |outcomes|
  {
    outcomes[i].connections > if i == 0 then first else outcomes[i - 1].connections
  }

  predicate StableAt(first: nat, outcomes: seq<Outcome>, i: nat)
    requires i < |outcomes|
  {
    OpenedAt(first, outcomes, i) && outcomes[i].uptime >= 30.0
  }

  /** The failures among the first `n` attempts that no stable run has followed, or ended in. */
  ghost function Standing(first: nat, outcomes: seq<Outcome>, n: nat): set<nat>
    requires n <= |outcomes|
  {
    set j: nat | j < n && Counts(outcomes[j].ending) && forall k: nat :: j <= k < n ==> !StableAt(first, outcomes, k)
  }

  lemma StandingAfter(first: nat, outcomes: seq<Outcome>, n: nat)
    requires n < |outcomes| && !StableAt(first, outcomes, n)
    ensures Standing(first, outcomes, n + 1) ==
      Standing(first, outcomes, n) + if Counts(outcomes[n].ending) then {n} else {}
  {
    var before, after := Standing(first, outcomes, n), Standing(first, outcomes, n + 1);
    forall j ensures j in after <==> j in before || (j == n && Counts(outcomes[n].ending)) {
    }
  }

  lemma NothingStands(first: nat, outcomes: seq<Outcome>, n: nat)
    requires n < |outcomes| && StableAt(first, outcomes, n)
    ensures Standing(first, outcomes, n + 1) == {}
  {
    assert StableAt(first, outcomes, n);
  }

  /** The counter as the supervisor keeps it; `TallyIsHistory` says what it counts. */
  function Tally(first: nat, outcomes: seq<Outcome>, n: nat): nat
    requires n <= |outcomes|
  {
    if n == 0 || StableAt(first, outcomes, n - 1) then 0
    else Tally(first, outcomes, n - 1) + if Fails(outcomes[n - 1]) then 1 else 0
  }

  lemma {:induction false} TallyIsHistory(first: nat, outcomes: seq<Outcome>, n: nat)
    requires n <= |outcomes|
    ensures Tally(first, outcomes, n) == |Standing(first, outcomes, n)|
  {
    if n == 0 {
      assert Standing(first, outcomes, 0) == {};
    } else if StableAt(first, outcomes, n - 1) {
      NothingStands(first, outcomes, n - 1);
    } else {
      TallyIsHistory(first, outcomes, n - 1);
      StandingAfter(first, outcomes, n - 1);
    }
  }

  /** Attempts since the last stable run, that run's own included: none of them reset the
      backoff but the first. */
  function Since(first: nat, outcomes: seq<Outcome>, i: nat): nat
    requires i < |outcomes|
  {
    if i == 0 || StableAt(first, outcomes, i) then 0 else Since(first, outcomes, i - 1) + 1
  }

  lemma {:induction false} SinceIsTheDistance(first: nat, outcomes: seq<Outcome>, i: nat)
    requires i < |outcomes|
    ensures Since(first, outcomes, i) <= i
    ensures forall k :: i - Since(first, outcomes, i) < k <= i ==> !StableAt(first, outcomes, k)
    ensures Since(first, outcomes, i) < i ==> StableAt(first, outcomes, i - Since(first, outcomes, i))
  {
    if i > 0 && !StableAt(first, outcomes, i) {
      SinceIsTheDistance(first, outcomes, i - 1);
    }
  }

  /** Endings that all count, and no stable run: each is one more. */
  lemma {:induction false} AllCount(first: nat, outcomes: seq<Outcome>, n: nat)
    requires n <= |outcomes|
    requires forall i :: 0 <= i < n ==> Counts(outcomes[i].ending) && !StableAt(first, outcomes, i)
    ensures Tally(first, outcomes, n) == n
  {
    if n > 0 {
      AllCount(first, outcomes, n - 1);
    }
  }

  lemma {:induction false} NoneCounts(first: nat, outcomes: seq<Outcome>, n: nat)
    requires n <= |outcomes| && forall i :: 0 <= i < n ==> !Counts(outcomes[i].ending)
    ensures Tally(first, outcomes, n) == 0
  {
    if n > 0 {
      NoneCounts(first, outcomes, n - 1);
    }
  }

  /** What the counter decides, in terms of the failures that stand. */
  lemma Verdict(first: nat, outcomes: seq<Outcome>, gaveUp: bool, attempts: nat)
    requires attempts <= |outcomes| && (!gaveUp ==> attempts == |outcomes|)
    requires gaveUp ==> Tally(first, outcomes, attempts) == 5
    requires forall n: nat :: n < attempts || (n == attempts && !gaveUp) ==> Tally(first, outcomes, n) < 5
    ensures gaveUp ==> |Standing(first, outcomes, attempts)| == 5
    ensures forall n: nat :: n < attempts || (n == attempts && !gaveUp) ==> |Standing(first, outcomes, n)| < 5
    ensures (forall i :: 0 <= i < |outcomes| ==> !Counts(outcomes[i].ending)) ==> !gaveUp
    ensures
      |outcomes| >= 5 && (forall i :: 0 <= i < 5 ==> Counts(outcomes[i].ending) && !StableAt(first, outcomes, i))
      ==> gaveUp && attempts == 5
  {
    forall n: nat | n <= attempts ensures |Standing(first, outcomes, n)| == Tally(first, outcomes, n) {
      TallyIsHistory(first, outcomes, n);
    }
    if forall i :: 0 <= i < |outcomes| ==> !Counts(outcomes[i].ending) {
      NoneCounts(first, outcomes, attempts);
    }
    if |outcomes| >= 5 && forall i :: 0 <= i < 5 ==> Counts(outcomes[i].ending) && !StableAt(first, outcomes, i) {
      AllCount(first, outcomes, 5);
      if attempts < 5 {
        AllCount(first, outcomes, attempts);
      }
    }
  }

  /** `__supervise`, over the outcomes of the attempts it makes; they run out when the bucket is
      done. It gives up at the first attempt after which five failures stand, and only then: never
      for drops alone, at the fifth for five counted failures without a stable run. After every
      other attempt it sleeps the next delay of a backoff that each stable run resets. */
  method Supervise(first: nat, outcomes: seq<Outcome>, initial: real)
    returns (gaveUp: bool, attempts: nat, sleeps: seq<real>)
    ensures attempts <= |outcomes| && (!gaveUp ==> attempts == |outcomes|)
    ensures gaveUp ==> |Standing(first, outcomes, attempts)| == 5
    ensures forall n: nat :: n < attempts || (n == attempts && !gaveUp) ==> |Standing(first, outcomes, n)| < 5
    ensures (forall i :: 0 <= i < |outcomes| ==> !Counts(outcomes[i].ending)) ==> !gaveUp
    ensures
      |outcomes| >= 5 && (forall i :: 0 <= i < 5 ==> Counts(outcomes[i].ending) && !StableAt(first, outcomes, i))
      ==> gaveUp && attempts == 5
    ensures |sleeps| == if gaveUp then attempts - 1 else attempts
    ensures forall i :: 0 <= i < |sleeps| ==> sleeps[i] == Delay.DelayAt(initial, Since(first, outcomes, i))
  {
    var delay := new Delay.DelayTimer(initial);
    var connections := first;
    var failures := 0;
    gaveUp, attempts, sleeps := false, 0, [];
    while attempts < |outcomes|
      invariant attempts <= |outcomes|
      invariant |sleeps| == attempts && !gaveUp
      invariant connections == if attempts == 0 then first else outcomes[attempts - 1].connections
      invariant failures == Tally(first, outcomes, attempts)
      invariant forall n: nat :: n <= attempts ==> Tally(first, outcomes, n) < BUCKET_RESTART_LIMIT
      invariant fresh(delay) && delay.Valid() && delay.initialDelay == initial
      invariant delay.drawn == if attempts == 0 then 0 else Since(first, outcomes, attempts - 1) + 1
      invariant forall i :: 0 <= i < attempts ==> sleeps[i] == Delay.DelayAt(initial, Since(first, outcomes, i))
    {
      var outcome := outcomes[attempts];
      var stable := outcome.connections > connections && outcome.uptime >= STABLE_CONNECTION_TIME;
      assert stable == StableAt(first, outcomes, attempts);
      connections := outcome.connections;
      attempts := attempts + 1;
      if stable {
        delay.Reset();
        failures := 0;
      } else if Fails(outcome) {
        failures := failures + 1;
        if failures >= BUCKET_RESTART_LIMIT {
          gaveUp := true;
          Verdict(first, outcomes, gaveUp, attempts);
          return;
        }
      }
      var sleep := delay.Next();
      sleeps := sleeps + [sleep];
    }
    Verdict(first, outcomes, gaveUp, attempts);
  }
}

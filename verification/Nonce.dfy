/** The process-wide nonce generator. */
module Nonce {
  import opened Options

  function Next(last: int, clock: int): int {
    if clock <= last then last + 1 else clock
  }

  /** The nonces issued for successive clock readings, in the order the lock was taken; which
      thread drew each makes no difference. */
  function Issued(start: int, clocks: seq<int>): (nonces: seq<int>)
    ensures |nonces| == |clocks|
  {
    if clocks == [] then []
    else
      var before := Issued(start, clocks[..|clocks| - 1]);
      before + [Next(Last(start, before), clocks[|clocks| - 1])]
  }

  function Last(start: int, nonces: seq<int>): int {
    if nonces == [] then start else nonces[|nonces| - 1]
  }

  /** `m` is the greatest of start + k + 1 and of clock_i + (k - i) for every i up to k. */
  predicate IsCeiling(start: int, clocks: seq<int>, k: nat, m: int)
    requires k < |clocks|
  {
    && m >= start + k + 1
    && (forall i :: 0 <= i <= k ==> m >= clocks[i] + (k - i))
    && (m == start + k + 1 || exists i :: 0 <= i <= k && m == clocks[i] + (k - i))
  }

  lemma IssuedPrefix(start: int, clocks: seq<int>, clock: int)
    ensures Issued(start, clocks + [clock]) == Issued(start, clocks) + [Next(Last(start, Issued(start, clocks)), clock)]
  {
    assert (clocks + [clock])[..|clocks|] == clocks;
  }

  /** For any clock, even one that goes backwards: the n-th nonce is as small as the clock
      readings and the earlier nonces allow, and no smaller. */
  lemma {:induction false} NonceIsCeiling(start: int, clocks: seq<int>, k: nat)
    requires k < |clocks|
    ensures IsCeiling(start, clocks, k, Issued(start, clocks)[k])
    decreases |clocks|
  {
    var n := |clocks| - 1;
    var before := clocks[..n];
    assert clocks == before + [clocks[n]];
    IssuedPrefix(start, before, clocks[n]);
    if k < n {
      NonceIsCeiling(start, before, k);
      var m := Issued(start, before)[k];
      if i :| 0 <= i <= k && m == before[i] + (k - i) {
        assert m == clocks[i] + (k - i);
      }
      assert forall i :: 0 <= i <= k ==> clocks[i] == before[i];
    } else if n > 0 {
      NonceIsCeiling(start, before, n - 1);
      var last := Issued(start, before)[n - 1];
      var m := Issued(start, clocks)[n];
      assert m == Next(last, clocks[n]);
      forall i | 0 <= i <= n ensures m >= clocks[i] + (n - i) {
        if i < n {
          assert last >= before[i] + (n - 1 - i);
        }
      }
      if m == clocks[n] {
        assert m == clocks[n] + (n - n);
      } else if last != start + n {
        var i :| 0 <= i <= n - 1 && last == before[i] + (n - 1 - i);
        assert m == clocks[i] + (n - i);
      }
    } else {
      assert clocks[0] + (0 - 0) == clocks[0];
    }
  }

  lemma {:induction false} NoncesIncrease(start: int, clocks: seq<int>, i: nat, j: nat)
    requires i < j < |clocks|
    ensures start < Issued(start, clocks)[i] < Issued(start, clocks)[j]
    decreases j
  {
    NonceIsCeiling(start, clocks, i);
    StepUp(start, clocks, j - 1);
    if i < j - 1 {
      NoncesIncrease(start, clocks, i, j - 1);
    }
  }

  lemma {:induction false} StepUp(start: int, clocks: seq<int>, k: nat)
    requires k + 1 < |clocks|
    ensures Issued(start, clocks)[k] < Issued(start, clocks)[k + 1]
    decreases |clocks|
  {
    var n := |clocks| - 1;
    assert clocks == clocks[..n] + [clocks[n]];
    IssuedPrefix(start, clocks[..n], clocks[n]);
    if k + 1 < n {
      StepUp(start, clocks[..n], k);
    }
  }

  /** What a nonce provider did. A bool is not an int here. */
  datatype Answer =
    | Raised
    | NotAnInt
    | Unconvertible
    | Int(value: int)

  /** The lock serialises the calls: one call is one step. */
  class NonceGenerator {
    var last: int
    ghost var clocks: seq<int>  // the readings so far, in microseconds

    ghost predicate Valid()
      reads this
    {
      last == Last(0, Issued(0, clocks))
    }

    constructor ()
      ensures Valid() && clocks == []
    {
      last, clocks := 0, [];
    }

    method NextNonce(nanoseconds: int) returns (nonce: int)
      requires Valid()
      modifies this
      ensures Valid() && clocks == old(clocks) + [nanoseconds / 1000]
      ensures nonce == Issued(0, clocks)[|clocks| - 1] && last == nonce
      ensures nonce > old(last)
    {
      var candidate := nanoseconds / 1000;
      IssuedPrefix(0, clocks, candidate);
      if candidate <= last {
        candidate := last + 1;
      }
      last := candidate;
      clocks := clocks + [nanoseconds / 1000];
      nonce := candidate;
    }

    /** None is NonceProviderError. A provider draws nothing from the generator. */
    method ResolveNonce(provider: Option<Answer>, nanoseconds: int) returns (nonce: Option<int>)
      requires Valid()
      modifies this
      ensures Valid()
      ensures provider.Some? ==> last == old(last) && clocks == old(clocks)
      ensures provider.Some? ==>
        nonce == if provider.value.Int? && provider.value.value >= 1 then Some(provider.value.value) else None
      ensures provider.None? ==> nonce == Some(last) && last > old(last) && clocks == old(clocks) + [nanoseconds / 1000]
    {
      if provider.None? {
        var drawn := NextNonce(nanoseconds);
        return Some(drawn);
      }
      match provider.value
      case Int(value) => nonce := if value <= 0 then None else Some(value);
      case _ => nonce := None;
    }
  }
}

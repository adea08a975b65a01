/** The bounded retry loop shared by both kinds of target:

      for (retry = 0; retry < maxRetry; ++retry) { probe; if (success) break; }

    `ok[k]` is whether the (k+1)-th probe call succeeds. */
module Retry {

  function Max0(n: int): nat {
    if n > 0 then n else 0
  }

  /** Number of probe calls the loop makes with `maxRetry` = n. */
  function CallsMade(ok: seq<bool>, n: int): (c: nat)
    requires n <= |ok|
    ensures c <= Max0(n)
    ensures c == 0 <==> n <= 0
  {
    if n <= 0 then 0
    else if ok[0] then 1
    else 1 + CallsMade(ok[1..], n - 1)
  }

  /** Reference definition: one of the first n attempts succeeds. */
  predicate Succeeded(ok: seq<bool>, n: int) {
    exists k :: 0 <= k < n && k < |ok| && ok[k]
  }

  /** When attempt k is the first success, exactly k + 1 calls are made. */
  lemma {:induction false} FirstSuccessCalls(ok: seq<bool>, n: int, k: nat)
    requires n <= |ok| && k < n && ok[k]
    requires forall j :: 0 <= j < k ==> !ok[j]
    ensures CallsMade(ok, n) == k + 1
    ensures Succeeded(ok, n)
  {
    if k > 0 {
      assert !ok[0];
      forall j | 0 <= j < k - 1 ensures !ok[1..][j] {
        assert ok[1..][j] == ok[j + 1];
      }
      FirstSuccessCalls(ok[1..], n - 1, k - 1);
    }
  }

  /** When every attempt fails, the loop runs to its bound. */
  lemma {:induction false} AllFailCalls(ok: seq<bool>, n: int)
    requires n <= |ok|
    requires forall j :: 0 <= j < n ==> !ok[j]
    ensures CallsMade(ok, n) == Max0(n)
    ensures !Succeeded(ok, n)
  {
    if n > 0 {
      forall j | 0 <= j < n - 1 ensures !ok[1..][j] {
        assert ok[1..][j] == ok[j + 1];
      }
      AllFailCalls(ok[1..], n - 1);
    }
  }

  /** No call follows a success, and the outcome of the whole loop is the
      outcome of the last call it made. */
  lemma {:induction false} LastCallDecides(ok: seq<bool>, n: int)
    requires n <= |ok|
    ensures forall j :: 0 <= j < CallsMade(ok, n) - 1 ==> !ok[j]
    ensures CallsMade(ok, n) > 0 ==> (Succeeded(ok, n) <==> ok[CallsMade(ok, n) - 1])
  {
    if n > 0 && !ok[0] {
      var c := CallsMade(ok[1..], n - 1);
      LastCallDecides(ok[1..], n - 1);
      forall j | 0 <= j < c ensures !ok[j] {
        if j > 0 { assert ok[j] == ok[1..][j - 1]; }
      }
      if c > 0 {
        assert ok[c] == ok[1..][c - 1];
        if Succeeded(ok[1..], n - 1) {
          var k :| 0 <= k < n - 1 && k < |ok[1..]| && ok[1..][k];
          assert ok[k + 1];
        }
        if Succeeded(ok, n) {
          var k :| 0 <= k < n && k < |ok| && ok[k];
          assert ok[1..][k - 1];
        }
      } else {
        assert !Succeeded(ok, n) by {
          forall k | 0 <= k < n && k < |ok| ensures !ok[k] { }
        }
      }
    }
  }
}

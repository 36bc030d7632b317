/**
  The one specification behind the three retry loops of the platform: stop at the
  first outcome that is not worth retrying, or when the attempts are used up.
 */
module Retry {
  /** How many outcomes of `script` are read. */
  function Used<T>(script: seq<T>, attempts: nat, retryable: T -> bool): (n: nat)
    requires 1 <= attempts <= |script|
    ensures 1 <= n <= attempts
  {
    if attempts == 1 || !retryable(script[0]) then 1
    else 1 + Used(script[1..], attempts - 1, retryable)
  }

  /** `outs`, the outcomes read in order, end where the loop must stop: all but
      the last were worth retrying, and the last only if it was the last allowed. */
  ghost predicate StopsRight<T>(outs: seq<T>, attempts: int, retryable: T -> bool) {
    && 1 <= |outs| <= attempts
    && (forall i :: 0 <= i < |outs| - 1 ==> retryable(outs[i]))
    && (retryable(outs[|outs| - 1]) ==> |outs| == attempts)
  }

  /** The property fixes the place: there is one right prefix of every script. */
  lemma {:induction false} StopsRightIsUsed<T>(script: seq<T>, n: nat, attempts: nat, retryable: T -> bool)
    requires 1 <= attempts <= |script| && n <= |script|
    ensures StopsRight(script[..n], attempts, retryable) <==> n == Used(script, attempts, retryable)
    decreases attempts
  {
    if attempts > 1 && retryable(script[0]) && n > 0 {
      var rest := script[1..];
      StopsRightIsUsed(rest, n - 1, attempts - 1, retryable);
      var outs, tail := script[..n], rest[..n - 1];
      assert forall i :: 0 <= i < |tail| ==> tail[i] == outs[i + 1];
      assert StopsRight(outs, attempts, retryable) ==> n > 1 && StopsRight(tail, attempts - 1, retryable);
      assert n > 1 && StopsRight(tail, attempts - 1, retryable) ==> StopsRight(outs, attempts, retryable) by {
        forall i | n > 1 && StopsRight(tail, attempts - 1, retryable) && 0 <= i < |outs| - 1
          ensures retryable(outs[i])
        {
          assert i > 0 ==> outs[i] == tail[i - 1];
        }
      }
    } else if n > 0 {
      assert script[..n][0] == script[0];
    }
  }

  /** Two loops that allow the same number of attempts and retry the same outcomes
      read equally many outcomes of any script. */
  lemma {:induction false} SamePredicateSameUse<T>(script: seq<T>, attempts: nat, p: T -> bool, q: T -> bool)
    requires 1 <= attempts <= |script|
    requires forall i :: 0 <= i < |script| ==> p(script[i]) == q(script[i])
    ensures Used(script, attempts, p) == Used(script, attempts, q)
    decreases attempts
  {
    if attempts > 1 {
      SamePredicateSameUse(script[1..], attempts - 1, p, q);
    }
  }

  /** 2^n */
  function Pow2(n: nat): nat {
    if n == 0 then 1 else 2 * Pow2(n - 1)
  }

  lemma {:induction false} Pow2Monotone(m: nat, n: nat)
    requires m <= n
    ensures Pow2(m) <= Pow2(n)
    decreases n
  {
    if m < n {
      Pow2Monotone(m, n - 1);
    }
  }
}

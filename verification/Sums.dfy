/** Sums over finite sets and what the accounting proofs need of them. */
module Sums {
  /** The sum of f over the keys in S. */
  ghost function SetSum(S: set<nat>, f: map<nat, int>): int
    requires S <= f.Keys
  {
    if S == {} then 0 else var x :| x in S; f[x] + SetSum(S - {x}, f)
  }

  /** The order in which SetSum picks its elements does not matter. */
  lemma SetSumSplit(S: set<nat>, f: map<nat, int>, y: nat)
    requires S <= f.Keys && y in S
    ensures SetSum(S, f) == f[y] + SetSum(S - {y}, f)
    decreases S
  {
    var x :| x in S && SetSum(S, f) == f[x] + SetSum(S - {x}, f);
    if x != y {
      SetSumSplit(S - {x}, f, y);
      SetSumSplit(S - {y}, f, x);
      assert S - {x} - {y} == S - {y} - {x};
    }
  }

  lemma SetSumUnion(A: set<nat>, B: set<nat>, f: map<nat, int>)
    requires A <= f.Keys && B <= f.Keys && A !! B
    ensures SetSum(A + B, f) == SetSum(A, f) + SetSum(B, f)
    decreases A
  {
    if A == {} {
      assert A + B == B;
    } else {
      var x :| x in A;
      SetSumSplit(A, f, x);
      SetSumSplit(A + B, f, x);
      assert A + B - {x} == (A - {x}) + B;
      SetSumUnion(A - {x}, B, f);
    }
  }

  lemma SetSumNonNegative(S: set<nat>, f: map<nat, int>)
    requires S <= f.Keys && forall x :: x in S ==> f[x] >= 0
    ensures SetSum(S, f) >= 0
    decreases S
  {
    if S != {} {
      var x :| x in S;
      SetSumSplit(S, f, x);
      SetSumNonNegative(S - {x}, f);
    }
  }

  lemma SetSumSubset(A: set<nat>, B: set<nat>, f: map<nat, int>)
    requires A <= B <= f.Keys && forall x :: x in B ==> f[x] >= 0
    ensures SetSum(A, f) <= SetSum(B, f)
  {
    SetSumUnion(A, B - A, f);
    assert A + (B - A) == B;
    SetSumNonNegative(B - A, f);
  }

  lemma SetSumSame(S: set<nat>, f: map<nat, int>, g: map<nat, int>)
    requires S <= f.Keys && S <= g.Keys && forall x :: x in S ==> f[x] == g[x]
    ensures SetSum(S, f) == SetSum(S, g)
    decreases S
  {
    if S != {} {
      var x :| x in S;
      SetSumSplit(S, f, x);
      SetSumSplit(S, g, x);
      SetSumSame(S - {x}, f, g);
    }
  }

  /** Renaming the summands along an injective map keeps the sum. */
  lemma SetSumRenamed(S: set<nat>, f: map<nat, int>, name: map<nat, nat>, g: map<nat, int>) returns (T: set<nat>)
    requires S <= f.Keys && S <= name.Keys
    requires forall x :: x in S ==> name[x] in g && g[name[x]] == f[x]
    requires forall x, y :: x in S && y in S && name[x] == name[y] ==> x == y
    ensures T == set x | x in S :: name[x]
    ensures T <= g.Keys && SetSum(S, f) == SetSum(T, g)
    decreases S
  {
    if S == {} {
      T := {};
    } else {
      var x :| x in S;
      var T' := SetSumRenamed(S - {x}, f, name, g);
      T := T' + {name[x]};
      SetSumSplit(S, f, x);
      SetSumSplit(T, g, name[x]);
      assert T - {name[x]} == T';
    }
  }

  lemma SubsetSize<T>(A: set<T>, B: set<T>)
    requires A <= B
    ensures |A| <= |B|
  {
    if A != {} {
      var x :| x in A;
      SubsetSize(A - {x}, B - {x});
    }
  }

  /** A set that is injected into [0, n) has at most n elements. */
  lemma InjectionBound(S: set<nat>, slot: map<nat, nat>, n: nat)
    requires S <= slot.Keys
    requires forall x :: x in S ==> slot[x] < n
    requires forall x, y :: x in S && y in S && slot[x] == slot[y] ==> x == y
    ensures |S| <= n
    decreases n
  {
    if n == 0 {
      assert forall x :: x !in S;
    } else if x :| x in S && slot[x] == n - 1 {
      InjectionBound(S - {x}, slot, n - 1);
    } else {
      InjectionBound(S, slot, n - 1);
    }
  }

  lemma SetSumBound(S: set<nat>, f: map<nat, int>, bound: nat)
    requires S <= f.Keys && forall x :: x in S ==> f[x] <= bound
    ensures SetSum(S, f) <= |S| * bound
    decreases S
  {
    if S != {} {
      var x :| x in S;
      SetSumSplit(S, f, x);
      SetSumBound(S - {x}, f, bound);
      Successor(|S - {x}|, bound);
    }
  }

  lemma Successor(n: nat, bound: nat)
    ensures (n + 1) * bound == n * bound + bound
  {
  }
}

/** Two orders of the same elements. */
module Permutations {

  lemma {:induction false} TwoCopies<T>(a: seq<T>, x: T) returns (j: nat, k: nat)
    requires multiset(a)[x] >= 2
    ensures j < |a| && k < |a| && j != k && a[j] == x && a[k] == x
    decreases |a|
  {
    assert a == a[..|a| - 1] + [a[|a| - 1]];
    if a[|a| - 1] == x {
      assert x in multiset(a[..|a| - 1]);
      j :| 0 <= j < |a| - 1 && a[..|a| - 1][j] == x;
      k := |a| - 1;
    } else {
      j, k := TwoCopies(a[..|a| - 1], x);
    }
  }

  /** Two positions of one order have two distinct positions of the other with the same elements. */
  lemma PairIn<T>(a: seq<T>, b: seq<T>, j: nat, k: nat) returns (j': nat, k': nat)
    requires multiset(a) == multiset(b) && j < |b| && k < |b| && j != k
    ensures j' < |a| && k' < |a| && j' != k' && a[j'] == b[j] && a[k'] == b[k]
  {
    if b[j] == b[k] {
      TwoAtLeast(b, j, k);
      j', k' := TwoCopies(a, b[j]);
    } else {
      assert b[j] in multiset(a) && b[k] in multiset(a);
      j' :| 0 <= j' < |a| && a[j'] == b[j];
      k' :| 0 <= k' < |a| && a[k'] == b[k];
    }
  }

  lemma {:induction false} TwoAtLeast<T>(b: seq<T>, j: nat, k: nat)
    requires j < |b| && k < |b| && j != k && b[j] == b[k]
    ensures multiset(b)[b[j]] >= 2
  {
    var low, high := if j < k then j else k, if j < k then k else j;
    assert b == b[..high] + b[high..];
    assert b[..high][low] == b[j] && b[high..][0] == b[j];
    assert b[j] in multiset(b[..high]) && b[j] in multiset(b[high..]);
  }

  lemma SameMembers<T>(a: seq<T>, b: seq<T>)
    requires multiset(a) == multiset(b)
    ensures |a| == |b|
    ensures forall x :: x in a <==> x in b
  {
    assert |a| == |multiset(a)| == |multiset(b)| == |b|;
    forall x ensures x in a <==> x in b {
      assert x in a <==> x in multiset(a);
      assert x in b <==> x in multiset(b);
    }
  }

  lemma Without<T>(a: seq<T>, k: nat)
    requires k < |a|
    ensures multiset(a[..k] + a[k + 1..]) == multiset(a) - multiset{a[k]}
  {
    assert a == a[..k] + [a[k]] + a[k + 1..];
  }

  lemma SameTails<T>(a: seq<T>, b: seq<T>)
    requires multiset(a) == multiset(b) && a != [] && b != [] && a[0] == b[0]
    ensures multiset(a[1..]) == multiset(b[1..])
  {
    assert a == [a[0]] + a[1..] && b == [b[0]] + b[1..];
    assert multiset(a) == multiset{a[0]} + multiset(a[1..]);
    assert multiset(b) == multiset{b[0]} + multiset(b[1..]);
    forall x ensures multiset(a[1..])[x] == multiset(b[1..])[x] {
      assert multiset(a)[x] == multiset{a[0]}[x] + multiset(a[1..])[x];
      assert multiset(b)[x] == multiset{b[0]}[x] + multiset(b[1..])[x];
    }
  }
}

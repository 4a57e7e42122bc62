/** Sums over finite sets of ids. */
module Totals {

  ghost function Total(keys: set<nat>, f: nat -> int): int {
    if keys == {} then 0 else
      var k :| k in keys;
      f(k) + Total(keys - {k}, f)
  }

  lemma {:induction false} TotalPick(keys: set<nat>, f: nat -> int, k: nat)
    requires k in keys
    ensures Total(keys, f) == f(k) + Total(keys - {k}, f)
    decreases keys
  {
    var j :| j in keys && Total(keys, f) == f(j) + Total(keys - {j}, f);
    if j != k {
      TotalPick(keys - {j}, f, k);
      TotalPick(keys - {k}, f, j);
      assert keys - {j} - {k} == keys - {k} - {j};
    }
  }

  lemma {:induction false} TotalCongruent(keys: set<nat>, f: nat -> int, g: nat -> int)
    requires forall k :: k in keys ==> f(k) == g(k)
    ensures Total(keys, f) == Total(keys, g)
    decreases keys
  {
    if keys != {} {
      var k :| k in keys;
      TotalPick(keys, f, k);
      TotalPick(keys, g, k);
      TotalCongruent(keys - {k}, f, g);
    }
  }

  /** Changing one summand changes the total by the difference. */
  lemma TotalChange(keys: set<nat>, f: nat -> int, g: nat -> int, k: nat)
    requires k in keys
    requires forall j :: j in keys && j != k ==> f(j) == g(j)
    ensures Total(keys, g) == Total(keys, f) - f(k) + g(k)
  {
    TotalPick(keys, f, k);
    TotalPick(keys, g, k);
    TotalCongruent(keys - {k}, f, g);
  }

  lemma {:induction false} TotalMonotone(keys: set<nat>, f: nat -> int, g: nat -> int)
    requires forall k :: k in keys ==> f(k) <= g(k)
    ensures Total(keys, f) <= Total(keys, g)
    decreases keys
  {
    if keys != {} {
      var k :| k in keys;
      TotalPick(keys, f, k);
      TotalPick(keys, g, k);
      TotalMonotone(keys - {k}, f, g);
    }
  }

  lemma {:induction false} TotalNonNegative(keys: set<nat>, f: nat -> int)
    requires forall k :: k in keys ==> f(k) >= 0
    ensures Total(keys, f) >= 0
    decreases keys
  {
    if keys != {} {
      var k :| k in keys;
      TotalPick(keys, f, k);
      TotalNonNegative(keys - {k}, f);
    }
  }

  /** Ids that contribute nothing may join. */
  lemma {:induction false} TotalExtend(keys: set<nat>, more: set<nat>, f: nat -> int)
    requires keys <= more && forall k :: k in more && k !in keys ==> f(k) == 0
    ensures Total(more, f) == Total(keys, f)
    decreases more
  {
    if exists k :: k in more && k !in keys {
      var k :| k in more && k !in keys;
      TotalPick(more, f, k);
      TotalExtend(keys, more - {k}, f);
    } else {
      assert more == keys;
    }
  }

  lemma TotalZero(keys: set<nat>, f: nat -> int)
    requires forall k :: k in keys ==> f(k) == 0
    ensures Total(keys, f) == 0
  {
    TotalExtend({}, keys, f);
  }

  lemma {:induction false} TotalAdd(keys: set<nat>, f: nat -> int, g: nat -> int, h: nat -> int)
    requires forall k :: k in keys ==> h(k) == f(k) + g(k)
    ensures Total(keys, h) == Total(keys, f) + Total(keys, g)
    decreases keys
  {
    if keys != {} {
      var k :| k in keys;
      TotalPick(keys, f, k);
      TotalPick(keys, g, k);
      TotalPick(keys, h, k);
      TotalAdd(keys - {k}, f, g, h);
    }
  }
}

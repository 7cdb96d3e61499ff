/** Sums over dictionaries whose values are amounts; the order in which a dictionary is walked never matters. */
module Totals {

  ghost function Total<K>(amounts: map<K, real>): real
    decreases |amounts|
  {
    if amounts.Keys == {} then 0.0
    else
      var k :| k in amounts;
      amounts[k] + Total(amounts - {k})
  }

  /** Any key may be taken out first. */
  lemma {:induction false} TotalWithout<K>(amounts: map<K, real>, k: K)
    requires k in amounts
    ensures Total(amounts) == amounts[k] + Total(amounts - {k})
    decreases |amounts|
  {
    var first :| first in amounts && Total(amounts) == amounts[first] + Total(amounts - {first});
    if first != k {
      var rest := amounts - {first};
      TotalWithout(rest, k);
      TotalWithout(amounts - {k}, first);
      assert rest - {k} == amounts - {k} - {first};
    }
  }

  function At<K>(amounts: map<K, real>, k: K): real {
    if k in amounts then amounts[k] else 0.0
  }

  lemma TotalUpdated<K>(amounts: map<K, real>, k: K, amount: real)
    ensures Total(amounts[k := amount]) == Total(amounts) - At(amounts, k) + amount
  {
    var updated := amounts[k := amount];
    TotalWithout(updated, k);
    assert updated - {k} == amounts - {k};
    if k in amounts {
      TotalWithout(amounts, k);
    } else {
      assert amounts - {k} == amounts;
    }
  }

  /** Sums add up entry by entry. */
  lemma {:induction false} TotalOfSums<K>(a: map<K, real>, b: map<K, real>, c: map<K, real>)
    requires a.Keys == b.Keys == c.Keys
    requires forall k :: k in c ==> c[k] == a[k] + b[k]
    ensures Total(c) == Total(a) + Total(b)
    decreases |c|
  {
    if c.Keys != {} {
      var k :| k in c;
      TotalWithout(a, k);
      TotalWithout(b, k);
      TotalWithout(c, k);
      TotalOfSums(a - {k}, b - {k}, c - {k});
    }
  }

  /** Leaving out entries that are zero leaves the sum as it was. */
  lemma {:induction false} TotalWithoutZeros<K>(amounts: map<K, real>, kept: map<K, real>)
    requires kept.Keys <= amounts.Keys
    requires forall k :: k in kept ==> kept[k] == amounts[k]
    requires forall k :: k in amounts && k !in kept ==> amounts[k] == 0.0
    ensures Total(kept) == Total(amounts)
    decreases |amounts|
  {
    if k :| k in amounts && k !in kept {
      TotalWithout(amounts, k);
      TotalWithoutZeros(amounts - {k}, kept);
    } else {
      assert kept == amounts;
    }
  }

  /** A sum splits over two parts that share no key when all other entries are zero. */
  lemma {:induction false} TotalOfParts<K>(all: map<K, real>, some: map<K, real>, others: map<K, real>)
    requires some.Keys <= all.Keys && others.Keys <= all.Keys && some.Keys !! others.Keys
    requires forall k :: k in all ==> all[k] == At(some, k) + At(others, k)
    ensures Total(all) == Total(some) + Total(others)
    decreases |others|
  {
    if k :| k in others {
      TotalWithout(all, k);
      TotalWithout(others, k);
      TotalOfParts(all - {k}, some, others - {k});
    } else {
      assert others.Keys == {};
      TotalWithoutZeros(all, some);
    }
  }

  lemma TotalOfOne<K>(amounts: map<K, real>, one: K)
    requires one in amounts && forall k :: k in amounts && k != one ==> amounts[k] == 0.0
    ensures Total(amounts) == amounts[one]
  {
    TotalWithout(amounts, one);
    var nothing: map<K, real> := map[];
    TotalWithoutZeros(amounts - {one}, nothing);
    assert nothing.Keys == {};
  }
}

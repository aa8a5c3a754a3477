/** The sum of the amounts in a table. */
module Totals {

  ghost function Total<K(!new)>(amounts: map<K, int>): int {
    if amounts == map[] then 0
    else
      var k :| k in amounts;
      amounts[k] + Total(amounts - {k})
  }

  /** A sum does not depend on the order in which it visits the rows. */
  lemma {:induction false} TotalRemove<K(!new)>(amounts: map<K, int>, k: K)
    requires k in amounts
    ensures Total(amounts) == amounts[k] + Total(amounts - {k})
    decreases |amounts|
  {
    var first :| first in amounts && Total(amounts) == amounts[first] + Total(amounts - {first});
    if first != k {
      assert (amounts - {first}) - {k} == (amounts - {k}) - {first};
      TotalRemove(amounts - {first}, k);
      TotalRemove(amounts - {k}, first);
    }
  }

  lemma TotalInsert<K(!new)>(amounts: map<K, int>, k: K, amount: int)
    requires k !in amounts
    ensures Total(amounts[k := amount]) == Total(amounts) + amount
  {
    assert amounts[k := amount] - {k} == amounts;
    TotalRemove(amounts[k := amount], k);
  }

  lemma TotalUpdate<K(!new)>(amounts: map<K, int>, k: K, amount: int)
    requires k in amounts
    ensures Total(amounts[k := amount]) == Total(amounts) - amounts[k] + amount
  {
    assert amounts[k := amount] - {k} == amounts - {k};
    TotalRemove(amounts[k := amount], k);
    TotalRemove(amounts, k);
  }
}

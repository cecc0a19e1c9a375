/** Per-donor bookkeeping of the crowdfunding campaign: account identities,
    mapping reads that default to zero (as a contract mapping does) and the
    sum of a per-donor mapping, which the aggregate counters must equal. */
module Ledger {

  /** An account identity (a 160-bit address in the original; unbounded here). */
  type Address = nat

  /** Reads a per-donor mapping; an account never written reads as 0. */
  function Get(m: map<Address, nat>, a: Address): nat
  {
    if a in m then m[a] else 0
  }

  /** The sum of all entries of a per-donor mapping. */
  ghost function Total(m: map<Address, nat>): nat
    decreases |m|
  {
    if m == map[] then 0
    else
      var k :| k in m;
      assert |m - {k}| < |m| by { MapRemoveSmaller(m, k); }
      m[k] + Total(m - {k})
  }

  lemma MapRemoveSmaller(m: map<Address, nat>, k: Address)
    requires k in m
    ensures |m - {k}| == |m| - 1
  {
    assert (m - {k}).Keys == m.Keys - {k};
    assert m.Keys == (m - {k}).Keys + {k};
  }

  /** Taking any one entry out of the sum: the sum does not depend on the
      order in which entries are visited. */
  lemma {:induction false} TotalRemove(m: map<Address, nat>, k: Address)
    requires k in m
    ensures Total(m) == m[k] + Total(m - {k})
    decreases |m|
  {
    var j :| j in m && Total(m) == m[j] + Total(m - {j});
    if j != k {
      MapRemoveSmaller(m, j);
      MapRemoveSmaller(m, k);
      TotalRemove(m - {j}, k);
      TotalRemove(m - {k}, j);
      assert m - {j} - {k} == m - {k} - {j};
    }
  }

  /** One donor's entry never exceeds the sum over all donors. */
  lemma EntryWithinTotal(m: map<Address, nat>, a: Address)
    ensures Get(m, a) <= Total(m)
  {
    if a in m {
      TotalRemove(m, a);
    }
  }

  /** Overwriting one donor's entry changes the sum by exactly the
      difference between the new and the old entry. */
  lemma TotalUpdate(m: map<Address, nat>, a: Address, v: nat)
    ensures Total(m[a := v]) + Get(m, a) == Total(m) + v
  {
    TotalRemove(m[a := v], a);
    assert m[a := v] - {a} == m - {a};
    if a in m {
      TotalRemove(m, a);
    } else {
      assert m - {a} == m;
    }
  }
}

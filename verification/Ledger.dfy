/** Share ledgers: `Map<Addr, Uint128>` storage with absent entries read as zero, and their sum. */
module Ledger {
  type Address = string

  type Shares = map<Address, nat>

  function Balance(s: Shares, a: Address): nat { if a in s then s[a] else 0 }

  function Credit(s: Shares, a: Address, amount: nat): Shares { s[a := Balance(s, a) + amount] }

  ghost function Sum(s: Shares): nat
  {
    if s == map[] then 0
    else
      var a :| a in s;
      s[a] + Sum(s - {a})
  }

  /** The sum does not depend on the order in which entries are taken. */
  lemma {:induction false} SumWithout(s: Shares, a: Address)
    requires a in s
    ensures Sum(s) == s[a] + Sum(s - {a})
    decreases |s|
  {
    var b :| b in s && Sum(s) == s[b] + Sum(s - {b});
    if b != a {
      SumWithout(s - {b}, a);
      SumWithout(s - {a}, b);
      assert s - {b} - {a} == s - {a} - {b};
    }
  }

  lemma SumOfUpdate(s: Shares, a: Address, amount: nat)
    ensures Sum(s[a := amount]) == Sum(s) - Balance(s, a) + amount
  {
    SumWithout(s[a := amount], a);
    assert s[a := amount] - {a} == s - {a};
    if a in s {
      SumWithout(s, a);
    } else {
      assert s - {a} == s;
    }
  }

  lemma BalanceWithinSum(s: Shares, a: Address)
    ensures Balance(s, a) <= Sum(s)
  {
    if a in s {
      SumWithout(s, a);
    }
  }
}

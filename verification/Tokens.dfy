/** The two CW20 tokens of a pair, amounts of both, and 18-digit decimals as integer atomics. */
module Tokens {
  import opened Arithmetic

  /** Atomics of `Decimal::one()`. */
  const ONE: nat := 1_000_000_000_000_000_000

  datatype Token = Token0 | Token1 {
    function Other(): (t: Token)
      ensures t != this
    {
      if this == Token0 then Token1 else Token0
    }
  }

  datatype Amounts = Amounts(t0: nat, t1: nat) {
    function Get(t: Token): nat { if t == Token0 then t0 else t1 }

    function Put(t: Token, amount: nat): (a: Amounts)
      ensures a.Get(t) == amount && a.Get(t.Other()) == Get(t.Other())
    {
      if t == Token0 then Amounts(amount, t1) else Amounts(t0, amount)
    }

    function Plus(other: Amounts): Amounts { Amounts(t0 + other.t0, t1 + other.t1) }

    predicate Covers(other: Amounts) { t0 >= other.t0 && t1 >= other.t1 }

    function Minus(other: Amounts): Amounts
      requires Covers(other)
    {
      Amounts(t0 - other.t0, t1 - other.t1)
    }

    predicate Fits() { t0 < TWO_128 && t1 < TWO_128 }
  }

  function Nothing(): Amounts { Amounts(0, 0) }

  function Just(t: Token, amount: nat): Amounts { Nothing().Put(t, amount) }

  /** Value of both holdings in atomics of token 1 at `price` (atomics of token 1 per token 0):
      h0 * price + h1 * ONE, the contracts' `total_value`. */
  function Value(h: Amounts, price: nat): nat
  {
    h.t0 * price + h.t1 * ONE
  }

  /** Value of `amount` of one token in the same unit. */
  function ValueOf(t: Token, amount: nat, price: nat): nat
  {
    amount * UnitValue(t, price)
  }

  /** Value of one smallest unit of a token. */
  function UnitValue(t: Token, price: nat): nat { if t == Token0 then price else ONE }
}

/** Pro-rata claims: `balance.multiply_ratio(shares, supply)`, the payout rule of every withdrawal in
    the three vaults, and what a sequence of such payouts can take out. */
module ProRata {
  import opened Arithmetic

  function Claim(balance: nat, shares: nat, supply: nat): (amount: nat)
    requires supply > 0
  {
    Floor(balance * shares, supply)
  }

  /** From `held` to `kept` the most that `burned` of `total` shares claim has gone, and no more. */
  predicate PaysMost(held: nat, kept: nat, burned: nat, total: nat)
  {
    kept <= held && (held - kept) * total <= held * burned < (held - kept + 1) * total
  }

  lemma ClaimPaysMost(held: nat, burned: nat, total: nat)
    requires 0 < total && burned <= total
    ensures Claim(held, burned, total) <= held && PaysMost(held, held - Claim(held, burned, total), burned, total)
  {
    ClaimWithinBalance(held, burned, total);
    var paid := Claim(held, burned, total);
    assert (paid + 1) * total == paid * total + total;
  }

  /** A pool holding `balance` of one token against `supply` shares. */
  datatype Pool = Pool(balance: nat, supply: nat)

  /** `after` is backed at least as well per share as `before`: b' * S >= b * S', which is the
      quotient comparison b'/S' >= b/S written without division. */
  predicate BackedAtLeast(after: Pool, before: Pool)
  {
    after.balance * before.supply >= before.balance * after.supply
  }

  lemma ClaimWithinBalance(balance: nat, shares: nat, supply: nat)
    requires supply > 0 && shares <= supply
    ensures Claim(balance, shares, supply) <= balance
    ensures Claim(balance, supply, supply) == balance
  {
    MulLe(shares, supply, balance);
    FloorOfMultiple(balance, supply);
    FloorMonotone(balance * shares, balance * supply, supply);
  }

  /** One burn: pay the floored claim and retire the shares. */
  function PoolBurn(p: Pool, shares: nat): (after: Pool)
    requires 0 < p.supply && shares <= p.supply
  {
    ClaimWithinBalance(p.balance, shares, p.supply);
    Pool(p.balance - Claim(p.balance, shares, p.supply), p.supply - shares)
  }

  /** Rounding a payout down never lowers what stands behind each remaining share. */
  lemma BurnKeepsBacking(p: Pool, shares: nat)
    requires 0 < p.supply && shares <= p.supply
    ensures BackedAtLeast(PoolBurn(p, shares), p)
  {
    var c := Claim(p.balance, shares, p.supply);
    ClaimWithinBalance(p.balance, shares, p.supply);
    assert c * p.supply <= p.balance * shares;
    assert (p.balance - c) * p.supply == p.balance * p.supply - c * p.supply;
    assert p.balance * (p.supply - shares) == p.balance * p.supply - p.balance * shares;
  }

  /** The quotient comparison is transitive wherever the middle supply is positive. */
  lemma BackingTransitive(a: Pool, b: Pool, c: Pool)
    requires BackedAtLeast(b, a) && BackedAtLeast(c, b) && b.supply > 0
    ensures BackedAtLeast(c, a)
  {
    MulLe(a.balance * b.supply, b.balance * a.supply, c.supply);
    MulLe(b.balance * c.supply, c.balance * b.supply, a.supply);
    assert (a.balance * c.supply) * b.supply == (a.balance * b.supply) * c.supply;
    assert (b.balance * a.supply) * c.supply == (b.balance * c.supply) * a.supply;
    assert (c.balance * a.supply) * b.supply == (c.balance * b.supply) * a.supply;
    CancelLe(a.balance * c.supply, c.balance * a.supply, b.supply);
  }

  function Total(pieces: seq<nat>): nat
  {
    if pieces == [] then 0 else pieces[0] + Total(pieces[1..])
  }

  /** The pool after burning the pieces one by one. A burn of nothing is refused by the vaults, so
      every piece is positive and the supply is positive before each of them. */
  function BurnAll(p: Pool, pieces: seq<nat>): (after: Pool)
    requires Total(pieces) <= p.supply && forall i :: 0 <= i < |pieces| ==> pieces[i] > 0
    ensures after.supply == p.supply - Total(pieces) && after.balance <= p.balance
    decreases |pieces|
  {
    if pieces == [] then p else BurnAll(PoolBurn(p, pieces[0]), pieces[1..])
  }

  lemma {:induction false} BurnAllKeepsBacking(p: Pool, pieces: seq<nat>)
    requires Total(pieces) <= p.supply && forall i :: 0 <= i < |pieces| ==> pieces[i] > 0
    ensures BackedAtLeast(BurnAll(p, pieces), p)
    decreases |pieces|
  {
    if pieces != [] {
      var next := PoolBurn(p, pieces[0]);
      BurnKeepsBacking(p, pieces[0]);
      BurnAllKeepsBacking(next, pieces[1..]);
      if next.supply > 0 {
        BackingTransitive(p, next, BurnAll(next, pieces[1..]));
      } else {
        assert BurnAll(next, pieces[1..]).supply == 0;
      }
    }
  }

  lemma BackedPayout(before: nat, after: nat, supply: nat, burned: nat)
    requires 0 < supply && burned <= supply && after <= before
    requires after * supply >= before * (supply - burned)
    ensures before - after <= Claim(before, burned, supply)
  {
    assert before * (supply - burned) == before * supply - before * burned;
    assert (before - after) * supply == before * supply - after * supply;
    FloorIsLargest(before * burned, supply, before - after);
  }

  /** Burning shares in any number of pieces pays at most what one burn of their total pays. */
  lemma PiecewiseBurnPaysNoMore(p: Pool, pieces: seq<nat>)
    requires 0 < p.supply && Total(pieces) <= p.supply
    requires forall i :: 0 <= i < |pieces| ==> pieces[i] > 0
    ensures p.balance - BurnAll(p, pieces).balance <= Claim(p.balance, Total(pieces), p.supply)
  {
    var after := BurnAll(p, pieces);
    BurnAllKeepsBacking(p, pieces);
    BackedPayout(p.balance, after.balance, p.supply, Total(pieces));
  }

  /** Burning the whole supply, in any split and order, pays the balance out to the last unit. */
  lemma {:induction false} BurningEverythingPaysInFull(p: Pool, pieces: seq<nat>)
    requires 0 < p.supply == Total(pieces)
    requires forall i :: 0 <= i < |pieces| ==> pieces[i] > 0
    ensures BurnAll(p, pieces) == Pool(0, 0)
    decreases |pieces|
  {
    assert pieces != [];
    var next := PoolBurn(p, pieces[0]);
    if next.supply == 0 {
      ClaimWithinBalance(p.balance, p.supply, p.supply);
      assert Total(pieces[1..]) == 0;
    } else {
      BurningEverythingPaysInFull(next, pieces[1..]);
    }
  }
}

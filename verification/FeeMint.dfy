/** The protocol fee as freshly minted shares, x = floor(F*S/(A-F)): one rule written three times in
    the contracts, `fee_share_mint` and two functions named `fee_shares_for_value`. */
module FeeMint {
  import opened Arithmetic
  import opened ProRata

  /** Shares minted to the collector for a fee worth `fee` out of assets worth `assets`. A zero fee,
      an empty supply or a fee that eats all the assets mints nothing. */
  function FeeShares(fee: nat, assets: nat, supply: nat): (shares: nat)
  {
    if fee == 0 || supply == 0 || fee >= assets then 0
    else Floor(fee * supply, assets - fee)
  }

  /** The mint is the largest x whose own claim x*A/(S+x) stays within the fee F. */
  lemma FeeSharesAreLargestFair(fee: nat, assets: nat, supply: nat, x: nat)
    requires 0 < fee < assets && supply > 0
    ensures x <= FeeShares(fee, assets, supply) <==> x * assets <= fee * (supply + x)
  {
    assert x * (assets - fee) == x * assets - x * fee;
    assert fee * (supply + x) == fee * supply + x * fee;
    FloorIsLargest(fee * supply, assets - fee, x);
  }

  /** `x` is the most shares whose own claim on the assets stays within the fee, and none where there is no
      fee to take, no supply, or a fee that would eat the assets. */
  predicate FairMint(fee: nat, assets: nat, supply: nat, x: nat)
  {
    if 0 < fee < assets && supply > 0 then
      x * assets <= fee * (supply + x) && fee * (supply + (x + 1)) < (x + 1) * assets
    else x == 0
  }

  lemma FairMintIsFeeShares(fee: nat, assets: nat, supply: nat, x: nat)
    ensures FairMint(fee, assets, supply, x) <==> x == FeeShares(fee, assets, supply)
  {
    if 0 < fee < assets && supply > 0 {
      FeeSharesAreLargestFair(fee, assets, supply, x);
      FeeSharesAreLargestFair(fee, assets, supply, x + 1);
    }
  }

  /** Nothing is minted exactly when there is nothing to charge, nobody to dilute, or a single share would
      already claim more than the fee. */
  lemma FairMintIsNothingIff(fee: nat, assets: nat, supply: nat, x: nat)
    requires FairMint(fee, assets, supply, x)
    ensures x == 0 <==> fee == 0 || supply == 0 || fee >= assets || fee * (supply + 1) < assets
  {
    FairMintIsFeeShares(fee, assets, supply, x);
    if 0 < fee < assets && supply > 0 {
      FeeSharesAreLargestFair(fee, assets, supply, 1);
    }
  }

  lemma FairMintClaims(fee: nat, assets: nat, supply: nat, x: nat)
    requires FairMint(fee, assets, supply, x) && supply > 0
    ensures Claim(assets, x, supply + x) <= fee
  {
    FloorIsLargest(assets * x, supply + x, fee + 1);
    assert (fee + 1) * (supply + x) == fee * (supply + x) + (supply + x);
    assert x == 0 ==> assets * x == 0;
  }

  /** The collector can take out at once no more than the fee, and all of it but a rounding remainder
      smaller than one share's worth of assets. */
  lemma FeeClaimIsTight(fee: nat, assets: nat, supply: nat)
    requires 0 < fee < assets && supply > 0
    ensures var x := FeeShares(fee, assets, supply);
            Claim(assets, x, supply + x) <= fee
            && fee * (supply + x) < (x + 1) * assets
  {
    var x := FeeShares(fee, assets, supply);
    FeeSharesAreLargestFair(fee, assets, supply, x);
    FeeSharesAreLargestFair(fee, assets, supply, x + 1);
    assert fee * (supply + (x + 1)) == fee * (supply + x) + fee;
    FloorIsLargest(assets * x, supply + x, fee + 1);
    assert (fee + 1) * (supply + x) == fee * (supply + x) + (supply + x);
  }

  /** Supply after charging the fees one after another against unchanged assets. */
  function SupplyAfter(fees: seq<nat>, assets: nat, supply: nat): (after: nat)
    ensures after >= supply
    decreases |fees|
  {
    if fees == [] then supply
    else SupplyAfter(fees[1..], assets, supply + FeeShares(fees[0], assets, supply))
  }

  /** One mint dilutes every existing share by at most the fee's fraction of the assets. */
  lemma MintDilution(fee: nat, assets: nat, supply: nat)
    requires fee <= assets
    ensures (supply + FeeShares(fee, assets, supply)) * (assets - fee) <= supply * assets
  {
    var x := FeeShares(fee, assets, supply);
    assert (supply + x) * (assets - fee) == supply * assets - supply * fee + x * (assets - fee);
    if x > 0 {
      assert x * (assets - fee) <= fee * supply;
    }
  }

  /** Over any sequence of mints at fixed assets, shares that existed before keep assets worth at
      least A - (F1 + ... + Fn). */
  lemma {:induction false} IncumbentsKeepTheRest(fees: seq<nat>, assets: nat, supply: nat)
    requires Total(fees) <= assets
    ensures supply * assets >= (assets - Total(fees)) * SupplyAfter(fees, assets, supply)
    decreases |fees|
  {
    if fees != [] {
      var fee, rest := fees[0], fees[1..];
      var next := supply + FeeShares(fee, assets, supply);
      var after := SupplyAfter(rest, assets, next);
      IncumbentsKeepTheRest(rest, assets, next);
      MintDilution(fee, assets, supply);
      KeptFractions(assets, fee, Total(rest));
      if assets > 0 {
        Telescope(assets, assets - fee, assets - Total(rest), assets - Total(fees), supply, next, after);
      }
    }
  }

  lemma Telescope(assets: nat, keep: nat, left: nat, leftOver: nat, supply: nat, next: nat, after: nat)
    requires assets > 0
    requires left * after <= next * assets
    requires next * keep <= supply * assets
    requires leftOver * assets <= keep * left
    ensures leftOver * after <= supply * assets
  {
    MulLe(leftOver * assets, keep * left, after);
    MulLe(left * after, next * assets, keep);
    MulLe(next * keep, supply * assets, assets);
    MulSwap(leftOver, assets, after);
    MulSwap(left, after, keep);
    MulSwap(next, assets, keep);
    CancelLe(leftOver * after, supply * assets, assets);
  }

  /** (A - F)(A - R) exceeds A(A - F - R) by F*R. */
  lemma KeptFractions(assets: nat, fee: nat, rest: nat)
    requires fee + rest <= assets
    ensures (assets - (fee + rest)) * assets <= (assets - fee) * (assets - rest)
  {
    var left := assets - (fee + rest);
    assert (left + rest) * (left + fee) == left * (left + fee + rest) + rest * fee;
  }

  lemma IncumbentsBoundClaim(assets: nat, supply: nat, after: nat, charged: nat)
    requires 0 < after && supply <= after && charged <= assets
    requires supply * assets >= (assets - charged) * after
    ensures Claim(assets, after - supply, after) <= charged
  {
    assert (assets - charged) * after == assets * after - charged * after;
    assert assets * (after - supply) == assets * after - supply * assets;
    FloorIsLargest(assets * (after - supply), after, charged + 1);
    assert (charged + 1) * after == charged * after + after;
  }

  /** Whatever the sequence of fees, the collector's whole claim is at most their sum. */
  lemma CollectorNeverOverclaims(fees: seq<nat>, assets: nat, supply: nat)
    requires supply > 0
    ensures var after := SupplyAfter(fees, assets, supply);
            Claim(assets, after - supply, after) <= Total(fees)
  {
    var after := SupplyAfter(fees, assets, supply);
    ClaimWithinBalance(assets, after - supply, after);
    if Total(fees) < assets {
      IncumbentsKeepTheRest(fees, assets, supply);
      IncumbentsBoundClaim(assets, supply, after, Total(fees));
    }
  }
}

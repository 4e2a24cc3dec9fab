// The fee manager: how a losing bond and a trading fee are divided.

module BondSplits {
  import opened DikeTypes
  import opened DikeMath

  datatype BondShares = BondShares(winner: nat, council: nat, treasury: nat)
  {
    predicate Valid() {
      winner + council + treasury == BPS_DENOMINATOR
    }
  }

  const DEFAULT_SHARES := BondShares(6_000, 3_000, 1_000)

  datatype BondPortions = BondPortions(winner: int, council: int, treasury: int)

  function LosingBondSplit(shares: BondShares, bond: int): Result<BondPortions> {
    if bond <= 0 then Err(InvalidAmount)
    else
      var winner := Bps(bond, shares.winner);
      var council := Bps(bond, shares.council);
      Ok(BondPortions(winner, council, bond - winner - council))
  }

  /** The winner's and the council's portions are their shares of the bond, rounded down, and the treasury has the rest:
      nothing is lost, no portion is negative, and the winner's or the council's portion is empty exactly when the share
      is worth less than one unit. */
  lemma SplitIsExact(shares: BondShares, bond: int)
    requires shares.Valid() && bond > 0
    ensures LosingBondSplit(shares, bond).Ok?
    ensures var p := LosingBondSplit(shares, bond).value;
            && p.winner + p.council + p.treasury == bond
            && p.winner >= 0 && p.council >= 0 && p.treasury >= 0
            && 10_000 * p.winner <= shares.winner * bond < 10_000 * (p.winner + 1)
            && 10_000 * p.council <= shares.council * bond < 10_000 * (p.council + 1)
            && (p.winner > 0 <==> bond * shares.winner >= BPS_DENOMINATOR)
            && (p.council > 0 <==> bond * shares.council >= BPS_DENOMINATOR)
  {
    BpsBounds(bond, shares.winner);
    BpsBounds(bond, shares.council);
    var w, c := Bps(bond, shares.winner), Bps(bond, shares.council);
    SharesFit(bond, shares.winner, shares.council);
  }

  lemma SharesFit(bond: int, x: nat, y: nat)
    requires bond > 0 && x + y <= BPS_DENOMINATOR
    ensures bond * x + bond * y <= bond * BPS_DENOMINATOR
  {
    assert bond * x + bond * y == bond * (x + y);
  }

  class FeeManager {
    var shares: BondShares
    var config: FeeConfig

    constructor (fee: FeeConfig)
      ensures shares == DEFAULT_SHARES && shares.Valid() && config == fee
    {
      shares, config := DEFAULT_SHARES, fee;
    }

    method SetBondSplit(winner: nat, council: nat, treasury: nat) returns (r: Result<()>)
      modifies this`shares
      ensures r.Ok? <==> winner + council + treasury == BPS_DENOMINATOR
      ensures r.Ok? ==> shares == BondShares(winner, council, treasury)
      ensures r.Err? ==> r.error == InvalidInput && shares == old(shares)
      ensures old(shares.Valid()) ==> shares.Valid()
    {
      if winner + council + treasury != BPS_DENOMINATOR {
        return Err(InvalidInput);
      }
      shares := BondShares(winner, council, treasury);
      return Ok(());
    }

    method SetConfig(fee: FeeConfig) returns (r: Result<()>)
      modifies this`config
      ensures r.Ok? <==> fee.Valid()
      ensures config == if r.Ok? then fee else old(config)
    {
      if fee.lpShareBps + fee.treasuryShareBps + fee.codShareBps != BPS_DENOMINATOR || fee.tradingFeeBps > 1_000 {
        return Err(InvalidInput);
      }
      config := fee;
      return Ok(());
    }

    method Split(bond: int) returns (r: Result<BondPortions>)
      ensures r == LosingBondSplit(shares, bond)
    {
      if bond <= 0 {
        return Err(InvalidAmount);
      }
      var winner := Bps(bond, shares.winner);
      var council := Bps(bond, shares.council);
      return Ok(BondPortions(winner, council, bond - winner - council));
    }

    /** The parts of a trading fee add up to it. */
    method TradingFeeSplit(amount: int) returns (r: Result<(int, int, int, int)>)
      requires config.Valid()
      ensures r.Ok? <==> amount > 0
      ensures match r
              case Ok((fee, lp, treasury, cod)) =>
                && fee == lp + treasury + cod && 0 <= lp && 0 <= treasury && 0 <= cod
                && lp * BPS_DENOMINATOR <= fee * config.lpShareBps < (lp + 1) * BPS_DENOMINATOR
                && treasury * BPS_DENOMINATOR <= fee * config.treasuryShareBps < (treasury + 1) * BPS_DENOMINATOR
                && fee * BPS_DENOMINATOR <= amount * config.tradingFeeBps < (fee + 1) * BPS_DENOMINATOR
              case Err(e) => e == InvalidAmount
    {
      if amount <= 0 {
        return Err(InvalidAmount);
      }
      var fee := Bps(amount, config.tradingFeeBps);
      var lp := Bps(fee, config.lpShareBps);
      var treasury := Bps(fee, config.treasuryShareBps);
      BpsBounds(amount, config.tradingFeeBps);
      BpsBounds(fee, config.lpShareBps);
      BpsBounds(fee, config.treasuryShareBps);
      if fee > 0 {
        SharesFit(fee, config.lpShareBps, config.treasuryShareBps);
      }
      return Ok((fee, lp, treasury, fee - lp - treasury));
    }
  }
}

/**
 * The vault record shared by every service, and the simple-interest
 * earnings rule of the vault service.
 */
module VaultService {

  /**
   * One row of the vault table. Rates are annual percentages, `tvl` is the
   * total value locked in currency units, lower `riskScore` is safer, and
   * `updatedAt` is the last write time in milliseconds.
   */
  datatype Vault = Vault(
    id: string,
    name: string,
    protocol: string,
    token: string,
    chain: string,
    contractAddress: string,
    currentApy: real,
    tvl: real,
    riskScore: int,
    isActive: bool,
    updatedAt: int)

  /** Simple daily interest: the annual rate spread evenly over 365 days. */
  function CalculateEarnings(depositAmount: real, apy: real, daysInVault: real): (earnings: real)
    ensures earnings * 36500.0 == depositAmount * apy * daysInVault
  {
    var dailyRate := apy / 365.0 / 100.0;
    depositAmount * dailyRate * daysInVault
  }

  lemma NoTimeOrNoRateEarnsNothing(depositAmount: real, apy: real, daysInVault: real)
    requires daysInVault == 0.0 || apy == 0.0
    ensures CalculateEarnings(depositAmount, apy, daysInVault) == 0.0
  {
  }

  /** Earnings over two consecutive periods add up to the earnings over both. */
  lemma EarningsAdditiveInDays(depositAmount: real, apy: real, days1: real, days2: real)
    ensures CalculateEarnings(depositAmount, apy, days1 + days2)
         == CalculateEarnings(depositAmount, apy, days1) + CalculateEarnings(depositAmount, apy, days2)
  {
    var rate := depositAmount * (apy / 365.0 / 100.0);
    assert rate * (days1 + days2) == rate * days1 + rate * days2;
  }

  lemma EarningsMonotoneInDays(depositAmount: real, apy: real, days1: real, days2: real)
    requires depositAmount >= 0.0 && apy >= 0.0 && days1 <= days2
    ensures CalculateEarnings(depositAmount, apy, days1) <= CalculateEarnings(depositAmount, apy, days2)
  {
    var rate := depositAmount * (apy / 365.0 / 100.0);
    assert rate >= 0.0;
    assert rate * (days2 - days1) >= 0.0;
    EarningsAdditiveInDays(depositAmount, apy, days1, days2 - days1);
  }

  /** A full year of simple interest is the annual percentage of the deposit. */
  lemma EarningsOverOneYear(depositAmount: real, apy: real)
    ensures CalculateEarnings(depositAmount, apy, 365.0) == depositAmount * apy / 100.0
  {
  }
}

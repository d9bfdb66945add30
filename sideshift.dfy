/**
 * The simulated cross-chain swap service: a quote from a fixed rate table
 * with a half-percent fee, and a swap order whose status is moved from
 * pending through processing to completed.
 */
module Sideshift {

  /** The fee is half a percent of the deposit. */
  const FeeRate: real := 0.005
  /** The estimated settlement time every quote reports, in seconds. */
  const EstimatedTimeSeconds: int := 300

  /** The rate table, keyed by `from-to`. */
  const SideshiftRates: map<string, real> := map[
    "BTC-USDC" := 44950.0,
    "ETH-USDC" := 2795.0,
    "SOL-USDC" := 109.5,
    "MATIC-USDC" := 0.845,
    "USDC-BTC" := 0.0000222,
    "USDC-ETH" := 0.000358,
    "USDC-SOL" := 0.00913,
    "USDC-MATIC" := 1.183
  ]

  datatype SwapQuote = SwapQuote(
    depositCoin: string,
    settleCoin: string,
    depositAmount: real,
    settleAmount: real,
    rate: real,
    fee: real,
    estimatedTime: int)

  datatype Status = Pending | Processing | Completed | Failed

  function RateKey(fromToken: string, toToken: string): string {
    fromToken + "-" + toToken
  }

  /**
   * `SIDESHIFT_RATES[key] || 1`: a missing entry, or one that is 0, falls
   * back to 1. The table holds no 0, so a listed pair always converts at
   * its table rate, and every quoted rate is positive.
   */
  function Rate(fromToken: string, toToken: string): (rate: real)
    ensures rate > 0.0
    ensures RateKey(fromToken, toToken) in SideshiftRates ==> rate == SideshiftRates[RateKey(fromToken, toToken)]
    ensures RateKey(fromToken, toToken) !in SideshiftRates ==> rate == 1.0
  {
    var key := RateKey(fromToken, toToken);
    assert forall k :: k in SideshiftRates ==> SideshiftRates[k] > 0.0;
    if key in SideshiftRates && SideshiftRates[key] != 0.0 then SideshiftRates[key] else 1.0
  }

  /**
   * The quote for swapping `amount` of `fromToken` into `toToken`: the fee
   * is taken in the deposit coin, and what settles is the deposit less the
   * fee, converted at the table rate.
   */
  function GetSwapQuote(fromToken: string, toToken: string, amount: real): (q: SwapQuote)
    ensures q.depositCoin == fromToken && q.settleCoin == toToken && q.depositAmount == amount
    ensures q.rate == Rate(fromToken, toToken)
    ensures q.fee == amount * FeeRate
    ensures q.settleAmount == 0.995 * amount * q.rate
    ensures q.estimatedTime == EstimatedTimeSeconds
  {
    var rate := Rate(fromToken, toToken);
    var fee := amount * FeeRate;
    var settleAmount := (amount * rate) - (fee * rate);
    SwapQuote(fromToken, toToken, amount, settleAmount, rate, fee, EstimatedTimeSeconds)
  }

  /** Nothing deposited settles nothing, and a deposit never settles more than its fee-free conversion. */
  lemma SettleBounds(fromToken: string, toToken: string, amount: real)
    ensures amount == 0.0 ==> GetSwapQuote(fromToken, toToken, amount).settleAmount == 0.0
    ensures amount >= 0.0 ==>
      0.0 <= GetSwapQuote(fromToken, toToken, amount).settleAmount <= amount * Rate(fromToken, toToken)
  {
    var rate := Rate(fromToken, toToken);
    if amount >= 0.0 {
      assert amount * rate >= 0.0;
    }
  }

  /**
   * A same-coin swap converts at rate 1: its key has odd length, and every
   * key of the table has even length.
   */
  lemma SameCoinRateIsOne(coin: string)
    ensures Rate(coin, coin) == 1.0
  {
  }

  /**
   * A swap order. The status is updated in place; `trail` records the
   * statuses the order has held, in order.
   */
  class SwapOrder {
    var depositCoin: string
    var settleCoin: string
    var settleAddress: string
    var depositAmount: real
    var settleAmount: real
    var status: Status
    ghost var trail: seq<Status>

    /** A new pending order. */
    constructor (depositCoin: string, settleCoin: string, settleAddress: string, depositAmount: real, settleAmount: real)
      ensures this.depositCoin == depositCoin && this.settleCoin == settleCoin
      ensures this.settleAddress == settleAddress
      ensures this.depositAmount == depositAmount && this.settleAmount == settleAmount
      ensures status == Pending && trail == [Pending]
    {
      this.depositCoin := depositCoin;
      this.settleCoin := settleCoin;
      this.settleAddress := settleAddress;
      this.depositAmount := depositAmount;
      this.settleAmount := settleAmount;
      this.status := Pending;
      this.trail := [Pending];
    }

    /** Move the order to `next`, recording it. */
    method SetStatus(next: Status)
      modifies this`status, this`trail
      ensures status == next && trail == old(trail) + [next]
    {
      status := next;
      trail := trail + [next];
    }
  }

  function StatusRank(s: Status): int {
    match s
    case Pending => 0
    case Processing => 1
    case Completed => 2
    case Failed => 3
  }

  /** Every status in the trail comes strictly later than the ones before it. */
  ghost predicate MovesForward(trail: seq<Status>) {
    forall i, j :: 0 <= i < j < |trail| ==> StatusRank(trail[i]) < StatusRank(trail[j])
  }

  /**
   * Quote the swap, open a pending order for it, then mark it processing
   * and completed. The order settles the quoted amount.
   */
  method CreateSwapOrder(fromToken: string, toToken: string, amount: real, settleAddress: string)
    returns (order: SwapOrder)
    ensures fresh(order)
    ensures order.depositCoin == fromToken && order.settleCoin == toToken
    ensures order.settleAddress == settleAddress && order.depositAmount == amount
    ensures order.settleAmount == GetSwapQuote(fromToken, toToken, amount).settleAmount
    ensures order.status == Completed
    ensures order.trail == [Pending, Processing, Completed] && MovesForward(order.trail)
  {
    var quote := GetSwapQuote(fromToken, toToken, amount);
    order := new SwapOrder(fromToken, toToken, settleAddress, amount, quote.settleAmount);
    order.SetStatus(Processing);
    order.SetStatus(Completed);
  }

  /** The way back is an ordinary swap order with the coins as given. */
  method ReverseSwap(fromToken: string, toToken: string, amount: real, settleAddress: string)
    returns (order: SwapOrder)
    ensures fresh(order)
    ensures order.depositCoin == fromToken && order.settleCoin == toToken
    ensures order.settleAddress == settleAddress && order.depositAmount == amount
    ensures order.settleAmount == GetSwapQuote(fromToken, toToken, amount).settleAmount
    ensures order.status == Completed
    ensures order.trail == [Pending, Processing, Completed] && MovesForward(order.trail)
  {
    order := CreateSwapOrder(fromToken, toToken, amount, settleAddress);
  }
}

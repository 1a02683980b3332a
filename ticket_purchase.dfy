/**
 * What the two players' pages (lottery-dapp/src/App.js and
 * lottery-frontend/src/App.js) share in buying tickets: the `−` button of
 * the ticket counter, the first two guards of `handleBuyTickets`, the exact
 * cost product and the `buyTickets` call it sends.
 */
module TicketPurchase {
  import opened Wrappers
  import opened JsErrors
  import opened WinnerHistory

  /** The `−` button: `Math.max(1, ticketCount - 1)`. */
  function DecrementCount(ticketCount: int): (r: int)
    ensures r >= 1 && r <= Max(1, ticketCount)
  {
    Max(1, ticketCount - 1)
  }

  const NotConnectedMessage := "Please connect your wallet first"
  const InactiveRoundMessage := "Lottery round is not currently active"

  /**
   * The first two checks of `handleBuyTickets`, in order: a connected wallet,
   * then an active round; `None` lets the purchase go on.
   */
  function SessionGuard(connected: bool, isActive: bool): (r: Option<string>)
    ensures r.None? <==> connected && isActive
    ensures !connected ==> r == Some(NotConnectedMessage)
    ensures connected && !isActive ==> r == Some(InactiveRoundMessage)
  {
    if !connected then Some(NotConnectedMessage)
    else if !isActive then Some(InactiveRoundMessage)
    else None
  }

  /** `ticketPriceWei * BigInt(ticketCount)`: exact integer arithmetic, no rounding. */
  function TotalCost(ticketPriceWei: Wei, ticketCount: int): (r: int)
    ensures ticketCount >= 0 ==> r >= 0
  {
    ticketPriceWei * ticketCount
  }

  /** The price of `n` tickets added up one ticket at a time. */
  function PriceOfTickets(ticketPriceWei: Wei, n: nat): Wei
  {
    if n == 0 then 0 else PriceOfTickets(ticketPriceWei, n - 1) + ticketPriceWei
  }

  /** The value sent is exactly the price of each ticket, summed, with nothing lost. */
  lemma {:induction false} TotalCostIsSumOfPrices(ticketPriceWei: Wei, n: nat)
    ensures TotalCost(ticketPriceWei, n) == PriceOfTickets(ticketPriceWei, n)
  {
    if n > 0 {
      TotalCostIsSumOfPrices(ticketPriceWei, n - 1);
      assert ticketPriceWei * n == ticketPriceWei * (n - 1) + ticketPriceWei;
    }
  }

  /** `contract.buyTickets(ticketCount, { value: totalCost })` */
  datatype BuyCall = BuyCall(ticketCount: int, value: int)

  /** No transaction (a guard refused), or the call sent and how it ended. */
  datatype BuyOutcome =
    | NotSent(error: string)
    | SentFailed(call: BuyCall, error: string)
    | SentConfirmed(call: BuyCall)
}

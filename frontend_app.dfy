/**
 * lottery-frontend/src/App.js: the players' page of the lottery-frontend
 * front end.  It has a fixed price of 0.25 STT, an unbounded ticket counter
 * that never drops below 1, and only the connection and round checks before
 * `buyTickets`.
 */
module FrontendApp {
  import opened Wrappers
  import opened JsText
  import opened JsErrors
  import opened WalletConnect
  import opened WinnerHistory
  import opened Participants
  import opened TicketPurchase

  /** `ethers.parseEther('0.25')` */
  const TicketPriceWei: Wei := 250000000000000000

  // ---------------------------------------------------------------------------
  // The ticket counter

  /** The `+` button: `ticketCount + 1`, with no upper bound. */
  function IncrementCount(ticketCount: int): (r: int)
    ensures r > ticketCount
  {
    ticketCount + 1
  }

  /** The number input: `Math.max(1, parseInt(value) || 1)`; NaN and 0 both fall back to 1. */
  function TypedCount(value: string): (r: int)
    ensures r >= 1
    ensures ParseInt(value).Some? && ParseInt(value).value >= 1 ==> r == ParseInt(value).value
    ensures ParseInt(value).None? || ParseInt(value).value < 1 ==> r == 1
  {
    var parsed := ParseInt(value);
    var orOne := if parsed.None? || parsed.value == 0 then 1 else parsed.value;
    Max(1, orOne)
  }

  /** Typing a count shows that count back, for every count of at least one. */
  lemma TypedCountRoundTrip(n: nat)
    requires n >= 1
    ensures TypedCount(NatToString(n)) == n
    ensures TypedCount("-" + NatToString(n)) == 1
  {
    ParseIntRoundTrip(n);
  }

  /** Starting from 1, every update keeps the counter at 1 or more. */
  lemma CounterStaysPositive(ticketCount: int, value: string)
    requires ticketCount >= 1
    ensures DecrementCount(ticketCount) >= 1
    ensures IncrementCount(ticketCount) >= 1
    ensures TypedCount(value) >= 1
  {
  }

  // ---------------------------------------------------------------------------
  // handleBuyTickets

  /** The catch block's chain; every test is guarded, so it never throws. */
  function BuyErrorMessage(e: JsError): string
  {
    if Rejected(e) then "Transaction cancelled by user"
    else if Mentions(e, "insufficient funds") then "Insufficient funds in your wallet"
    else if Mentions(e, "gas") then "Gas estimation failed. Transaction might fail"
    else "Failed to buy tickets. Please try again"
  }

  const BuyRules := [
    Rule(RejectionTests, Say("Transaction cancelled by user")),
    Rule([MessageHas("insufficient funds")], Say("Insufficient funds in your wallet")),
    Rule([MessageHas("gas")], Say("Gas estimation failed. Transaction might fail")),
    Rule([Otherwise], Say("Failed to buy tickets. Please try again"))
  ]

  function BuyRuleFor(e: JsError): nat
  {
    if Rejected(e) then 0
    else if Mentions(e, "insufficient funds") then 1
    else if Mentions(e, "gas") then 2
    else 3
  }

  /** The chain is the priority table: the first branch that holds gives the message. */
  lemma BuyFollowsPriority(e: JsError, walletInjected: bool)
    ensures FirstMatch(BuyRules, e, walletInjected) == Chosen(BuyRuleFor(e), BuyErrorMessage(e))
  {
    var rules := BuyRules;
    RejectionFires(e, walletInjected);
    EvaluateOne(MessageHas("insufficient funds"), e, walletInjected);
    EvaluateOne(MessageHas("gas"), e, walletInjected);
    EvaluateOne(Otherwise, e, walletInjected);
    var k := BuyRuleFor(e);
    forall j | 0 <= j < k ensures Fires(rules[j], e, walletInjected) == Some(false) {
      assert j == 0 || j == 1 || j == 2;
    }
    FirstMatchAt(rules, e, walletInjected, k);
  }

  /** `handleBuyTickets`: the connection and round checks, then `buyTickets`. */
  function HandleBuyTickets(connected: bool, isRoundActive: bool, ticketCount: int,
                            buyTickets: BuyCall -> TxOutcome): BuyOutcome
  {
    var guard := SessionGuard(connected, isRoundActive);
    if guard.Some? then NotSent(guard.value)
    else
      var call := BuyCall(ticketCount, TotalCost(TicketPriceWei, ticketCount));
      match buyTickets(call)
      case Confirmed => SentConfirmed(call)
      case Reverted(e) => SentFailed(call, BuyErrorMessage(e))
  }

  /**
   * A purchase is sent exactly when the wallet is connected and the round
   * active, whatever the count, and then for the counter's value at exactly
   * 0.25 STT per ticket.
   */
  lemma SentPurchase(connected: bool, isRoundActive: bool, ticketCount: int, buyTickets: BuyCall -> TxOutcome)
    ensures var r := HandleBuyTickets(connected, isRoundActive, ticketCount, buyTickets);
      && (r.NotSent? <==> !(connected && isRoundActive))
      && (!r.NotSent? ==> r.call == BuyCall(ticketCount, 250000000000000000 * ticketCount))
  {
  }

  // ---------------------------------------------------------------------------
  // fetchData

  /** The page state `fetchData` writes. */
  datatype AppView = AppView(
    prizePool: Option<Wei>,
    isRoundActive: bool,
    participants: seq<Address>,
    errorMessage: string)

  /** The calls `fetchData` makes, each answered or failing. */
  datatype AppContract = AppContract(
    prizePool: Option<Wei>,
    isRoundActive: Option<bool>,
    participantAt: nat -> Option<Address>)

  const FetchFailedMessage := "Error fetching data. Check console for details."

  /**
   * `prizePool` and `isRoundActive` are read first and a failure ends the
   * run with the banner; then the participants are probed up to the first
   * failing index.
   */
  method FetchData(view: AppView, c: AppContract) returns (next: AppView)
    requires exists n :: c.participantAt(n).None?
    ensures c.prizePool.None? ==> next == view.(errorMessage := FetchFailedMessage)
    ensures c.prizePool.Some? && c.isRoundActive.None? ==>
      next == view.(prizePool := c.prizePool, errorMessage := FetchFailedMessage)
    ensures c.prizePool.Some? && c.isRoundActive.Some? ==>
      && next.prizePool == c.prizePool
      && next.isRoundActive == c.isRoundActive.value
      && SuccessfulPrefix(c.participantAt, next.participants)
      && next.errorMessage == view.errorMessage
  {
    if c.prizePool.None? {
      return view.(errorMessage := FetchFailedMessage);
    }
    next := view.(prizePool := c.prizePool);
    if c.isRoundActive.None? {
      return next.(errorMessage := FetchFailedMessage);
    }
    next := next.(isRoundActive := c.isRoundActive.value);
    var participantsList := ProbeParticipants(c.participantAt);
    next := next.(participants := participantsList);
  }
}

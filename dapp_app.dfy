/**
 * lottery-dapp/src/App.js: the players' page of the lottery-dapp front end.
 * `fetchData` reloads the price, balance, current round, the player's own
 * tickets and the winners of the last six rounds, newest first; the ticket
 * counter is clamped to what the player may still buy; `handleBuyTickets`
 * checks the limits before sending `buyTickets` with the exact price.
 */
module DappApp {
  import opened Wrappers
  import opened JsText
  import opened JsErrors
  import opened WalletConnect
  import opened WinnerHistory
  import opened WinnerDisplay
  import opened Ownership
  import opened CurrentRound
  import opened TicketPurchase

  /** `MAX_TICKETS_PER_WALLET` */
  const MaxTicketsPerWallet: nat := 2

  // ---------------------------------------------------------------------------
  // Winners of the last rounds, newest first

  /** The rounds asked for: `roundId` down to `Math.max(1, roundId - 5)`. */
  function AppWindow(roundId: nat): seq<nat>
  {
    RoundsDown(roundId, StartRound(roundId, 5))
  }

  /**
   * The window counts down from the current round, never reaches round 0,
   * and holds at most six rounds, none older than `roundId - 5`.
   */
  lemma AppWindowBounds(roundId: nat)
    ensures var w := AppWindow(roundId);
      && |w| == Min(roundId, 6)
      && (forall k :: 0 <= k < |w| ==> w[k] == roundId - k)
      && (forall k :: 0 <= k < |w| ==> 1 <= w[k] <= roundId && roundId - 5 <= w[k])
      && StrictlyMonotone(w, false)
  {
  }

  /**
   * `for (let i = roundId; i >= startRound; i--)` with a per-round `try`:
   * `queried` is the sequence of rounds passed to `getWinners`.
   */
  method FetchRecentWinners(o: WinnersOracle, roundId: nat)
    returns (winnersList: seq<WinnerRecord>, ghost queried: seq<nat>)
    ensures queried == AppWindow(roundId)
    ensures winnersList == Collect(o, AppWindow(roundId))
  {
    winnersList := [];
    queried := [];
    var startRound := StartRound(roundId, 5);
    var i: int := roundId;
    while i >= startRound
      invariant i <= roundId
      invariant i >= startRound - 1 || i == roundId
      invariant i >= -1
      invariant queried == RoundsDown(roundId, i + 1)
      invariant winnersList == Collect(o, queried)
    {
      var round: nat := i;
      winnersList := VisitRound(o, round, winnersList);
      CollectStep(o, queried, round);
      RoundsDownStep(roundId, round);
      queried := queried + [round];
      i := i - 1;
    }
    if roundId < startRound {
      assert RoundsDown(roundId, i + 1) == [] == RoundsDown(roundId, startRound);
    } else {
      assert i + 1 == startRound;
    }
  }

  /**
   * What the list holds: records of the window's rounds only, each a
   * non-zero slot at position 1..3 with that position's prize, ordered by
   * descending round and then ascending position.
   */
  lemma RecentWinnersShape(o: WinnersOracle, roundId: nat)
    ensures var recs := Collect(o, AppWindow(roundId));
      && (forall w :: w in recs ==>
            w.round in AppWindow(roundId) && o.getWinners(w.round).Some?
            && RecordOf(o.prizes(w.round), w.round, o.getWinners(w.round).value, w))
      && RecordsOrdered(recs, false)
  {
    RecordsWellFormed(o, AppWindow(roundId));
    AppWindowBounds(roundId);
    CollectOrdered(o, AppWindow(roundId), false);
  }

  /** A failing round contributes nothing and the loop goes on down to the start round. */
  lemma RecentWinnersSkipFailedRound(o: WinnersOracle, roundId: nat, k: nat)
    requires k < |AppWindow(roundId)|
    requires o.getWinners(AppWindow(roundId)[k]).None?
    ensures var w := AppWindow(roundId);
      Collect(o, w) == Collect(o, w[..k]) + Collect(o, w[k + 1..])
  {
    var w := AppWindow(roundId);
    assert w == w[..k] + [w[k]] + w[k + 1..];
    FailedRoundSkipped(o, w[..k], w[k], w[k + 1..]);
  }

  /** The winners card: the two newest rounds with records, each with exactly its records. */
  lemma AppDisplayedWinners(o: WinnersOracle, roundId: nat)
    ensures var groups := DisplayGroups(Collect(o, AppWindow(roundId)));
      && |groups| <= 2
      && (forall j, k :: 0 <= j < k < |groups| ==> groups[j].roundId > groups[k].roundId)
      && (forall g :: g in groups ==>
            g.roundId in AppWindow(roundId) && g.rows == RoundRecords(o, g.roundId) && g.rows != [])
  {
    AppWindowBounds(roundId);
    CollectedGroups(o, AppWindow(roundId), false);
  }

  // ---------------------------------------------------------------------------
  // The ticket counter

  /** `Math.min(MAX_TICKETS_PER_WALLET - userTickets, currentRound.ticketsRemaining)` */
  function MaxAllowed(userTickets: nat, ticketsRemaining: nat): (r: int)
    ensures r <= MaxTicketsPerWallet - userTickets && r <= ticketsRemaining
    ensures r == MaxTicketsPerWallet - userTickets || r == ticketsRemaining
  {
    Min(MaxTicketsPerWallet - userTickets, ticketsRemaining)
  }

  /** The `+` button: `Math.min(ticketCount + 1, maxAllowed)`. */
  function IncrementCount(ticketCount: int, userTickets: nat, ticketsRemaining: nat): (r: int)
    ensures r <= MaxAllowed(userTickets, ticketsRemaining) && r <= ticketCount + 1
    ensures r == ticketCount + 1 || r == MaxAllowed(userTickets, ticketsRemaining)
  {
    Min(ticketCount + 1, MaxAllowed(userTickets, ticketsRemaining))
  }

  /**
   * The text input: non-digits are deleted; nothing left gives 1, otherwise
   * the number read, capped at what may still be bought.
   */
  function TypedCount(value: string, userTickets: nat, ticketsRemaining: nat): (r: int)
    ensures StripNonDigits(value) == "" ==> r == 1
    ensures StripNonDigits(value) != "" ==>
      var typed := DigitsValue(StripNonDigits(value));
      var cap := MaxAllowed(userTickets, ticketsRemaining);
      r <= typed && r <= cap && (r == typed || r == cap)
  {
    var numericValue := StripNonDigits(value);
    if numericValue == "" then 1
    else
      ParseIntOfDigits(numericValue);
      Min(ParseInt(numericValue).value, MaxAllowed(userTickets, ticketsRemaining))
  }

  /**
   * While the player may buy at least one more ticket, the buttons keep the
   * counter between 1 and the cap, and typing never goes over the cap.
   */
  lemma CounterStaysInRange(ticketCount: int, userTickets: nat, ticketsRemaining: nat, value: string)
    requires 1 <= ticketCount <= MaxAllowed(userTickets, ticketsRemaining)
    ensures 1 <= DecrementCount(ticketCount) <= MaxAllowed(userTickets, ticketsRemaining)
    ensures 1 <= IncrementCount(ticketCount, userTickets, ticketsRemaining) <= MaxAllowed(userTickets, ticketsRemaining)
    ensures 0 <= TypedCount(value, userTickets, ticketsRemaining) <= MaxAllowed(userTickets, ticketsRemaining)
  {
  }

  /** Typing "0" sets the counter to 0; only the disabled Buy button stops that count. */
  lemma TypedZero(userTickets: nat, ticketsRemaining: nat)
    requires MaxAllowed(userTickets, ticketsRemaining) >= 0
    ensures TypedCount("0", userTickets, ticketsRemaining) == 0
    ensures BuyButtonDisabled(false, 0)
  {
    assert StripNonDigits("0") == "0";
    assert DigitsValue("0") == 0 by {
      assert "0"[..0] == "";
    }
  }

  /** `buyingTickets || ticketCount < 1` */
  predicate BuyButtonDisabled(buyingTickets: bool, ticketCount: int)
  {
    buyingTickets || ticketCount < 1
  }

  // ---------------------------------------------------------------------------
  // handleBuyTickets

  function LimitMessage(userTickets: nat): string
  {
    "You can only buy up to " + NatToString(MaxTicketsPerWallet) + " tickets per round. You already have "
      + NatToString(userTickets) + " tickets."
  }

  function PoolMessage(ticketsRemaining: nat): string
  {
    "Not enough tickets available in the pool. Only " + NatToString(ticketsRemaining) + " tickets remaining."
  }

  /** The four checks before the transaction, in order; `None` lets the purchase go on. */
  function BuyGuard(connected: bool, isActive: bool, userTickets: nat, ticketCount: int, ticketsRemaining: nat): (r: Option<string>)
    ensures r.None? <==>
      connected && isActive && userTickets + ticketCount <= MaxTicketsPerWallet && ticketCount <= ticketsRemaining
  {
    if SessionGuard(connected, isActive).Some? then SessionGuard(connected, isActive)
    else if userTickets + ticketCount > MaxTicketsPerWallet then Some(LimitMessage(userTickets))
    else if ticketCount > ticketsRemaining then Some(PoolMessage(ticketsRemaining))
    else None
  }

  /**
   * The first failing check decides the message: connection before the
   * round, the round before the per-wallet limit, the limit before the pool.
   */
  lemma BuyGuardOrder(connected: bool, isActive: bool, userTickets: nat, ticketCount: int, ticketsRemaining: nat)
    ensures !connected ==> BuyGuard(connected, isActive, userTickets, ticketCount, ticketsRemaining) == Some(NotConnectedMessage)
    ensures connected && !isActive ==>
      BuyGuard(connected, isActive, userTickets, ticketCount, ticketsRemaining) == Some(InactiveRoundMessage)
    ensures connected && isActive && userTickets + ticketCount > MaxTicketsPerWallet ==>
      BuyGuard(connected, isActive, userTickets, ticketCount, ticketsRemaining) == Some(LimitMessage(userTickets))
    ensures (connected && isActive && userTickets + ticketCount <= MaxTicketsPerWallet
             && ticketCount > ticketsRemaining) ==>
      BuyGuard(connected, isActive, userTickets, ticketCount, ticketsRemaining) == Some(PoolMessage(ticketsRemaining))
  {
  }

  /** A count set by the `+` button or by typing digits always passes both limit checks. */
  lemma ClampedCountPassesLimits(ticketCount: int, userTickets: nat, ticketsRemaining: nat, value: string)
    ensures BuyGuard(true, true, userTickets, IncrementCount(ticketCount, userTickets, ticketsRemaining), ticketsRemaining).None?
    ensures StripNonDigits(value) != "" ==>
      BuyGuard(true, true, userTickets, TypedCount(value, userTickets, ticketsRemaining), ticketsRemaining).None?
  {
  }

  /** The catch block's chain; every test is guarded, so it never throws. */
  function BuyErrorMessage(e: JsError, ticketsRemaining: nat): string
  {
    if Rejected(e) then "Transaction cancelled by user"
    else if Mentions(e, "insufficient funds") then "Insufficient funds in your wallet"
    else if Mentions(e, "gas") then "Gas estimation failed. Transaction might fail"
    else if Mentions(e, "maximum ticket") then "You have reached the maximum number of tickets for this round"
    else if Mentions(e, "Not enough space in the pool") then PoolMessage(ticketsRemaining)
    else "Failed to buy tickets: " + Detail(e)
  }

  function BuyRules(ticketsRemaining: nat): seq<Rule>
  {
    [
      Rule(RejectionTests, Say("Transaction cancelled by user")),
      Rule([MessageHas("insufficient funds")], Say("Insufficient funds in your wallet")),
      Rule([MessageHas("gas")], Say("Gas estimation failed. Transaction might fail")),
      Rule([MessageHas("maximum ticket")], Say("You have reached the maximum number of tickets for this round")),
      Rule([MessageHas("Not enough space in the pool")], Say(PoolMessage(ticketsRemaining))),
      Rule([Otherwise], Explain("Failed to buy tickets: "))
    ]
  }

  function BuyRuleFor(e: JsError): nat
  {
    if Rejected(e) then 0
    else if Mentions(e, "insufficient funds") then 1
    else if Mentions(e, "gas") then 2
    else if Mentions(e, "maximum ticket") then 3
    else if Mentions(e, "Not enough space in the pool") then 4
    else 5
  }

  /** The chain is the priority table: the first branch that holds gives the message. */
  lemma BuyFollowsPriority(e: JsError, ticketsRemaining: nat, walletInjected: bool)
    ensures FirstMatch(BuyRules(ticketsRemaining), e, walletInjected)
      == Chosen(BuyRuleFor(e), BuyErrorMessage(e, ticketsRemaining))
  {
    var rules := BuyRules(ticketsRemaining);
    RejectionFires(e, walletInjected);
    EvaluateOne(MessageHas("insufficient funds"), e, walletInjected);
    EvaluateOne(MessageHas("gas"), e, walletInjected);
    EvaluateOne(MessageHas("maximum ticket"), e, walletInjected);
    EvaluateOne(MessageHas("Not enough space in the pool"), e, walletInjected);
    EvaluateOne(Otherwise, e, walletInjected);
    var k := BuyRuleFor(e);
    forall j | 0 <= j < k ensures Fires(rules[j], e, walletInjected) == Some(false) {
      assert j == 0 || j == 1 || j == 2 || j == 3 || j == 4;
    }
    FirstMatchAt(rules, e, walletInjected, k);
  }

  /** `handleBuyTickets`; `buyTickets` answers the call it is given. */
  function HandleBuyTickets(
    connected: bool, round: RoundInfo, userTickets: nat, ticketCount: int,
    ticketPriceWei: Wei, buyTickets: BuyCall -> TxOutcome): BuyOutcome
  {
    var guard := BuyGuard(connected, round.isActive, userTickets, ticketCount, round.ticketsRemaining);
    if guard.Some? then NotSent(guard.value)
    else
      var call := BuyCall(ticketCount, TotalCost(ticketPriceWei, ticketCount));
      match buyTickets(call)
      case Confirmed => SentConfirmed(call)
      case Reverted(e) => SentFailed(call, BuyErrorMessage(e, round.ticketsRemaining))
  }

  /**
   * A transaction is sent exactly when every guard passes, and then for the
   * counter's value with exactly `ticketPriceWei * ticketCount` wei, within
   * both the per-wallet limit and the pool.
   */
  lemma SentPurchaseWithinLimits(
    connected: bool, round: RoundInfo, userTickets: nat, ticketCount: int,
    ticketPriceWei: Wei, buyTickets: BuyCall -> TxOutcome)
    ensures var r := HandleBuyTickets(connected, round, userTickets, ticketCount, ticketPriceWei, buyTickets);
      && (r.NotSent? <==> !(connected && round.isActive
                            && userTickets + ticketCount <= MaxTicketsPerWallet && ticketCount <= round.ticketsRemaining))
      && (!r.NotSent? ==>
            && r.call.ticketCount == ticketCount
            && r.call.value == ticketPriceWei * ticketCount
            && userTickets + r.call.ticketCount <= MaxTicketsPerWallet
            && r.call.ticketCount <= round.ticketsRemaining)
  {
  }

  /** With the Buy button enabled, a sent purchase is of one or two tickets. */
  lemma EnabledPurchaseCount(
    connected: bool, round: RoundInfo, userTickets: nat, ticketCount: int,
    ticketPriceWei: Wei, buyTickets: BuyCall -> TxOutcome)
    requires !BuyButtonDisabled(false, ticketCount)
    ensures var r := HandleBuyTickets(connected, round, userTickets, ticketCount, ticketPriceWei, buyTickets);
      !r.NotSent? ==> 1 <= r.call.ticketCount <= MaxTicketsPerWallet - userTickets
  {
  }

  // ---------------------------------------------------------------------------
  // checkOwner and fetchData

  /**
   * This page's `checkOwner` sets `isOwner` only when `owner()` answers, and
   * sets no banner either way.
   */
  function AppCheckOwner(user: Address, owner: Option<Address>, wasOwner: bool): (isOwner: bool)
    ensures owner.None? ==> isOwner == wasOwner
    ensures owner.Some? ==> isOwner == CheckOwner(user, owner, wasOwner).isOwner
  {
    if owner.Some? then Lower(user) == Lower(owner.value) else wasOwner
  }

  /** The page state `fetchData` writes; the price is kept in wei. */
  datatype AppView = AppView(
    ticketPriceWei: Wei,
    contractBalance: Option<Wei>,
    currentRound: RoundInfo,
    userTickets: nat,
    winners: seq<WinnerRecord>,
    errorMessage: string)

  /** Before the first fetch: the price shown is '0.25' STT. */
  const InitialAppView := AppView(250000000000000000, None, InitialRound, 0, [], "")

  /** The calls `fetchData` makes, each answered or failing. */
  datatype AppContract = AppContract(
    ticketPrice: Option<Wei>,
    getContractBalance: Option<Wei>,
    getCurrentRound: Option<RoundInfo>,
    getTicketsForParticipant: Address -> Option<nat>,
    winners: WinnersOracle)

  const FetchFailedMessage := "Error fetching data. Check console for details."

  /**
   * TICKET_PRICE, balance and round are read in this order and the first
   * failure ends the run with the banner, keeping what was set before it.
   * Then a connected player's ticket count is read (0 when that call fails),
   * and the winners list is rebuilt.
   */
  method FetchData(view: AppView, walletAddress: Address, c: AppContract) returns (next: AppView)
    ensures c.ticketPrice.None? ==> next == view.(errorMessage := FetchFailedMessage)
    ensures c.ticketPrice.Some? && c.getContractBalance.None? ==>
      next == view.(ticketPriceWei := c.ticketPrice.value, errorMessage := FetchFailedMessage)
    ensures c.ticketPrice.Some? && c.getContractBalance.Some? && c.getCurrentRound.None? ==>
      next == view.(ticketPriceWei := c.ticketPrice.value, contractBalance := c.getContractBalance,
                    errorMessage := FetchFailedMessage)
    ensures c.ticketPrice.Some? && c.getContractBalance.Some? && c.getCurrentRound.Some? ==>
      next == AppView(
        c.ticketPrice.value,
        c.getContractBalance,
        c.getCurrentRound.value,
        if walletAddress == "" then view.userTickets
        else match c.getTicketsForParticipant(walletAddress) case Some(n) => n case None => 0,
        Collect(c.winners, AppWindow(c.getCurrentRound.value.roundId)),
        view.errorMessage)
  {
    if c.ticketPrice.None? {
      return view.(errorMessage := FetchFailedMessage);
    }
    next := view.(ticketPriceWei := c.ticketPrice.value);
    if c.getContractBalance.None? {
      return next.(errorMessage := FetchFailedMessage);
    }
    next := next.(contractBalance := c.getContractBalance);
    if c.getCurrentRound.None? {
      return next.(errorMessage := FetchFailedMessage);
    }
    var roundData := c.getCurrentRound.value;
    next := next.(currentRound := roundData);
    if walletAddress != "" {
      var userTicketCount := c.getTicketsForParticipant(walletAddress);
      next := next.(userTickets := if userTicketCount.Some? then userTicketCount.value else 0);
    }
    var winnersList, _ := FetchRecentWinners(c.winners, roundData.roundId);
    next := next.(winners := winnersList);
  }
}

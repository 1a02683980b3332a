/**
 * lottery-frontends/src/AdminPanel.js: the owner's page of the
 * lottery-frontends front end, written against a contract that keeps one
 * winner per finished round (`pastWinners(i)`) and lets the participants
 * array be read by index only.
 */
module FrontendsAdminPanel {
  import opened Wrappers
  import opened JsText
  import opened JsErrors
  import opened WinnerHistory
  import opened Participants
  import opened Ownership

  // ---------------------------------------------------------------------------
  // Past winners

  /** `pastWinners(i)`: the winner the contract stored for round `i`. */
  datatype PastWinner = PastWinner(winnerAddress: Address, prizeAmount: Wei)

  /** `{ round, address, prize }` as pushed into `winnersList`. */
  datatype PastWinnerRecord = PastWinnerRecord(round: nat, address: Address, prize: Wei)

  /** What one round adds: nothing when the call fails or the stored winner is the zero address. */
  function PastRecord(pastWinners: nat -> Option<PastWinner>, round: nat): seq<PastWinnerRecord>
  {
    match pastWinners(round)
    case None => []
    case Some(w) =>
      if w.winnerAddress == ZeroAddress then [] else [PastWinnerRecord(round, w.winnerAddress, w.prizeAmount)]
  }

  /** The list the loop builds when it visits `rounds` in this order. */
  function PastRecords(pastWinners: nat -> Option<PastWinner>, rounds: seq<nat>): seq<PastWinnerRecord>
  {
    if |rounds| == 0 then []
    else PastRecords(pastWinners, rounds[..|rounds| - 1]) + PastRecord(pastWinners, rounds[|rounds| - 1])
  }

  /** The rounds asked for: `1 .. roundNumber - 1`. */
  function PastWindow(roundNumber: nat): seq<nat>
  {
    RoundsUp(1, roundNumber - 1)
  }

  /**
   * Every finished round before `roundNumber`, in ascending order, and not
   * `roundNumber` itself; nothing at all while `roundNumber <= 1`.
   */
  lemma PastWindowBounds(roundNumber: nat)
    ensures var w := PastWindow(roundNumber);
      && |w| == (if roundNumber <= 1 then 0 else roundNumber - 1)
      && (forall k :: 0 <= k < |w| ==> w[k] == k + 1)
      && roundNumber !in w
      && StrictlyMonotone(w, true)
  {
  }

  lemma PastStep(pastWinners: nat -> Option<PastWinner>, rounds: seq<nat>, i: nat)
    ensures PastRecords(pastWinners, rounds + [i]) == PastRecords(pastWinners, rounds) + PastRecord(pastWinners, i)
  {
    assert (rounds + [i])[..|rounds|] == rounds;
  }

  /** One turn of the loop below: the window and the list both grow by round `i`. */
  lemma PastLoopStep(pastWinners: nat -> Option<PastWinner>, queried: seq<nat>, i: nat)
    requires i >= 1 && queried == RoundsUp(1, i - 1)
    ensures queried + [i] == RoundsUp(1, i)
    ensures PastRecords(pastWinners, queried + [i]) == PastRecords(pastWinners, queried) + PastRecord(pastWinners, i)
  {
    PastStep(pastWinners, queried, i);
  }

  /**
   * `for (let i = 1; i < roundNumber; i++)` with a per-round `try`:
   * `queried` is the sequence of rounds passed to `pastWinners`.
   */
  method FetchPastWinners(pastWinners: nat -> Option<PastWinner>, roundNumber: nat)
    returns (winnersList: seq<PastWinnerRecord>, ghost queried: seq<nat>)
    ensures queried == PastWindow(roundNumber)
    ensures winnersList == PastRecords(pastWinners, PastWindow(roundNumber))
  {
    winnersList := [];
    queried := [];
    var i := 1;
    while i < roundNumber
      invariant i >= 1
      invariant i <= roundNumber || i == 1
      invariant queried == RoundsUp(1, i - 1)
      invariant winnersList == PastRecords(pastWinners, queried)
    {
      var winner := pastWinners(i);
      ghost var before := winnersList;
      if winner.Some? && winner.value.winnerAddress != ZeroAddress {
        winnersList := winnersList + [PastWinnerRecord(i, winner.value.winnerAddress, winner.value.prizeAmount)];
      }
      assert winnersList == before + PastRecord(pastWinners, i);
      PastLoopStep(pastWinners, queried, i);
      queried := queried + [i];
      i := i + 1;
    }
    PastLoopExit(roundNumber, i);
  }

  /** When the loop stops, it has visited exactly the rounds before `roundNumber`. */
  lemma PastLoopExit(roundNumber: nat, i: nat)
    requires i >= 1 && (i <= roundNumber || i == 1) && !(i < roundNumber)
    ensures RoundsUp(1, i - 1) == PastWindow(roundNumber)
  {
    if roundNumber <= 1 {
      assert i == 1;
    } else {
      assert i == roundNumber;
    }
  }

  /**
   * A record is in the list exactly when its round was visited and the
   * contract stored that non-zero winner and prize for it.
   */
  lemma {:induction false} PastRecordsMembers(pastWinners: nat -> Option<PastWinner>, rounds: seq<nat>, r: PastWinnerRecord)
    ensures r in PastRecords(pastWinners, rounds) <==>
      r.round in rounds && r.address != ZeroAddress
      && pastWinners(r.round) == Some(PastWinner(r.address, r.prize))
  {
    if |rounds| > 0 {
      var init := rounds[..|rounds| - 1];
      var last := rounds[|rounds| - 1];
      PastRecordsMembers(pastWinners, init, r);
      assert rounds == init + [last];
    }
  }

  /** Visiting rounds in ascending order gives records in strictly ascending round order. */
  lemma {:induction false} PastRecordsOrdered(pastWinners: nat -> Option<PastWinner>, rounds: seq<nat>)
    requires StrictlyMonotone(rounds, true)
    ensures forall j, k :: 0 <= j < k < |PastRecords(pastWinners, rounds)| ==>
      PastRecords(pastWinners, rounds)[j].round < PastRecords(pastWinners, rounds)[k].round
  {
    if |rounds| > 0 {
      var init := rounds[..|rounds| - 1];
      var last := rounds[|rounds| - 1];
      PastRecordsOrdered(pastWinners, init);
      var prev := PastRecords(pastWinners, init);
      var recs := PastRecords(pastWinners, rounds);
      forall j | 0 <= j < |prev| ensures prev[j].round < last {
        PastRecordsMembers(pastWinners, init, prev[j]);
        assert prev[j] in prev;
        var idx :| 0 <= idx < |init| && init[idx] == prev[j].round;
        assert rounds[idx] == init[idx];
      }
      forall j, k | 0 <= j < k < |recs| ensures recs[j].round < recs[k].round {
        if k >= |prev| {
          assert recs[k].round == last;
          assert recs[j] == prev[j];
        } else {
          assert recs[j] == prev[j] && recs[k] == prev[k];
        }
      }
    }
  }

  lemma {:induction false} PastRecordsAppend(pastWinners: nat -> Option<PastWinner>, a: seq<nat>, b: seq<nat>)
    ensures PastRecords(pastWinners, a + b) == PastRecords(pastWinners, a) + PastRecords(pastWinners, b)
    decreases |b|
  {
    if |b| == 0 {
      assert a + b == a;
    } else {
      var b' := b[..|b| - 1];
      assert (a + b)[..|a + b| - 1] == a + b';
      assert (a + b)[|a + b| - 1] == b[|b| - 1];
      PastRecordsAppend(pastWinners, a, b');
    }
  }

  /** A failing `pastWinners(i)` adds nothing and the loop goes on with the next round. */
  lemma FailedPastRoundSkipped(pastWinners: nat -> Option<PastWinner>, before: seq<nat>, i: nat, after: seq<nat>)
    requires pastWinners(i).None?
    ensures PastRecords(pastWinners, before + [i] + after) == PastRecords(pastWinners, before) + PastRecords(pastWinners, after)
  {
    PastRecordsAppend(pastWinners, before + [i], after);
    PastStep(pastWinners, before, i);
  }

  // ---------------------------------------------------------------------------
  // fetchData

  /** The page state `fetchData` writes. */
  datatype AdminView = AdminView(
    prizePool: Option<Wei>,
    contractBalance: Option<Wei>,
    isRoundActive: bool,
    roundNumber: nat,
    participants: seq<Address>,
    winners: seq<PastWinnerRecord>,
    errorMessage: string)

  /** The calls `fetchData` makes, each answered or failing. */
  datatype AdminContract = AdminContract(
    prizePool: Option<Wei>,
    getBalance: Option<Wei>,
    isRoundActive: Option<bool>,
    roundNumber: Option<nat>,
    participantAt: nat -> Option<Address>,
    pastWinners: nat -> Option<PastWinner>)

  const FetchFailedMessage := "Error fetching data"

  /**
   * The four reads come first, and the first failure ends the run with the
   * banner, keeping what was set before it.  The participants are then
   * probed and the past winners rebuilt, with the rounds bounded by the
   * `roundNumber` the page held when the run started, not the one it just read.
   */
  method FetchData(view: AdminView, c: AdminContract) returns (next: AdminView)
    requires exists n :: c.participantAt(n).None?
    ensures c.prizePool.None? ==> next == view.(errorMessage := FetchFailedMessage)
    ensures c.prizePool.Some? && c.getBalance.None? ==>
      next == view.(prizePool := c.prizePool, errorMessage := FetchFailedMessage)
    ensures c.prizePool.Some? && c.getBalance.Some? && c.isRoundActive.None? ==>
      next == view.(prizePool := c.prizePool, contractBalance := c.getBalance, errorMessage := FetchFailedMessage)
    ensures c.prizePool.Some? && c.getBalance.Some? && c.isRoundActive.Some? && c.roundNumber.None? ==>
      next == view.(prizePool := c.prizePool, contractBalance := c.getBalance,
                    isRoundActive := c.isRoundActive.value, errorMessage := FetchFailedMessage)
    ensures c.prizePool.Some? && c.getBalance.Some? && c.isRoundActive.Some? && c.roundNumber.Some? ==>
      && next.prizePool == c.prizePool
      && next.contractBalance == c.getBalance
      && next.isRoundActive == c.isRoundActive.value
      && next.roundNumber == c.roundNumber.value
      && SuccessfulPrefix(c.participantAt, next.participants)
      && next.winners == PastRecords(c.pastWinners, PastWindow(view.roundNumber))
      && next.errorMessage == view.errorMessage
  {
    if c.prizePool.None? {
      return view.(errorMessage := FetchFailedMessage);
    }
    next := view.(prizePool := c.prizePool);
    if c.getBalance.None? {
      return next.(errorMessage := FetchFailedMessage);
    }
    next := next.(contractBalance := c.getBalance);
    if c.isRoundActive.None? {
      return next.(errorMessage := FetchFailedMessage);
    }
    next := next.(isRoundActive := c.isRoundActive.value);
    if c.roundNumber.None? {
      return next.(errorMessage := FetchFailedMessage);
    }
    next := next.(roundNumber := c.roundNumber.value);
    var participantsList := ProbeParticipants(c.participantAt);
    next := next.(participants := participantsList);
    var winnersList, _ := FetchPastWinners(c.pastWinners, view.roundNumber);
    next := next.(winners := winnersList);
  }

  /**
   * Because the bound is the page's previous `roundNumber`, the very first
   * run (the state still 0) lists no winner whatever the contract holds, and
   * no run lists a round at or after that previous value, even when the
   * contract has just reported more finished rounds.
   */
  lemma StaleRoundBound(pastWinners: nat -> Option<PastWinner>, previousRoundNumber: nat)
    ensures PastRecords(pastWinners, PastWindow(0)) == []
    ensures forall w :: w in PastRecords(pastWinners, PastWindow(previousRoundNumber)) ==>
      1 <= w.round < previousRoundNumber
  {
    forall w | w in PastRecords(pastWinners, PastWindow(previousRoundNumber))
      ensures 1 <= w.round < previousRoundNumber
    {
      PastRecordsMembers(pastWinners, PastWindow(previousRoundNumber), w);
    }
  }

  // ---------------------------------------------------------------------------
  // handleSelectWinners

  const ActiveRoundMessage := "Cannot select winners because the round is still active"
  const NotEnoughMessage := "Cannot select winners: Not enough participants (need at least 3)"
  const SelectedMessage := "Lottery completed successfully! Winners have been selected."

  /**
   * The catch block's chain.  Its second test reads `error.message.includes`
   * unguarded, so an error without a message and without code 4001 makes
   * the chain itself throw (`None`).
   */
  function SelectErrorMessage(e: JsError): Option<string>
  {
    if Mentions(e, "Not enough participants") then Some(NotEnoughMessage)
    else if e.code == Some(UserRejectedCode) then Some("Transaction rejected by user")
    else if e.message.None? then None
    else if Contains(e.message.value, "user rejected") then Some("Transaction rejected by user")
    else if Mentions(e, "Lottery round is still active") then Some(ActiveRoundMessage)
    else Some("Error selecting winners. Please try again")
  }

  const SelectRules := [
    Rule([MessageHas("Not enough participants")], Say(NotEnoughMessage)),
    Rule([CodeIs(UserRejectedCode), BareMessageHas("user rejected")], Say("Transaction rejected by user")),
    Rule([MessageHas("Lottery round is still active")], Say(ActiveRoundMessage)),
    Rule([Otherwise], Say("Error selecting winners. Please try again"))
  ]

  function SelectRuleFor(e: JsError): nat
  {
    if Mentions(e, "Not enough participants") then 0
    else if e.code == Some(UserRejectedCode) || e.message.None? || Contains(e.message.value, "user rejected") then 1
    else if Mentions(e, "Lottery round is still active") then 2
    else 3
  }

  /** The chain is the priority table, throwing exactly where the table's unguarded test does. */
  lemma SelectFollowsPriority(e: JsError, walletInjected: bool)
    ensures Shown(FirstMatch(SelectRules, e, walletInjected)) == SelectErrorMessage(e)
    ensures FirstMatch(SelectRules, e, walletInjected).Threw? <==> SelectErrorMessage(e).None?
  {
    var rules := SelectRules;
    EvaluateOne(MessageHas("Not enough participants"), e, walletInjected);
    EvaluateTwo(CodeIs(UserRejectedCode), BareMessageHas("user rejected"), e, walletInjected);
    EvaluateOne(MessageHas("Lottery round is still active"), e, walletInjected);
    EvaluateOne(Otherwise, e, walletInjected);
    var k := SelectRuleFor(e);
    forall j | 0 <= j < k ensures Fires(rules[j], e, walletInjected) == Some(false) {
      assert j == 0 || j == 1 || j == 2;
    }
    FirstMatchAt(rules, e, walletInjected, k);
  }

  /** `handleSelectWinners`: the owner guard, the round guard, then `selectWinners()`. */
  function HandleSelectWinners(connected: bool, isOwner: bool, isRoundActive: bool, selectWinners: TxOutcome): HandlerResult
  {
    if OwnerGuard(connected, isOwner).Some? then Refused(OwnerGuard(connected, isOwner).value)
    else if isRoundActive then Refused(ActiveRoundMessage)
    else match selectWinners
      case Reverted(e) => Failed(SelectErrorMessage(e))
      case Confirmed => Done(SelectedMessage)
  }

  /**
   * A caller who is not the connected owner is refused first, an active
   * round next; past them the transaction decides, and a revert for too few
   * participants is reported as such.
   */
  lemma SelectGuards(connected: bool, isOwner: bool, isRoundActive: bool, selectWinners: TxOutcome)
    ensures !(connected && isOwner) ==>
      HandleSelectWinners(connected, isOwner, isRoundActive, selectWinners) == Refused(OwnerOnlyMessage)
    ensures connected && isOwner && isRoundActive ==>
      HandleSelectWinners(connected, isOwner, isRoundActive, selectWinners) == Refused(ActiveRoundMessage)
    ensures HandleSelectWinners(connected, isOwner, isRoundActive, selectWinners).Done? <==>
      connected && isOwner && !isRoundActive && selectWinners.Confirmed?
    ensures (connected && isOwner && !isRoundActive && selectWinners.Reverted?
             && Mentions(selectWinners.error, "Not enough participants")) ==>
      HandleSelectWinners(connected, isOwner, isRoundActive, selectWinners) == Failed(Some(NotEnoughMessage))
  {
  }

  /** `selectingWinners || isRoundActive || participants.length < 3` */
  predicate SelectButtonDisabled(selectingWinners: bool, isRoundActive: bool, participants: seq<Address>)
  {
    selectingWinners || isRoundActive || |participants| < 3
  }

  /**
   * An enabled button means the round guard passes, so the connected owner
   * always reaches the transaction; and at least three participants were listed.
   */
  lemma EnabledSelectReachesTransaction(selectingWinners: bool, isRoundActive: bool, participants: seq<Address>,
                                        selectWinners: TxOutcome)
    requires !SelectButtonDisabled(selectingWinners, isRoundActive, participants)
    ensures |participants| >= 3
    ensures !HandleSelectWinners(true, true, isRoundActive, selectWinners).Refused?
  {
  }
}

/**
 * lottery-dapp/src/AdminPanel.js: the owner's page of the lottery-dapp front
 * end.  `fetchData` reloads the current round, the balance, the winners of
 * the last three rounds and the participants; `handleDrawWinners` runs the
 * draw behind the owner and round guards; the fund inputs filter what may be
 * typed; the winners tab groups the reconstructed list by round.
 */
module DappAdminPanel {
  import opened Wrappers
  import opened JsText
  import opened JsErrors
  import opened WinnerHistory
  import opened WinnerDisplay
  import opened Participants
  import opened Ownership
  import opened CurrentRound

  // ---------------------------------------------------------------------------
  // Winners of the last rounds

  /** The rounds asked for: `Math.max(1, currentRoundId - 2)` up to `currentRoundId`. */
  function AdminWindow(currentRoundId: nat): seq<nat>
  {
    RoundsUp(StartRound(currentRoundId, 2), currentRoundId)
  }

  /**
   * The window is the consecutive rounds from the start round up to the
   * current one: never round 0, at most three of them, ending at the current
   * round, and empty while no round exists.
   */
  lemma AdminWindowBounds(currentRoundId: nat)
    ensures var w := AdminWindow(currentRoundId);
      && |w| == Min(currentRoundId, 3)
      && (forall k :: 0 <= k < |w| ==> w[k] == StartRound(currentRoundId, 2) + k)
      && (forall k :: 0 <= k < |w| ==> 1 <= w[k] <= currentRoundId && currentRoundId - 2 <= w[k])
      && (currentRoundId > 0 ==> w[|w| - 1] == currentRoundId)
      && StrictlyMonotone(w, true)
  {
  }

  /** With no round yet nothing is asked and the list stays empty. */
  lemma NoRoundNoWinners(o: WinnersOracle)
    ensures AdminWindow(0) == [] && Collect(o, AdminWindow(0)) == []
  {
  }

  /**
   * The admin panel's history fetch: the window starts two rounds back
   * (never below round 1) and ends at the current round.
   */
  method FetchRecentWinners(o: WinnersOracle, currentRoundId: nat)
    returns (winnersList: seq<WinnerRecord>, ghost queried: seq<nat>)
    ensures queried == AdminWindow(currentRoundId)
    ensures winnersList == Collect(o, AdminWindow(currentRoundId))
  {
    var startRound := StartRound(currentRoundId, 2);
    winnersList, queried := FetchRoundsUp(o, startRound, currentRoundId);
  }

  /**
   * `for (let i = startRound; i <= currentRoundId; i++)` with a per-round
   * `try`: `queried` is the sequence of rounds passed to `getWinners`.
   */
  method FetchRoundsUp(o: WinnersOracle, startRound: nat, currentRoundId: nat)
    returns (winnersList: seq<WinnerRecord>, ghost queried: seq<nat>)
    ensures queried == RoundsUp(startRound, currentRoundId)
    ensures winnersList == Collect(o, queried)
  {
    winnersList := [];
    queried := [];
    var i := startRound;
    while i <= currentRoundId
      invariant startRound <= i
      invariant i <= currentRoundId + 1 || i == startRound
      invariant queried == RoundsUp(startRound, i - 1)
      invariant winnersList == Collect(o, queried)
    {
      winnersList := VisitRound(o, i, winnersList);
      AdminLoopStep(o, startRound, queried, i);
      queried := queried + [i];
      i := i + 1;
    }
    assert i - 1 == currentRoundId || currentRoundId < startRound;
  }

  /** One turn of the loop above: the window and the list both grow by round `i`. */
  lemma AdminLoopStep(o: WinnersOracle, startRound: nat, queried: seq<nat>, i: nat)
    requires startRound <= i && queried == RoundsUp(startRound, i - 1)
    ensures queried + [i] == RoundsUp(startRound, i)
    ensures Collect(o, queried + [i]) == Collect(o, queried) + RoundRecords(o, i)
  {
    CollectStep(o, queried, i);
    RoundsUpStep(startRound, i);
  }

  /**
   * What the list holds: records of the window's rounds only, each a
   * non-zero slot at position 1..3 with that position's prize; ordered by
   * ascending round and then ascending position; and a round whose
   * `getWinners` fails is skipped without stopping the later rounds.
   */
  lemma RecentWinnersShape(o: WinnersOracle, currentRoundId: nat)
    ensures var recs := Collect(o, AdminWindow(currentRoundId));
      && (forall w :: w in recs ==>
            w.round in AdminWindow(currentRoundId) && o.getWinners(w.round).Some?
            && RecordOf(o.prizes(w.round), w.round, o.getWinners(w.round).value, w))
      && RecordsOrdered(recs, true)
  {
    RecordsWellFormed(o, AdminWindow(currentRoundId));
    AdminWindowBounds(currentRoundId);
    CollectOrdered(o, AdminWindow(currentRoundId), true);
  }

  /** A failing round of the window contributes nothing and the rest are unaffected. */
  lemma RecentWinnersSkipFailedRound(o: WinnersOracle, currentRoundId: nat, k: nat)
    requires k < |AdminWindow(currentRoundId)|
    requires o.getWinners(AdminWindow(currentRoundId)[k]).None?
    ensures var w := AdminWindow(currentRoundId);
      Collect(o, w) == Collect(o, w[..k]) + Collect(o, w[k + 1..])
  {
    var w := AdminWindow(currentRoundId);
    assert w == w[..k] + [w[k]] + w[k + 1..];
    FailedRoundSkipped(o, w[..k], w[k], w[k + 1..]);
  }

  // ---------------------------------------------------------------------------
  // Participants

  /** `getAllParticipantsInfo()`: the parallel arrays of addresses and ticket counts. */
  datatype ParticipantsInfo = ParticipantsInfo(addresses: seq<Address>, ticketCounts: seq<nat>)

  const ParticipantsFailedMessage := "Failed to fetch participants"

  /**
   * `getParticipants`: the zipped list on success; on failure the list is
   * left as it was and the error banner is set.
   */
  method GetParticipants(participants: seq<Participant>, info: Option<ParticipantsInfo>)
    returns (next: seq<Participant>, error: Option<string>)
    ensures info.None? ==> next == participants && error == Some(ParticipantsFailedMessage)
    ensures info.Some? ==> PairsUp(next, info.value.addresses, info.value.ticketCounts) && error.None?
  {
    if info.None? {
      return participants, Some(ParticipantsFailedMessage);
    }
    next := ZipParticipants(info.value.addresses, info.value.ticketCounts);
    error := None;
  }

  // ---------------------------------------------------------------------------
  // fetchData

  /** The page state `fetchData` writes. */
  datatype AdminView = AdminView(
    currentRound: RoundInfo,
    contractBalance: Option<Wei>,
    winners: seq<WinnerRecord>,
    participants: seq<Participant>,
    errorMessage: string)

  /** The calls `fetchData` makes, each answered or failing. */
  datatype AdminContract = AdminContract(
    getCurrentRound: Option<RoundInfo>,
    getContractBalance: Option<Wei>,
    winners: WinnersOracle,
    getAllParticipantsInfo: Option<ParticipantsInfo>)

  const FetchFailedMessage := "Error fetching data"

  /**
   * A failing `getCurrentRound` or `getContractBalance` ends the run with the
   * error banner, keeping whatever was set before it; after them the winners
   * and participants steps swallow their own failures (the participants
   * list is then kept).
   */
  method FetchData(view: AdminView, c: AdminContract) returns (next: AdminView)
    ensures c.getCurrentRound.None? ==> next == view.(errorMessage := FetchFailedMessage)
    ensures c.getCurrentRound.Some? && c.getContractBalance.None? ==>
      next == view.(currentRound := c.getCurrentRound.value, errorMessage := FetchFailedMessage)
    ensures c.getCurrentRound.Some? && c.getContractBalance.Some? ==>
      && next.currentRound == c.getCurrentRound.value
      && next.contractBalance == c.getContractBalance
      && next.winners == Collect(c.winners, AdminWindow(c.getCurrentRound.value.roundId))
      && (c.getAllParticipantsInfo.None? ==> next.participants == view.participants)
      && (c.getAllParticipantsInfo.Some? ==>
            PairsUp(next.participants, c.getAllParticipantsInfo.value.addresses, c.getAllParticipantsInfo.value.ticketCounts))
      && next.errorMessage == view.errorMessage
  {
    if c.getCurrentRound.None? {
      return view.(errorMessage := FetchFailedMessage);
    }
    var roundData := c.getCurrentRound.value;
    next := view.(currentRound := roundData);
    if c.getContractBalance.None? {
      return next.(errorMessage := FetchFailedMessage);
    }
    next := next.(contractBalance := c.getContractBalance);
    var winnersList, _ := FetchRecentWinners(c.winners, roundData.roundId);
    next := next.(winners := winnersList);
    if c.getAllParticipantsInfo.Some? {
      var participantData := ZipParticipants(c.getAllParticipantsInfo.value.addresses, c.getAllParticipantsInfo.value.ticketCounts);
      next := next.(participants := participantData);
    }
  }

  // ---------------------------------------------------------------------------
  // handleDrawWinners

  const ActiveRoundMessage := "Cannot draw winners because the round is still active"
  const NotEnoughMessage := "Cannot draw winners: Not enough participants"
  const DrawnMessage := "Winners have been drawn successfully! A new round has been initialized."

  /** The error the page throws itself when the round has fewer participants than required. */
  function NotEnoughError(minParticipants: nat): JsError
  {
    ErrorWithMessage("Not enough participants. Need at least " + NatToString(minParticipants) + ".")
  }

  /**
   * The catch block's chain.  Its second test reads `error.message.includes`
   * without checking that the message exists, so for an error without a
   * message and without code 4001 the chain itself throws (`None`).
   */
  function DrawErrorMessage(e: JsError): Option<string>
  {
    if Mentions(e, "Not enough participants") then Some(NotEnoughMessage)
    else if e.code == Some(UserRejectedCode) then Some("Transaction rejected by user")
    else if e.message.None? then None
    else if Contains(e.message.value, "user rejected") then Some("Transaction rejected by user")
    else if Mentions(e, "Round still active") then Some(ActiveRoundMessage)
    else if Mentions(e, "Drawing already complete") then Some("Drawing already completed for this round")
    else Some("Error drawing winners: " + Detail(e))
  }

  const DrawRules := [
    Rule([MessageHas("Not enough participants")], Say(NotEnoughMessage)),
    Rule([CodeIs(UserRejectedCode), BareMessageHas("user rejected")], Say("Transaction rejected by user")),
    Rule([MessageHas("Round still active")], Say(ActiveRoundMessage)),
    Rule([MessageHas("Drawing already complete")], Say("Drawing already completed for this round")),
    Rule([Otherwise], Explain("Error drawing winners: "))
  ]

  /** The branch the chain takes on `e`. */
  function DrawRuleFor(e: JsError): nat
  {
    if Mentions(e, "Not enough participants") then 0
    else if e.code == Some(UserRejectedCode) || e.message.None? || Contains(e.message.value, "user rejected") then 1
    else if Mentions(e, "Round still active") then 2
    else if Mentions(e, "Drawing already complete") then 3
    else 4
  }

  /**
   * The chain is the priority table: the first branch that holds decides the
   * message, and the chain throws exactly where the table's unguarded test does.
   */
  lemma DrawFollowsPriority(e: JsError, walletInjected: bool)
    ensures Shown(FirstMatch(DrawRules, e, walletInjected)) == DrawErrorMessage(e)
    ensures FirstMatch(DrawRules, e, walletInjected).Threw? <==> DrawErrorMessage(e).None?
  {
    var rules := DrawRules;
    EvaluateOne(MessageHas("Not enough participants"), e, walletInjected);
    EvaluateTwo(CodeIs(UserRejectedCode), BareMessageHas("user rejected"), e, walletInjected);
    EvaluateOne(MessageHas("Round still active"), e, walletInjected);
    EvaluateOne(MessageHas("Drawing already complete"), e, walletInjected);
    EvaluateOne(Otherwise, e, walletInjected);
    var k := DrawRuleFor(e);
    forall j | 0 <= j < k ensures Fires(rules[j], e, walletInjected) == Some(false) {
      assert j == 0 || j == 1 || j == 2 || j == 3;
    }
    FirstMatchAt(rules, e, walletInjected, k);
  }

  /** The error thrown for too few participants is always shown as such. */
  lemma NotEnoughErrorClassified(minParticipants: nat)
    ensures DrawErrorMessage(NotEnoughError(minParticipants)) == Some(NotEnoughMessage)
  {
    var needle := "Not enough participants";
    var need := ". Need at least ";
    var n := NatToString(minParticipants);
    assert "Not enough participants. Need at least " == needle + need;
    AppendAssoc(needle, need, n);
    AppendAssoc(needle, need + n, ".");
    ContainsWhenPrefix(needle, need + n + ".");
  }

  /**
   * `handleDrawWinners`: the owner guard, then the round guard, then
   * `MIN_PARTICIPANTS()` (its failure is thrown on), the participants check,
   * and the `drawWinners()` transaction.
   */
  function HandleDrawWinners(
    connected: bool, isOwner: bool, round: RoundInfo,
    minParticipants: Result<nat, JsError>, drawWinners: TxOutcome): HandlerResult
  {
    if OwnerGuard(connected, isOwner).Some? then Refused(OwnerGuard(connected, isOwner).value)
    else if round.isActive then Refused(ActiveRoundMessage)
    else match minParticipants
      case Failure(e) => Failed(DrawErrorMessage(e))
      case Success(m) =>
        if round.participantsCount < m then Failed(DrawErrorMessage(NotEnoughError(m)))
        else match drawWinners
          case Reverted(e) => Failed(DrawErrorMessage(e))
          case Confirmed => Done(DrawnMessage)
  }

  /**
   * The guards in order: a caller who is not the connected owner is refused
   * first, an active round next; too few participants ends in the
   * not-enough message whatever the transaction would have done; and the
   * draw succeeds only past all of them with a confirmed transaction.
   */
  lemma DrawGuards(connected: bool, isOwner: bool, round: RoundInfo,
                   minParticipants: Result<nat, JsError>, drawWinners: TxOutcome)
    ensures !(connected && isOwner) ==>
      HandleDrawWinners(connected, isOwner, round, minParticipants, drawWinners) == Refused(OwnerOnlyMessage)
    ensures connected && isOwner && round.isActive ==>
      HandleDrawWinners(connected, isOwner, round, minParticipants, drawWinners) == Refused(ActiveRoundMessage)
    ensures (connected && isOwner && !round.isActive && minParticipants.Success?
             && round.participantsCount < minParticipants.value) ==>
      HandleDrawWinners(connected, isOwner, round, minParticipants, drawWinners) == Failed(Some(NotEnoughMessage))
    ensures HandleDrawWinners(connected, isOwner, round, minParticipants, drawWinners).Done? <==>
      connected && isOwner && !round.isActive && minParticipants.Success?
      && round.participantsCount >= minParticipants.value && drawWinners.Confirmed?
  {
    if minParticipants.Success? {
      NotEnoughErrorClassified(minParticipants.value);
    }
  }

  /** Owner status comes from `checkOwner`, so any spelling of the owner's address may draw. */
  lemma DrawOwnerIgnoresCase(user: Address, owner: Address, round: RoundInfo,
                             minParticipants: Result<nat, JsError>, drawWinners: TxOutcome)
    ensures HandleDrawWinners(true, CheckOwner(user, Some(owner), false).isOwner, round, minParticipants, drawWinners)
      == HandleDrawWinners(true, CheckOwner(Lower(user), Some(owner), false).isOwner, round, minParticipants, drawWinners)
  {
    IsOwnerIgnoresCase(user, owner);
  }

  /** `drawingWinners || currentRound.isActive || currentRound.participantsCount < 3 || currentRound.drawingComplete` */
  predicate DrawButtonDisabled(drawingWinners: bool, round: RoundInfo)
  {
    drawingWinners || round.isActive || round.participantsCount < 3 || round.drawingComplete
  }

  /**
   * An enabled button means the round guard passes: the connected owner is
   * never refused by the handler, and with a minimum of at most three
   * participants the not-enough check passes too.
   */
  lemma EnabledDrawPassesGuards(drawingWinners: bool, round: RoundInfo, m: nat, drawWinners: TxOutcome)
    requires !DrawButtonDisabled(drawingWinners, round)
    ensures !HandleDrawWinners(true, true, round, Success(m), drawWinners).Refused?
    ensures m <= 3 && drawWinners.Confirmed? ==>
      HandleDrawWinners(true, true, round, Success(m), drawWinners) == Done(DrawnMessage)
  {
  }

  // ---------------------------------------------------------------------------
  // The fund amount inputs: `value === '' || /^[0-9]+\.?[0-9]*$/.test(value)`

  /** Where the regular expression's matcher is after reading a prefix. */
  datatype AmountState = NeedDigit | InInteger | InFraction

  function AmountStep(st: AmountState, c: char): Option<AmountState>
  {
    match st
    case NeedDigit => if IsDigit(c) then Some(InInteger) else None
    case InInteger => if IsDigit(c) then Some(InInteger) else if c == '.' then Some(InFraction) else None
    case InFraction => if IsDigit(c) then Some(InFraction) else None
  }

  /** Runs the matcher over `s`; `None` when some character is refused. */
  function AmountRun(st: AmountState, s: string): Option<AmountState>
    decreases |s|
  {
    if |s| == 0 then Some(st)
    else match AmountStep(st, s[0])
      case None => None
      case Some(next) => AmountRun(next, s[1..])
  }

  /** `/^[0-9]+\.?[0-9]*$/.test(s)`: the whole string is read and at least one digit was. */
  predicate AmountRegexTest(s: string)
  {
    var r := AmountRun(NeedDigit, s);
    r.Some? && r.value != NeedDigit
  }

  /** The shapes the expression describes: digits, or digits, one dot and possibly more digits. */
  ghost predicate AmountPattern(s: string)
  {
    || (|s| > 0 && AllDigits(s))
    || exists k :: 0 < k < |s| && s[k] == '.' && AllDigits(s[..k]) && AllDigits(s[k + 1..])
  }

  lemma {:induction false} FractionRun(s: string)
    ensures AmountRun(InFraction, s) == (if AllDigits(s) then Some(InFraction) else None)
    decreases |s|
  {
    if |s| > 0 {
      FractionRun(s[1..]);
      if AllDigits(s[1..]) && IsDigit(s[0]) {
        assert AllDigits(s) by {
          forall i | 0 <= i < |s| ensures IsDigit(s[i]) {
            if i > 0 {
              assert s[i] == s[1..][i - 1];
            }
          }
        }
      }
    }
  }

  ghost predicate IntegerAccepts(s: string)
  {
    || AllDigits(s)
    || exists k :: 0 <= k < |s| && s[k] == '.' && AllDigits(s[..k]) && AllDigits(s[k + 1..])
  }

  lemma {:induction false} IntegerRun(s: string)
    ensures (AmountRun(InInteger, s).Some? && AmountRun(InInteger, s).value != NeedDigit) <==> IntegerAccepts(s)
    ensures AmountRun(InInteger, s) != Some(NeedDigit)
    decreases |s|
  {
    if |s| > 0 {
      var t := s[1..];
      IntegerRun(t);
      FractionRun(t);
      if IsDigit(s[0]) {
        if IntegerAccepts(t) {
          if AllDigits(t) {
            assert AllDigits(s) by {
              forall i | 0 <= i < |s| ensures IsDigit(s[i]) {
                if i > 0 {
                  assert s[i] == t[i - 1];
                }
              }
            }
          } else {
            var k :| 0 <= k < |t| && t[k] == '.' && AllDigits(t[..k]) && AllDigits(t[k + 1..]);
            assert s[k + 1] == '.';
            assert s[k + 2..] == t[k + 1..];
            var head := s[..k + 1];
            assert AllDigits(head) by {
              forall i | 0 <= i < k + 1 ensures IsDigit(head[i]) {
                if i > 0 {
                  assert head[i] == t[..k][i - 1];
                }
              }
            }
          }
        }
        if IntegerAccepts(s) {
          if AllDigits(s) {
            assert AllDigits(t) by {
              forall i | 0 <= i < |t| ensures IsDigit(t[i]) {
                assert t[i] == s[i + 1];
              }
            }
          } else {
            var k :| 0 <= k < |s| && s[k] == '.' && AllDigits(s[..k]) && AllDigits(s[k + 1..]);
            assert k > 0 by {
              assert IsDigit(s[0]);
            }
            assert t[k - 1] == '.';
            assert t[k..] == s[k + 1..];
            var head := t[..k - 1];
            assert AllDigits(head) by {
              forall i | 0 <= i < k - 1 ensures IsDigit(head[i]) {
                assert head[i] == s[..k][i + 1];
              }
            }
          }
        }
      } else if s[0] == '.' {
        if AllDigits(t) {
          assert s[..0] == "" && s[1..] == t;
        }
        if IntegerAccepts(s) {
          assert !AllDigits(s) by {
            assert !IsDigit(s[0]);
          }
          forall k | 0 < k <= |s| ensures !AllDigits(s[..k]) {
            assert s[..k][0] == s[0];
          }
          var k :| 0 <= k < |s| && s[k] == '.' && AllDigits(s[..k]) && AllDigits(s[k + 1..]);
          assert k == 0;
        }
      } else {
        assert !AllDigits(s) by {
          assert !IsDigit(s[0]);
        }
        forall k | 0 <= k < |s| && s[k] == '.' ensures !AllDigits(s[..k]) {
          assert s[..k][0] == s[0];
        }
      }
    }
  }

  /** The matcher accepts exactly the strings of the pattern. */
  lemma AmountRegexMatchesPattern(s: string)
    ensures AmountRegexTest(s) <==> AmountPattern(s)
  {
    if |s| > 0 {
      var t := s[1..];
      IntegerRun(t);
      if IsDigit(s[0]) {
        if IntegerAccepts(t) {
          if AllDigits(t) {
            assert AllDigits(s) by {
              forall i | 0 <= i < |s| ensures IsDigit(s[i]) {
                if i > 0 {
                  assert s[i] == t[i - 1];
                }
              }
            }
          } else {
            var k :| 0 <= k < |t| && t[k] == '.' && AllDigits(t[..k]) && AllDigits(t[k + 1..]);
            assert s[k + 1] == '.';
            assert s[k + 2..] == t[k + 1..];
            var head := s[..k + 1];
            assert AllDigits(head) by {
              forall i | 0 <= i < k + 1 ensures IsDigit(head[i]) {
                if i > 0 {
                  assert head[i] == t[..k][i - 1];
                }
              }
            }
          }
        }
        if AmountPattern(s) {
          if AllDigits(s) {
            assert AllDigits(t) by {
              forall i | 0 <= i < |t| ensures IsDigit(t[i]) {
                assert t[i] == s[i + 1];
              }
            }
          } else {
            var k :| 0 < k < |s| && s[k] == '.' && AllDigits(s[..k]) && AllDigits(s[k + 1..]);
            assert t[k - 1] == '.';
            assert t[k..] == s[k + 1..];
            var head := t[..k - 1];
            assert AllDigits(head) by {
              forall i | 0 <= i < k - 1 ensures IsDigit(head[i]) {
                assert head[i] == s[..k][i + 1];
              }
            }
          }
        }
      } else {
        assert !AllDigits(s) by {
          assert !IsDigit(s[0]);
        }
        forall k | 0 < k < |s| ensures !AllDigits(s[..k]) {
          assert s[..k][0] == s[0];
        }
      }
    }
  }

  /** An accepted amount starts with a digit and holds at most one dot. */
  lemma AcceptedAmountShape(s: string)
    requires AmountRegexTest(s)
    ensures |s| > 0 && IsDigit(s[0])
    ensures forall i, j :: 0 <= i < j < |s| && s[i] == '.' ==> s[j] != '.'
  {
    AmountRegexMatchesPattern(s);
    if !AllDigits(s) {
      var k :| 0 < k < |s| && s[k] == '.' && AllDigits(s[..k]) && AllDigits(s[k + 1..]);
      assert IsDigit(s[..k][0]);
      forall i | 0 <= i < |s| && i != k ensures IsDigit(s[i]) {
        if i < k {
          assert s[..k][i] == s[i];
        } else {
          assert s[k + 1..][i - k - 1] == s[i];
        }
      }
    }
  }

  /**
   * The `onChange` handler of both amount inputs: an empty or matching value
   * becomes the stored amount, anything else leaves the stored amount as it was.
   */
  function OnAmountChange(stored: string, value: string): (r: string)
    ensures r == value || r == stored
    ensures r == value <== value == "" || AmountPattern(value)
    ensures value != stored ==> (r == value <==> value == "" || AmountPattern(value))
  {
    AmountRegexMatchesPattern(value);
    if value == "" || AmountRegexTest(value) then value else stored
  }

  /** Whatever is typed, the stored amount stays empty or an amount of the pattern. */
  lemma StoredAmountStaysValid(stored: string, value: string)
    requires stored == "" || AmountPattern(stored)
    ensures OnAmountChange(stored, value) == "" || AmountPattern(OnAmountChange(stored, value))
  {
  }

  // ---------------------------------------------------------------------------
  // The winners tab

  /**
   * After a fetch the tab shows at most the two newest rounds of the window
   * that have records, newest first, and each group is exactly the records
   * that round contributed, in the order they were pushed.
   */
  lemma AdminDisplayedWinners(o: WinnersOracle, currentRoundId: nat)
    ensures var groups := DisplayGroups(Collect(o, AdminWindow(currentRoundId)));
      && |groups| <= 2
      && (forall j, k :: 0 <= j < k < |groups| ==> groups[j].roundId > groups[k].roundId)
      && (forall g :: g in groups ==>
            g.roundId in AdminWindow(currentRoundId) && g.rows == RoundRecords(o, g.roundId) && g.rows != [])
  {
    AdminWindowBounds(currentRoundId);
    CollectedGroups(o, AdminWindow(currentRoundId), true);
  }
}

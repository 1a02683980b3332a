/**
 * Winner-history reconstruction in the lottery-dapp front ends: for each
 * round of a window, ask the contract for that round's winner slots and
 * push one record per non-zero slot, with the slot's prize.  A call that
 * fails inside a round is caught per round and the walk goes on.
 *
 * The pieces here are the specification the loops in DappAdminPanel
 * (ascending window) and DappApp (descending window) are proved against,
 * plus the per-round inner loop both of them run.
 */
module WinnerHistory {
  import opened Wrappers

  type Address = string

  /** `ethers.ZeroAddress`, the slot value that means "no winner here". */
  const ZeroAddress: Address := "0x0000000000000000000000000000000000000000"

  /** Amounts in wei; `ethers.formatEther` is not modelled. */
  type Wei = nat

  datatype WinnerRecord = WinnerRecord(round: nat, address: Address, position: nat, prize: Wei)

  /**
   * What `FIRST_PRIZE()`, `SECOND_PRIZE()` and `THIRD_PRIZE()` answer while
   * one round is walked; each call may fail.  Within a round each constant is
   * asked at most once, for its own slot.
   */
  datatype PrizeAnswers = PrizeAnswers(first: Option<Wei>, second: Option<Wei>, third: Option<Wei>)

  /**
   * What the contract answers to the calls the loop makes: `getWinners(i)`
   * and the prize constants.  The constants are called again for every
   * round, so their answers are indexed by the round being walked: a call may
   * fail in one round and answer in another.
   */
  datatype WinnersOracle = WinnersOracle(
    getWinners: nat -> Option<seq<Address>>,
    prizes: nat -> PrizeAnswers)

  /**
   * The prize the loop obtains for slot `pos`: FIRST_PRIZE, SECOND_PRIZE or
   * THIRD_PRIZE for slots 0, 1, 2.  For any later slot `prize` stays
   * undefined and `ethers.formatEther(undefined)` throws, so that slot fails
   * just as a failing prize call does.
   */
  function PrizeForSlot(p: PrizeAnswers, pos: nat): Option<Wei>
  {
    if pos == 0 then p.first
    else if pos == 1 then p.second
    else if pos == 2 then p.third
    else None
  }

  /**
   * The records the inner loop pushes from slot `pos` on.  A non-zero slot
   * whose prize fails throws into the per-round catch: nothing more is pushed
   * for the round, and what was pushed before stays.
   */
  function SlotRecords(p: PrizeAnswers, round: nat, slots: seq<Address>, pos: nat): seq<WinnerRecord>
    decreases |slots| - pos
  {
    if pos >= |slots| then []
    else if slots[pos] == ZeroAddress then SlotRecords(p, round, slots, pos + 1)
    else match PrizeForSlot(p, pos)
      case None => []
      case Some(prize) => [WinnerRecord(round, slots[pos], pos + 1, prize)] + SlotRecords(p, round, slots, pos + 1)
  }

  /** The records one round contributes; a failing `getWinners(round)` contributes none. */
  function RoundRecords(o: WinnersOracle, round: nat): seq<WinnerRecord>
  {
    match o.getWinners(round)
    case None => []
    case Some(slots) => SlotRecords(o.prizes(round), round, slots, 0)
  }

  /** The list the outer loop builds when it visits `rounds` in this order. */
  function Collect(o: WinnersOracle, rounds: seq<nat>): seq<WinnerRecord>
  {
    if |rounds| == 0 then []
    else Collect(o, rounds[..|rounds| - 1]) + RoundRecords(o, rounds[|rounds| - 1])
  }

  // ---------------------------------------------------------------------------
  // Round windows

  /** `lo, lo+1, …, hi` (empty when hi < lo). */
  function RoundsUp(lo: nat, hi: int): (r: seq<nat>)
    ensures |r| == if hi < lo then 0 else hi - lo + 1
    ensures forall k :: 0 <= k < |r| ==> r[k] == lo + k
    decreases hi - lo
  {
    if hi < lo then [] else RoundsUp(lo, hi - 1) + [hi]
  }

  /** `hi, hi-1, …, lo` (empty when hi < lo). */
  function RoundsDown(hi: int, lo: nat): (r: seq<nat>)
    ensures |r| == if hi < lo then 0 else hi - lo + 1
    ensures forall k :: 0 <= k < |r| ==> r[k] == hi - k
    decreases hi - lo
  {
    if hi < lo then [] else RoundsDown(hi, lo + 1) + [lo]
  }

  /** The ascending loop's step: the window before round `hi`, then `hi`. */
  lemma RoundsUpStep(lo: nat, hi: nat)
    requires lo <= hi
    ensures RoundsUp(lo, hi) == RoundsUp(lo, hi - 1) + [hi]
  {
  }

  /** The descending loop's step: the window above round `lo`, then `lo`. */
  lemma RoundsDownStep(hi: nat, lo: nat)
    requires lo <= hi
    ensures RoundsDown(hi, lo) == RoundsDown(hi, lo + 1) + [lo]
  {
  }

  /** `Math.max(1, currentRoundId - lookback)`. */
  function StartRound(currentRoundId: nat, lookback: nat): (r: nat)
    ensures r >= 1
  {
    Max(1, currentRoundId - lookback)
  }

  // ---------------------------------------------------------------------------
  // The per-round inner loop, shared by both reconstruction loops

  /**
   * `for (let pos = 0; pos < roundWinners.length; pos++) { … winnersList.push(…) }`
   * inside the per-round `try`: returns the list after the round's pushes.
   */
  method PushRoundWinners(o: WinnersOracle, round: nat, roundWinners: seq<Address>, winnersList: seq<WinnerRecord>)
    returns (pushed: seq<WinnerRecord>)
    ensures pushed == winnersList + SlotRecords(o.prizes(round), round, roundWinners, 0)
  {
    pushed := winnersList;
    var pos := 0;
    while pos < |roundWinners|
      invariant 0 <= pos <= |roundWinners|
      invariant pushed + SlotRecords(o.prizes(round), round, roundWinners, pos)
        == winnersList + SlotRecords(o.prizes(round), round, roundWinners, 0)
    {
      var winner := roundWinners[pos];
      if winner != ZeroAddress {
        var prize := PrizeForSlot(o.prizes(round), pos);
        if prize.None? {
          // the exception leaves the round; the records pushed so far stay
          return;
        }
        var rest := SlotRecords(o.prizes(round), round, roundWinners, pos + 1);
        assert (pushed + [WinnerRecord(round, winner, pos + 1, prize.value)]) + rest
            == pushed + ([WinnerRecord(round, winner, pos + 1, prize.value)] + rest);
        pushed := pushed + [WinnerRecord(round, winner, pos + 1, prize.value)];
      }
      pos := pos + 1;
    }
  }

  /**
   * One turn of either outer loop: the per-round `try` calls
   * `getWinners(round)` and runs the slot loop when the answer is non-empty;
   * a failing call is caught and adds nothing.
   */
  method VisitRound(o: WinnersOracle, round: nat, winnersList: seq<WinnerRecord>)
    returns (next: seq<WinnerRecord>)
    ensures next == winnersList + RoundRecords(o, round)
  {
    var roundWinners := o.getWinners(round);
    if roundWinners.Some? && |roundWinners.value| > 0 {
      next := PushRoundWinners(o, round, roundWinners.value, winnersList);
    } else {
      next := winnersList;
    }
  }

  // ---------------------------------------------------------------------------
  // What every record is

  /**
   * A record of round `round` is a non-zero slot at index position-1 of the
   * round's answer, in 1..3, with the prize of that position.
   */
  ghost predicate RecordOf(p: PrizeAnswers, round: nat, slots: seq<Address>, w: WinnerRecord)
  {
    && w.round == round
    && 1 <= w.position <= 3
    && w.position <= |slots|
    && w.address == slots[w.position - 1]
    && w.address != ZeroAddress
    && PrizeForSlot(p, w.position - 1) == Some(w.prize)
  }

  ghost predicate PositionsIncreasing(recs: seq<WinnerRecord>)
  {
    forall j, k :: 0 <= j < k < |recs| ==> recs[j].position < recs[k].position
  }

  lemma {:induction false} SlotRecordsShape(p: PrizeAnswers, round: nat, slots: seq<Address>, pos: nat)
    ensures forall w :: w in SlotRecords(p, round, slots, pos) ==> RecordOf(p, round, slots, w) && w.position > pos
    ensures PositionsIncreasing(SlotRecords(p, round, slots, pos))
    decreases |slots| - pos
  {
    if pos < |slots| {
      SlotRecordsShape(p, round, slots, pos + 1);
      var rest := SlotRecords(p, round, slots, pos + 1);
      if slots[pos] != ZeroAddress && PrizeForSlot(p, pos).Some? {
        var recs := SlotRecords(p, round, slots, pos);
        assert recs == [WinnerRecord(round, slots[pos], pos + 1, PrizeForSlot(p, pos).value)] + rest;
        forall j, k | 0 <= j < k < |recs| ensures recs[j].position < recs[k].position {
          if j > 0 {
            assert recs[j] == rest[j - 1] && recs[k] == rest[k - 1];
          } else {
            assert recs[k] == rest[k - 1];
            assert recs[k] in rest;
          }
        }
      }
    }
  }

  /**
   * Every reconstructed record comes from a queried round: it names that
   * round, a position in {1,2,3} holding a non-zero address in the round's
   * answer, and the prize constant of that position.
   */
  lemma {:induction false} RecordsWellFormed(o: WinnersOracle, rounds: seq<nat>)
    ensures forall w :: w in Collect(o, rounds) ==>
      w.round in rounds && o.getWinners(w.round).Some? && RecordOf(o.prizes(w.round), w.round, o.getWinners(w.round).value, w)
  {
    if |rounds| > 0 {
      var init := rounds[..|rounds| - 1];
      var last := rounds[|rounds| - 1];
      RecordsWellFormed(o, init);
      if o.getWinners(last).Some? {
        SlotRecordsShape(o.prizes(last), last, o.getWinners(last).value, 0);
      }
      forall w | w in Collect(o, rounds)
        ensures w.round in rounds && o.getWinners(w.round).Some? && RecordOf(o.prizes(w.round), w.round, o.getWinners(w.round).value, w)
      {
        if w in Collect(o, init) {
          assert w.round in init;
        }
      }
    }
  }

  /**
   * Positions 1, 2 and 3 carry FIRST_PRIZE, SECOND_PRIZE and THIRD_PRIZE, as
   * answered while the record's round was walked.
   */
  lemma PrizeByPosition(o: WinnersOracle, rounds: seq<nat>, w: WinnerRecord)
    requires w in Collect(o, rounds)
    ensures w.position == 1 ==> o.prizes(w.round).first == Some(w.prize)
    ensures w.position == 2 ==> o.prizes(w.round).second == Some(w.prize)
    ensures w.position == 3 ==> o.prizes(w.round).third == Some(w.prize)
    ensures w.position in {1, 2, 3} && w.address != ZeroAddress
  {
    RecordsWellFormed(o, rounds);
  }

  /**
   * Completeness within a round: a non-zero slot is recorded, with its
   * position and prize, when no non-zero slot up to it failed.
   */
  lemma {:induction false} SlotRecorded(p: PrizeAnswers, round: nat, slots: seq<Address>, pos: nat, q: nat)
    requires pos <= q < |slots| && slots[q] != ZeroAddress
    requires forall s :: pos <= s <= q && slots[s] != ZeroAddress ==> PrizeForSlot(p, s).Some?
    ensures WinnerRecord(round, slots[q], q + 1, PrizeForSlot(p, q).value) in SlotRecords(p, round, slots, pos)
    decreases q - pos
  {
    if pos < q {
      SlotRecorded(p, round, slots, pos + 1, q);
    }
  }

  /**
   * A failure in the middle of a round keeps exactly the records of the
   * slots before the failing one.
   */
  lemma {:induction false} FailingSlotKeepsEarlierRecords(p: PrizeAnswers, round: nat, slots: seq<Address>, pos: nat, f: nat)
    requires pos <= f < |slots| && slots[f] != ZeroAddress && PrizeForSlot(p, f).None?
    ensures SlotRecords(p, round, slots, pos) == SlotRecords(p, round, slots[..f], pos)
    decreases f - pos
  {
    if pos < f {
      assert slots[..f][pos] == slots[pos];
      FailingSlotKeepsEarlierRecords(p, round, slots, pos + 1, f);
    }
  }

  // ---------------------------------------------------------------------------
  // Rounds are independent of each other

  /** Two oracles that answer the same calls while round `round` is walked. */
  ghost predicate SameAnswersFor(o: WinnersOracle, o': WinnersOracle, round: nat)
  {
    && o.getWinners(round) == o'.getWinners(round)
    && o.prizes(round) == o'.prizes(round)
  }

  /**
   * A round's records depend only on the answers given while that round is
   * walked: a prize call that fails in another round does not change them.
   */
  lemma RoundRecordsLocal(o: WinnersOracle, o': WinnersOracle, round: nat)
    requires SameAnswersFor(o, o', round)
    ensures RoundRecords(o, round) == RoundRecords(o', round)
  {
  }

  lemma {:induction false} CollectAppend(o: WinnersOracle, a: seq<nat>, b: seq<nat>)
    ensures Collect(o, a + b) == Collect(o, a) + Collect(o, b)
    decreases |b|
  {
    if |b| == 0 {
      assert a + b == a;
    } else {
      var b' := b[..|b| - 1];
      assert b == b' + [b[|b| - 1]];
      CollectAppend(o, a, b');
      CollectAppendStep(o, a, b', b[|b| - 1]);
    }
  }

  /** The inductive step of CollectAppend: one more round at the end of `b`. */
  lemma CollectAppendStep(o: WinnersOracle, a: seq<nat>, b: seq<nat>, last: nat)
    requires Collect(o, a + b) == Collect(o, a) + Collect(o, b)
    ensures Collect(o, a + (b + [last])) == Collect(o, a) + Collect(o, b + [last])
  {
    AppendAssoc(a, b, [last]);
    CollectStep(o, a + b, last);
    CollectStep(o, b, last);
    AppendAssoc(Collect(o, a), Collect(o, b), RoundRecords(o, last));
  }

  /** Visiting one more round appends that round's records. */
  lemma CollectStep(o: WinnersOracle, rounds: seq<nat>, i: nat)
    ensures Collect(o, rounds + [i]) == Collect(o, rounds) + RoundRecords(o, i)
  {
    assert (rounds + [i])[..|rounds|] == rounds;
  }

  /**
   * A round whose `getWinners` call fails adds nothing, and the rounds after
   * it are processed exactly as if it had not been in the window.
   */
  lemma FailedRoundSkipped(o: WinnersOracle, before: seq<nat>, i: nat, after: seq<nat>)
    requires o.getWinners(i).None?
    ensures Collect(o, before + [i] + after) == Collect(o, before) + Collect(o, after)
  {
    CollectAppend(o, before + [i], after);
    CollectStep(o, before, i);
    assert RoundRecords(o, i) == [];
    assert Collect(o, before + [i]) == Collect(o, before);
  }

  // ---------------------------------------------------------------------------
  // Order of the reconstructed list

  predicate RoundBefore(a: nat, b: nat, ascending: bool)
  {
    if ascending then a < b else a > b
  }

  /** Rounds visited strictly upwards (ascending) or strictly downwards. */
  ghost predicate StrictlyMonotone(rounds: seq<nat>, ascending: bool)
  {
    forall j, k :: 0 <= j < k < |rounds| ==> RoundBefore(rounds[j], rounds[k], ascending)
  }

  /** Sorted by round in the walk's direction, then by ascending position. */
  ghost predicate RecordsOrdered(recs: seq<WinnerRecord>, ascending: bool)
  {
    forall j, k :: 0 <= j < k < |recs| ==>
      RoundBefore(recs[j].round, recs[k].round, ascending)
      || (recs[j].round == recs[k].round && recs[j].position < recs[k].position)
  }

  lemma {:induction false} CollectOrdered(o: WinnersOracle, rounds: seq<nat>, ascending: bool)
    requires StrictlyMonotone(rounds, ascending)
    ensures RecordsOrdered(Collect(o, rounds), ascending)
  {
    if |rounds| > 0 {
      var init := rounds[..|rounds| - 1];
      var last := rounds[|rounds| - 1];
      CollectOrdered(o, init, ascending);
      RecordsWellFormed(o, init);
      var prev := Collect(o, init);
      var mine := RoundRecords(o, last);
      if o.getWinners(last).Some? {
        SlotRecordsShape(o.prizes(last), last, o.getWinners(last).value, 0);
      }
      var recs := prev + mine;
      assert recs == Collect(o, rounds);
      forall j, k | 0 <= j < k < |recs|
        ensures RoundBefore(recs[j].round, recs[k].round, ascending)
          || (recs[j].round == recs[k].round && recs[j].position < recs[k].position)
      {
        if k < |prev| {
          assert recs[j] == prev[j] && recs[k] == prev[k];
        } else if j >= |prev| {
          assert recs[j] == mine[j - |prev|] && recs[k] == mine[k - |prev|];
        } else {
          assert recs[j] == prev[j] && prev[j] in prev;
          assert recs[k] == mine[k - |prev|] && mine[k - |prev|] in mine;
          var idx :| 0 <= idx < |init| && init[idx] == recs[j].round;
          assert rounds[idx] == init[idx];
        }
      }
    }
  }
}

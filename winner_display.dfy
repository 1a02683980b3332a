/**
 * The "Last Winners" / "Winners" tab of the lottery-dapp pages:
 *
 *   [...new Set(winners.map(w => w.round))].sort((a, b) => b - a).slice(0, 2)
 *
 * gives the rounds shown, newest first, and for each of them
 * `winners.filter(winner => winner.round === roundId)` gives its rows.
 */
module WinnerDisplay {
  import opened Wrappers
  import opened WinnerHistory

  /** `winners.map(w => w.round)` */
  function RoundsOf(winners: seq<WinnerRecord>): seq<nat>
  {
    seq(|winners|, i requires 0 <= i < |winners| => winners[i].round)
  }

  ghost predicate NoDuplicates(xs: seq<nat>)
  {
    forall j, k :: 0 <= j < k < |xs| ==> xs[j] != xs[k]
  }

  /** `[...new Set(xs)]`: each value once.  Only the members matter here, as the result is sorted next. */
  function Distinct(xs: seq<nat>): (r: seq<nat>)
    ensures forall x :: x in r <==> x in xs
    ensures NoDuplicates(r)
  {
    if |xs| == 0 then []
    else
      var d := Distinct(xs[..|xs| - 1]);
      var x := xs[|xs| - 1];
      assert forall y :: y in xs <==> y in xs[..|xs| - 1] || y == x;
      if x in d then d else d + [x]
  }

  ghost predicate NonIncreasing(xs: seq<nat>)
  {
    forall j, k :: 0 <= j < k < |xs| ==> xs[j] >= xs[k]
  }

  function InsertDescending(x: nat, s: seq<nat>): (r: seq<nat>)
    requires NonIncreasing(s)
    ensures NonIncreasing(r)
    ensures multiset(r) == multiset(s) + multiset{x}
    ensures |r| == |s| + 1 && r[0] == (if |s| == 0 || x >= s[0] then x else s[0])
  {
    if |s| == 0 || x >= s[0] then
      PrependKeepsOrder(x, s);
      [x] + s
    else
      var tail := InsertDescending(x, s[1..]);
      assert s == [s[0]] + s[1..];
      PrependKeepsOrder(s[0], tail);
      [s[0]] + tail
  }

  /** A head no smaller than the first entry keeps a non-increasing list so. */
  lemma PrependKeepsOrder(h: nat, t: seq<nat>)
    requires NonIncreasing(t) && (|t| > 0 ==> h >= t[0])
    ensures NonIncreasing([h] + t)
  {
    var r := [h] + t;
    forall j, k | 0 <= j < k < |r| ensures r[j] >= r[k] {
      if j > 0 {
        assert r[j] == t[j - 1] && r[k] == t[k - 1];
      } else {
        assert r[k] == t[k - 1] && t[k - 1] <= t[0];
      }
    }
  }

  /** `.sort((a, b) => b - a)`: numerically descending, a permutation of the input. */
  function SortDescending(xs: seq<nat>): (r: seq<nat>)
    ensures NonIncreasing(r)
    ensures multiset(r) == multiset(xs)
  {
    if |xs| == 0 then []
    else
      assert xs == [xs[0]] + xs[1..];
      InsertDescending(xs[0], SortDescending(xs[1..]))
  }

  /** The rounds whose groups are shown, in display order. */
  function DisplayedRounds(winners: seq<WinnerRecord>): seq<nat>
  {
    var sorted := SortDescending(Distinct(RoundsOf(winners)));
    sorted[..Min(2, |sorted|)]
  }

  /** `winners.filter(winner => winner.round === roundId)` */
  function RoundGroup(winners: seq<WinnerRecord>, roundId: nat): seq<WinnerRecord>
  {
    if |winners| == 0 then []
    else
      RoundGroup(winners[..|winners| - 1], roundId)
      + (if winners[|winners| - 1].round == roundId then [winners[|winners| - 1]] else [])
  }

  datatype Group = Group(roundId: nat, rows: seq<WinnerRecord>)

  /** What the tab renders: one group per displayed round. */
  function DisplayGroups(winners: seq<WinnerRecord>): seq<Group>
  {
    var rounds := DisplayedRounds(winners);
    seq(|rounds|, i requires 0 <= i < |rounds| => Group(rounds[i], RoundGroup(winners, rounds[i])))
  }

  // ---------------------------------------------------------------------------

  /** Sorting a list without repeats yields a list without repeats. */
  lemma {:induction false} SortKeepsDistinct(xs: seq<nat>)
    requires NoDuplicates(xs)
    ensures NoDuplicates(SortDescending(xs))
  {
    var r := SortDescending(xs);
    forall j, k | 0 <= j < k < |r| ensures r[j] != r[k] {
      if r[j] == r[k] {
        RepeatCountsTwo(r, j, k);
        DistinctCountsOne(xs, r[k]);
      }
    }
  }

  lemma RepeatCountsTwo(r: seq<nat>, j: nat, k: nat)
    requires j < k < |r| && r[j] == r[k]
    ensures multiset(r)[r[k]] >= 2
  {
    assert r == r[..k] + [r[k]] + r[k + 1..];
    assert r[..k][j] == r[k];
  }

  /** Sorting keeps exactly the same values. */
  lemma SortedMembers(xs: seq<nat>)
    ensures forall x :: x in SortDescending(xs) <==> x in xs
  {
    var r := SortDescending(xs);
    forall x ensures x in r <==> x in xs {
      assert x in r <==> x in multiset(r);
      assert x in xs <==> x in multiset(xs);
    }
  }

  /** A value of a strictly descending list that is not among its first two is below both. */
  lemma {:induction false} BelowFirstTwo(sorted: seq<nat>, r: nat)
    requires NonIncreasing(sorted) && NoDuplicates(sorted)
    requires r in sorted && r !in sorted[..Min(2, |sorted|)]
    ensures |sorted| > 2 && r < sorted[1]
  {
    var k :| 0 <= k < |sorted| && sorted[k] == r;
    var shown := sorted[..Min(2, |sorted|)];
    assert forall m :: 0 <= m < |shown| ==> shown[m] == sorted[m];
    assert k >= |shown|;
  }

  lemma {:induction false} DistinctCountsOne(xs: seq<nat>, x: nat)
    requires NoDuplicates(xs)
    ensures multiset(xs)[x] <= 1
  {
    if |xs| > 0 {
      var init := xs[..|xs| - 1];
      assert xs == init + [xs[|xs| - 1]];
      assert NoDuplicates(init);
      DistinctCountsOne(init, x);
      if xs[|xs| - 1] == x {
        assert x !in init;
      }
    }
  }

  /**
   * The rounds shown are at most two, distinct and strictly descending; each
   * has winners; and they are the newest rounds present: any round with
   * winners that is not shown is older than both shown rounds.
   */
  lemma DisplayedRoundsAreNewest(winners: seq<WinnerRecord>)
    ensures var shown := DisplayedRounds(winners);
      && |shown| <= 2
      && (forall j, k :: 0 <= j < k < |shown| ==> shown[j] > shown[k])
      && (forall r :: r in shown ==> exists i :: 0 <= i < |winners| && winners[i].round == r)
      && (forall i :: 0 <= i < |winners| && winners[i].round !in shown ==>
            |shown| == 2 && winners[i].round < shown[1])
  {
    var rounds := RoundsOf(winners);
    var shown := DisplayedRounds(winners);
    ShownRoundsNewest(rounds);
    forall r | r in shown ensures exists i :: 0 <= i < |winners| && winners[i].round == r {
      var i :| 0 <= i < |rounds| && rounds[i] == r;
      assert winners[i].round == r;
    }
    forall i | 0 <= i < |winners| && winners[i].round !in shown
      ensures |shown| == 2 && winners[i].round < shown[1]
    {
      assert rounds[i] == winners[i].round;
      assert rounds[i] in rounds;
    }
  }

  /** The same facts about the first two of the sorted distinct rounds of any list. */
  lemma ShownRoundsNewest(rounds: seq<nat>)
    ensures var sorted := SortDescending(Distinct(rounds));
      var shown := sorted[..Min(2, |sorted|)];
      && |shown| <= 2
      && (forall j, k :: 0 <= j < k < |shown| ==> shown[j] > shown[k])
      && (forall r :: r in shown ==> r in rounds)
      && (forall r :: r in rounds && r !in shown ==> |shown| == 2 && r < shown[1])
  {
    var d := Distinct(rounds);
    SortKeepsDistinct(d);
    SortedMembers(d);
    FirstTwoOfSorted(SortDescending(d), rounds);
  }

  /** The first two entries of a strictly descending list holding exactly the members of `rounds`. */
  lemma FirstTwoOfSorted(sorted: seq<nat>, rounds: seq<nat>)
    requires NonIncreasing(sorted) && NoDuplicates(sorted)
    requires forall x :: x in sorted <==> x in rounds
    ensures var shown := sorted[..Min(2, |sorted|)];
      && |shown| <= 2
      && (forall j, k :: 0 <= j < k < |shown| ==> shown[j] > shown[k])
      && (forall r :: r in shown ==> r in rounds)
      && (forall r :: r in rounds && r !in shown ==> |shown| == 2 && r < shown[1])
  {
    var shown := sorted[..Min(2, |sorted|)];
    forall j, k | 0 <= j < k < |shown| ensures shown[j] > shown[k] {
      assert shown[j] == sorted[j] && shown[k] == sorted[k];
    }
    forall r | r in shown ensures r in rounds {
      var p :| 0 <= p < |shown| && shown[p] == r;
      assert sorted[p] == r;
    }
    forall r | r in rounds && r !in shown ensures |shown| == 2 && r < shown[1] {
      BelowFirstTwo(sorted, r);
    }
  }

  /** The filter keeps exactly that round's records, in list order. */
  lemma {:induction false} RoundGroupAppend(a: seq<WinnerRecord>, b: seq<WinnerRecord>, roundId: nat)
    ensures RoundGroup(a + b, roundId) == RoundGroup(a, roundId) + RoundGroup(b, roundId)
    decreases |b|
  {
    if |b| == 0 {
      assert a + b == a;
    } else {
      var ab := a + b;
      var b' := b[..|b| - 1];
      assert ab[..|ab| - 1] == a + b';
      assert ab[|ab| - 1] == b[|b| - 1];
      RoundGroupAppend(a, b', roundId);
    }
  }

  lemma {:induction false} RoundGroupMembers(winners: seq<WinnerRecord>, roundId: nat)
    ensures forall w :: w in RoundGroup(winners, roundId) <==> w in winners && w.round == roundId
  {
    if |winners| > 0 {
      var init := winners[..|winners| - 1];
      RoundGroupMembers(init, roundId);
      assert winners == init + [winners[|winners| - 1]];
    }
  }

  lemma {:induction false} RoundGroupAll(winners: seq<WinnerRecord>, roundId: nat)
    requires forall w :: w in winners ==> w.round == roundId
    ensures RoundGroup(winners, roundId) == winners
  {
    if |winners| > 0 {
      var init := winners[..|winners| - 1];
      RoundGroupAll(init, roundId);
      assert winners == init + [winners[|winners| - 1]];
    }
  }

  lemma {:induction false} RoundGroupNone(winners: seq<WinnerRecord>, roundId: nat)
    requires forall w :: w in winners ==> w.round != roundId
    ensures RoundGroup(winners, roundId) == []
  {
    if |winners| > 0 {
      RoundGroupNone(winners[..|winners| - 1], roundId);
    }
  }

  /**
   * On a reconstructed list, the group of a round visited once is exactly the
   * records that round contributed, in the order they were pushed.
   */
  lemma {:induction false} GroupIsRoundRecords(o: WinnersOracle, rounds: seq<nat>, roundId: nat)
    requires forall j, k :: 0 <= j < k < |rounds| ==> rounds[j] != rounds[k]
    ensures RoundGroup(Collect(o, rounds), roundId) == if roundId in rounds then RoundRecords(o, roundId) else []
  {
    if |rounds| > 0 {
      var init := rounds[..|rounds| - 1];
      var last := rounds[|rounds| - 1];
      GroupIsRoundRecords(o, init, roundId);
      RoundGroupAppend(Collect(o, init), RoundRecords(o, last), roundId);
      if o.getWinners(last).Some? {
        SlotRecordsShape(o.prizes(last), last, o.getWinners(last).value, 0);
      }
      if last == roundId {
        RoundGroupAll(RoundRecords(o, last), roundId);
        assert roundId !in init by {
          forall j | 0 <= j < |init| ensures init[j] != roundId {
            assert rounds[j] == init[j];
          }
        }
      } else {
        RoundGroupNone(RoundRecords(o, last), roundId);
        assert roundId in rounds <==> roundId in init;
      }
    }
  }

  /**
   * The tab over a reconstructed list: at most two groups, newest round
   * first, each a visited round whose group is exactly the records that
   * round contributed, and never empty.
   */
  lemma CollectedGroups(o: WinnersOracle, rounds: seq<nat>, ascending: bool)
    requires StrictlyMonotone(rounds, ascending)
    ensures var groups := DisplayGroups(Collect(o, rounds));
      && |groups| <= 2
      && (forall j, k :: 0 <= j < k < |groups| ==> groups[j].roundId > groups[k].roundId)
      && (forall g :: g in groups ==>
            g.roundId in rounds && g.rows == RoundRecords(o, g.roundId) && g.rows != [])
  {
    var groups := DisplayGroups(Collect(o, rounds));
    DisplayedRoundsAreNewest(Collect(o, rounds));
    assert forall j, k :: 0 <= j < k < |rounds| ==> rounds[j] != rounds[k];
    forall g | g in groups
      ensures g.roundId in rounds && g.rows == RoundRecords(o, g.roundId) && g.rows != []
    {
      var i :| 0 <= i < |groups| && groups[i] == g;
      ShownGroup(o, rounds, i);
    }
  }

  /** The i-th group shown over a reconstructed list is a visited round's records, non-empty. */
  lemma ShownGroup(o: WinnersOracle, rounds: seq<nat>, i: nat)
    requires forall j, k :: 0 <= j < k < |rounds| ==> rounds[j] != rounds[k]
    requires i < |DisplayGroups(Collect(o, rounds))|
    ensures var g := DisplayGroups(Collect(o, rounds))[i];
      g.roundId in rounds && g.rows == RoundRecords(o, g.roundId) && g.rows != []
  {
    var winners := Collect(o, rounds);
    var shown := DisplayedRounds(winners);
    DisplayedRoundsAreNewest(winners);
    assert shown[i] in shown;
    var m :| 0 <= m < |winners| && winners[m].round == shown[i];
    PresentRoundGroup(o, rounds, m);
  }

  /** The group of a round that has a row in the list is that round's records, non-empty. */
  lemma PresentRoundGroup(o: WinnersOracle, rounds: seq<nat>, m: nat)
    requires forall j, k :: 0 <= j < k < |rounds| ==> rounds[j] != rounds[k]
    requires m < |Collect(o, rounds)|
    ensures var r := Collect(o, rounds)[m].round;
      r in rounds && RoundGroup(Collect(o, rounds), r) == RoundRecords(o, r) && RoundRecords(o, r) != []
  {
    var winners := Collect(o, rounds);
    var r := winners[m].round;
    GroupIsRoundRecords(o, rounds, r);
    RoundGroupMembers(winners, r);
    assert winners[m] in RoundGroup(winners, r);
  }
}

/**
 * The two ways the front ends list the current round's participants:
 * zipping the parallel arrays of `getAllParticipantsInfo()` (lottery-dapp)
 * and probing `participants(0)`, `participants(1)`, … until a call fails
 * (lottery-frontends and lottery-frontend).
 */
module Participants {
  import opened Wrappers
  import opened WinnerHistory

  /**
   * `{ address, tickets: Number(ticketCounts[i]) }`; `tickets` is `None`
   * where `ticketCounts[i]` is missing and `Number(undefined)` is NaN.
   */
  datatype Participant = Participant(address: Address, tickets: Option<nat>)

  /** Entry `i` pairs `addresses[i]` with `ticketCounts[i]`, for every address and no more. */
  ghost predicate PairsUp(participantData: seq<Participant>, addresses: seq<Address>, ticketCounts: seq<nat>)
  {
    && |participantData| == |addresses|
    && forall i :: 0 <= i < |addresses| ==>
      participantData[i] == Participant(addresses[i], if i < |ticketCounts| then Some(ticketCounts[i]) else None)
  }

  /** The `for (let i = 0; i < addresses.length; i++) participantData.push(…)` loop. */
  method ZipParticipants(addresses: seq<Address>, ticketCounts: seq<nat>) returns (participantData: seq<Participant>)
    ensures PairsUp(participantData, addresses, ticketCounts)
  {
    participantData := [];
    var i := 0;
    while i < |addresses|
      invariant 0 <= i <= |addresses|
      invariant |participantData| == i
      invariant forall j :: 0 <= j < i ==>
        participantData[j] == Participant(addresses[j], if j < |ticketCounts| then Some(ticketCounts[j]) else None)
    {
      var tickets := if i < |ticketCounts| then Some(ticketCounts[i]) else None;
      participantData := participantData + [Participant(addresses[i], tickets)];
      i := i + 1;
    }
  }

  /** Calls 0..|list|-1 answered `list` in order and the next call failed. */
  ghost predicate SuccessfulPrefix(participantAt: nat -> Option<Address>, list: seq<Address>)
  {
    && (forall j :: 0 <= j < |list| ==> participantAt(j) == Some(list[j]))
    && participantAt(|list|).None?
  }

  /**
   * `while (hasMore) { try { push(await contract.participants(i)); i++ } catch { hasMore = false } }`.
   * The loop ends because the contract's participant array is finite: some
   * index is out of range and its call reverts.
   */
  method ProbeParticipants(participantAt: nat -> Option<Address>) returns (participantsList: seq<Address>)
    requires exists n :: participantAt(n).None?
    ensures SuccessfulPrefix(participantAt, participantsList)
  {
    participantsList := [];
    var i := 0;
    var hasMore := true;
    ghost var bound: nat :| participantAt(bound).None?;
    while hasMore
      invariant i == |participantsList| && i <= bound
      invariant forall j :: 0 <= j < i ==> participantAt(j) == Some(participantsList[j])
      invariant !hasMore ==> participantAt(i).None?
      decreases bound - i, hasMore
    {
      var participant := participantAt(i);
      if participant.Some? {
        participantsList := participantsList + [participant.value];
        i := i + 1;
      } else {
        hasMore := false;
      }
    }
  }

  /** The probe's result is determined: it is the longest run of successful calls from 0. */
  lemma {:induction false} SuccessfulPrefixUnique(participantAt: nat -> Option<Address>, a: seq<Address>, b: seq<Address>)
    requires SuccessfulPrefix(participantAt, a) && SuccessfulPrefix(participantAt, b)
    ensures a == b
  {
    assert |a| == |b|;
    forall j | 0 <= j < |a| ensures a[j] == b[j] {
      assert participantAt(j) == Some(a[j]);
    }
  }

  /**
   * Against the contract's participant array, where every in-range call
   * succeeds and the first out-of-range one reverts, the probe returns the
   * whole array; a call that instead fails early at `k` cuts it to `arr[..k]`.
   */
  lemma ProbeOfStoredArray(participantAt: nat -> Option<Address>, arr: seq<Address>, k: nat, list: seq<Address>)
    requires k <= |arr|
    requires forall j :: 0 <= j < k ==> participantAt(j) == Some(arr[j])
    requires participantAt(k).None?
    requires SuccessfulPrefix(participantAt, list)
    ensures list == arr[..k]
  {
    assert SuccessfulPrefix(participantAt, arr[..k]);
    SuccessfulPrefixUnique(participantAt, list, arr[..k]);
  }
}

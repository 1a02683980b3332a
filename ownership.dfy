/**
 * `checkOwner` in both admin panels: the connected address is the owner
 * when it equals `contract.owner()` after `toLowerCase()` on both sides, and
 * the owner-only actions are refused unless the wallet is connected and is
 * the owner.
 */
module Ownership {
  import opened Wrappers
  import opened JsText
  import opened WinnerHistory

  /** `userAddress.toLowerCase() === contractOwner.toLowerCase()` */
  predicate IsOwner(user: Address, owner: Address)
  {
    Lower(user) == Lower(owner)
  }

  /** The comparison is character by character, ignoring the case of letters only. */
  lemma IsOwnerPositionwise(user: Address, owner: Address)
    ensures IsOwner(user, owner) <==>
      |user| == |owner| && forall i :: 0 <= i < |user| ==> LowerChar(user[i]) == LowerChar(owner[i])
  {
    if |user| == |owner| && forall i :: 0 <= i < |user| ==> LowerChar(user[i]) == LowerChar(owner[i]) {
      assert forall i :: 0 <= i < |user| ==> Lower(user)[i] == Lower(owner)[i];
    }
    if IsOwner(user, owner) {
      assert |Lower(user)| == |Lower(owner)|;
      forall i | 0 <= i < |user| ensures LowerChar(user[i]) == LowerChar(owner[i]) {
        assert Lower(user)[i] == Lower(owner)[i];
      }
    }
  }

  /** Checksummed, lower-case and upper-case spellings of one address are all the owner. */
  lemma IsOwnerIgnoresCase(user: Address, owner: Address)
    ensures IsOwner(user, owner) <==> IsOwner(Lower(user), owner)
    ensures IsOwner(user, owner) <==> IsOwner(user, Lower(owner))
  {
    LowerIdempotent(user);
    LowerIdempotent(owner);
  }

  /** A letter and its upper-case form: two addresses differing there are still the same owner. */
  lemma CaseOfOneLetter(prefix: Address, c: char, suffix: Address)
    requires 'a' <= c <= 'z'
    ensures IsOwner(prefix + [c] + suffix, prefix + [((c as int) - 32) as char] + suffix)
  {
    var u := prefix + [c] + suffix;
    var v := prefix + [((c as int) - 32) as char] + suffix;
    forall i | 0 <= i < |u| ensures LowerChar(u[i]) == LowerChar(v[i]) {
      if i != |prefix| {
        assert u[i] == v[i];
      }
    }
    IsOwnerPositionwise(u, v);
  }

  /**
   * What `checkOwner` leaves behind: the value it returns, the `isOwner`
   * state, the `ownerAddress` state and the error banner (`None` = not set
   * by this call).
   */
  datatype OwnerCheck = OwnerCheck(
    returned: bool,
    isOwner: bool,
    ownerAddress: Option<Address>,
    error: Option<string>)

  const NotOwnerMessage := "This page is only accessible by the contract owner"
  const OwnerCallFailedMessage := "Error checking contract owner"

  /**
   * `checkOwner(userAddress)` against `contract.owner()` (`None` when the call
   * fails); `wasOwner` is the `isOwner` state before the call, which a
   * failing call leaves as it was.
   */
  function CheckOwner(user: Address, owner: Option<Address>, wasOwner: bool): (r: OwnerCheck)
    ensures r.returned <==> owner.Some? && IsOwner(user, owner.value)
    ensures r.isOwner == (if owner.Some? then r.returned else wasOwner)
    ensures r.ownerAddress == owner
    ensures r.error.None? <==> r.returned
    ensures r.error.Some? ==> r.error.value == (if owner.None? then OwnerCallFailedMessage else NotOwnerMessage)
  {
    match owner
    case None => OwnerCheck(false, wasOwner, None, Some(OwnerCallFailedMessage))
    case Some(contractOwner) =>
      var isAdmin := Lower(user) == Lower(contractOwner);
      OwnerCheck(isAdmin, isAdmin, Some(contractOwner), if isAdmin then None else Some(NotOwnerMessage))
  }

  const OwnerOnlyMessage := "You must be the contract owner to perform this action"

  /**
   * The first guard of every owner action: `None` lets the action go on,
   * otherwise the banner it sets before returning.
   */
  function OwnerGuard(connected: bool, isOwner: bool): (r: Option<string>)
    ensures r.None? <==> connected && isOwner
    ensures r.Some? ==> r.value == OwnerOnlyMessage
  {
    if !connected || !isOwner then Some(OwnerOnlyMessage) else None
  }
}

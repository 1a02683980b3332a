/**
 * The object `getCurrentRound()` is turned into by lottery-dapp's pages:
 * every `uint` field already passed through `Number(…)`.
 */
module CurrentRound {
  datatype RoundInfo = RoundInfo(
    roundId: nat,
    isActive: bool,
    totalTickets: nat,
    ticketsRemaining: nat,
    participantsCount: nat,
    drawingComplete: bool)

  /** The `currentRound` state before the first fetch. */
  const InitialRound := RoundInfo(0, false, 0, 0, 0, false)
}

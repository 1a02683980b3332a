# Lottery front ends — a Dafny model

The repository has four React front ends for a lottery contract on the
Somnia testnet:

- `lottery-dapp/src/App.js`: the player page of the round-based contract.
  It shows the current round and player limits, buys tickets and lists the
  winners of the last rounds.
- `lottery-dapp/src/AdminPanel.js`: the owner page of that contract. It
  draws winners, adds and withdraws funds, and lists participants and the
  winners of recent rounds.
- `lottery-frontend/src/App.js`: the player page of the older single-pool
  contract.
- `lottery-frontends/src/AdminPanel.js`: the owner page of that older
  contract. It selects winners and lists past winners.

This project models the logic of those pages that does not depend on
rendering:

- the loops that rebuild winner history from per-round contract calls, and
  how the page groups that history for display;
- the participant loops: zipping two parallel arrays, and probing
  `participants(i)` until a call fails;
- the ticket counter: decrement, increment and typed input, and how they
  are clamped;
- the purchase guards and the exact wei value sent with `buyTickets`;
- the draw and select guards, and the button states that gate them;
- the case-insensitive owner check;
- the amount-field regular expression `/^[0-9]+\.?[0-9]*$/`;
- the if/else-if chains that turn a wallet or contract error into the
  message shown to the user.

The contract, the wallet and the provider are modelled as *oracles*. An
oracle is a datatype of total functions and `Option` fields: each call
either answers a value or fails (`None`). A page's state is a datatype
view. Each `fetchData` is a method that returns the new view and states,
for each call that can fail, what the view is after that failure.

Module layout:

| file | module | covers |
|---|---|---|
| `wrappers.dfy` | `Wrappers` | `Option`, `Result`, `Min`, `Max` |
| `js_text.dfy` | `JsText` | `String.includes`, ASCII `toLowerCase`, `replace(/[^0-9]/g, '')`, `parseInt`, decimal numerals |
| `js_errors.dfy` | `JsErrors` | thrown errors (`code`, `message`, `reason`), condition tests, first-match rule tables |
| `wallet_connect.dfy` | `WalletConnect` | the `handleConnectWallet` error chains |
| `winner_history.dfy` | `WinnerHistory` | the per-round winner calls, the inner slot loop, round windows |
| `winner_display.dfy` | `WinnerDisplay` | distinct rounds, newest first, at most two; grouping per round |
| `participants.dfy` | `Participants` | the zip loop and the probe loop |
| `ownership.dfy` | `Ownership` | `checkOwner` and the owner-only guard |
| `current_round.dfy` | `CurrentRound` | the `getCurrentRound` record |
| `ticket_purchase.dfy` | `TicketPurchase` | what both player pages share: decrement, session guard, wei cost |
| `dapp_admin_panel.dfy` | `DappAdminPanel` | `lottery-dapp/src/AdminPanel.js` |
| `dapp_app.dfy` | `DappApp` | `lottery-dapp/src/App.js` |
| `frontends_admin_panel.dfy` | `FrontendsAdminPanel` | `lottery-frontends/src/AdminPanel.js` |
| `frontend_app.dfy` | `FrontendApp` | `lottery-frontend/src/App.js` |

Points where the model settles how the code behaves:

- **Errors that escape a catch.** A chain that calls
  `error.message.includes(…)` without first checking `error.message &&`
  throws when the error has no message. This happens after
  `error.code === 4001` is false in the draw and select handlers. The
  message is then never set, and the model returns `None` (verdict `Threw`).
- **Prize slots.** A winner slot past the third leaves `prize` undefined,
  so `ethers.formatEther(undefined)` throws into the per-round catch. The
  model treats that slot like a failing prize call: the round stops, and
  the records it already pushed stay.
- **Prize calls.** `FIRST_PRIZE()`, `SECOND_PRIZE()` and `THIRD_PRIZE()` are called again for every winner slot of every round. The oracle therefore answers them per round, so a prize call can fail in one round and answer in another. `RoundRecordsLocal` states that a round's records depend only on the answers given during that round.
- **Past winners in `lottery-frontends/src/AdminPanel.js`.** The loop
  bounds itself with the `roundNumber` *state* captured by the
  `useCallback` (line 92, dependency at line 117). It does not use the
  value fetched at lines 65-66, so `FetchData` bounds the loop with the
  round number of the view it was given.
- **Typing `0` in `lottery-dapp/src/App.js`.** The counter becomes
  `Math.min(0, maxAllowed)`, which is 0. The Buy button is disabled for a
  count below 1 (line 559), so no purchase of zero tickets can be sent.
  `TypedZero` states this.

## Model

| member | source | states |
|---|---|---|
| WinnerHistory.RoundsUp | lottery-dapp/src/AdminPanel.js:85 | the ascending window is `lo..hi`: its length is `hi-lo+1` (0 when empty), and entry k is `lo+k` |
| WinnerHistory.RoundsDown | lottery-dapp/src/App.js:136 | the descending window is `hi..lo`: its length is `hi-lo+1` (0 when empty), and entry k is `hi-k` |
| WinnerHistory.StartRound | lottery-dapp/src/AdminPanel.js:83 | `Math.max(1, id - lookback)` is never below round 1 |
| WinnerHistory.PrizeForSlot | lottery-dapp/src/AdminPanel.js:93-96 | slot 0, 1, 2 asks FIRST_PRIZE, SECOND_PRIZE, THIRD_PRIZE for the round being walked; a later slot leaves `prize` undefined, which fails like a failing call; no contract of its own, stated through `PrizeByPosition` |
| WinnerHistory.SlotRecords | lottery-dapp/src/AdminPanel.js:90-104 | the pushes of the slot loop from one slot on; no contract of its own: `PushRoundWinners` is proved to produce it and `SlotRecordsShape`, `SlotRecorded` and `FailingSlotKeepsEarlierRecords` state what it holds |
| WinnerHistory.RoundRecords | lottery-dapp/src/AdminPanel.js:86-109 | one round's contribution, nothing when `getWinners` fails; no contract of its own, stated through `RoundRecordsLocal` and `FailedRoundSkipped` |
| WinnerHistory.Collect | lottery-dapp/src/AdminPanel.js:79-110 | the list the outer loop builds over a window; no contract of its own: both `FetchRecentWinners` methods are proved to return it and `CollectAppend`, `CollectOrdered` and `RecordsWellFormed` state what it holds |
| WinnerHistory.PushRoundWinners | lottery-dapp/src/AdminPanel.js:90-105 | the inner slot loop appends exactly `SlotRecords` of the round to the list: all non-zero slots up to the first slot whose prize call fails, with position `pos+1` and that position's prize |
| WinnerHistory.SlotRecordsShape | lottery-dapp/src/AdminPanel.js:90-105 | every record the slot loop pushes is a non-zero slot of the answer at position 1..3, with that position's prize; positions strictly increase |
| WinnerHistory.RecordsWellFormed | lottery-dapp/src/AdminPanel.js:85-109 | every collected record belongs to a visited round whose `getWinners` answered, and is a record of that answer |
| WinnerHistory.PrizeByPosition | lottery-dapp/src/AdminPanel.js:94-96 | a position-1 record carries FIRST_PRIZE, position 2 SECOND_PRIZE, position 3 THIRD_PRIZE; no record has the zero address |
| WinnerHistory.SlotRecorded | lottery-dapp/src/AdminPanel.js:92-103 | a non-zero slot is recorded, with its position and prize, when no prize call fails at or before it |
| WinnerHistory.FailingSlotKeepsEarlierRecords | lottery-dapp/src/App.js:141-157 | a failing prize call at slot p keeps exactly the records of the slots before p |
| WinnerHistory.CollectAppend | lottery-dapp/src/AdminPanel.js:85-110 | visiting `a` then `b` yields the records of `a` followed by those of `b` |
| WinnerHistory.CollectStep | lottery-dapp/src/AdminPanel.js:85-110 | one more round appends exactly that round's records |
| WinnerHistory.FailedRoundSkipped | lottery-dapp/src/AdminPanel.js:107-109 | a round whose `getWinners` fails contributes nothing and does not stop the later rounds |
| WinnerHistory.RoundRecordsLocal | lottery-dapp/src/App.js:138-150 | a round's records depend only on the `getWinners` and prize answers given while that round is walked, so a prize call failing in another round does not change them |
| WinnerHistory.CollectOrdered | lottery-dapp/src/App.js:136-162 | over a strictly monotone window, records are ordered by round in the window's direction, and by position within a round |
| WinnerDisplay.Distinct | lottery-dapp/src/App.js:626 | `new Set(winners.map(w => w.round))` holds exactly the rounds of the list, with no duplicates |
| WinnerDisplay.InsertDescending | lottery-dapp/src/App.js:627 | inserting into a non-increasing list keeps it non-increasing and adds exactly that element |
| WinnerDisplay.SortDescending | lottery-dapp/src/App.js:627 | `.sort((a, b) => b - a)` is non-increasing and a permutation of its input |
| WinnerDisplay.SortedMembers | lottery-dapp/src/App.js:627 | sorting keeps exactly the same set of rounds |
| WinnerDisplay.SortKeepsDistinct | lottery-dapp/src/App.js:626-627 | sorting distinct rounds keeps them distinct |
| WinnerDisplay.DistinctCountsOne | lottery-dapp/src/App.js:626 | in a duplicate-free list every round occurs at most once |
| WinnerDisplay.DisplayedRounds | lottery-dapp/src/App.js:626-629 | the distinct rounds, sorted newest first, cut to two; no contract of its own, stated by `DisplayedRoundsAreNewest` |
| WinnerDisplay.DisplayedRoundsAreNewest | lottery-dapp/src/App.js:624-629 | at most two rounds are shown, strictly descending, each one present in the list, and every round left out is older than both shown rounds |
| WinnerDisplay.ShownRoundsNewest | lottery-dapp/src/App.js:626-629 | the first two of the sorted distinct rounds are strictly descending, come from the list, and every other round of the list is below both |
| WinnerDisplay.RoundGroup | lottery-dapp/src/App.js:646 | `filter(winner => winner.round === roundId)`; no contract of its own, stated by `RoundGroupMembers` and `GroupIsRoundRecords` |
| WinnerDisplay.DisplayGroups | lottery-dapp/src/App.js:624-647 | one group per displayed round, with that round's filtered records; no contract of its own, stated by `CollectedGroups` |
| WinnerDisplay.RoundGroupAppend | lottery-dapp/src/App.js:646 | filtering by round distributes over concatenation |
| WinnerDisplay.RoundGroupMembers | lottery-dapp/src/App.js:646 | a row is in a round's group iff it is in the list and has that round |
| WinnerDisplay.RoundGroupAll | lottery-dapp/src/App.js:646 | filtering a list whose rows all have the round keeps the whole list |
| WinnerDisplay.RoundGroupNone | lottery-dapp/src/App.js:646 | filtering a list with no row of the round yields nothing |
| WinnerDisplay.GroupIsRoundRecords | lottery-dapp/src/App.js:646 | over distinct visited rounds, a round's displayed group is exactly the records that round contributed, or empty when it was not visited |
| WinnerDisplay.CollectedGroups | lottery-dapp/src/AdminPanel.js:876-909 | the displayed groups of a fetched list are at most two, strictly newest first, each a visited round with its rows exactly that round's records and non-empty |
| WinnerDisplay.PresentRoundGroup | lottery-dapp/src/App.js:646 | the group of any round that has a row in a fetched list is exactly that round's records and is non-empty |
| JsText.DigitChar | lottery-dapp/src/App.js:506 | the digit of value d is a digit character whose value is d |
| JsText.Contains | lottery-dapp/src/AdminPanel.js:243 | `String.prototype.includes` as a left-to-right scan; no contract of its own, stated by `ContainsMeansOccurs` |
| JsText.ContainsMeansOccurs | lottery-dapp/src/AdminPanel.js:243 | `includes(needle)` holds iff the needle occurs at some index |
| JsText.ContainsWhenPrefix | lottery-dapp/src/AdminPanel.js:220 | a message that starts with the needle includes it |
| JsText.Lower | lottery-dapp/src/AdminPanel.js:42 | `toLowerCase` on the ASCII letters of an address; no contract of its own, stated by `LowerIdempotent` and `Ownership.IsOwnerPositionwise` |
| JsText.LowerIdempotent | lottery-dapp/src/AdminPanel.js:42 | lower-casing twice equals lower-casing once |
| JsText.StripNonDigits | lottery-dapp/src/App.js:506 | `replace(/[^0-9]/g, '')` yields only digits and is no longer than its input |
| JsText.StripNonDigitsAppend | lottery-dapp/src/App.js:506 | stripping distributes over concatenation |
| JsText.StripNonDigitsKeepsDigits | lottery-dapp/src/App.js:506 | a string of digits is left unchanged |
| JsText.NatToString | lottery-dapp/src/App.js:502 | the decimal numeral of a number is non-empty and all digits |
| JsText.NatToStringRoundTrip | lottery-dapp/src/App.js:502-511 | reading back a number's numeral gives the number |
| JsText.NatToStringNoLeadingZero | lottery-dapp/src/App.js:502 | a numeral starts with '0' iff the number is 0 |
| JsText.TrimStart | lottery-frontend/src/App.js:379 | `parseInt` drops a leading prefix made only of ECMAScript white space and line terminators, after which no such character starts the rest |
| JsText.LeadingDigits | lottery-frontend/src/App.js:379 | in base 10, `parseInt` reads the longest run of decimal digits at the front, and the character after it is not a digit |
| JsText.ParseInt | lottery-frontend/src/App.js:379 | `parseInt` with no radix: white space, sign, a `0x` prefix selecting base 16, then the longest digit run, NaN when it is empty; no contract of its own, stated by `ParseIntOfDigits`, `ParseIntOfNegative` and `ParseIntOfHex` |
| JsText.ParseIntOfDigits | lottery-dapp/src/App.js:511 | `parseInt` of a non-empty digit string is its decimal value |
| JsText.LeadingDigitsOfDigits | lottery-dapp/src/App.js:511 | in a digit string the leading run is the whole string |
| JsText.ParseIntRoundTrip | lottery-frontend/src/App.js:379 | `parseInt` inverts the numeral of n, and of `-n` |
| JsText.ParseIntOfNegative | lottery-frontend/src/App.js:379 | `parseInt` of a minus sign followed by digits is the negated value of the digits |
| JsText.ParseIntOfHex | lottery-frontend/src/App.js:379 | a `0x` prefix followed by hexadecimal digits is read in base 16 |
| JsErrors.EvaluateThree | lottery-dapp/src/App.js:49-50 | `a \|\| b \|\| c` of guarded tests is the disjunction of the three |
| JsErrors.EvaluateTwo | lottery-dapp/src/AdminPanel.js:245 | `a \|\| b` is `a` when `a` holds, otherwise `b`, and throws when the test it reaches throws |
| JsErrors.FirstMatchAt | lottery-dapp/src/AdminPanel.js:243-254 | when no earlier branch fired, the k-th branch decides the chain if it fires, and the chain throws if that test throws |
| JsErrors.FirstMatchChosen | lottery-dapp/src/AdminPanel.js:243-254 | the branch an if/else-if chain takes fired, and every earlier branch evaluated to false |
| JsErrors.FirstMatchTotal | lottery-dapp/src/App.js:61-63 | a chain ending in a plain `else` always yields a verdict |
| WalletConnect.AppConnectErrorMessage | lottery-dapp/src/App.js:49-63 | the player pages' connect catch chain; no contract of its own: `AppConnectFollowsPriority` proves it equal to its first-match table |
| WalletConnect.AdminConnectErrorMessage | lottery-dapp/src/AdminPanel.js:158-169 | the admin pages' connect catch chain; no contract of its own: `AdminConnectFollowsPriority` proves it equal to its first-match table |
| WalletConnect.RejectionFires | lottery-dapp/src/App.js:49-50 | the rejection test holds iff the code is 4001 or the message mentions "user rejected" or "user denied" |
| WalletConnect.AppConnectTests | lottery-dapp/src/App.js:49-63 | each branch of the player-page connect chain fires exactly on its condition: rejection, "Already processing", no injected wallet, "Somnia", "network", otherwise |
| WalletConnect.AppConnectFollowsPriority | lottery-frontend/src/App.js:33-47 | the player page's connect message is the first branch, in source order, that fires |
| WalletConnect.AdminConnectFollowsPriority | lottery-dapp/src/AdminPanel.js:158-169 | the owner pages' chain, which has no "network" branch, shows the first branch in source order that fires |
| Ownership.IsOwner | lottery-dapp/src/AdminPanel.js:42 | `userAddress.toLowerCase() === contractOwner.toLowerCase()`; no contract of its own, stated by `IsOwnerPositionwise` and `IsOwnerIgnoresCase` |
| Ownership.IsOwnerPositionwise | lottery-dapp/src/AdminPanel.js:42 | the owner test holds iff the addresses have equal length and agree letter by letter up to case |
| Ownership.IsOwnerIgnoresCase | lottery-frontends/src/AdminPanel.js:31 | lower-casing either address does not change the verdict |
| Ownership.CaseOfOneLetter | lottery-dapp/src/AdminPanel.js:41-42 | changing the case of one letter keeps the verdict "owner" |
| Ownership.CheckOwner | lottery-dapp/src/AdminPanel.js:35-55 | returns true iff `owner()` answered and matches up to case; `isOwner` is updated only when `owner()` answered; the banner reads "Error checking contract owner" on a failed call and "This page is only accessible by the contract owner" on a mismatch |
| Ownership.OwnerGuard | lottery-dapp/src/AdminPanel.js:189-192 | an action is refused, with the owner-only message, iff the wallet is disconnected or is not the owner |
| Participants.PairsUp | lottery-dapp/src/AdminPanel.js:124-129 | entry i is `addresses[i]` with `Number(ticketCounts[i])`, NaN past the end of the counts, and there is one entry per address; the specification `ZipParticipants` is proved against |
| Participants.ZipParticipants | lottery-dapp/src/AdminPanel.js:389-394 | one entry per address, in order; entry i pairs `addresses[i]` with `ticketCounts[i]`, which is absent where that array is shorter |
| Participants.SuccessfulPrefix | lottery-frontend/src/App.js:83-92 | calls 0..n-1 answered the list in order and call n failed; the specification `ProbeParticipants` is proved against, unique by `SuccessfulPrefixUnique` |
| Participants.ProbeParticipants | lottery-frontends/src/AdminPanel.js:69-84 | the list is exactly the answers to `participants(0..n-1)`, where `participants(n)` is the first call that fails |
| Participants.SuccessfulPrefixUnique | lottery-frontend/src/App.js:83-92 | only one list meets that description |
| Participants.ProbeOfStoredArray | lottery-frontend/src/App.js:77-93 | when the contract holds an array whose getter fails past index k, the probe returns the first k elements |
| TicketPurchase.DecrementCount | lottery-dapp/src/App.js:495 | `Math.max(1, count - 1)` is at least 1 and does not exceed the old count (or 1) |
| TicketPurchase.SessionGuard | lottery-dapp/src/App.js:176-184 | the purchase passes iff connected and the round is active; the not-connected message is checked first |
| TicketPurchase.TotalCost | lottery-dapp/src/App.js:202-203 | the value sent is never negative for a non-negative count |
| TicketPurchase.TotalCostIsSumOfPrices | lottery-frontend/src/App.js:121-122 | the exact BigInt product is the price added once per ticket |
| DappAdminPanel.AdminWindowBounds | lottery-dapp/src/AdminPanel.js:83-85 | the window is empty for round 0; otherwise it runs from `max(1, id-2)` to `id`, at most three rounds, ends at the current round, and never includes round 0 |
| DappAdminPanel.NoRoundNoWinners | lottery-dapp/src/AdminPanel.js:83-85 | before any round starts, no round is queried and no winners are listed |
| DappAdminPanel.FetchRecentWinners | lottery-dapp/src/AdminPanel.js:78-112 | the rounds queried are exactly the ascending admin window (from `max(1, current - 2)` to the current round) and the list is exactly the records of those rounds |
| DappAdminPanel.FetchRoundsUp | lottery-dapp/src/AdminPanel.js:85-109 | the ascending loop from the start round to the current round asks `getWinners` for every round in between, in order, and appends exactly their records |
| WinnerHistory.VisitRound | lottery-dapp/src/AdminPanel.js:86-107 | one round of the loop: a failing or empty `getWinners` leaves the list unchanged, otherwise exactly that round's records are appended |
| DappAdminPanel.RecentWinnersShape | lottery-dapp/src/AdminPanel.js:85-109 | every listed winner is from the window, a well-formed record of its round's answer, in ascending round then position order |
| DappAdminPanel.RecentWinnersSkipFailedRound | lottery-dapp/src/AdminPanel.js:107-109 | a failing round of the window is skipped and the others are unaffected |
| DappAdminPanel.GetParticipants | lottery-dapp/src/AdminPanel.js:377-403 | on success the list is the zip of the two arrays; on failure the list is kept and "Failed to fetch participants" is shown |
| DappAdminPanel.FetchData | lottery-dapp/src/AdminPanel.js:57-143 | a failing `getCurrentRound` only sets "Error fetching data"; a failing balance leaves the new round set; otherwise round, balance, the winners of the window and the zipped participants are all replaced, and a failing participants call keeps the old list |
| DappAdminPanel.DrawErrorMessage | lottery-dapp/src/AdminPanel.js:243-254 | the draw catch chain, `None` when its unguarded `message.includes` throws; no contract of its own: `DrawFollowsPriority` proves it equal to its first-match table |
| DappAdminPanel.DrawFollowsPriority | lottery-dapp/src/AdminPanel.js:243-254 | the draw-error message is the first branch, in source order, that fires, and the catch throws exactly when its unguarded `message.includes` is reached with no message |
| DappAdminPanel.NotEnoughErrorClassified | lottery-dapp/src/AdminPanel.js:219-221 | the error raised by the participant pre-check is shown as "Cannot draw winners: Not enough participants" |
| DappAdminPanel.HandleDrawWinners | lottery-dapp/src/AdminPanel.js:188-258 | the draw handler's guards, the `MIN_PARTICIPANTS()` check and the transaction; no contract of its own, stated by `DrawGuards`, `DrawOwnerIgnoresCase` and `EnabledDrawPassesGuards` |
| DappAdminPanel.DrawGuards | lottery-dapp/src/AdminPanel.js:188-258 | owner-only refusal first, active-round refusal second; with too few participants no draw is sent; the draw succeeds iff every guard passes, the minimum is met and the transaction confirms |
| DappAdminPanel.DrawOwnerIgnoresCase | lottery-dapp/src/AdminPanel.js:42 | the draw handler's outcome does not depend on the case of the connected address |
| DappAdminPanel.DrawButtonDisabled | lottery-dapp/src/AdminPanel.js:630-635 | the Draw button's `disabled` expression; no contract of its own, stated by `EnabledDrawPassesGuards` |
| DappAdminPanel.EnabledDrawPassesGuards | lottery-dapp/src/AdminPanel.js:630-635 | when the Draw button is enabled the handler never refuses, and with a minimum of at most 3 a confirmed draw succeeds |
| DappAdminPanel.FractionRun | lottery-dapp/src/AdminPanel.js:698 | after the dot, the automaton accepts exactly strings of digits |
| DappAdminPanel.IntegerRun | lottery-dapp/src/AdminPanel.js:698 | after the first digit, the automaton accepts exactly digits, optionally followed by a dot and more digits |
| DappAdminPanel.AmountRegexTest | lottery-dapp/src/AdminPanel.js:698 | `/^[0-9]+\.?[0-9]*$/.test` as a three-state automaton; no contract of its own: `AmountRegexMatchesPattern` proves it accepts exactly the pattern's strings |
| DappAdminPanel.AmountRegexMatchesPattern | lottery-dapp/src/AdminPanel.js:698 | the regex test accepts a string iff it is one or more digits, an optional dot, then zero or more digits |
| DappAdminPanel.AcceptedAmountShape | lottery-dapp/src/AdminPanel.js:736 | an accepted amount starts with a digit and contains at most one dot |
| DappAdminPanel.OnAmountChange | lottery-dapp/src/AdminPanel.js:695-701 | the field takes the typed value iff it is empty or matches the pattern, and otherwise keeps the stored value |
| DappAdminPanel.StoredAmountStaysValid | lottery-dapp/src/AdminPanel.js:733-739 | a field that holds a valid amount (or empty) still does after any edit |
| DappAdminPanel.AdminDisplayedWinners | lottery-dapp/src/AdminPanel.js:876-909 | the owner page shows at most two rounds of the window, newest first, each with exactly that round's records |
| DappApp.AppWindowBounds | lottery-dapp/src/App.js:135-136 | the window runs from `id` down to `max(1, id-5)`, at most six rounds, first the current round, never round 0 |
| DappApp.FetchRecentWinners | lottery-dapp/src/App.js:130-165 | the loop queries exactly the descending window and builds exactly the records of those rounds |
| DappApp.RecentWinnersShape | lottery-dapp/src/App.js:136-162 | every listed winner is from the window, a well-formed record, in descending round then ascending position order |
| DappApp.RecentWinnersSkipFailedRound | lottery-dapp/src/App.js:159-161 | a failing round of the window is skipped and the others are unaffected |
| DappApp.AppDisplayedWinners | lottery-dapp/src/App.js:624-647 | the player page shows at most two rounds, newest first, each with exactly that round's records |
| DappApp.MaxAllowed | lottery-dapp/src/App.js:513-516 | the cap is the smaller of the wallet's remaining allowance and the pool's remaining tickets |
| DappApp.IncrementCount | lottery-dapp/src/App.js:526-531 | `+` gives `count + 1` clamped to the cap |
| DappApp.TypedCount | lottery-dapp/src/App.js:503-519 | an input with no digits sets 1; otherwise the value of its digits clamped to the cap |
| DappApp.CounterStaysInRange | lottery-dapp/src/App.js:495-531 | from a count in `1..cap`, `-` and `+` stay in `1..cap`, and typing stays in `0..cap` |
| DappApp.TypedZero | lottery-dapp/src/App.js:511-518 | typing "0" sets the counter to 0, and the Buy button is then disabled |
| DappApp.LimitMessage | lottery-dapp/src/App.js:188 | the per-wallet-limit banner with both numbers rendered in decimal; no contract of its own, used by `BuyGuard` |
| DappApp.BuyGuard | lottery-dapp/src/App.js:175-196 | the purchase passes iff connected, active, within the per-wallet maximum of 2 and within the pool |
| DappApp.BuyGuardOrder | lottery-dapp/src/App.js:175-196 | the guards report in source order: not connected, inactive, wallet limit, pool |
| DappApp.ClampedCountPassesLimits | lottery-dapp/src/App.js:503-531 | a count produced by `+` or by typing digits always passes the limit and pool guards of a connected, active session |
| DappApp.BuyErrorMessage | lottery-dapp/src/App.js:224-237 | the player purchase catch chain; no contract of its own: `BuyFollowsPriority` proves it equal to its first-match table |
| DappApp.BuyFollowsPriority | lottery-dapp/src/App.js:224-237 | the purchase-error message is the first branch, in source order, that fires |
| DappApp.HandleBuyTickets | lottery-dapp/src/App.js:175-241 | the four guards, then `buyTickets` with price times count; no contract of its own, stated by `BuyGuardOrder` and `SentPurchaseWithinLimits` |
| DappApp.SentPurchaseWithinLimits | lottery-dapp/src/App.js:175-206 | a transaction is sent iff every guard passes, and then for the counter's value with exactly `price * count` wei, within the wallet limit and the pool |
| DappApp.BuyButtonDisabled | lottery-dapp/src/App.js:559 | the Buy button's `disabled` expression; no contract of its own, stated by `EnabledPurchaseCount` |
| DappApp.EnabledPurchaseCount | lottery-dapp/src/App.js:559 | with the Buy button enabled, a sent purchase is of at least one ticket and within the wallet's remaining allowance |
| DappApp.AppCheckOwner | lottery-dapp/src/App.js:70-81 | the owner flag is updated by the case-insensitive test when `owner()` answers and left alone when it fails |
| DappApp.FetchData | lottery-dapp/src/App.js:96-173 | each failing call stops the refresh with "Error fetching data. Check console for details." and keeps what was set before it; user tickets fall back to 0 on failure; the winners are the records of the descending window |
| FrontendsAdminPanel.PastRecords | lottery-frontends/src/AdminPanel.js:90-105 | the list the past-winner loop builds over a window; no contract of its own: `FetchPastWinners` is proved to return it and `PastRecordsMembers` and `PastRecordsOrdered` state what it holds |
| FrontendsAdminPanel.PastWindowBounds | lottery-frontends/src/AdminPanel.js:92 | the window is `1..roundNumber-1`, strictly ascending, empty for rounds 0 and 1 |
| FrontendsAdminPanel.PastStep | lottery-frontends/src/AdminPanel.js:92-105 | one more round appends exactly that round's record, if any |
| FrontendsAdminPanel.FetchPastWinners | lottery-frontends/src/AdminPanel.js:89-109 | the loop queries exactly rounds `1..roundNumber-1` and lists exactly their non-zero past winners |
| FrontendsAdminPanel.PastRecordsMembers | lottery-frontends/src/AdminPanel.js:94-101 | a record is listed iff its round was visited, `pastWinners(round)` answered with a non-zero address, and the record carries that address and prize |
| FrontendsAdminPanel.PastRecordsOrdered | lottery-frontends/src/AdminPanel.js:92 | listed past winners are in strictly ascending round order |
| FrontendsAdminPanel.PastRecordsAppend | lottery-frontends/src/AdminPanel.js:92-105 | visiting `a` then `b` lists the records of `a` followed by those of `b` |
| FrontendsAdminPanel.FailedPastRoundSkipped | lottery-frontends/src/AdminPanel.js:102-104 | a failing `pastWinners(i)` is skipped without stopping later rounds |
| FrontendsAdminPanel.FetchData | lottery-frontends/src/AdminPanel.js:46-117 | each failing call stops the refresh with "Error fetching data" and keeps what was set before it; participants are the probed prefix; past winners use the round number of the view given |
| FrontendsAdminPanel.StaleRoundBound | lottery-frontends/src/AdminPanel.js:65-66 | on the first refresh (round number 0) no past winner is listed, and afterwards only rounds below the previously stored round number |
| FrontendsAdminPanel.SelectErrorMessage | lottery-frontends/src/AdminPanel.js:189-197 | the select catch chain, `None` when its unguarded `message.includes` throws; no contract of its own: `SelectFollowsPriority` proves it equal to its first-match table |
| FrontendsAdminPanel.SelectFollowsPriority | lottery-frontends/src/AdminPanel.js:189-197 | the select-error message is the first branch, in source order, that fires, and the catch throws exactly when its unguarded `message.includes` is reached with no message |
| FrontendsAdminPanel.HandleSelectWinners | lottery-frontends/src/AdminPanel.js:162-201 | the select handler's owner and active guards, then the transaction; no contract of its own, stated by `SelectGuards` and `EnabledSelectReachesTransaction` |
| FrontendsAdminPanel.SelectGuards | lottery-frontends/src/AdminPanel.js:162-201 | owner-only refusal first, active-round refusal second; success iff every guard passes and the transaction confirms; a reverted transaction shows its classified message |
| FrontendsAdminPanel.SelectButtonDisabled | lottery-frontends/src/AdminPanel.js:425 | the Select button's `disabled` expression; no contract of its own, stated by `EnabledSelectReachesTransaction` |
| FrontendsAdminPanel.EnabledSelectReachesTransaction | lottery-frontends/src/AdminPanel.js:425 | with the Select button enabled there are at least three participants and the owner's request is never refused |
| FrontendApp.IncrementCount | lottery-frontend/src/App.js:386 | `+` raises the count, with no upper bound |
| FrontendApp.TypedCount | lottery-frontend/src/App.js:379 | typing sets `parseInt(value)` when it is at least 1, otherwise 1 (for NaN, 0 and negatives) |
| FrontendApp.TypedCountRoundTrip | lottery-frontend/src/App.js:379 | typing the numeral of n ≥ 1 sets n; typing `-n` sets 1 |
| FrontendApp.CounterStaysPositive | lottery-frontend/src/App.js:370-386 | from a positive count, each of `-`, `+` and typing keeps the count at least 1 |
| FrontendApp.BuyErrorMessage | lottery-frontend/src/App.js:140-149 | the purchase catch chain; no contract of its own: `BuyFollowsPriority` proves it equal to its first-match table |
| FrontendApp.BuyFollowsPriority | lottery-frontend/src/App.js:140-149 | the purchase-error message is the first branch, in source order, that fires |
| FrontendApp.HandleBuyTickets | lottery-frontend/src/App.js:106-152 | the connection and round guards, then `buyTickets` at 0.25 STT per ticket; no contract of its own, stated by `SentPurchase` |
| FrontendApp.SentPurchase | lottery-frontend/src/App.js:106-126 | a transaction is sent iff connected and active, with the counter's value and exactly `0.25 STT * count` in wei |
| FrontendApp.FetchData | lottery-frontend/src/App.js:66-104 | a failing pool or status call sets "Error fetching data. Check console for details." and keeps what was set before; otherwise participants are the probed prefix |

## Left out

- Rendering: JSX, Bootstrap markup, spinners and loading flags, tabs, and the 5-second `setTimeout` that hides the success banner. None of these decides any state the model covers.
- React hooks: `useEffect`, `useCallback`, asynchronous scheduling, and refreshes that overlap or interleave. Each handler is modelled as one atomic step over its inputs.
- `lottery-frontend/src/utils/contract.js`, the Solidity contract and the wallet are not part of this model. Their answers are oracle parameters: `connectWallet`, `getContract`, `provider.getBalance` and every contract call.
- `ethers.formatEther` and `ethers.parseEther`: amounts are kept in wei. The dapp player page's `parseEther(formatEther(TICKET_PRICE))` round trip is taken as the identity.
- The `parseFloat` amount checks of the add-funds and withdraw handlers (`lottery-dapp/src/AdminPanel.js:261-341`), and every `toFixed` display, use floating point and are not modelled.
- `handleAddFunds`, `handleWithdrawFunds`, `handleResetRound` and `handleDisconnectWallet`: these are not in the modelled core. Their error chains have the same shape as the classifiers that are modelled.
- `console.log` and `console.error` output.
- `toLowerCase` is modelled for the ASCII letters only. Addresses are hexadecimal, so this covers them. The white space `parseInt` skips is the full ECMAScript set: WhiteSpace, including every Unicode space separator, and LineTerminator.
- An `error.code` that is not a number is modelled as absent.
- `JsText.ParseInt`: the `0x` prefix of a radix-less `parseInt` is modelled, but it is not reachable at either call site. On the dapp player page only digits are left after `replace(/[^0-9]/g, '')`. On the lottery-frontend page the field is a `type="number"` input, whose value cannot contain `x`.
- `DappApp.TypedCount`: `parseInt` returns a JavaScript double, but the model reads the digits as an exact integer. The rounding of values above 2^53 is not modelled.
- `FrontendApp.IncrementCount`: `ticketCount + 1` is a JavaScript double, which stops growing at 2^53. The model counts in exact integers, so `r > ticketCount` is promised for every count.
- `FrontendApp.TypedCount`: `parseInt` rounds numerals above 2^53 to the nearest double. The model reads them exactly.
- `FrontendApp.TypedCountRoundTrip`: holds for the model's exact integers. In JavaScript it holds only up to 2^53.
- `FrontendApp.HandleBuyTickets`: `ethers.getBigInt(ticketCount)` throws for a number above 2^53-1, inside the `try`, so no transaction is sent. The ethers library is not part of this model, and the model sends `buyTickets` for every count once both guards pass.
- `FrontendApp.SentPurchase`: states the purchase for every count. Because of the `getBigInt` range check it describes the program only for counts up to 2^53-1.
- `Participants.ProbeParticipants`: requires that some `participants(n)` call fails. Without that the source loop does not end, and a non-terminating loop is not modelled.
- `FrontendsAdminPanel.FetchData`: requires a failing participant index, for the same reason.
- `FrontendApp.FetchData`: requires a failing participant index, for the same reason.
- `TicketPurchase.TotalCost`: its own contract states only non-negativity. That the value is exactly price times count is stated by `TotalCostIsSumOfPrices` and the `SentPurchase…` lemmas.

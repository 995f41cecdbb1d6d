# Dice lobby server: a Dafny model

This project models the game server of a multiplayer dice-betting site, `server.js`. Players
gather in lobbies keyed by a short code. Anyone in a lobby can start a round. The round gives
15 seconds to place one bet each, and then one die is rolled per bettor. The highest roll takes
the whole pot. If several players tie for the highest roll, each gets `floor(pot / k)`.

The model covers everything in `server.js` except the transport:

- `players.dfy` (`Players`): the ordered player list, `find`, the balance updates, `filter`.
- `dice.dfy` (`Dice`): `resolveDiceRound`. The pot loop and the payout loop are methods, proved
  against the functions `Pot`, `Entries`, `Record`, `Highest`, `Winners` and `Payout`.
- `lobbies.dfy` (`Lobbies`): the lobby record and what each handler does to it, as functions.
  It also holds the lobby invariant `LobbyOk` and the lemmas about bets, ticks, resolution and
  money.
- `registry.dfy` (`Registry`): the class `Server`. It holds the process-wide `lobbies`
  dictionary and each connection's `currentLobby`. There is one method per socket handler, plus
  the interval callback (`Tick`) and `resolveDiceRound`. Each method runs to completion, as a
  handler does on the event loop.
- `text.dfy` (`Text`): `String.prototype.trim` and `toUpperCase`, as applied to names and
  codes.
- `scenarios.dfy` (`Scenarios`): event sequences with fixed dice. These are the three-way tie,
  the winner who has left, and the stray countdown described under Findings.

Random inputs are parameters. The lobby code arrives as the string that `Math.random` would
have produced, and `CreateLobby` upper-cases it. The dice arrive as `draws`, one per bettor in
bet order, each constrained to 1..6.

`bets` is a JavaScript object whose keys are visited in insertion order. It is modelled as a
sequence of `Bet` records with distinct ids. `rolls` is a `map`.

## Model

| member | source | states |
|---|---|---|
| `Text.Trim` | server.js:30 | the trimmed name is the input less its leading and trailing white space; it is blank exactly when the input is all white space; a non-blank result starts and ends with a non-space |
| `Text.TrimFixed` | server.js:56 | a name that is already trimmed is left as it is, so trimming twice is trimming once |
| `Text.ToUpper` | server.js:55 | the upper-cased code has the same length, no lower-case letter, every letter `a`-`z` replaced by its capital and every other character kept |
| `Text.ToUpperFixed` | server.js:55 | upper-casing leaves a code unchanged exactly when it has no lower-case letter; upper-casing twice is upper-casing once |
| `Players.IndexOf` | server.js:108 | `find` yields nothing exactly when no player has the id, otherwise the first position holding it |
| `Players.Adjust` | server.js:112 | a balance update touches only the player `find` returns, by exactly `delta`; ids, order and names are kept |
| `Players.DebitKeeps` | server.js:111-112 | a debit the balance covers keeps every balance non-negative |
| `Players.TotalAdjust` | server.js:112 | the sum of balances moves by `delta` when the id is present and not at all otherwise |
| `Players.RemoveDrops` | server.js:122 | after `filter` no record of the leaving connection remains, and every remaining record was in the list |
| `Players.RemoveKeeps` | server.js:122 | `filter` keeps every record of another connection, balance included |
| `Players.RemoveAppend` | server.js:122 | `filter` distributes over concatenation, so the kept records stay in their order |
| `Players.RemoveAbsent` | server.js:122 | a list without the connection is left exactly as it is |
| `Players.CreditAllAt` | server.js:159-164 | with distinct winner ids, the first record of each winner gains the prize once, and every other record keeps its balance and name |
| `Players.CreditAllTotal` | server.js:159-164 | crediting raises the sum of balances by the prize times the number of winners still present |
| `Dice.PotPositive` | server.js:137-142 | with positive stakes the pot is non-negative, and it is zero exactly when there are no bets |
| `Dice.EntriesIds` | server.js:145 | `playersInRound` lists exactly the bettors, in bet order |
| `Dice.RecordKeys` | server.js:144 | recording the rolls adds exactly the round's ids as keys |
| `Dice.RecordSpec` | server.js:141-146 | every bettor gets its own die in `rolls`; entries of ids outside the round are kept |
| `Dice.Highest` | server.js:150-153 | `highestRoll` is at least every roll of the round and is one of them |
| `Dice.Winners` | server.js:154 | an id is a winner exactly when some entry has that id and the highest roll |
| `Dice.WinnersDistinct` | server.js:154 | distinct bettors give distinct winners |
| `Dice.HighestHeld` | server.js:153-154 | some bettor holds the highest roll |
| `Dice.Top` | server.js:149-154 | the list of top rollers is empty exactly when nobody bet |
| `Dice.Payout` | server.js:149-172 | the payout keeps the number of players and their ids in order |
| `Dice.PayoutAt` | server.js:149-172 | per player: the first record of each top roller gains `pot / k`, which is the whole pot when `k` is 1; everyone else's balance and every name is unchanged |
| `Dice.PayoutKeeps` | server.js:156-171 | a payout from a non-negative pot keeps every balance non-negative |
| `Dice.PayoutSingle` | server.js:165-171 | a unique top roller who is present gains the whole pot, and nobody else changes; if that roller has left, no balance changes |
| `Dice.PayoutTotal` | server.js:156-171 | without bets the sum of balances is unchanged; otherwise it rises by at most the pot, and by exactly `pot - pot mod k` when all `k` top rollers are present |
| `Dice.RollDice` | server.js:137-146 | the `for-in` loop leaves `totalPot` equal to the sum of the stakes, `playersInRound` pairing each bettor with its draw, and `rolls` recording them |
| `Dice.CreditEach` | server.js:158-164 | the `forEach` credits each winner found among the players once, as `CreditAll` specifies |
| `Dice.PayWinners` | server.js:149-172 | the crediting code pays exactly what `Payout` specifies: the tie split or the single winner |
| `Lobbies.NewLobby` | server.js:39-48 | a created lobby holds its creator alone at balance 1000 and an idle game with no bets or rolls and timer 0; it satisfies the lobby invariant |
| `Lobbies.JoinedSpec` | server.js:68 | joining appends one player at 1000 after the existing ones and keeps the game and the invariant |
| `Lobbies.StartedSpec` | server.js:76-82 | starting gives an active round with no bets, no rolls and timer 15; starting a running round changes nothing, so the countdown is not reset |
| `Lobbies.BetKeepsInvariant` | server.js:111-113 | after a bet, balances are still non-negative, stakes positive, and each player has at most one bet |
| `Lobbies.BetLedger` | server.js:111-113 | a bet moves money from the caller's balance into the pot; only the caller's record changes, by exactly the amount; timer and round state are untouched |
| `Lobbies.ResolvedRolls` | server.js:141-146 | resolution gives a die to exactly the bettors, keeps the bets and the timer, and sets `active` to false |
| `Lobbies.ResolvedDice` | server.js:143-144 | after resolution every recorded die shows 1 to 6 |
| `Lobbies.ResolvedKeepsInvariant` | server.js:133-176 | resolution keeps the lobby invariant; without bets no balance changes |
| `Lobbies.ResolvedTotal` | server.js:137-171 | conservation: balances plus pot before resolution are at least the balances after, with equality up to `pot mod k` when every top roller is still present |
| `Lobbies.TickedSpec` | server.js:93-99 | a tick lowers the timer by exactly 1 and resolves exactly when the new timer is `<= 0` |
| `Lobbies.CountdownSpec` | server.js:93 | ticks that do not resolve change nothing but the timer, one second each |
| `Lobbies.ResolvesOnFifteenthTick` | server.js:82-99 | from a freshly started round, ticks 1 to 14 leave the round running and tick 15 is the one that resolves it |
| `Lobbies.Left` | server.js:122 | a departure changes neither the game, including the leaver's bet, nor the code |
| `Lobbies.LeftSpec` | server.js:122-127 | a departure that leaves someone behind keeps the lobby invariant |
| `Lobbies.PinnedTickLedger` | server.js:87-101 | for the corrected countdown: a tick of a running round never increases the money a lobby holds, and a tick of a finished round changes nothing |
| `Registry.Server.constructor` | server.js:15 | the server starts with no lobbies and no connection in a lobby |
| `Registry.Server.LobbyOf` | server.js:76 | in a well-formed registry, a lobby the `currentLobby && lobbies[currentLobby]` guard lets through is live, stored under its own code, and holds at least one player with no balance below zero |
| `Registry.Server.CreateLobby` | server.js:29-52 | a blank name is rejected and changes nothing; otherwise the upper-cased code becomes the caller's lobby and holds the new lobby, overwriting any lobby under that code |
| `Registry.Server.JoinLobby` | server.js:54-72 | a blank name, and then an unknown code, are rejected and change nothing; otherwise the caller is appended to that lobby at 1000 and it becomes the caller's lobby |
| `Registry.Server.StartGame` | server.js:75-85 | a start succeeds exactly when the caller's lobby exists and is idle, and then installs `Started` of that lobby (empty bets and rolls, timer 15, active); otherwise nothing changes |
| `Registry.Server.Tick` | server.js:87-101 | on a missing lobby the countdown stops and nothing changes; otherwise the timer drops by 1, the round is resolved once it is `<= 0`, and the countdown continues exactly while it is positive |
| `Registry.Server.TickLobby` | server.js:87-101 | the corrected countdown: bound to the lobby it was started in, and acting only while that lobby's round runs; no other lobby changes |
| `Registry.Server.PlaceBet` | server.js:104-116 | a bet is accepted exactly when the lobby exists, the round is active, the caller is a player, `amount > 0`, the balance covers it and the caller has no bet yet; then the caller is debited and the bet recorded, and otherwise nothing changes |
| `Registry.Server.Disconnect` | server.js:119-130 | the caller's records leave its lobby and the others stay in order; the lobby is deleted exactly when nobody remains; bets are untouched |
| `Registry.Server.ResolveDiceRound` | server.js:133-176 | a missing lobby is left alone; otherwise the lobby becomes `Resolved`: dice recorded, pot paid, round inactive |
| `Scenarios.SecondResolution` | server.js:93-99 | a tick on a finished lobby whose timer is 0 resolves its old bets again and pays the old pot a second time |
| `Scenarios.StrayLedger` | server.js:133-171 | that second resolution adds 100 to the money in the lobby, which no bet put in |
| `Scenarios.StrayCountdown` | server.js:87-99 | after its starter joins another lobby, a countdown resolves that lobby's finished round again, while its own round stays active with a full timer |
| `Scenarios.PinnedCountdown` | server.js:87-99 | with the corrected countdown the same events advance only the starter's round and leave the other lobby and its money as they were |
| `Scenarios.ThreeWayTie` | server.js:156-164 | three tied winners of a pot of 100 get 33 each; the remainder of 1 leaves circulation |
| `Scenarios.AbsentWinner` | server.js:165-171 | a bettor who left keeps their bet in the pot; if they then hold the top roll, nobody is credited and the whole pot leaves circulation |

## Left out

- Express, `http`, socket.io, static files and `server.listen` (server.js:3-13, 179-181): transport and process set-up.
- `broadcastLobbyState`, `socket.emit`, `socket.join` and `console.log`: output only. The two `lobbyError` messages become the `Outcome` returned by `CreateLobby` and `JoinLobby`.
- The format of the random code (server.js:35): `CreateLobby` takes the string before upper-casing as a parameter. Roll draws (server.js:143) are the `draws` parameter, one per bettor in bet order.
- `setInterval`/`clearInterval` and the one-second cadence: a countdown is a sequence of `Tick` calls. `StartGame` returns whether a countdown begins, and `Tick` returns whether it continues.
- `Registry.Server.Tick`: requires the connection to have a `currentLobby`. A countdown exists only after `startGame` passed its guard, so this always holds. It also takes the dice on every tick, and uses them only on the tick that resolves.
- `parseInt` (server.js:109): the bet amount is an `int`. A string that does not parse stands for any non-positive amount, which the guard rejects.
- Payloads that are not strings (`data.name.trim()` on a non-string throws): not modelled.
- `toUpperCase` is modelled on ASCII letters only; other characters are kept as they are.
- Lookups such as `bets[socket.id]` and `lobbies[code]` are modelled as own keys only. Inherited object properties are ignored, and so is the order in which `for-in` visits integer-like keys. Socket ids are not integer-like.
- Code uniqueness is not enforced: `createLobby` overwrites a live lobby under the same code, and the model does the same.
- A connection that joins a second lobby stays a player of the first. Disconnecting later removes it only from its current lobby, and the model does the same.
- Refunds or exclusion of bettors who left: the source keeps their bet in the pot and credits nobody for it, and so does the model.

## Findings

| source | as written | input that shows it | evidently intended | confidence | as-written member | corrected member |
|---|---|---|---|---|---|---|
| server.js:87-99 | the interval callback re-reads the starting connection's `currentLobby` every second | Bob plays a round alone in lobby L2 and wins; Ann creates L1, starts a round, then joins L2. Ann's next tick takes L2's timer from 0 to -1 and resolves L2's old bets again: Bob is paid 100 that no bet put in, and L1's round is never resolved, so it can never be started again | the countdown acts on the lobby it was started for, and only while that round runs, so no pot is paid twice (`Lobbies.PinnedTickLedger`) | high; not executed | `Scenarios.StrayCountdown` | `Registry.Server.TickLobby` |

`Registry.Server.Tick` models the callback as written. `Registry.Server.TickLobby` is the
corrected countdown: it captures the code at start and stops once the round is over.

/**
 * One lobby: its ordered players and its game round. Each function below is the effect one
 * handler has on a lobby record; the registry applies them under the lobby's code.
 */
module Lobbies {
  import opened Wrappers
  import opened Text
  import opened Players
  import opened Dice

  /** A lobby code: the upper-cased random string the lobby is keyed by. */
  type Code = string

  /** Seconds of the betting window set by `startGame`. */
  const BettingWindow: int := 15

  /** `lobby.game`: whether a round runs, the bets in insertion order, the dice, the countdown. */
  datatype Game = Game(active: bool, bets: seq<Bet>, rolls: map<Id, int>, timer: int)

  datatype Lobby = Lobby(players: seq<Player>, game: Game, code: Code)

  /** Names as the handlers store them: trimmed and not blank. */
  predicate NamesOk(ps: seq<Player>) {
    forall i :: 0 <= i < |ps| ==> Trimmed(ps[i].name)
  }

  /**
   * What holds of every live lobby stored under `code`: it knows its code, has a player,
   * no balance is negative, every bettor has one positive bet, and every die shows 1 to 6.
   */
  predicate LobbyOk(code: Code, l: Lobby) {
    && l.code == code
    && |l.players| > 0
    && NonNegative(l.players)
    && NamesOk(l.players)
    && Distinct(BetIds(l.game.bets))
    && Positive(l.game.bets)
    && forall id :: id in l.game.rolls ==> IsDie(l.game.rolls[id])
  }

  /** Every lobby of the registry is well formed under its key. */
  predicate AllOk(lobbies: map<Code, Lobby>) {
    forall c :: c in lobbies ==> LobbyOk(c, lobbies[c])
  }

  /** Storing a well-formed lobby, or deleting one, keeps the registry well formed. */
  lemma AllOkUpdate(lobbies: map<Code, Lobby>, code: Code, l: Lobby)
    requires AllOk(lobbies)
    ensures LobbyOk(code, l) ==> AllOk(lobbies[code := l])
    ensures AllOk(lobbies - {code})
  {
  }

  /** The record `createLobby` stores: the creator alone at the starting balance, an idle game. */
  function NewLobby(id: Id, name: string, code: Code): (l: Lobby)
    requires Trimmed(name)
    ensures LobbyOk(code, l) && Total(l.players) == StartingBalance
  {
    var l := Lobby([Player(id, name, StartingBalance)], Game(false, [], map[], 0), code);
    assert Total(l.players) == Total([]) + StartingBalance;
    l
  }

  /** `joinLobby`: the new player is appended at the starting balance. */
  function Joined(l: Lobby, id: Id, name: string): Lobby {
    l.(players := l.players + [Player(id, name, StartingBalance)])
  }

  /**
   * Joining keeps the invariant, keeps everyone already there in order, appends exactly one
   * player at the starting balance, and adds that balance to the total.
   */
  lemma JoinedSpec(code: Code, l: Lobby, id: Id, name: string)
    requires LobbyOk(code, l) && Trimmed(name)
    ensures LobbyOk(code, Joined(l, id, name))
    ensures Joined(l, id, name).players[..|l.players|] == l.players
    ensures Joined(l, id, name).game == l.game
    ensures |Joined(l, id, name).players| == |l.players| + 1
    ensures Joined(l, id, name).players[|l.players|] == Player(id, name, StartingBalance)
    ensures Total(Joined(l, id, name).players) == Total(l.players) + StartingBalance
  {
    var ps := Joined(l, id, name).players;
    assert ps[..|ps| - 1] == l.players;
  }

  /** `startGame`: a fresh betting round unless one is already running. */
  function Started(l: Lobby): Lobby {
    if l.game.active then l else l.(game := Game(true, [], map[], BettingWindow))
  }

  /**
   * Starting a running round changes nothing; starting an idle one empties bets and rolls and
   * sets the countdown. Either way a second start changes nothing.
   */
  lemma StartedSpec(code: Code, l: Lobby)
    requires LobbyOk(code, l)
    ensures LobbyOk(code, Started(l))
    ensures Started(Started(l)) == Started(l)
    ensures Started(l).game.active && Started(l).players == l.players
    ensures l.game.active ==> Started(l) == l
    ensures !l.game.active ==>
      && Started(l).game.timer == BettingWindow
      && Started(l).game.bets == []
      && Started(l).game.rolls == map[]
      && Started(l).code == l.code
  {
  }

  /** The guard of `placeBet`. */
  predicate CanBet(l: Lobby, id: Id, amount: int) {
    && l.game.active
    && Find(l.players, id).Some?
    && amount > 0
    && l.players[Find(l.players, id).value].balance >= amount
    && id !in BetIds(l.game.bets)
  }

  /** `placeBet`: debit the caller and record the bet, or change nothing. */
  function WithBet(l: Lobby, id: Id, amount: int): Lobby {
    if CanBet(l, id, amount) then
      l.(players := Adjust(l.players, id, -amount),
         game := l.game.(bets := l.game.bets + [Bet(id, amount)]))
    else l
  }

  /** A bet keeps the invariant: balances stay non-negative and each player has one bet at most. */
  lemma BetKeepsInvariant(code: Code, l: Lobby, id: Id, amount: int)
    requires LobbyOk(code, l)
    ensures LobbyOk(code, WithBet(l, id, amount))
  {
    if CanBet(l, id, amount) {
      var r := WithBet(l, id, amount);
      assert BetIds(r.game.bets) == BetIds(l.game.bets) + [id];
      DistinctSnoc(BetIds(l.game.bets), id);
      assert Positive(r.game.bets) by {
        assert forall i :: 0 <= i < |l.game.bets| ==> r.game.bets[i] == l.game.bets[i];
      }
      DebitKeeps(l.players, id, amount);
    }
  }

  /**
   * A bet moves money from the caller's balance into the pot, creating or losing none;
   * only the caller's record changes, by exactly the amount, and the countdown is untouched.
   */
  lemma BetLedger(l: Lobby, id: Id, amount: int)
    ensures Total(WithBet(l, id, amount).players) + Pot(WithBet(l, id, amount).game.bets)
         == Total(l.players) + Pot(l.game.bets)
    ensures WithBet(l, id, amount).game.timer == l.game.timer
    ensures WithBet(l, id, amount).game.active == l.game.active
    ensures CanBet(l, id, amount) ==>
      forall j :: 0 <= j < |l.players| ==>
        WithBet(l, id, amount).players[j].balance
          == l.players[j].balance - (if Find(l.players, id) == Some(j) then amount else 0)
  {
    if CanBet(l, id, amount) {
      var r := WithBet(l, id, amount);
      TotalAdjust(l.players, id, -amount);
      assert r.game.bets[..|r.game.bets| - 1] == l.game.bets;
    }
  }

  /** The first half of a tick: `timer--`. */
  function Decremented(l: Lobby): Lobby {
    l.(game := l.game.(timer := l.game.timer - 1))
  }

  /** `resolveDiceRound` on a lobby record, given one draw per bettor. */
  function Resolved(l: Lobby, draws: seq<int>): Lobby
    requires |draws| == |l.game.bets|
  {
    var round := Entries(l.game.bets, draws);
    l.(players := Payout(l.players, round, Pot(l.game.bets)),
       game := l.game.(rolls := Record(l.game.rolls, round), active := false))
  }

  /** The body of the interval callback on a lobby that still exists. */
  function Ticked(l: Lobby, draws: seq<int>): Lobby
    requires |draws| == |l.game.bets|
  {
    var d := Decremented(l);
    if d.game.timer <= 0 then Resolved(d, draws) else d
  }

  /**
   * Resolution gives every bettor the die drawn for it, keeps the other rolls,
   * adds no other key, and ends the round.
   */
  lemma ResolvedRolls(l: Lobby, draws: seq<int>)
    requires Distinct(BetIds(l.game.bets)) && |draws| == |l.game.bets|
    ensures !Resolved(l, draws).game.active
    ensures Resolved(l, draws).game.bets == l.game.bets
    ensures Resolved(l, draws).game.timer == l.game.timer
    ensures forall id :: id in Resolved(l, draws).game.rolls <==> id in l.game.rolls || id in BetIds(l.game.bets)
    ensures forall i :: 0 <= i < |l.game.bets| ==>
      l.game.bets[i].id in Resolved(l, draws).game.rolls &&
      Resolved(l, draws).game.rolls[l.game.bets[i].id] == draws[i]
    ensures forall id :: id in l.game.rolls && id !in BetIds(l.game.bets) ==>
      Resolved(l, draws).game.rolls[id] == l.game.rolls[id]
  {
    var round := Entries(l.game.bets, draws);
    EntriesIds(l.game.bets, draws);
    RecordSpec(l.game.rolls, round);
    assert forall i :: 0 <= i < |round| ==> round[i].id == l.game.bets[i].id && round[i].roll == draws[i];
  }

  /** After resolution every recorded die still shows 1 to 6. */
  lemma ResolvedDice(l: Lobby, draws: seq<int>)
    requires Distinct(BetIds(l.game.bets)) && DiceFor(l.game.bets, draws)
    requires forall id :: id in l.game.rolls ==> IsDie(l.game.rolls[id])
    ensures forall id :: id in Resolved(l, draws).game.rolls ==> IsDie(Resolved(l, draws).game.rolls[id])
  {
    var rolls := Resolved(l, draws).game.rolls;
    ResolvedRolls(l, draws);
    forall id | id in rolls
      ensures IsDie(rolls[id])
    {
      if id in BetIds(l.game.bets) {
        var i :| 0 <= i < |l.game.bets| && BetIds(l.game.bets)[i] == id;
        assert l.game.bets[i].id == id;
      }
    }
  }

  /** Resolution keeps the invariant; without bets nobody's balance changes. */
  lemma ResolvedKeepsInvariant(code: Code, l: Lobby, draws: seq<int>)
    requires LobbyOk(code, l) && DiceFor(l.game.bets, draws)
    ensures LobbyOk(code, Resolved(l, draws))
    ensures l.game.bets == [] ==> Resolved(l, draws).players == l.players
  {
    var round := Entries(l.game.bets, draws);
    EntriesIds(l.game.bets, draws);
    ResolvedDice(l, draws);
    PotPositive(l.game.bets);
    PayoutKeeps(l.players, round, Pot(l.game.bets));
  }

  /**
   * Money after resolution: the players gain at most the pot, and exactly the pot less
   * `pot mod k` (`k` the number of top rollers) when every top roller is still in the lobby.
   * Together with the ledger of `BetLedger` this is the round's conservation law.
   */
  lemma ResolvedTotal(code: Code, l: Lobby, draws: seq<int>)
    requires LobbyOk(code, l) && DiceFor(l.game.bets, draws)
    ensures Total(Resolved(l, draws).players) <= Total(l.players) + Pot(l.game.bets)
    ensures var top := Top(Entries(l.game.bets, draws));
      (forall w :: w in top ==> w in Ids(l.players)) ==>
        Total(Resolved(l, draws).players) + (if top == [] then 0 else Pot(l.game.bets) % |top|)
          == Total(l.players) + Pot(l.game.bets)
  {
    var round := Entries(l.game.bets, draws);
    EntriesIds(l.game.bets, draws);
    PotPositive(l.game.bets);
    PayoutTotal(l.players, round, Pot(l.game.bets));
  }

  /** A tick takes exactly one second off the countdown and resolves exactly when it reaches zero. */
  lemma TickedSpec(l: Lobby, draws: seq<int>)
    requires |draws| == |l.game.bets|
    ensures Ticked(l, draws).game.timer == l.game.timer - 1
    ensures Ticked(l, draws).game.timer <= 0 ==> Ticked(l, draws) == Resolved(Decremented(l), draws)
    ensures Ticked(l, draws).game.timer > 0 ==> Ticked(l, draws) == Decremented(l)
  {
  }

  /** `n` ticks that do not resolve. */
  function Countdown(l: Lobby, n: nat): Lobby {
    if n == 0 then l else Decremented(Countdown(l, n - 1))
  }

  /** Non-resolving ticks change only the timer, by one each. */
  lemma {:induction false} CountdownSpec(l: Lobby, n: nat)
    ensures Countdown(l, n) == l.(game := l.game.(timer := l.game.timer - n))
  {
    if n > 0 {
      CountdownSpec(l, n - 1);
    }
  }

  /**
   * From a freshly started round, ticks 1 to 14 leave the round betting and tick 15 resolves it:
   * the `n`-th tick (counting from 1) brings the timer to zero exactly when `n` is 15.
   * Bets and departures in between do not touch the timer (`BetLedger`, `Left`).
   */
  lemma ResolvesOnFifteenthTick(l: Lobby, n: nat)
    requires !l.game.active && 1 <= n <= BettingWindow
    ensures Countdown(Started(l), n - 1).game.active
    ensures Decremented(Countdown(Started(l), n - 1)).game.timer <= 0 <==> n == BettingWindow
  {
    CountdownSpec(Started(l), n - 1);
  }

  /** `disconnect` on a lobby: the player list without the leaving connection. */
  function Left(l: Lobby, id: Id): (r: Lobby)
    ensures r.game == l.game && r.code == l.code
  {
    l.(players := Remove(l.players, id))
  }

  /** Leaving keeps the invariant while someone remains; bets of the leaver stay in the pot. */
  lemma LeftSpec(code: Code, l: Lobby, id: Id)
    requires LobbyOk(code, l) && Remove(l.players, id) != []
    ensures LobbyOk(code, Left(l, id))
  {
    var r := Left(l, id).players;
    forall i | 0 <= i < |r|
      ensures r[i].balance >= 0 && Trimmed(r[i].name)
    {
      RemoveDrops(l.players, id);
      var j :| 0 <= j < |l.players| && l.players[j] == r[i];
    }
  }

  /**
   * Money a lobby holds: its players' balances plus, while a round runs, the stakes in its pot.
   * Once the round is over the stakes have been paid out and no longer count.
   */
  function Ledger(l: Lobby): int {
    Total(l.players) + (if l.game.active then Pot(l.game.bets) else 0)
  }

  /** A countdown bound to the lobby it was started in, acting only while its round runs. */
  function PinnedTicked(l: Lobby, draws: seq<int>): Lobby
    requires |draws| == |l.game.bets|
  {
    if l.game.active then Ticked(l, draws) else l
  }

  /**
   * A tick of a running round creates no money: the ledger is kept while the round counts down
   * and can only shrink (tie remainder, absent winners) when the round is resolved.
   */
  lemma PinnedTickLedger(code: Code, l: Lobby, draws: seq<int>)
    requires LobbyOk(code, l) && DiceFor(l.game.bets, draws)
    ensures LobbyOk(code, PinnedTicked(l, draws))
    ensures Ledger(PinnedTicked(l, draws)) <= Ledger(l)
    ensures !l.game.active ==> PinnedTicked(l, draws) == l
  {
    if l.game.active {
      var d := Decremented(l);
      if d.game.timer <= 0 {
        ResolvedTotal(code, d, draws);
        ResolvedKeepsInvariant(code, d, draws);
      }
    }
  }
}

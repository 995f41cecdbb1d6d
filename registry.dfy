/**
 * The server process: the `lobbies` dictionary and, per connection, the `currentLobby`
 * variable its handlers close over. Each socket handler is one method that runs to completion.
 */
module Registry {
  import opened Wrappers
  import opened Text
  import opened Players
  import opened Dice
  import opened Lobbies

  class Server {
    /** `lobbies`: every live lobby under its code. */
    var lobbies: map<Code, Lobby>
    /** `currentLobby` of each connection that created or joined a lobby. */
    var current: map<Id, Code>

    ghost predicate Valid()
      reads this
    {
      AllOk(lobbies)
    }

    /** The server starts with no lobbies and no connection in one. */
    constructor ()
      ensures Valid() && lobbies == map[] && current == map[]
    {
      lobbies := map[];
      current := map[];
    }

    /**
     * The guard `currentLobby && lobbies[currentLobby]`: the caller's lobby when its
     * `currentLobby` is set, not the empty string, and still live. In a well-formed registry
     * a lobby the guard lets through is one the handlers can work on: it is stored under
     * its own code and holds at least one player, none of them in debt.
     */
    function LobbyOf(conn: Id): (r: Option<Code>)
      requires Valid()
      reads this
      ensures r.Some? ==>
        && r.value in lobbies
        && lobbies[r.value].code == r.value
        && |lobbies[r.value].players| > 0
        && NonNegative(lobbies[r.value].players)
    {
      if conn in current && current[conn] != "" && current[conn] in lobbies
      then Some(current[conn]) else None
    }

    /**
     * `createLobby`: a blank name is reported and changes nothing; otherwise the upper-cased
     * random string becomes the caller's lobby, holding the caller alone at 1000 and an idle
     * game. A lobby already under that code is overwritten, as the source does.
     */
    method CreateLobby(conn: Id, name: string, random: string) returns (r: Outcome)
      requires Valid()
      modifies this
      ensures Valid()
      ensures Trim(name) == [] ==>
        r == Rejected(BlankName) && lobbies == old(lobbies) && current == old(current)
      ensures Trim(name) != [] ==>
        var code := ToUpper(random);
        && r == Done
        && current == old(current)[conn := code]
        && lobbies == old(lobbies)[code := Lobby([Player(conn, Trim(name), StartingBalance)],
                                                 Game(false, [], map[], 0), code)]
    {
      var playerName := Trim(name);
      if playerName == [] {
        return Rejected(BlankName);
      }
      var code := ToUpper(random);
      current := current[conn := code];
      AllOkUpdate(lobbies, code, NewLobby(conn, playerName, code));
      lobbies := lobbies[code := NewLobby(conn, playerName, code)];
      r := Done;
    }

    /**
     * `joinLobby`: the code is upper-cased; a blank name, then an unknown code, is reported
     * and changes nothing; otherwise the caller is appended to that lobby at 1000 and the
     * lobby becomes its `currentLobby`.
     */
    method JoinLobby(conn: Id, lobbyCode: string, name: string) returns (r: Outcome)
      requires Valid()
      modifies this
      ensures Valid()
      ensures var code := ToUpper(lobbyCode);
        && (Trim(name) == [] ==>
              r == Rejected(BlankName) && lobbies == old(lobbies) && current == old(current))
        && (Trim(name) != [] && code !in old(lobbies) ==>
              r == Rejected(LobbyNotFound) && lobbies == old(lobbies) && current == old(current))
        && (Trim(name) != [] && code in old(lobbies) ==>
              && r == Done
              && current == old(current)[conn := code]
              && lobbies == old(lobbies)[code := Joined(old(lobbies)[code], conn, Trim(name))])
    {
      var code := ToUpper(lobbyCode);
      var playerName := Trim(name);
      if playerName == [] {
        return Rejected(BlankName);
      }
      if code !in lobbies {
        return Rejected(LobbyNotFound);
      }
      current := current[conn := code];
      var lobby := lobbies[code];
      JoinedSpec(code, lobby, conn, playerName);
      AllOkUpdate(lobbies, code, Joined(lobby, conn, playerName));
      lobbies := lobbies[code := lobby.(players := lobby.players + [Player(conn, playerName, StartingBalance)])];
      r := Done;
    }

    /**
     * `startGame`: nothing happens without a live lobby or while its round is active;
     * otherwise bets and rolls are cleared, the timer set to 15 and the round made active.
     * The returned flag says whether the host starts a countdown (calls `Tick` each second).
     */
    method StartGame(conn: Id) returns (started: bool)
      requires Valid()
      modifies this
      ensures Valid() && current == old(current)
      ensures started <==> old(LobbyOf(conn)).Some? && !old(lobbies)[old(LobbyOf(conn)).value].game.active
      ensures started ==>
        var code := old(LobbyOf(conn)).value;
        lobbies == old(lobbies)[code := Started(old(lobbies)[code])]
      ensures !started ==> lobbies == old(lobbies)
    {
      var found := LobbyOf(conn);
      if found.None? {
        return false;
      }
      var code := found.value;
      var lobby := lobbies[code];
      if lobby.game.active {
        return false;
      }
      StartedSpec(code, lobby);
      lobby := lobby.(game := lobby.game.(active := true, bets := [], rolls := map[], timer := BettingWindow));
      AllOkUpdate(lobbies, code, lobby);
      lobbies := lobbies[code := lobby];
      started := true;
    }

    /**
     * One run of the interval callback of a countdown started by `conn`. It reads the
     * connection's `currentLobby` at the time of the tick. A missing lobby stops the countdown;
     * otherwise the timer drops by one and, once it is `<= 0`, the round is resolved and the
     * countdown stops. `draws` are the dice for that resolution.
     */
    method Tick(conn: Id, draws: seq<int>) returns (running: bool)
      requires Valid() && conn in current
      requires current[conn] in lobbies ==> DiceFor(lobbies[current[conn]].game.bets, draws)
      modifies this
      ensures Valid() && current == old(current)
      ensures var code := old(current)[conn];
        && (code !in old(lobbies) ==> !running && lobbies == old(lobbies))
        && (code in old(lobbies) ==>
              && lobbies == old(lobbies)[code := Ticked(old(lobbies)[code], draws)]
              && (running <==> old(lobbies)[code].game.timer - 1 > 0))
    {
      var code := current[conn];
      if code !in lobbies {
        return false;
      }
      var lobby := lobbies[code];
      AllOkUpdate(lobbies, code, Decremented(lobby));
      lobbies := lobbies[code := lobby.(game := lobby.game.(timer := lobby.game.timer - 1))];
      running := true;
      if lobbies[code].game.timer <= 0 {
        running := false;
        ResolveDiceRound(code, draws);
      }
    }

    /**
     * A countdown bound to the lobby its round was started in, acting only while that round
     * runs: a tick stops once the lobby is gone or its round is over. Only that lobby changes.
     */
    method TickLobby(code: Code, draws: seq<int>) returns (running: bool)
      requires Valid()
      requires code in lobbies ==> DiceFor(lobbies[code].game.bets, draws)
      modifies this
      ensures Valid() && current == old(current)
      ensures code !in old(lobbies) ==> !running && lobbies == old(lobbies)
      ensures code in old(lobbies) ==>
        && lobbies == old(lobbies)[code := PinnedTicked(old(lobbies)[code], draws)]
        && (running <==> old(lobbies)[code].game.active && old(lobbies)[code].game.timer - 1 > 0)
    {
      if code !in lobbies || !lobbies[code].game.active {
        return false;
      }
      var lobby := lobbies[code];
      AllOkUpdate(lobbies, code, Decremented(lobby));
      lobbies := lobbies[code := Decremented(lobby)];
      running := lobbies[code].game.timer > 0;
      if !running {
        ResolveDiceRound(code, draws);
      }
    }

    /**
     * `placeBet`: accepted exactly when the caller has a live lobby whose round is active,
     * the caller is one of its players, the amount is positive and covered by the balance,
     * and the caller has no bet yet; then the balance is debited and the bet recorded.
     * A rejected bet changes nothing.
     */
    method PlaceBet(conn: Id, amount: int) returns (accepted: bool)
      requires Valid()
      modifies this
      ensures Valid() && current == old(current)
      ensures accepted <==> old(LobbyOf(conn)).Some? && CanBet(old(lobbies)[old(LobbyOf(conn)).value], conn, amount)
      ensures accepted ==>
        var code := old(LobbyOf(conn)).value;
        lobbies == old(lobbies)[code := WithBet(old(lobbies)[code], conn, amount)]
      ensures !accepted ==> lobbies == old(lobbies)
    {
      var found := LobbyOf(conn);
      if found.None? {
        return false;
      }
      var code := found.value;
      var lobby := lobbies[code];
      if !lobby.game.active {
        return false;
      }
      var player := Find(lobby.players, conn);
      if player.Some? && amount > 0 && lobby.players[player.value].balance >= amount
         && conn !in BetIds(lobby.game.bets)
      {
        var i := player.value;
        BetKeepsInvariant(code, lobby, conn, amount);
        var debited := lobby.players[i := lobby.players[i].(balance := lobby.players[i].balance - amount)];
        assert debited == Adjust(lobby.players, conn, -amount);
        var next := lobby.(players := debited, game := lobby.game.(bets := lobby.game.bets + [Bet(conn, amount)]));
        assert next == WithBet(lobby, conn, amount);
        AllOkUpdate(lobbies, code, next);
        lobbies := lobbies[code := next];
        accepted := true;
      } else {
        accepted := false;
      }
    }

    /**
     * `disconnect`: every player record of the connection leaves its lobby, the others stay
     * in order; a lobby left with no player is deleted. Bets are not touched, and the
     * connection's `currentLobby` is kept because a countdown it started still reads it.
     */
    method Disconnect(conn: Id)
      requires Valid()
      modifies this
      ensures Valid() && current == old(current)
      ensures old(LobbyOf(conn)).None? ==> lobbies == old(lobbies)
      ensures old(LobbyOf(conn)).Some? ==>
        var code := old(LobbyOf(conn)).value;
        var rest := Remove(old(lobbies)[code].players, conn);
        && (rest != [] ==> lobbies == old(lobbies)[code := Left(old(lobbies)[code], conn)])
        && (rest == [] ==> lobbies == old(lobbies) - {code})
    {
      var found := LobbyOf(conn);
      if found.None? {
        return;
      }
      var code := found.value;
      var lobby := lobbies[code];
      var rest := Remove(lobby.players, conn);
      if |rest| > 0 {
        LeftSpec(code, lobby, conn);
        AllOkUpdate(lobbies, code, Left(lobby, conn));
        lobbies := lobbies[code := lobby.(players := rest)];
      } else {
        AllOkUpdate(lobbies, code, lobby);
        lobbies := lobbies - {code};
      }
    }

    /**
     * `resolveDiceRound`: sums the pot and rolls one die per bettor in bet order, then pays
     * the single top roller the whole pot or each of `k` tied top rollers `pot / k`, skipping
     * those no longer in the lobby, and ends the round.
     */
    method ResolveDiceRound(code: Code, draws: seq<int>)
      requires Valid()
      requires code in lobbies ==> DiceFor(lobbies[code].game.bets, draws)
      modifies this
      ensures Valid() && current == old(current)
      ensures code !in old(lobbies) ==> lobbies == old(lobbies)
      ensures code in old(lobbies) ==> lobbies == old(lobbies)[code := Resolved(old(lobbies)[code], draws)]
    {
      if code !in lobbies {
        return;
      }
      var lobby := lobbies[code];
      var totalPot, playersInRound, rolls := RollDice(lobby.game.bets, lobby.game.rolls, draws);
      var players := PayWinners(lobby.players, playersInRound, totalPot);
      ResolvedKeepsInvariant(code, lobby, draws);
      AllOkUpdate(lobbies, code, Resolved(lobby, draws));
      lobbies := lobbies[code := lobby.(players := players, game := lobby.game.(rolls := rolls, active := false))];
    }
  }
}

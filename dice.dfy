/** Resolution of a betting round: the pot, one die per bettor, the highest roll and the payout. */
module Dice {
  import opened Wrappers
  import opened Players

  /** One entry of `game.bets`: the bettor's id and the amount staked. */
  datatype Bet = Bet(id: Id, amount: int)

  /** One entry of `playersInRound`: a bettor's id and the die it rolled. */
  datatype Roll = Roll(id: Id, roll: int)

  const Faces: int := 6

  function BetIds(bets: seq<Bet>): seq<Id> {
    seq(|bets|, i requires 0 <= i < |bets| => bets[i].id)
  }

  function RollIds(round: seq<Roll>): seq<Id> {
    seq(|round|, i requires 0 <= i < |round| => round[i].id)
  }

  /** Every recorded stake is a positive amount. */
  predicate Positive(bets: seq<Bet>) {
    forall i :: 0 <= i < |bets| ==> bets[i].amount > 0
  }

  /** `totalPot`: the sum of all stakes, accumulated in insertion order. */
  function Pot(bets: seq<Bet>): int {
    if bets == [] then 0 else Pot(bets[..|bets| - 1]) + bets[|bets| - 1].amount
  }

  /** With positive stakes the pot is never negative, and it is empty only without bets. */
  lemma {:induction false} PotPositive(bets: seq<Bet>)
    requires Positive(bets)
    ensures Pot(bets) >= 0
    ensures Pot(bets) == 0 <==> bets == []
  {
    if bets != [] {
      PotPositive(bets[..|bets| - 1]);
    }
  }

  predicate IsDie(d: int) {
    1 <= d <= Faces
  }

  /** The draws of `Math.floor(Math.random() * 6) + 1`, one per bettor in iteration order. */
  predicate DiceFor(bets: seq<Bet>, draws: seq<int>) {
    |draws| == |bets| && forall i :: 0 <= i < |draws| ==> IsDie(draws[i])
  }

  /** `playersInRound`: each bettor paired with its draw. */
  function Entries(bets: seq<Bet>, draws: seq<int>): seq<Roll>
    requires |draws| == |bets|
  {
    seq(|bets|, i requires 0 <= i < |bets| => Roll(bets[i].id, draws[i]))
  }

  lemma EntriesIds(bets: seq<Bet>, draws: seq<int>)
    requires |draws| == |bets|
    ensures RollIds(Entries(bets, draws)) == BetIds(bets)
  {
  }

  /** `rolls[playerId] = roll` for each entry of the round, in order. */
  function Record(rolls: map<Id, int>, round: seq<Roll>): map<Id, int> {
    if round == [] then rolls
    else
      var n := |round| - 1;
      Record(rolls, round[..n])[round[n].id := round[n].roll]
  }

  /** Recording adds exactly the round's ids as keys. */
  lemma {:induction false} RecordKeys(rolls: map<Id, int>, round: seq<Roll>)
    ensures forall id :: id in Record(rolls, round) <==> id in rolls || id in RollIds(round)
  {
    if round != [] {
      var n := |round| - 1;
      RecordKeys(rolls, round[..n]);
      assert RollIds(round) == RollIds(round[..n]) + [round[n].id];
    }
  }

  /** Recording leaves the entries of ids outside the round as they were. */
  lemma {:induction false} RecordKeeps(rolls: map<Id, int>, round: seq<Roll>, id: Id)
    requires id in rolls && id !in RollIds(round)
    ensures id in Record(rolls, round) && Record(rolls, round)[id] == rolls[id]
  {
    if round != [] {
      var n := |round| - 1;
      assert RollIds(round) == RollIds(round[..n]) + [round[n].id];
      RecordKeeps(rolls, round[..n], id);
    }
  }

  /** With distinct ids, recording gives the entry at `i` its own roll. */
  lemma {:induction false} RecordAt(rolls: map<Id, int>, round: seq<Roll>, i: nat)
    requires Distinct(RollIds(round)) && i < |round|
    ensures round[i].id in Record(rolls, round) && Record(rolls, round)[round[i].id] == round[i].roll
  {
    var n := |round| - 1;
    if i < n {
      var prefix := round[..n];
      assert RollIds(prefix) == RollIds(round)[..n];
      assert prefix[i] == round[i];
      RecordAt(rolls, prefix, i);
      DistinctLast(round);
    }
  }

  /**
   * Recording gives every bettor its own roll and keeps the entries of the map that belong
   * to nobody in the round.
   */
  lemma RecordSpec(rolls: map<Id, int>, round: seq<Roll>)
    requires Distinct(RollIds(round))
    ensures forall id :: id in Record(rolls, round) <==> id in rolls || id in RollIds(round)
    ensures forall i :: 0 <= i < |round| ==>
      round[i].id in Record(rolls, round) && Record(rolls, round)[round[i].id] == round[i].roll
    ensures forall id :: id in rolls && id !in RollIds(round) ==> Record(rolls, round)[id] == rolls[id]
  {
    RecordKeys(rolls, round);
    forall i | 0 <= i < |round|
      ensures round[i].id in Record(rolls, round) && Record(rolls, round)[round[i].id] == round[i].roll
    {
      RecordAt(rolls, round, i);
    }
    forall id | id in rolls && id !in RollIds(round)
      ensures Record(rolls, round)[id] == rolls[id]
    {
      RecordKeeps(rolls, round, id);
    }
  }

  /** In a round with distinct ids, no earlier entry shares the last entry's id. */
  lemma DistinctLast(round: seq<Roll>)
    requires round != [] && Distinct(RollIds(round))
    ensures forall i :: 0 <= i < |round| - 1 ==> round[i].id != round[|round| - 1].id
  {
    var n := |round| - 1;
    forall i | 0 <= i < n
      ensures round[i].id != round[n].id
    {
      assert RollIds(round)[i] == round[i].id;
      assert RollIds(round)[n] == round[n].id;
    }
  }

  /** `highestRoll`: the largest die of a non-empty round, and one that was rolled. */
  function Highest(round: seq<Roll>): (h: int)
    requires round != []
    ensures forall i :: 0 <= i < |round| ==> round[i].roll <= h
    ensures exists i :: 0 <= i < |round| && round[i].roll == h
  {
    var n := |round| - 1;
    if n == 0 then round[0].roll
    else
      var m := Highest(round[..n]);
      assert forall i :: 0 <= i < n ==> round[..n][i] == round[i];
      if round[n].roll > m then round[n].roll else m
  }

  /** `winners`: the ids whose roll equals `h`, in round order. */
  function Winners(round: seq<Roll>, h: int): (ws: seq<Id>)
    ensures forall w :: w in ws <==> exists i :: 0 <= i < |round| && round[i].id == w && round[i].roll == h
  {
    if round == [] then []
    else
      var n := |round| - 1;
      assert forall i :: 0 <= i < n ==> round[..n][i] == round[i];
      Winners(round[..n], h) + (if round[n].roll == h then [round[n].id] else [])
  }

  /** Distinct bettors give distinct winners. */
  lemma {:induction false} WinnersDistinct(round: seq<Roll>, h: int)
    requires Distinct(RollIds(round))
    ensures Distinct(Winners(round, h))
  {
    if round != [] {
      var n := |round| - 1;
      assert RollIds(round[..n]) == RollIds(round)[..n];
      WinnersDistinct(round[..n], h);
      DistinctLast(round);
      assert forall i :: 0 <= i < n ==> round[..n][i] == round[i];
      if round[n].roll == h {
        DistinctSnoc(Winners(round[..n], h), round[n].id);
      }
    }
  }

  /** The highest roll of a round is held by somebody. */
  lemma HighestHeld(round: seq<Roll>)
    requires round != []
    ensures Winners(round, Highest(round)) != []
  {
    var i :| 0 <= i < |round| && round[i].roll == Highest(round);
    assert round[i].id in Winners(round, Highest(round));
  }

  /** The tied holders of the highest roll: at least one in a round with bets, none without. */
  function Top(round: seq<Roll>): (ws: seq<Id>)
    ensures ws == [] <==> round == []
  {
    if round == [] then [] else HighestHeld(round); Winners(round, Highest(round))
  }

  /**
   * `resolveDiceRound`'s crediting: nothing without bets; a single winner gets the whole
   * pot; `k` tied winners get `floor(pot / k)` each. Absent winners are skipped by `Adjust`.
   */
  function Payout(ps: seq<Player>, round: seq<Roll>, pot: int): (r: seq<Player>)
    ensures |r| == |ps| && Ids(r) == Ids(ps)
  {
    if round == [] then ps
    else
      var ws := Top(round);
      if |ws| > 1 then CreditAll(ps, ws, pot / |ws|) else Adjust(ps, ws[0], pot)
  }

  /**
   * Per player: the first record of each top roller gains `pot / k`, where `k` is the number
   * of top rollers (the whole pot when `k == 1`); every other record keeps its balance.
   */
  lemma PayoutAt(ps: seq<Player>, round: seq<Roll>, pot: int)
    requires Distinct(RollIds(round))
    ensures forall j :: 0 <= j < |ps| ==> Payout(ps, round, pot)[j].name == ps[j].name
    ensures forall j :: 0 <= j < |ps| ==>
      Payout(ps, round, pot)[j].balance
        == ps[j].balance + (if ps[j].id in Top(round) && Find(ps, ps[j].id) == Some(j)
                            then pot / |Top(round)| else 0)
  {
    if round != [] {
      var ws := Top(round);
      WinnersDistinct(round, Highest(round));
      if |ws| > 1 {
        CreditAllAt(ps, ws, pot / |ws|);
      } else {
        SingleAt(ps, ws, pot);
      }
    }
  }

  /** With one listed id, "first record of a listed id" is "the record `find` returns for it". */
  lemma SingleAt(ps: seq<Player>, ws: seq<Id>, pot: int)
    requires |ws| == 1
    ensures forall j :: 0 <= j < |ps| ==>
      Adjust(ps, ws[0], pot)[j].balance
        == ps[j].balance + (if ps[j].id in ws && Find(ps, ps[j].id) == Some(j) then pot / |ws| else 0)
  {
    var w := ws[0];
    assert ws == [w];
    forall j | 0 <= j < |ps|
      ensures Find(ps, w) == Some(j) <==> ps[j].id in ws && Find(ps, ps[j].id) == Some(j)
    {
      if Find(ps, w) == Some(j) {
        assert Ids(ps)[j] == ps[j].id;
      }
    }
  }

  /** Crediting a non-negative prize keeps every balance non-negative and every name. */
  lemma PayoutKeeps(ps: seq<Player>, round: seq<Roll>, pot: int)
    requires Distinct(RollIds(round)) && pot >= 0 && NonNegative(ps)
    ensures NonNegative(Payout(ps, round, pot))
    ensures forall j :: 0 <= j < |ps| ==> Payout(ps, round, pot)[j].name == ps[j].name
  {
    PayoutAt(ps, round, pot);
    var r := Payout(ps, round, pot);
    if round != [] {
      var k := |Top(round)|;
      assert pot / k >= 0;
    }
    forall j | 0 <= j < |ps|
      ensures r[j].balance >= 0
    {
      if ps[j].id in Top(round) && Find(ps, ps[j].id) == Some(j) {
        assert r[j].balance == ps[j].balance + pot / |Top(round)|;
      } else {
        assert r[j].balance == ps[j].balance;
      }
    }
  }

  /** A single winner who is still present gains the whole pot; an absent one changes nothing. */
  lemma PayoutSingle(ps: seq<Player>, round: seq<Roll>, pot: int)
    requires Distinct(RollIds(round)) && |Top(round)| == 1
    ensures forall j :: 0 <= j < |ps| ==>
      Payout(ps, round, pot)[j].balance
        == ps[j].balance + (if Find(ps, Top(round)[0]) == Some(j) then pot else 0)
    ensures Top(round)[0] !in Ids(ps) ==> Payout(ps, round, pot) == ps
  {
    assert Payout(ps, round, pot) == Adjust(ps, Top(round)[0], pot);
  }

  /**
   * Conservation: resolution credits `floor(pot / k)` per present winner, so at most the pot,
   * and exactly `pot - pot mod k` when every top roller is still present.
   */
  lemma PayoutTotal(ps: seq<Player>, round: seq<Roll>, pot: int)
    requires Distinct(RollIds(round)) && pot >= 0
    ensures round == [] ==> Total(Payout(ps, round, pot)) == Total(ps)
    ensures Total(Payout(ps, round, pot)) <= Total(ps) + pot
    ensures round != [] && (forall w :: w in Top(round) ==> w in Ids(ps)) ==>
      Total(Payout(ps, round, pot)) == Total(ps) + pot - pot % |Top(round)|
  {
    if round != [] {
      var ws := Top(round);
      var k := |ws|;
      if k > 1 {
        CreditAllTotal(ps, ws, pot / k);
        PresentAll(ps, ws);
        DivBound(pot, k, Present(ps, ws));
      } else {
        TotalAdjust(ps, ws[0], pot);
        assert ws[0] in ws;
      }
    }
  }

  /** Every listed id that is present counts once. */
  lemma {:induction false} PresentAll(ps: seq<Player>, ws: seq<Id>)
    ensures (forall w :: w in ws ==> w in Ids(ps)) ==> Present(ps, ws) == |ws|
  {
    if ws != [] {
      var n := |ws| - 1;
      assert forall w :: w in ws[..n] ==> w in ws;
      PresentAll(ps, ws[..n]);
    }
  }

  lemma DivBound(pot: int, k: int, m: nat)
    requires pot >= 0 && k > 0 && m <= k
    ensures (pot / k) * m <= pot
    ensures m == k ==> (pot / k) * m == pot - pot % k
  {
    assert (pot / k) * m <= (pot / k) * k;
  }

  /**
   * The `for-in` loop of `resolveDiceRound`: in bet order, add each stake to `totalPot`,
   * give the bettor its draw in `rolls` and append it to `playersInRound`.
   */
  method RollDice(bets: seq<Bet>, rolls: map<Id, int>, draws: seq<int>)
    returns (totalPot: int, playersInRound: seq<Roll>, rolled: map<Id, int>)
    requires |draws| == |bets|
    ensures totalPot == Pot(bets)
    ensures playersInRound == Entries(bets, draws)
    ensures rolled == Record(rolls, playersInRound)
  {
    totalPot, playersInRound, rolled := 0, [], rolls;
    for i := 0 to |bets|
      invariant totalPot == Pot(bets[..i])
      invariant playersInRound == Entries(bets[..i], draws[..i])
      invariant rolled == Record(rolls, playersInRound)
    {
      assert bets[..i + 1][..i] == bets[..i];
      totalPot := totalPot + bets[i].amount;
      var roll := draws[i];
      rolled := rolled[bets[i].id := roll];
      playersInRound := playersInRound + [Roll(bets[i].id, roll)];
    }
    assert bets[..|bets|] == bets && draws[..|draws|] == draws;
  }

  /** The `forEach` over tied winners: each one found among the players gains `prize`. */
  method CreditEach(players: seq<Player>, winners: seq<Id>, prize: int) returns (paid: seq<Player>)
    ensures paid == CreditAll(players, winners, prize)
  {
    paid := players;
    for j := 0 to |winners|
      invariant paid == CreditAll(players, winners[..j], prize)
    {
      ghost var before := paid;
      var winner := Find(paid, winners[j]);
      if winner.Some? {
        var k := winner.value;
        paid := paid[k := paid[k].(balance := paid[k].balance + prize)];
      }
      assert paid == Adjust(before, winners[j], prize);
      assert winners[..j + 1][..j] == winners[..j];
    }
    assert winners[..|winners|] == winners;
  }

  /**
   * The crediting part of `resolveDiceRound`: the top rollers are found; with a tie each one
   * still present gets `totalPot / k`, otherwise the single one gets `totalPot`.
   */
  method PayWinners(players: seq<Player>, playersInRound: seq<Roll>, totalPot: int)
    returns (paid: seq<Player>)
    ensures paid == Payout(players, playersInRound, totalPot)
  {
    paid := players;
    if |playersInRound| > 0 {
      var highestRoll := Highest(playersInRound);
      var winners := Winners(playersInRound, highestRoll);
      HighestHeld(playersInRound);
      if |winners| > 1 {
        paid := CreditEach(players, winners, totalPot / |winners|);
      } else {
        var winner := Find(paid, winners[0]);
        if winner.Some? {
          var k := winner.value;
          paid := paid[k := paid[k].(balance := paid[k].balance + totalPot)];
        }
        assert paid == Adjust(players, winners[0], totalPot);
      }
    }
  }
}

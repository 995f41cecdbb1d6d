/**
 * Event sequences run through the handlers of `Registry.Server`, with the dice fixed.
 */
module Scenarios {
  import opened Wrappers
  import opened Text
  import opened Players
  import opened Dice
  import opened Lobbies
  import opened Registry

  lemma UpperL2()
    ensures ToUpper("l2") == "L2" && ToUpper("l1") == "L1"
  {
    assert ToUpper("l2")[0] == 'L' && ToUpper("l2")[1] == '2';
    assert ToUpper("l1")[0] == 'L' && ToUpper("l1")[1] == '1';
  }

  lemma TrimNames()
    ensures Trim("Ann") == "Ann" && Trim("Bob") == "Bob"
  {
    assert Trimmed("Ann") by { assert "Ann"[0] == 'A' && "Ann"[2] == 'n'; }
    assert Trimmed("Bob") by { assert "Bob"[0] == 'B' && "Bob"[2] == 'b'; }
    TrimFixed("Ann");
    TrimFixed("Bob");
  }

  /** A round with one bettor: that bettor holds the top roll alone. */
  lemma OneRoller(r: Roll)
    ensures Highest([r]) == r.roll && Top([r]) == [r.id]
  {
    assert Winners([r], r.roll) == Winners([], r.roll) + [r.id];
  }

  /** A tick on L2 once Ann has joined it: its finished round is resolved a second time. */
  lemma SecondResolution()
    ensures |Joined(BobDone(), "a", "Ann").game.bets| == 1
    ensures Ticked(Joined(BobDone(), "a", "Ann"), [4])
      == Lobby([Player("b", "Bob", 1100), Player("a", "Ann", 1000)], Game(false, [Bet("b", 100)], map["b" := 4], -1), "L2")
  {
    var ps := [Player("b", "Bob", 1000), Player("a", "Ann", 1000)];
    assert Joined(BobDone(), "a", "Ann").players == ps;
    OneRoller(Roll("b", 4));
    assert Entries([Bet("b", 100)], [4]) == [Roll("b", 4)];
    assert Pot([Bet("b", 100)]) == 100;
    assert Find(ps, "b") == Some(0);
    assert Payout(ps, [Roll("b", 4)], 100) == [Player("b", "Bob", 1100), Player("a", "Ann", 1000)];
    assert Record(map["b" := 4], [Roll("b", 4)]) == map["b" := 4];
  }

  /** Bob's lobby L2 once his round is over: he won his own stake back, the timer is at zero. */
  function BobDone(): Lobby {
    Lobby([Player("b", "Bob", 1000)], Game(false, [Bet("b", 100)], map["b" := 4], 0), "L2")
  }

  /** Bob's lobby L2 with his bet of 100 placed and `timer` seconds to go. */
  function BobBetting(timer: int): Lobby {
    Lobby([Player("b", "Bob", 900)], Game(true, [Bet("b", 100)], map[], timer), "L2")
  }

  /** Bob's round freshly started, before his bet. */
  function BobStarted(): Lobby {
    Lobby([Player("b", "Bob", 1000)], Game(true, [], map[], 15), "L2")
  }

  /** Bob may bet 100 in his fresh round, and the bet debits him to 900. */
  lemma BobBetLands()
    ensures CanBet(BobStarted(), "b", 100) && WithBet(BobStarted(), "b", 100) == BobBetting(15)
  {
    var ps := [Player("b", "Bob", 1000)];
    assert Ids(ps) == ["b"];
    assert Find(ps, "b") == Some(0);
    assert BetIds([]) == [];
    assert Adjust(ps, "b", -100) == [Player("b", "Bob", 900)];
    assert [] + [Bet("b", 100)] == [Bet("b", 100)];
  }

  /** The fifteenth tick of Bob's round resolves it; Bob, the only bettor, rolls 4 and wins. */
  lemma BobResolves()
    ensures Ticked(BobBetting(1), [4]) == BobDone()
  {
    var round := [Roll("b", 4)];
    assert Entries([Bet("b", 100)], [4]) == round;
    assert Pot([Bet("b", 100)]) == 100;
    OneRoller(Roll("b", 4));
    assert Find([Player("b", "Bob", 900)], "b") == Some(0);
    assert Payout([Player("b", "Bob", 900)], round, 100) == [Player("b", "Bob", 1000)];
    assert Record(map[], round) == map["b" := 4];
  }

  /** Bob creates lobby L2. */
  method BobCreates(s: Server)
    requires s.Valid() && s.lobbies == map[] && s.current == map[]
    modifies s
    ensures s.Valid() && s.current == map["b" := "L2"]
    ensures s.lobbies == map["L2" := Lobby([Player("b", "Bob", 1000)], Game(false, [], map[], 0), "L2")]
  {
    UpperL2();
    TrimNames();
    var r := s.CreateLobby("b", "Bob", "l2");
    assert Trim("Bob") != [];
    assert s.lobbies == map[ToUpper("l2") := Lobby([Player("b", Trim("Bob"), 1000)], Game(false, [], map[], 0), ToUpper("l2"))];
    assert s.lobbies == map["L2" := Lobby([Player("b", "Bob", 1000)], Game(false, [], map[], 0), "L2")];
  }

  /** Bob starts a round in L2 and bets 100. */
  method BobBets(s: Server)
    requires s.Valid() && s.current == map["b" := "L2"]
    requires s.lobbies == map["L2" := Lobby([Player("b", "Bob", 1000)], Game(false, [], map[], 0), "L2")]
    modifies s
    ensures s.Valid() && s.current == map["b" := "L2"] && s.lobbies == map["L2" := BobBetting(15)]
  {
    assert s.LobbyOf("b") == Some("L2");
    var started := s.StartGame("b");
    assert s.lobbies == map["L2" := BobStarted()];
    BobBetLands();
    var accepted := s.PlaceBet("b", 100);
  }

  /** Bob's countdown runs its fifteen ticks; the last one resolves the round. */
  method BobCountsDown(s: Server)
    requires s.Valid() && s.current == map["b" := "L2"] && s.lobbies == map["L2" := BobBetting(15)]
    modifies s
    ensures s.Valid() && s.current == map["b" := "L2"] && s.lobbies == map["L2" := BobDone()]
  {
    var i := 0;
    while i < 14
      invariant 0 <= i <= 14 && s.Valid() && s.current == map["b" := "L2"]
      invariant s.lobbies == map["L2" := BobBetting(15 - i)]
    {
      var running := s.Tick("b", [4]);
      i := i + 1;
    }
    BobResolves();
    var running := s.Tick("b", [4]);
  }

  /** Bob plays a round alone in a new lobby L2 and wins his stake back. */
  method BobRound(s: Server)
    requires s.Valid() && s.lobbies == map[] && s.current == map[]
    modifies s
    ensures s.Valid() && s.current == map["b" := "L2"] && s.lobbies == map["L2" := BobDone()]
  {
    BobCreates(s);
    BobBets(s);
    BobCountsDown(s);
  }

  /** Ann's lobby L1 with the round she started. */
  function AnnStarted(): Lobby {
    Lobby([Player("a", "Ann", 1000)], Game(true, [], map[], 15), "L1")
  }

  /** Ann creates lobby L1 and starts a round there. */
  method AnnStarts(s: Server)
    requires s.Valid() && "L1" !in s.lobbies
    modifies s
    ensures s.Valid() && s.current == old(s.current)["a" := "L1"]
    ensures s.lobbies == old(s.lobbies)["L1" := AnnStarted()]
  {
    UpperL2();
    TrimNames();
    var r := s.CreateLobby("a", "Ann", "l1");
    assert Trim("Ann") != [];
    assert s.lobbies == old(s.lobbies)[ToUpper("l1") := Lobby([Player("a", Trim("Ann"), 1000)], Game(false, [], map[], 0), ToUpper("l1"))];
    assert s.lobbies == old(s.lobbies)["L1" := Lobby([Player("a", "Ann", 1000)], Game(false, [], map[], 0), "L1")];
    assert s.current == old(s.current)["a" := "L1"];
    assert s.LobbyOf("a") == Some("L1");
    ghost var before := s.lobbies;
    var started := s.StartGame("a");
    assert started;
    assert s.lobbies == before["L1" := Started(before["L1"])];
    assert Started(before["L1"]) == AnnStarted();
  }

  /** Ann joins lobby L2 while her own round runs. */
  method AnnJoins(s: Server)
    requires s.Valid() && "L2" in s.lobbies
    modifies s
    ensures s.Valid() && s.current == old(s.current)["a" := "L2"]
    ensures s.lobbies == old(s.lobbies)["L2" := Joined(old(s.lobbies)["L2"], "a", "Ann")]
  {
    UpperL2();
    TrimNames();
    var r := s.JoinLobby("a", "l2", "Ann");
    assert Trim("Ann") != [] && ToUpper("l2") in old(s.lobbies);
    assert s.lobbies == old(s.lobbies)[ToUpper("l2") := Joined(old(s.lobbies)[ToUpper("l2")], "a", Trim("Ann"))];
    assert s.current == old(s.current)["a" := ToUpper("l2")];
  }

  /**
   * The events both countdown scenarios share: Bob plays a round alone in L2 and wins his
   * stake back; Ann creates L1, starts a round there and, while it runs, joins L2.
   */
  method Setup() returns (s: Server)
    ensures fresh(s) && s.Valid() && "a" in s.current && s.current["a"] == "L2"
    ensures s.lobbies == map["L2" := Joined(BobDone(), "a", "Ann"), "L1" := AnnStarted()]
  {
    s := new Server();
    BobRound(s);
    assert "L1" != "L2" by { assert "L1"[1] != "L2"[1]; }
    AnnStarts(s);
    AnnJoins(s);
  }

  /** Money in L2 before and after the stray tick. */
  lemma StrayLedger()
    ensures Ledger(BobDone()) == 1000
    ensures Ledger(Ticked(Joined(BobDone(), "a", "Ann"), [4])) == 2100
  {
    SecondResolution();
    assert Total([Player("b", "Bob", 1100), Player("a", "Ann", 1000)])
      == Total([Player("b", "Bob", 1100)]) + 1000;
  }

  /**
   * A countdown follows its starter's current lobby. After the events of `Setup`, the next tick of
   * Ann's countdown lands on L2, whose round is over with the timer at zero, and resolves it a
   * second time (`SecondResolution`): Bob is paid the old pot again, money no bet put in
   * (`StrayLedger`), while L1's round stays active with its full countdown and, never resolved,
   * cannot be started again.
   */
  method StrayCountdown() returns (first: Lobby, second: Lobby)
    ensures first == AnnStarted() && first.game.active && first.game.timer == BettingWindow
    ensures second == Ticked(Joined(BobDone(), "a", "Ann"), [4])
    ensures second.players == [Player("b", "Bob", 1100), Player("a", "Ann", 1000)]
    ensures Ledger(second) == Ledger(Joined(BobDone(), "a", "Ann")) + 100
  {
    var s := Setup();
    SecondResolution();
    var running := s.Tick("a", [4]);
    first, second := s.lobbies["L1"], s.lobbies["L2"];
    StrayLedger();
    PinnedLedger();
  }

  /** Money in L2 once Ann has joined it: Bob's balance and Ann's starting balance. */
  lemma PinnedLedger()
    ensures Ledger(BobDone()) == 1000
    ensures Ledger(Joined(BobDone(), "a", "Ann")) == 2000
  {
    assert Joined(BobDone(), "a", "Ann").players == [Player("b", "Bob", 1000)] + [Player("a", "Ann", 1000)];
  }

  /**
   * The same events with the countdown bound to the lobby it was started in: Ann's tick
   * takes L1's timer to 14 and leaves L2, and the money in it, as they were.
   */
  method PinnedCountdown() returns (first: Lobby, second: Lobby)
    ensures first == AnnStarted().(game := AnnStarted().game.(timer := BettingWindow - 1))
    ensures second == Joined(BobDone(), "a", "Ann") && Ledger(second) == Ledger(BobDone()) + StartingBalance
  {
    var s := Setup();
    assert "L1" != "L2" by { assert "L1"[1] != "L2"[1]; }
    assert PinnedTicked(AnnStarted(), []) == AnnStarted().(game := AnnStarted().game.(timer := 14));
    var running := s.TickLobby("L1", []);
    first, second := s.lobbies["L1"], s.lobbies["L2"];
    PinnedLedger();
  }

  function TieBets(): seq<Bet> {
    [Bet("a", 34), Bet("b", 33), Bet("c", 33)]
  }

  function TiePlayers(): seq<Player> {
    [Player("a", "Ann", 966), Player("b", "Bob", 967), Player("c", "Cid", 967)]
  }

  function TiePaid(): seq<Player> {
    [Player("a", "Ann", 999), Player("b", "Bob", 1000), Player("c", "Cid", 1000)]
  }

  lemma TiePot()
    ensures Pot(TieBets()) == 100
  {
    var bets := TieBets();
    assert bets[..2][..1] == [Bet("a", 34)];
    assert bets[..2] == [Bet("a", 34), Bet("b", 33)];
    assert Pot([Bet("a", 34)]) == 34;
    assert Pot(bets[..2]) == 67;
  }

  lemma TieTop()
    ensures Entries(TieBets(), [4, 4, 4]) == [Roll("a", 4), Roll("b", 4), Roll("c", 4)]
    ensures Top([Roll("a", 4), Roll("b", 4), Roll("c", 4)]) == ["a", "b", "c"]
  {
    var round := [Roll("a", 4), Roll("b", 4), Roll("c", 4)];
    assert round[..2][..1] == [Roll("a", 4)];
    assert round[..2] == [Roll("a", 4), Roll("b", 4)];
    assert Highest(round) == 4;
    assert Winners([Roll("a", 4)], 4) == ["a"];
    assert Winners(round[..2], 4) == ["a", "b"];
  }

  lemma TieCreditA()
    ensures CreditAll(TiePlayers(), ["a"], 33)
      == [Player("a", "Ann", 999), Player("b", "Bob", 967), Player("c", "Cid", 967)]
  {
    var ws: seq<Id> := ["a"];
    assert ws[..0] == [];
    assert Find(TiePlayers(), "a") == Some(0);
  }

  lemma TieCreditB()
    ensures CreditAll(TiePlayers(), ["a", "b"], 33)
      == [Player("a", "Ann", 999), Player("b", "Bob", 1000), Player("c", "Cid", 967)]
  {
    var ws: seq<Id> := ["a", "b"];
    assert ws[..1] == ["a"];
    TieCreditA();
    var p1 := [Player("a", "Ann", 999), Player("b", "Bob", 967), Player("c", "Cid", 967)];
    assert Ids(p1) == ["a", "b", "c"];
    assert Find(p1, "b") == Some(1);
  }

  lemma TieCredit()
    ensures CreditAll(TiePlayers(), ["a", "b", "c"], 33) == TiePaid()
  {
    var ws: seq<Id> := ["a", "b", "c"];
    assert ws[..2] == ["a", "b"];
    TieCreditB();
    var p2 := [Player("a", "Ann", 999), Player("b", "Bob", 1000), Player("c", "Cid", 967)];
    assert Ids(p2) == ["a", "b", "c"];
    assert Find(p2, "c") == Some(2);
  }

  lemma TieTotals()
    ensures Total(TiePlayers()) == 2900 && Total(TiePaid()) == 2999
  {
    var ps, paid := TiePlayers(), TiePaid();
    assert ps[..2][..1] == [Player("a", "Ann", 966)];
    assert ps[..2] == [Player("a", "Ann", 966), Player("b", "Bob", 967)];
    assert paid[..2][..1] == [Player("a", "Ann", 999)];
    assert paid[..2] == [Player("a", "Ann", 999), Player("b", "Bob", 1000)];
    assert Total([Player("a", "Ann", 966)]) == 966 && Total(ps[..2]) == 1933;
    assert Total([Player("a", "Ann", 999)]) == 999 && Total(paid[..2]) == 1999;
  }

  /**
   * A three-way tie: stakes of 34, 33 and 33 all roll 4, so each tied winner gets
   * `floor(100 / 3) == 33` and the remainder of 1 leaves circulation.
   */
  lemma ThreeWayTie()
    ensures var l := Lobby(TiePlayers(), Game(true, TieBets(), map[], 0), "T3");
      && Resolved(l, [4, 4, 4]).players == TiePaid()
      && Ledger(Resolved(l, [4, 4, 4])) == Ledger(l) - 1
  {
    var l := Lobby(TiePlayers(), Game(true, TieBets(), map[], 0), "T3");
    var round := [Roll("a", 4), Roll("b", 4), Roll("c", 4)];
    TiePot();
    TieTop();
    assert Entries(l.game.bets, [4, 4, 4]) == round;
    assert 100 / 3 == 33;
    assert Payout(TiePlayers(), round, 100) == CreditAll(TiePlayers(), ["a", "b", "c"], 33);
    TieCredit();
    assert Resolved(l, [4, 4, 4]).players == TiePaid();
    TieTotals();
    assert Ledger(l) == 2900 + 100;
  }

  /**
   * A bettor leaves and then holds the top roll: Ann and Bob stake 100 each, Bob disconnects,
   * Bob rolls 5 against Ann's 2. Bob's stake stays in the pot, the pot is credited to nobody
   * and the 200 leave circulation.
   */
  lemma AbsentWinner()
    ensures var l := Lobby([Player("a", "Ann", 900), Player("b", "Bob", 900)],
                           Game(true, [Bet("a", 100), Bet("b", 100)], map[], 1), "D1");
      && Left(l, "b").players == [Player("a", "Ann", 900)]
      && Left(l, "b").game.bets == l.game.bets
      && Resolved(Left(l, "b"), [2, 5]).players == [Player("a", "Ann", 900)]
      && Ledger(Left(l, "b")) == 1100 && Ledger(Resolved(Left(l, "b"), [2, 5])) == 900
  {
    var bets := [Bet("a", 100), Bet("b", 100)];
    var round := [Roll("a", 2), Roll("b", 5)];
    var ps := [Player("a", "Ann", 900), Player("b", "Bob", 900)];
    assert Remove(ps, "b") == [Player("a", "Ann", 900)] by {
      assert ps[1..] == [Player("b", "Bob", 900)];
      assert Remove(ps[1..], "b") == [] + Remove([], "b");
    }
    assert Entries(bets, [2, 5]) == round;
    assert round[..1] == [Roll("a", 2)] && bets[..1] == [Bet("a", 100)];
    assert Highest(round) == 5;
    assert Winners([Roll("a", 2)], 5) == [];
    assert Top(round) == ["b"];
    assert Pot(bets) == 200;
    PayoutSingle([Player("a", "Ann", 900)], round, 200);
    EntriesIds(bets, [2, 5]);
  }
}

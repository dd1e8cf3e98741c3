/**
 * Concrete scenarios of spec/game.test.js, stated over the model: the
 * example board of makeFakeGrid, the example programs, and the outcomes
 * the tests expect.
 */
module Fixtures {
  import opened Wrappers
  import opened Boards
  import opened Programs
  import opened Robots
  import opened Games

  /** The example grid of makeFakeGrid: column x + 8, row y + 5; holes read as absent. */
  const FakeGrid: Grid := [
    [None, None, Some(1), Some(0), Some(0), Some(1), Some(0), Some(0), None, None],
    [None, None, Some(1), Some(0), Some(2), Some(2), Some(1), Some(2), None, None],
    [None, None, Some(0), Some(1), Some(2), Some(1), Some(1), Some(2), None, None],
    [None, Some(1), Some(2), Some(1), Some(1), Some(2), Some(2), Some(2), Some(2), None],
    [None, Some(2), Some(0), Some(0), Some(1), Some(2), Some(0), Some(1), Some(0), None],
    [None, Some(0), Some(0), Some(1), Some(2), Some(2), Some(0), Some(1), Some(1), None],
    [Some(0), Some(0), Some(1), Some(0), Some(2), Some(1), Some(0), Some(2), Some(0), Some(1)],
    [Some(1), Some(0), Some(2), Some(1), Some(0), Some(2), Some(2), Some(0), Some(1), Some(1)],
    [Some(0), Some(1), Some(0), Some(0), Some(0), Some(1), Some(1), Some(2), Some(2), Some(0)],
    [None, Some(1), Some(2), Some(1), Some(2), Some(1), Some(2), Some(2), Some(0), None],
    [None, Some(0), Some(2), Some(1), Some(1), Some(1), Some(1), Some(0), Some(1), None],
    [None, Some(0), Some(0), Some(2), Some(0), Some(2), Some(1), Some(1), Some(1), None],
    [None, None, Some(1), Some(1), Some(0), Some(1), Some(2), Some(1), None, None],
    [None, None, Some(2), Some(2), Some(2), Some(2), Some(1), Some(1), None, None],
    [None, None, Some(1), Some(2), Some(2), Some(2), Some(2), Some(0), None, None]
  ]

  /** The example programs of the test "moves robots". */
  const ExampleRules: seq<Rule> := [Rule(RED, true, GREEN), Rule(GREEN, false, GREEN), Rule(BLUE, true, BLUE)]

  /** The goals of a two-player game. */
  const TwoGoals: seq<Pos> := [Pos(-1, 3), Pos(-1, -4)]

  /** The starting poses of make6. */
  const P0: seq<Pose> := [Pose(-1, 0, 0), Pose(0, 0, 1), Pose(0, -1, 2), Pose(-1, -1, 3), Pose(-2, -1, 4), Pose(-2, 0, 5)]

  /** The poses after robot 0 has moved: P0 again, since robot 0 turns away and back and ends where it started. */
  const P1: seq<Pose> := P0

  /** Robot 0 of the example round: Pose(-1, 0, 0), then Pose(-1, 0, 2) halfway, then Pose(-1, 0, 0). */
  lemma Turn0()
    ensures TakeTurn(FakeGrid, ExampleRules, TwoGoals, P0, 0) == Turned(P1, Pose(-1, 0, 2), None)
  {
    FirstHalf0();
    SecondHalf0();
    QuietTurn(FakeGrid, ExampleRules, TwoGoals, P0, 0, P0[0 := Pose(-1, 0, 2)], P1);
  }

  /** The first half-step of robot 0 in the example round. */
  lemma FirstHalf0()
    ensures StepAt(FakeGrid, ExampleRules, P0, 0) == P0[0 := Pose(-1, 0, 2)]
  {
    assert FakeGrid[7][5] == Some(2) && FakeGrid[7][6] == Some(2) && FakeGrid[8][5] == Some(1);
    assert Positions(P0)[1] == Pos(0, 0);
  }

  /** The second half-step of robot 0 in the example round. */
  lemma SecondHalf0()
    ensures StepAt(FakeGrid, ExampleRules, P0[0 := Pose(-1, 0, 2)], 0) == P1
  {
    assert FakeGrid[7][5] == Some(2) && FakeGrid[7][6] == Some(2) && FakeGrid[8][5] == Some(1);
    assert Positions(P0[0 := Pose(-1, 0, 2)])[1] == Pos(0, 0);
  }

  const P2: seq<Pose> := [Pose(-1, 0, 0), Pose(0, 0, 5), Pose(0, -1, 2), Pose(-1, -1, 3), Pose(-2, -1, 4), Pose(-2, 0, 5)]

  /** Robot 1 of the example round: Pose(0, 0, 1), then Pose(0, 0, 3) halfway, then Pose(0, 0, 5). */
  lemma Turn1()
    ensures TakeTurn(FakeGrid, ExampleRules, TwoGoals, P1, 1) == Turned(P2, Pose(0, 0, 3), None)
  {
    FirstHalf1();
    SecondHalf1();
    QuietTurn(FakeGrid, ExampleRules, TwoGoals, P1, 1, P1[1 := Pose(0, 0, 3)], P2);
  }

  /** The first half-step of robot 1 in the example round. */
  lemma FirstHalf1()
    ensures StepAt(FakeGrid, ExampleRules, P1, 1) == P1[1 := Pose(0, 0, 3)]
  {
    assert FakeGrid[7][5] == Some(2) && FakeGrid[8][4] == Some(0) && FakeGrid[8][5] == Some(1);
    assert Positions(P1)[2] == Pos(0, -1);
  }

  /** The second half-step of robot 1 in the example round. */
  lemma SecondHalf1()
    ensures StepAt(FakeGrid, ExampleRules, P1[1 := Pose(0, 0, 3)], 1) == P2
  {
    assert FakeGrid[7][5] == Some(2) && FakeGrid[8][4] == Some(0) && FakeGrid[8][5] == Some(1);
    assert Positions(P1[1 := Pose(0, 0, 3)])[0] == Pos(-1, 0);
  }

  const P3: seq<Pose> := [Pose(-1, 0, 0), Pose(0, 0, 5), Pose(2, -1, 0), Pose(-1, -1, 3), Pose(-2, -1, 4), Pose(-2, 0, 5)]

  /** Robot 2 of the example round: Pose(0, -1, 2), then Pose(1, -1, 1) halfway, then Pose(2, -1, 0). */
  lemma Turn2()
    ensures TakeTurn(FakeGrid, ExampleRules, TwoGoals, P2, 2) == Turned(P3, Pose(1, -1, 1), None)
  {
    FirstHalf2();
    SecondHalf2();
    QuietTurn(FakeGrid, ExampleRules, TwoGoals, P2, 2, P2[2 := Pose(1, -1, 1)], P3);
  }

  /** The first half-step of robot 2 in the example round. */
  lemma FirstHalf2()
    ensures StepAt(FakeGrid, ExampleRules, P2, 2) == P2[2 := Pose(1, -1, 1)]
  {
    assert FakeGrid[8][4] == Some(0) && FakeGrid[9][4] == Some(2) && FakeGrid[10][4] == Some(1);
  }

  /** The second half-step of robot 2 in the example round. */
  lemma SecondHalf2()
    ensures StepAt(FakeGrid, ExampleRules, P2[2 := Pose(1, -1, 1)], 2) == P3
  {
    assert FakeGrid[8][4] == Some(0) && FakeGrid[9][4] == Some(2) && FakeGrid[10][4] == Some(1);
  }

  /** The poses after robot 2 has moved: P3 again, since robot 2 turns away and back and ends where it started. */
  const P4: seq<Pose> := P3

  /** Robot 3 of the example round: Pose(-1, -1, 3), then Pose(-1, -1, 5) halfway, then Pose(-1, -1, 3). */
  lemma Turn3()
    ensures TakeTurn(FakeGrid, ExampleRules, TwoGoals, P3, 3) == Turned(P4, Pose(-1, -1, 5), None)
  {
    FirstHalf3();
    SecondHalf3();
    QuietTurn(FakeGrid, ExampleRules, TwoGoals, P3, 3, P3[3 := Pose(-1, -1, 5)], P4);
  }

  /** The first half-step of robot 3 in the example round. */
  lemma FirstHalf3()
    ensures StepAt(FakeGrid, ExampleRules, P3, 3) == P3[3 := Pose(-1, -1, 5)]
  {
    assert FakeGrid[6][4] == Some(2) && FakeGrid[7][3] == Some(1) && FakeGrid[7][4] == Some(0);
    assert Positions(P3)[4] == Pos(-2, -1);
  }

  /** The second half-step of robot 3 in the example round. */
  lemma SecondHalf3()
    ensures StepAt(FakeGrid, ExampleRules, P3[3 := Pose(-1, -1, 5)], 3) == P4
  {
    assert FakeGrid[6][4] == Some(2) && FakeGrid[7][3] == Some(1) && FakeGrid[7][4] == Some(0);
    assert Positions(P3[3 := Pose(-1, -1, 5)])[4] == Pos(-2, -1);
  }

  /** The poses after robot 3 has moved: P4 again, since robot 3 turns away and back and ends where it started. */
  const P5: seq<Pose> := P4

  /** Robot 4 of the example round: Pose(-2, -1, 4), then Pose(-2, -1, 0) halfway, then Pose(-2, -1, 4). */
  lemma Turn4()
    ensures TakeTurn(FakeGrid, ExampleRules, TwoGoals, P4, 4) == Turned(P5, Pose(-2, -1, 0), None)
  {
    FirstHalf4();
    SecondHalf4();
    QuietTurn(FakeGrid, ExampleRules, TwoGoals, P4, 4, P4[4 := Pose(-2, -1, 0)], P5);
  }

  /** The first half-step of robot 4 in the example round. */
  lemma FirstHalf4()
    ensures StepAt(FakeGrid, ExampleRules, P4, 4) == P4[4 := Pose(-2, -1, 0)]
  {
    assert FakeGrid[5][4] == Some(2) && FakeGrid[6][4] == Some(2) && FakeGrid[6][5] == Some(1);
    assert Positions(P4)[5] == Pos(-2, 0);
  }

  /** The second half-step of robot 4 in the example round. */
  lemma SecondHalf4()
    ensures StepAt(FakeGrid, ExampleRules, P4[4 := Pose(-2, -1, 0)], 4) == P5
  {
    assert FakeGrid[5][4] == Some(2) && FakeGrid[6][4] == Some(2) && FakeGrid[6][5] == Some(1);
    assert Positions(P4[4 := Pose(-2, -1, 0)])[5] == Pos(-2, 0);
  }

  const P6: seq<Pose> := [Pose(-1, 0, 0), Pose(0, 0, 5), Pose(2, -1, 0), Pose(-1, -1, 3), Pose(-2, -1, 4), Pose(-2, 0, 3)]

  /** Robot 5 of the example round: Pose(-2, 0, 5), then Pose(-2, 0, 1) halfway, then Pose(-2, 0, 3). */
  lemma Turn5()
    ensures TakeTurn(FakeGrid, ExampleRules, TwoGoals, P5, 5) == Turned(P6, Pose(-2, 0, 1), None)
  {
    FirstHalf5();
    SecondHalf5();
    QuietTurn(FakeGrid, ExampleRules, TwoGoals, P5, 5, P5[5 := Pose(-2, 0, 1)], P6);
  }

  /** The first half-step of robot 5 in the example round. */
  lemma FirstHalf5()
    ensures StepAt(FakeGrid, ExampleRules, P5, 5) == P5[5 := Pose(-2, 0, 1)]
  {
    assert FakeGrid[6][4] == Some(2) && FakeGrid[6][5] == Some(1) && FakeGrid[7][5] == Some(2);
    assert Positions(P5)[0] == Pos(-1, 0);
  }

  /** The second half-step of robot 5 in the example round. */
  lemma SecondHalf5()
    ensures StepAt(FakeGrid, ExampleRules, P5[5 := Pose(-2, 0, 1)], 5) == P6
  {
    assert FakeGrid[6][4] == Some(2) && FakeGrid[6][5] == Some(1) && FakeGrid[7][5] == Some(2);
    assert Positions(P5[5 := Pose(-2, 0, 1)])[4] == Pos(-2, -1);
  }

  /** The poses of the robots after their first half-steps in the example round. */
  const Halfway: seq<Pose> := [Pose(-1, 0, 2), Pose(0, 0, 3), Pose(1, -1, 1), Pose(-1, -1, 5), Pose(-2, -1, 0), Pose(-2, 0, 1)]

  /** The halfway poses of the first k robots, built up one robot at a time. */
  const H1: seq<Pose> := [Pose(-1, 0, 2)]
  const H2: seq<Pose> := H1 + [Pose(0, 0, 3)]
  const H3: seq<Pose> := H2 + [Pose(1, -1, 1)]
  const H4: seq<Pose> := H3 + [Pose(-1, -1, 5)]
  const H5: seq<Pose> := H4 + [Pose(-2, -1, 0)]
  const H6: seq<Pose> := H5 + [Pose(-2, 0, 1)]

  /**
   * The test "moves robots": from the starting poses, with the example
   * programs on the example grid, no robot wins and the robots end at
   * (-1, 0) facing 0, (0, 0) facing 5, (2, -1) facing 0, (-1, -1) facing 3,
   * (-2, -1) facing 4 and (-2, 0) facing 3.
   */
  lemma MovesRobots()
    ensures StartPoses() == P0 && AllOnBoard(FakeGrid, P0)
    ensures RoundUpTo(FakeGrid, ExampleRules, TwoGoals, P0, 6) == Round(P6, Halfway, [])
    ensures P6 == [Pose(-1, 0, 0), Pose(0, 0, 5), Pose(2, -1, 0), Pose(-1, -1, 3), Pose(-2, -1, 4), Pose(-2, 0, 3)]
  {
    MovedUpTo6();
    HalfwayBuilt();
  }

  /** The halfway poses, built one robot at a time, are the expected list. */
  lemma HalfwayBuilt()
    ensures H6 == Halfway
  {
    assert |H6| == 6;
  }

  /** The example round after robot 0 has moved. */
  lemma MovedUpTo1()
    ensures StartPoses() == P0 && AllOnBoard(FakeGrid, P0)
    ensures RoundUpTo(FakeGrid, ExampleRules, TwoGoals, P0, 1) == Round(P1, H1, [])
  {
    StartOnBoard();
    Turn0();
    RoundGoesOn(FakeGrid, ExampleRules, TwoGoals, P0, 0, P0, [], Turned(P1, Pose(-1, 0, 2), None));
  }

  /** The example round after robot 1 has moved. */
  lemma MovedUpTo2()
    ensures StartPoses() == P0 && AllOnBoard(FakeGrid, P0)
    ensures RoundUpTo(FakeGrid, ExampleRules, TwoGoals, P0, 2) == Round(P2, H2, [])
  {
    MovedUpTo1();
    Turn1();
    RoundGoesOn(FakeGrid, ExampleRules, TwoGoals, P0, 1, P1, H1, Turned(P2, Pose(0, 0, 3), None));
  }

  /** The example round after robot 2 has moved. */
  lemma MovedUpTo3()
    ensures StartPoses() == P0 && AllOnBoard(FakeGrid, P0)
    ensures RoundUpTo(FakeGrid, ExampleRules, TwoGoals, P0, 3) == Round(P3, H3, [])
  {
    MovedUpTo2();
    Turn2();
    RoundGoesOn(FakeGrid, ExampleRules, TwoGoals, P0, 2, P2, H2, Turned(P3, Pose(1, -1, 1), None));
  }

  /** The example round after robot 3 has moved. */
  lemma MovedUpTo4()
    ensures StartPoses() == P0 && AllOnBoard(FakeGrid, P0)
    ensures RoundUpTo(FakeGrid, ExampleRules, TwoGoals, P0, 4) == Round(P4, H4, [])
  {
    MovedUpTo3();
    Turn3();
    RoundGoesOn(FakeGrid, ExampleRules, TwoGoals, P0, 3, P3, H3, Turned(P4, Pose(-1, -1, 5), None));
  }

  /** The example round after robot 4 has moved. */
  lemma MovedUpTo5()
    ensures StartPoses() == P0 && AllOnBoard(FakeGrid, P0)
    ensures RoundUpTo(FakeGrid, ExampleRules, TwoGoals, P0, 5) == Round(P5, H5, [])
  {
    MovedUpTo4();
    Turn4();
    RoundGoesOn(FakeGrid, ExampleRules, TwoGoals, P0, 4, P4, H4, Turned(P5, Pose(-2, -1, 0), None));
  }

  /** The example round after robot 5 has moved. */
  lemma MovedUpTo6()
    ensures StartPoses() == P0 && AllOnBoard(FakeGrid, P0)
    ensures RoundUpTo(FakeGrid, ExampleRules, TwoGoals, P0, 6) == Round(P6, H6, [])
  {
    MovedUpTo5();
    Turn5();
    RoundGoesOn(FakeGrid, ExampleRules, TwoGoals, P0, 5, P5, H5, Turned(P6, Pose(-2, 0, 1), None));
  }

  /** The starting poses lie on the example grid. */
  lemma StartOnBoard()
    ensures StartPoses() == P0 && AllOnBoard(FakeGrid, P0)
  {
    assert FakeGrid[7][5] == Some(2) && FakeGrid[8][5] == Some(1) && FakeGrid[8][4] == Some(0);
    assert FakeGrid[7][4] == Some(0) && FakeGrid[6][4] == Some(2) && FakeGrid[6][5] == Some(1);
  }

  /** Two half-steps that reach no goal make a turn that wins nothing. */
  lemma QuietTurn(g: Grid, rules: seq<Rule>, goals: seq<Pos>, poses: seq<Pose>, i: nat,
                  first: seq<Pose>, second: seq<Pose>)
    requires |rules| == 3 && i < |poses| && OnBoard(g, poses[i].At()) && 0 <= poses[i].facing < 6
    requires StepAt(g, rules, poses, i) == first && first[i].At() !in goals
    requires StepAt(g, rules, first, i) == second && second[i].At() !in goals
    ensures TakeTurn(g, rules, goals, poses, i) == Turned(second, first[i], None)
  {}

  /** A turn that wins nothing extends the round by its halfway pose. */
  lemma RoundGoesOn(g: Grid, rules: seq<Rule>, goals: seq<Pos>, start: seq<Pose>, n: nat,
                    poses: seq<Pose>, halfway: seq<Pose>, t: Turned)
    requires |rules| == 3 && n < |start| && AllOnBoard(g, start)
    requires RoundUpTo(g, rules, goals, start, n) == Round(poses, halfway, [])
    requires TakeTurn(g, rules, goals, poses, n) == t && t.win == None
    ensures RoundUpTo(g, rules, goals, start, n + 1) == Round(t.poses, halfway + [t.halfway], [])
  {}

  /** The default programs. */
  const DefaultRules: seq<Rule> := [DefaultRule(RED), DefaultRule(GREEN), DefaultRule(BLUE)]

  /** Robot 0 moved to (-1, -3) facing 3, the others where make6 put them. */
  const NearGoal: seq<Pose> := P0[0 := Pose(-1, -3, 3)]

  /**
   * The test "robot makes player win when it steps on a goal": in a
   * two-player game robot 0 reaches player 1's goal (-1, -4) in its first
   * half-step; in a three-player game no goal lies on its way.
   */
  lemma StepsOnGoal()
    ensures TakeTurn(FakeGrid, DefaultRules, GoalTable[1], NearGoal, 0).win == Some(Win(1, 0))
    ensures TakeTurn(FakeGrid, DefaultRules, GoalTable[2], NearGoal, 0).win == None
  {
    assert FakeGrid[7][1] == Some(0) && FakeGrid[7][2] == Some(2) && FakeGrid[8][1] == Some(1);
    var first := StepAt(FakeGrid, DefaultRules, NearGoal, 0);
    assert first == NearGoal[0 := Pose(-1, -4, 2)];
    assert GoalTable[1] == [Pos(-1, 3), Pos(-1, -4)];
    assert GoalTable[2] == [Pos(-1, 3), Pos(-6, -2), Pos(4, -2)];
    assert StepAt(FakeGrid, DefaultRules, first, 0)[0] == Pose(0, -4, 1);
  }

  /** The Changes of the test "update programs"; its two entries [2, false] are one value of the buffer. */
  const Submitted: set<Change> := {
    Change(RED, ToException(GREEN)), Change(RED, ToException(BLUE)), Change(RED, ToDirection(false)),
    Change(GREEN, ToException(BLUE)),
    Change(BLUE, ToDirection(true)), Change(BLUE, ToDirection(false))
  }

  /**
   * The test "update programs": red takes the single direction voted
   * (left) but keeps its exception (two were voted); green takes the single
   * exception voted; blue keeps both (two directions were voted).
   */
  lemma UpdatesPrograms()
    ensures Consensus(DefaultRules, Submitted)
            == [Rule(RED, false, RED), Rule(GREEN, true, BLUE), Rule(BLUE, true, BLUE)]
  {
    assert DirectionVotes(Submitted, RED) == {false};
    assert ExceptionVotes(Submitted, RED) == {GREEN, BLUE};
    assert DirectionVotes(Submitted, GREEN) == {};
    assert ExceptionVotes(Submitted, GREEN) == {BLUE};
    assert DirectionVotes(Submitted, BLUE) == {true, false};
    assert ExceptionVotes(Submitted, BLUE) == {};
  }

  /**
   * The tie-break tests: a step-0 winner after a step-1 winner wins alone;
   * two step-1 winners tie, in robot order.
   */
  lemma TieBreaks()
    ensures PlayersOf(TieBroken([Win(0, 1), Win(1, 0)])) == [1]
    ensures PlayersOf(TieBroken([Win(1, 1), Win(0, 1)])) == [1, 0]
  {
    var mixed := [Win(0, 1), Win(1, 0)];
    assert mixed[1].step != mixed[0].step;
    assert FirstStepOnly([Win(1, 0)]) == [Win(1, 0)];
  }

  /**
   * The test "disallows invalid actions": a valid Change is buffered, an
   * invalid one from the same player removes the entry, and a string is not
   * a Change.
   */
  lemma BuffersActions()
    ensures var one := Buffered(map[], 0, JArray([JNumber(0), JNumber(1)]));
            one == map[0 := Change(RED, ToException(GREEN))]
            && Buffered(one, 0, JArray([JNumber(400), JBool(true)])) == map[]
            && Buffered(map[], 0, JArray([JNumber(2), JBool(false)])) == map[0 := Change(BLUE, ToDirection(false))]
            && Buffered(map[0 := Change(BLUE, ToDirection(false))], 1, JOther) == map[0 := Change(BLUE, ToDirection(false))]
  {
    var one := Buffered(map[], 0, JArray([JNumber(0), JNumber(1)]));
    assert one == map[0 := Change(RED, ToException(GREEN))];
    assert Buffered(one, 0, JArray([JNumber(400), JBool(true)])) == map[];
  }

  /**
   * The test "accept actions": with two players, the first valid action
   * leaves one entry in the buffer, so no round yet; the second fills it.
   */
  lemma AcceptsActions()
    ensures var one := Buffered(map[], 0, JArray([JNumber(0), JNumber(1)]));
            |one| == 1 && |Buffered(one, 1, JArray([JNumber(1), JBool(true)]))| == 2
  {
    var one := Buffered(map[], 0, JArray([JNumber(0), JNumber(1)]));
    assert one == map[0 := Change(RED, ToException(GREEN))];
    assert Buffered(one, 1, JArray([JNumber(1), JBool(true)])).Keys == {0, 1};
  }

  /** The test "join the game up to 6 players": five joins succeed after the creator, the sixth is refused. */
  method JoinsUpToSix() returns (results: seq<Option<JoinError>>)
    ensures results == [None, None, None, None, None, Some(Full)]
  {
    var directory := new Directory();
    var game := new Game(directory, "code");
    results := [];
    var i := 0;
    while i < 5
      invariant 0 <= i <= 5
      invariant game.Valid() && !game.isStarted && |game.players| == i + 1
      invariant results == seq(i, j => None)
    {
      var r := game.Join();
      results := results + [r];
      i := i + 1;
    }
    var r := game.Join();
    results := results + [r];
  }

  /** The test "start the game": the board is sent to the creator, and a join after the start is refused. */
  method StartsThenRefuses(colors: seq<Color>) returns (sent: bool, result: Option<JoinError>)
    requires |colors| == CellCount
    ensures sent && result == Some(AlreadyStarted)
  {
    var directory := new Directory();
    var game := new Game(directory, "code");
    game.Start(colors);
    sent := Envelope(0, BoardOf(game.board.grid)) in game.outbox;
    result := game.Join();
  }
}

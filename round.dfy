/**
 * The robot loop of doRound in src/server/game.ts: the robots move in
 * order, each seeing the earlier ones where their moves left them.
 */
module Rounds {
  import opened Wrappers
  import opened Boards
  import opened Programs
  import opened Robots

  /** After the first i robots of a round have moved: where everyone stands, where the movers paused, who won. */
  ghost predicate MovedUpTo(g: Grid, rules: seq<Rule>, goals: seq<Pos>, start: seq<Pose>,
                            robots: seq<Robot>, i: nat, r: Round, winners: seq<Win>)
    reads robots
  {
    |rules| == 3 && i <= |start| && AllOnBoard(g, start)
    && r == RoundUpTo(g, rules, goals, start, i)
    && PosesOf(robots) == r.poses
    && (forall j :: 0 <= j < i ==> robots[j].intermediatePos == Some(r.halfway[j]))
    && winners == r.winners
  }

  /**
   * The robot loop of doRound: every robot moves in turn, and the wins are
   * gathered in robot order. The outcome is the round RoundUpTo specifies.
   */
  method MoveAll(board: Board, rules: seq<Rule>, robots: seq<Robot>, goals: seq<Pos>) returns (winners: seq<Win>)
    requires |rules| == 3
    requires forall i, j :: 0 <= i < j < |robots| ==> robots[i] != robots[j]
    requires AllOnBoard(board.grid, PosesOf(robots))
    modifies robots
    ensures var r := RoundUpTo(board.grid, rules, goals, old(PosesOf(robots)), |robots|);
            PosesOf(robots) == r.poses && winners == r.winners
            && forall i :: 0 <= i < |robots| ==> robots[i].intermediatePos == Some(r.halfway[i])
    ensures WellPlaced(board.grid, old(PosesOf(robots))) ==> WellPlaced(board.grid, PosesOf(robots))
  {
    ghost var start := PosesOf(robots);
    ghost var r := RoundUpTo(board.grid, rules, goals, start, 0);
    winners := [];
    var i := 0;
    while i < |robots|
      invariant i <= |robots| == |start|
      invariant MovedUpTo(board.grid, rules, goals, start, robots, i, r, winners)
    {
      winners, r := MoveNth(board, rules, robots, goals, i, start, r, winners);
      i := i + 1;
    }
    assert i == |robots|;
    assert start == old(PosesOf(robots));
    assert r == RoundUpTo(board.grid, rules, goals, start, i);
    forall j | 0 <= j < |robots|
      ensures robots[j].intermediatePos == Some(r.halfway[j])
    {
      assert j < i;
    }
    if WellPlaced(board.grid, start) {
      RoundKeepsWellPlaced(board.grid, rules, goals, start, i);
    }
  }

  /** Robot i's move within a round, given the round so far. */
  method MoveNth(board: Board, rules: seq<Rule>, robots: seq<Robot>, goals: seq<Pos>, i: nat,
                 ghost start: seq<Pose>, ghost r: Round, winners: seq<Win>)
    returns (winners': seq<Win>, ghost next: Round)
    requires i < |robots| && |start| == |robots|
    requires forall i, j :: 0 <= i < j < |robots| ==> robots[i] != robots[j]
    requires MovedUpTo(board.grid, rules, goals, start, robots, i, r, winners)
    modifies robots[i]
    ensures MovedUpTo(board.grid, rules, goals, start, robots, i + 1, next, winners')
  {
    ghost var t := TakeTurn(board.grid, rules, goals, r.poses, i);
    var win := robots[i].Move(board, rules, robots, goals, i);
    winners' := winners + (if win.Some? then [win.value] else []);
    next := RoundUpTo(board.grid, rules, goals, start, i + 1);
    assert next.poses == t.poses && next.halfway == r.halfway + [t.halfway];
    assert PosesOf(robots) == next.poses;
  }
}

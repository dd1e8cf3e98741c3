/**
 * The robots of src/server/game.ts (class Robot). Each round a robot takes
 * two half-steps; in each it reads the program of the colour it stands on,
 * picks a direction, and either moves one triangle and turns 60 degrees or,
 * when the target is off the board or taken by a robot, stays and turns 120
 * degrees. The pure specification of a half-step, of a robot's whole move
 * and of a round in which the robots move one after another is given on
 * poses; the class Robot is proved against it.
 */
module Robots {
  import opened Wrappers
  import opened Boards
  import opened Programs

  /**
   * A robot's position and facing. Facings are the Direction enum:
   * DOWN_RIGHT, UP_RIGHT, UP, UP_LEFT, DOWN_LEFT, DOWN are 0 to 5.
   */
  datatype Pose = Pose(x: int, y: int, facing: int) {
    function At(): Pos {
      Pos(x, y)
    }
  }

  /** The amounts rotate accepts. */
  type Rotation = a: int | a == -2 || a == -1 || a == 1 || a == 2 witness 1

  /** JavaScript's `%` on integers: the remainder takes the sign of the dividend. */
  function JsRem(a: int, b: int): (r: int)
    requires b > 0
    ensures a >= 0 ==> 0 <= r < b
    ensures a <= 0 ==> -b < r <= 0
    ensures exists q: int :: a == q * b + r
  {
    if a >= 0 then
      assert a == (a / b) * b + a % b;
      a % b
    else
      var q := (-a) / b;
      assert -a == q * b + (-a) % b;
      assert a == (-q) * b + -((-a) % b);
      -((-a) % b)
  }

  /** The facing after rotate(amount): (facing + amount + 6) % 6 with JavaScript's `%`. */
  function Rotated(facing: int, amount: Rotation): (f: int)
    ensures 0 <= facing < 6 ==> 0 <= f < 6 && f == (facing + amount) % 6
  {
    JsRem(facing + amount + 6, 6)
  }

  /** Rotating back by the same amount restores the facing. */
  lemma RotationUndone(facing: int, amount: Rotation, back: Rotation)
    requires 0 <= facing < 6
    requires back + amount == 0
    ensures Rotated(Rotated(facing, amount), back) == facing
  {
  }

  /** The offset of one step for each facing, when the bias is to the right. */
  const RightOffsets: seq<Pos> := [Pos(0, 1), Pos(1, 0), Pos(1, 0), Pos(0, -1), Pos(-1, 0), Pos(-1, 0)]
  /** The offset of one step for each facing, when the bias is to the left. */
  const LeftOffsets: seq<Pos> := [Pos(1, 0), Pos(0, -1), Pos(-1, 0), Pos(-1, 0), Pos(0, 1), Pos(1, 0)]

  /** Where one step with the given bias would take a robot: always to a different, adjacent coordinate. */
  function PositionAfterStep(p: Pose, isRight: bool): (q: Pos)
    requires 0 <= p.facing < 6
    ensures q != p.At()
    ensures (q.x == p.x && (q.y == p.y + 1 || q.y == p.y - 1)) || (q.y == p.y && (q.x == p.x + 1 || q.x == p.x - 1))
  {
    var d := (if isRight then RightOffsets else LeftOffsets)[p.facing];
    Pos(p.x + d.x, p.y + d.y)
  }

  /** The two biases never lead to the same coordinate. */
  lemma BiasesDiverge(p: Pose)
    requires 0 <= p.facing < 6
    ensures PositionAfterStep(p, true) != PositionAfterStep(p, false)
  {
  }

  /** The program steering a robot: the one of the colour it stands on. */
  function RuleUnder(g: Grid, rules: seq<Rule>, p: Pose): Rule
    requires |rules| == 3
    requires OnBoard(g, p.At())
  {
    rules[GridGet(g, p.At()).value]
  }

  /**
   * The effective bias of a half-step: the program's direction, reversed when
   * the colour ahead (or, when ahead is off the board, the colour underneath)
   * is the program's exception.
   */
  function Bias(g: Grid, rule: Rule, p: Pose): (r: bool)
    requires 0 <= p.facing < 6
    ensures r != rule.isRight <==>
              GridGet(g, PositionAfterStep(p, rule.isRight)) == Some(rule.exception)
              || (!OnBoard(g, PositionAfterStep(p, rule.isRight)) && GridGet(g, p.At()) == Some(rule.exception))
  {
    var ahead := PositionAfterStep(p, rule.isRight);
    var seen := if GridGet(g, ahead).Some? then GridGet(g, ahead) else GridGet(g, p.At());
    var doOpposite := seen == Some(rule.exception);
    doOpposite != rule.isRight
  }

  /** A target is blocked when it is not a cell or a robot stands there. */
  predicate Blocked(g: Grid, occupied: seq<Pos>, q: Pos) {
    !OnBoard(g, q) || q in occupied
  }

  /** The target is blocked exactly when it has no colour or some robot stands on it. */
  lemma BlockedByRobot(g: Grid, poses: seq<Pose>, q: Pos)
    ensures Blocked(g, Positions(poses), q) <==>
              GridGet(g, q).None? || exists j :: 0 <= j < |poses| && poses[j].At() == q
  {
    if q in Positions(poses) {
      var j :| 0 <= j < |poses| && Positions(poses)[j] == q;
      assert poses[j].At() == q;
    }
  }

  /** With program c at index c, a robot is steered by the program of the colour under it. */
  lemma SteeredByColourUnder(g: Grid, rules: seq<Rule>, p: Pose)
    requires |rules| == 3 && OnBoard(g, p.At())
    requires forall c :: 0 <= c < 3 ==> rules[c].color == c
    ensures RuleUnder(g, rules, p).color == GridGet(g, p.At()).value
  {
  }

  /**
   * One half-step of a robot that stands at p and is steered by rule, with
   * the robots at occupied. The robot stays on the board, and it never
   * enters a coordinate in occupied.
   */
  function Step(g: Grid, rule: Rule, occupied: seq<Pos>, p: Pose): (r: Pose)
    requires OnBoard(g, p.At())
    requires 0 <= p.facing < 6
    ensures OnBoard(g, r.At()) && 0 <= r.facing < 6
    ensures r.At() == p.At() || r.At() !in occupied
  {
    var bias := Bias(g, rule, p);
    var target := PositionAfterStep(p, bias);
    if Blocked(g, occupied, target) then
      Pose(p.x, p.y, Rotated(p.facing, if bias then -2 else 2))
    else
      Pose(target.x, target.y, Rotated(p.facing, if bias then -1 else 1))
  }

  /**
   * A blocked robot stays where it is and turns 120 degrees (clockwise when
   * the bias is to the right); otherwise it takes the step and turns 60
   * degrees the same way.
   */
  lemma StepTurns(g: Grid, rule: Rule, occupied: seq<Pos>, p: Pose)
    requires OnBoard(g, p.At())
    requires 0 <= p.facing < 6
    ensures var bias := Bias(g, rule, p);
            var target := PositionAfterStep(p, bias);
            var r := Step(g, rule, occupied, p);
            if Blocked(g, occupied, target) then
              r.At() == p.At() && (r.facing + (if bias then 2 else 4)) % 6 == p.facing
            else
              r.At() == target && (r.facing + (if bias then 1 else 5)) % 6 == p.facing
  {
    var bias := Bias(g, rule, p);
    var target := PositionAfterStep(p, bias);
    if Blocked(g, occupied, target) {
      TurnedBy(p.facing, if bias then -2 else 2, if bias then 2 else 4);
    } else {
      TurnedBy(p.facing, if bias then -1 else 1, if bias then 1 else 5);
    }
  }

  /** Turning by amount and then by back, a whole number of turns in all, restores the facing. */
  lemma TurnedBy(facing: int, amount: Rotation, back: int)
    requires 0 <= facing < 6
    requires (amount + back) % 6 == 0
    ensures (Rotated(facing, amount) + back) % 6 == facing
  {
  }

  /** The coordinates of the given poses, in order. */
  function Positions(poses: seq<Pose>): (ps: seq<Pos>)
    ensures |ps| == |poses|
    ensures forall i :: 0 <= i < |poses| ==> ps[i] == poses[i].At()
  {
    seq(|poses|, i requires 0 <= i < |poses| => poses[i].At())
  }

  /** Every robot stands on a cell with a valid facing, and no two share a cell. */
  predicate WellPlaced(g: Grid, poses: seq<Pose>) {
    AllOnBoard(g, poses)
    && (forall i, j :: 0 <= i < j < |poses| ==> poses[i].At() != poses[j].At())
  }

  /** Every robot stands on a cell with a valid facing. */
  predicate AllOnBoard(g: Grid, poses: seq<Pose>) {
    forall i :: 0 <= i < |poses| ==> OnBoard(g, poses[i].At()) && 0 <= poses[i].facing < 6
  }

  /** Robot i takes one half-step, seeing every robot where it stands now. */
  function StepAt(g: Grid, rules: seq<Rule>, poses: seq<Pose>, i: nat): (r: seq<Pose>)
    requires |rules| == 3 && i < |poses|
    requires OnBoard(g, poses[i].At()) && 0 <= poses[i].facing < 6
    ensures |r| == |poses|
    ensures OnBoard(g, r[i].At()) && 0 <= r[i].facing < 6
    ensures forall j :: 0 <= j < |poses| && j != i ==> r[j] == poses[j]
  {
    poses[i := Step(g, RuleUnder(g, rules, poses[i]), Positions(poses), poses[i])]
  }

  /** A half-step keeps every robot on the board and no two robots on one cell. */
  lemma StepAtKeepsWellPlaced(g: Grid, rules: seq<Rule>, poses: seq<Pose>, i: nat)
    requires |rules| == 3 && i < |poses|
    requires WellPlaced(g, poses)
    ensures WellPlaced(g, StepAt(g, rules, poses, i))
  {
    var r := StepAt(g, rules, poses, i);
    forall j, k | 0 <= j < k < |r|
      ensures r[j].At() != r[k].At()
    {
      if j == i || k == i {
        var other := if j == i then k else j;
        assert Positions(poses)[other] == poses[other].At();
      }
    }
  }

  /**
   * The least index of a goal at p, or nothing when no goal is at p. Goal i
   * belongs to player i.
   */
  function FirstGoal(goals: seq<Pos>, p: Pos): (r: Option<nat>)
    ensures r.Some? ==> r.value < |goals| && goals[r.value] == p && p !in goals[..r.value]
    ensures r.None? ==> p !in goals
  {
    if |goals| == 0 then None
    else if goals[0] == p then Some(0)
    else match FirstGoal(goals[1..], p)
      case None => None
      case Some(i) =>
        assert goals[..i + 1] == [goals[0]] + goals[1..][..i];
        Some(i + 1)
  }

  /** A robot reaching player's goal, in the first (0) or second (1) half-step. */
  datatype Win = Win(player: nat, step: nat)

  /** The outcome of one robot's move: all poses afterwards, its pose after the first half-step, and a win if any. */
  datatype Turned = Turned(poses: seq<Pose>, halfway: Pose, win: Option<Win>)

  /**
   * Robot i moves: one half-step; if that ends on a goal the robot wins at
   * step 0 and stops; otherwise a second half-step, which may win at step 1.
   * Only robot i moves, and a win names the player whose goal it stands on.
   */
  function TakeTurn(g: Grid, rules: seq<Rule>, goals: seq<Pos>, poses: seq<Pose>, i: nat): (t: Turned)
    requires |rules| == 3 && i < |poses|
    requires OnBoard(g, poses[i].At()) && 0 <= poses[i].facing < 6
    ensures |t.poses| == |poses|
    ensures OnBoard(g, t.poses[i].At()) && 0 <= t.poses[i].facing < 6
    ensures forall j :: 0 <= j < |poses| && j != i ==> t.poses[j] == poses[j]
    ensures t.win.Some? ==> t.win.value.step <= 1 && t.win.value.player < |goals|
                            && goals[t.win.value.player] == t.poses[i].At()
    ensures t.win.Some? && t.win.value.step == 0 ==> t.poses[i] == t.halfway
  {
    var first := StepAt(g, rules, poses, i);
    match FirstGoal(goals, first[i].At())
      case Some(w) => Turned(first, first[i], Some(Win(w, 0)))
      case None =>
        var second := StepAt(g, rules, first, i);
        var win := FirstGoal(goals, second[i].At());
        Turned(second, first[i], if win.Some? then Some(Win(win.value, 1)) else None)
  }

  /**
   * What a move reports. The halfway pose is robot i's pose after its first
   * half-step. Ending that half-step on a goal wins at step 0 and ends the
   * move. Otherwise the robot takes a second half-step and wins at step 1
   * exactly when it ends on a goal. Either way a win names the least player
   * whose goal is there, and reaching no goal reports no win.
   */
  lemma TurnOutcome(g: Grid, rules: seq<Rule>, goals: seq<Pos>, poses: seq<Pose>, i: nat)
    requires |rules| == 3 && i < |poses|
    requires OnBoard(g, poses[i].At()) && 0 <= poses[i].facing < 6
    ensures var t := TakeTurn(g, rules, goals, poses, i);
            var first := StepAt(g, rules, poses, i);
            t.halfway == first[i]
            && (first[i].At() in goals ==>
                  t.poses == first && t.win.Some? && t.win.value.step == 0
                  && FirstGoal(goals, first[i].At()) == Some(t.win.value.player))
            && (first[i].At() !in goals ==>
                  t.poses == StepAt(g, rules, first, i)
                  && (t.win.Some? <==> t.poses[i].At() in goals)
                  && (t.win.Some? ==> t.win.value.step == 1
                                      && FirstGoal(goals, t.poses[i].At()) == Some(t.win.value.player)))
  {
  }

  /** A robot's move keeps every robot on the board and no two robots on one cell. */
  lemma {:induction false} TakeTurnKeepsWellPlaced(g: Grid, rules: seq<Rule>, goals: seq<Pos>, poses: seq<Pose>, i: nat)
    requires |rules| == 3 && i < |poses|
    requires WellPlaced(g, poses)
    ensures WellPlaced(g, TakeTurn(g, rules, goals, poses, i).poses)
  {
    StepAtKeepsWellPlaced(g, rules, poses, i);
    StepAtKeepsWellPlaced(g, rules, StepAt(g, rules, poses, i), i);
  }

  /** The least goal index is the one FirstGoal reports. */
  lemma FirstGoalIsLeast(goals: seq<Pos>, p: Pos, i: nat)
    requires i < |goals| && goals[i] == p && p !in goals[..i]
    ensures FirstGoal(goals, p) == Some(i)
  {
    var r := FirstGoal(goals, p);
    assert p in goals;
    assert forall j :: 0 <= j < i ==> goals[..i][j] == goals[j];
    assert r.value < |goals| ==> forall j :: 0 <= j < r.value ==> goals[..r.value][j] == goals[j];
  }

  /** The round so far: the poses after robots 0 .. n - 1 have moved, their poses after their first half-steps, and the winners in robot order. */
  datatype Round = Round(poses: seq<Pose>, halfway: seq<Pose>, winners: seq<Win>)

  /**
   * Robots 0 .. n - 1 move in order, each seeing the earlier robots where
   * their moves left them. The robots stay well placed, the later ones do
   * not move, and every win is at step 0 or 1 on a player's goal.
   */
  function RoundUpTo(g: Grid, rules: seq<Rule>, goals: seq<Pos>, poses: seq<Pose>, n: nat): (r: Round)
    requires |rules| == 3 && n <= |poses|
    requires AllOnBoard(g, poses)
    ensures |r.poses| == |poses| && |r.halfway| == n && |r.winners| <= n
    ensures AllOnBoard(g, r.poses)
    ensures forall j :: n <= j < |poses| ==> r.poses[j] == poses[j]
    ensures forall w :: w in r.winners ==> w.step <= 1 && w.player < |goals|
  {
    if n == 0 then Round(poses, [], [])
    else
      var before := RoundUpTo(g, rules, goals, poses, n - 1);
      var t := TakeTurn(g, rules, goals, before.poses, n - 1);
      Round(t.poses, before.halfway + [t.halfway], before.winners + (if t.win.Some? then [t.win.value] else []))
  }

  /** A round keeps every robot on the board and no two robots on one cell. */
  lemma {:induction false} RoundKeepsWellPlaced(g: Grid, rules: seq<Rule>, goals: seq<Pos>, poses: seq<Pose>, n: nat)
    requires |rules| == 3 && n <= |poses|
    requires WellPlaced(g, poses)
    ensures WellPlaced(g, RoundUpTo(g, rules, goals, poses, n).poses)
  {
    if n > 0 {
      RoundKeepsWellPlaced(g, rules, goals, poses, n - 1);
      TakeTurnKeepsWellPlaced(g, rules, goals, RoundUpTo(g, rules, goals, poses, n - 1).poses, n - 1);
    }
  }

  /** Where make6 puts the robots: on the six triangles of the centre hexagon, robot i facing direction i. */
  function StartPoses(): (poses: seq<Pose>)
    ensures |poses| == |Triangles|
  {
    seq(|Triangles|, i requires 0 <= i < |Triangles| => Pose(Triangles[i].x, Triangles[i].y, i))
  }

  /** The starting poses are well placed on any board of the game's shape. */
  lemma StartWellPlaced(g: Grid)
    requires BoardShaped(g)
    ensures WellPlaced(g, StartPoses())
  {
    TrianglesInHexagon();
    forall i | 0 <= i < |Triangles|
      ensures OnBoard(g, StartPoses()[i].At())
    {
      CentreTrianglesAreCells(i);
    }
  }

  /** The poses of the given robots, in order. */
  function PosesOf(robots: seq<Robot>): (poses: seq<Pose>)
    reads robots
    ensures |poses| == |robots|
    ensures forall i :: 0 <= i < |robots| ==> poses[i] == robots[i].Value()
  {
    seq(|robots|, i reads robots requires 0 <= i < |robots| => robots[i].Value())
  }

  class Robot {
    var x: int
    var y: int
    var facing: int
    /** The pose after the first half-step of the latest move, shown to the players. */
    var intermediatePos: Option<Pose>

    function Value(): Pose
      reads this
    {
      Pose(x, y, facing)
    }

    constructor (x: int, y: int, facing: int)
      ensures Value() == Pose(x, y, facing) && intermediatePos == None
    {
      this.x, this.y, this.facing := x, y, facing;
      intermediatePos := None;
    }

    method Rotate(amount: Rotation)
      modifies this
      ensures Value() == Pose(old(x), old(y), Rotated(old(facing), amount))
      ensures intermediatePos == old(intermediatePos)
    {
      facing := JsRem(facing + amount + 6, 6);
    }

    /**
     * One half-step, as Step specifies it with every robot of robots seen
     * where it stands; then the least index of a goal the robot now stands
     * on, if any.
     */
    method MoveOnce(board: Board, rules: seq<Rule>, robots: seq<Robot>, goals: seq<Pos>) returns (goal: Option<nat>)
      requires |rules| == 3
      requires OnBoard(board.grid, Pos(x, y)) && 0 <= facing < 6
      modifies this
      ensures Value() == Step(board.grid, RuleUnder(board.grid, rules, old(Value())),
                              old(Positions(PosesOf(robots))), old(Value()))
      ensures intermediatePos == old(intermediatePos)
      ensures goal == FirstGoal(goals, Pos(x, y))
    {
      var here := Value();
      var program := rules[board.Get(x, y).value];
      var pos := PositionAfterStep(here, program.isRight);
      var seen := board.Get(pos.x, pos.y);
      if seen.None? {
        seen := board.Get(x, y);
      }
      var doOpposite := seen == Some(program.exception);
      var direction := doOpposite != program.isRight;
      var newPos := PositionAfterStep(here, direction);
      ghost var occupied := Positions(PosesOf(robots));
      if board.Get(newPos.x, newPos.y).None? || exists j | 0 <= j < |robots| :: robots[j].x == newPos.x && robots[j].y == newPos.y {
        Rotate(if direction then -2 else 2);
      } else {
        assert newPos !in occupied;
        x, y := newPos.x, newPos.y;
        Rotate(if direction then -1 else 1);
      }
      for i := 0 to |goals|
        invariant Pos(x, y) !in goals[..i]
      {
        if goals[i] == Pos(x, y) {
          FirstGoalIsLeast(goals, Pos(x, y), i);
          return Some(i);
        }
        assert goals[..i + 1] == goals[..i] + [goals[i]];
      }
      assert goals[..|goals|] == goals;
      return None;
    }

    /**
     * The robot's move in a round, as TakeTurn specifies it for robot me of
     * robots: it keeps its pose after the first half-step in
     * intermediatePos, and reports a win at step 0 (then stopping) or 1.
     */
    method Move(board: Board, rules: seq<Rule>, robots: seq<Robot>, goals: seq<Pos>, ghost me: nat) returns (win: Option<Win>)
      requires |rules| == 3
      requires me < |robots| && robots[me] == this
      requires forall j :: 0 <= j < |robots| && j != me ==> robots[j] != this
      requires OnBoard(board.grid, Pos(x, y)) && 0 <= facing < 6
      modifies this
      ensures var t := TakeTurn(board.grid, rules, goals, old(PosesOf(robots)), me);
              Value() == t.poses[me] && intermediatePos == Some(t.halfway) && win == t.win
    {
      ghost var poses := PosesOf(robots);
      ghost var first := StepAt(board.grid, rules, poses, me);
      var win1 := MoveOnce(board, rules, robots, goals);
      intermediatePos := Some(Value());
      assert PosesOf(robots) == first;
      if win1.Some? {
        return Some(Win(win1.value, 0));
      }
      var win2 := MoveOnce(board, rules, robots, goals);
      if win2.Some? {
        return Some(Win(win2.value, 1));
      }
      return None;
    }

    /** make6: the six robots of a new game, placed at StartPoses. */
    static method Make6() returns (robots: seq<Robot>)
      ensures |robots| == 6 && PosesOf(robots) == StartPoses()
      ensures forall i :: 0 <= i < |robots| ==> fresh(robots[i]) && robots[i].intermediatePos == None
      ensures forall i, j :: 0 <= i < j < |robots| ==> robots[i] != robots[j]
    {
      robots := [];
      for index := 0 to |Triangles|
        invariant |robots| == index
        invariant forall i :: 0 <= i < index ==> fresh(robots[i]) && robots[i].intermediatePos == None
        invariant forall i :: 0 <= i < index ==> robots[i].Value() == StartPoses()[i]
        invariant forall i, j :: 0 <= i < j < index ==> robots[i] != robots[j]
      {
        var robot := new Robot(Triangles[index].x, Triangles[index].y, index);
        robots := robots + [robot];
      }
    }
  }
}

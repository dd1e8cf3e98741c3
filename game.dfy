/**
 * The game session of src/server/game.ts (class Game): the roster of up to
 * six players, the start of play, the buffer of one Change per player and
 * the round that runs once every player has one. A player is identified by
 * their position in the roster; what the game sends to a player is
 * appended to an outbox.
 */
module Games {
  import opened Wrappers
  import opened Boards
  import opened Programs
  import opened Robots
  import opened Rounds

  const MaxPlayers := 6

  /** The goal coordinates for a game of n players are GoalTable[n - 1]; goal i belongs to player i. */
  const GoalTable: seq<seq<Pos>> := [
    [Pos(-1, 3)],
    [Pos(-1, 3), Pos(-1, -4)],
    [Pos(-1, 3), Pos(-6, -2), Pos(4, -2)],
    [Pos(-1, 3), Pos(-6, 1), Pos(-1, -4), Pos(4, -2)],
    [Pos(-1, 3), Pos(-6, 1), Pos(-6, -2), Pos(-1, -4), Pos(4, -2)],
    [Pos(-1, 3), Pos(-6, 1), Pos(-6, -2), Pos(-1, -4), Pos(4, -2), Pos(4, 1)]
  ]

  /** Every player count from 1 to 6 has one goal per player, on distinct cells of the board. */
  lemma GoalTableFits(g: Grid)
    requires BoardShaped(g)
    ensures |GoalTable| == MaxPlayers
    ensures forall n :: 0 <= n < MaxPlayers ==> |GoalTable[n]| == n + 1
    ensures forall n, i :: 0 <= n < MaxPlayers && 0 <= i < |GoalTable[n]| ==> OnBoard(g, GoalTable[n][i])
    ensures forall n, i, j :: 0 <= n < MaxPlayers && 0 <= i < j < |GoalTable[n]| ==> GoalTable[n][i] != GoalTable[n][j]
  {
    GoalsFitFor1(g); GoalsFitFor2(g); GoalsFitFor3(g);
    GoalsFitFor4(g); GoalsFitFor5(g); GoalsFitFor6(g);
    assert forall n :: 0 <= n < MaxPlayers ==> GoalsFit(g, GoalTable[n]);
  }

  // GoalsFitFor1 .. GoalsFitFor6 state the same fact for each row of the
  // table; one lemma per row keeps each proof small.

  /** The goals of a 1-player game fit the board. */
  lemma GoalsFitFor1(g: Grid)
    requires BoardShaped(g)
    ensures GoalsFit(g, GoalTable[0])
  {
    GoalsAreCells();
  }

  /** The goals of a 2-player game fit the board. */
  lemma GoalsFitFor2(g: Grid)
    requires BoardShaped(g)
    ensures GoalsFit(g, GoalTable[1])
  {
    GoalsAreCells();
  }

  /** The goals of a 3-player game fit the board. */
  lemma GoalsFitFor3(g: Grid)
    requires BoardShaped(g)
    ensures GoalsFit(g, GoalTable[2])
  {
    GoalsAreCells();
  }

  /** The goals of a 4-player game fit the board. */
  lemma GoalsFitFor4(g: Grid)
    requires BoardShaped(g)
    ensures GoalsFit(g, GoalTable[3])
  {
    GoalsAreCells();
  }

  /** The goals of a 5-player game fit the board. */
  lemma GoalsFitFor5(g: Grid)
    requires BoardShaped(g)
    ensures GoalsFit(g, GoalTable[4])
  {
    GoalsAreCells();
  }

  /** The goals of a 6-player game fit the board. */
  lemma GoalsFitFor6(g: Grid)
    requires BoardShaped(g)
    ensures GoalsFit(g, GoalTable[5])
  {
    GoalsAreCells();
  }

  /** The goals of one row of the table lie on the board and are pairwise distinct. */
  ghost predicate GoalsFit(g: Grid, goals: seq<Pos>) {
    && (forall i :: 0 <= i < |goals| ==> OnBoard(g, goals[i]))
    && (forall i, j :: 0 <= i < j < |goals| ==> goals[i] != goals[j])
  }

  /** The six goal coordinates are cells of the board. */
  lemma GoalsAreCells()
    ensures IsCell(Pos(-1, 3)) && IsCell(Pos(-1, -4)) && IsCell(Pos(-6, -2))
    ensures IsCell(Pos(4, -2)) && IsCell(Pos(-6, 1)) && IsCell(Pos(4, 1))
  {
    assert CellAt(111) == Pos(-1, 3);
    assert CellAt(0) == Pos(-1, -4);
    assert CellAt(19) == Pos(-6, -2);
    assert CellAt(35) == Pos(4, -2);
    assert CellAt(80) == Pos(-6, 1);
    assert CellAt(94) == Pos(4, 1);
  }

  /** A value of the JSON a player sends as an action; JOther is anything else (strings, objects, null, fractions). */
  datatype Json = JNumber(n: int) | JBool(b: bool) | JArray(items: seq<Json>) | JOther

  /** `[RED, GREEN, BLUE].includes(v)`. */
  function ColorOf(v: Json): (c: Option<Color>)
    ensures c.Some? <==> v in [JNumber(RED), JNumber(GREEN), JNumber(BLUE)]
    ensures c.Some? ==> v == JNumber(c.value)
  {
    if v.JNumber? && 0 <= v.n < 3 then Some(v.n) else None
  }

  /**
   * The validation of action: an array whose first element is a colour and
   * whose second is a colour or a boolean. Elements after the second are
   * not kept.
   */
  function ParseChange(data: Json): (c: Option<Change>)
    ensures c.Some? <==> data.JArray? && |data.items| >= 2 && ColorOf(data.items[0]).Some?
                         && (ColorOf(data.items[1]).Some? || data.items[1].JBool?)
  {
    if data.JArray? && |data.items| >= 2 then
      match (ColorOf(data.items[0]), data.items[1])
        case (Some(color), JBool(b)) => Some(Change(color, ToDirection(b)))
        case (Some(color), v) =>
          if ColorOf(v).Some? then Some(Change(color, ToException(ColorOf(v).value))) else None
        case _ => None
    else None
  }

  /** The JSON form of a Change, as players send it. */
  function ChangeJson(c: Change): Json {
    JArray([JNumber(c.color), match c.value case ToException(e) => JNumber(e) case ToDirection(b) => JBool(b)])
  }

  /** Every Change a player can send is accepted as itself. */
  lemma ParseChangeJson(c: Change)
    ensures ParseChange(ChangeJson(c)) == Some(c)
  {
  }

  /** What is accepted is exactly the Change its first two elements spell. */
  lemma ParsedIsPrefix(data: Json)
    requires ParseChange(data).Some?
    ensures ChangeJson(ParseChange(data).value) == JArray(data.items[..2])
  {
    assert data.items[..2] == [data.items[0], data.items[1]];
  }

  /**
   * The buffer after one player's action: a valid Change replaces the
   * player's entry, an invalid action removes it, and every other player's
   * entry stays as it was.
   */
  function Buffered(changes: map<nat, Change>, player: nat, data: Json): (r: map<nat, Change>)
    ensures ParseChange(data).Some? ==> player in r && r[player] == ParseChange(data).value
    ensures ParseChange(data).None? ==> player !in r
    ensures forall p :: p != player ==> (p in r <==> p in changes) && (p in r ==> r[p] == changes[p])
  {
    match ParseChange(data)
      case Some(c) => changes[player := c]
      case None => changes - {player}
  }

  /** The roster positions 0 .. n - 1. */
  function Seats(n: nat): (r: set<nat>)
    ensures forall p: nat :: p in r <==> p < n
    ensures |r| == n
  {
    if n == 0 then {} else Seats(n - 1) + {n - 1}
  }

  /** With entries only for players 0 .. n - 1, the buffer holds n entries exactly when every player has one. */
  lemma BufferComplete(changes: map<nat, Change>, n: nat)
    requires forall p :: p in changes ==> p < n
    ensures |changes| == n <==> forall p :: 0 <= p < n ==> p in changes
  {
    var keys, all := changes.Keys, Seats(n);
    assert keys <= all;
    assert |changes| == |keys|;
    if |keys| == n {
      SameSizeSubset(keys, all);
    }
    if forall p :: 0 <= p < n ==> p in changes {
      assert all <= keys;
      assert keys == all;
    }
  }

  /** A subset as large as its superset is the whole superset. */
  lemma {:induction false} SameSizeSubset<T>(a: set<T>, b: set<T>)
    requires a <= b && |a| == |b|
    ensures a == b
  {
    if a != {} {
      var x :| x in a;
      SameSizeSubset(a - {x}, b - {x});
      assert a == (a - {x}) + {x};
      assert b == (b - {x}) + {x};
    }
  }

  /** Only step-0 winners, in order: `winners.filter(([, step]) => step === 0)`. */
  function FirstStepOnly(winners: seq<Win>): (r: seq<Win>)
    ensures forall w :: w in r <==> w in winners && w.step == 0
    ensures |r| <= |winners|
  {
    if |winners| == 0 then []
    else (if winners[0].step == 0 then [winners[0]] else []) + FirstStepOnly(winners[1..])
  }

  /**
   * The filter keeps robot order: filtering a concatenation filters each
   * part, and a single winner is kept exactly when it won at step 0.
   */
  lemma {:induction false} FirstStepOnlyKeepsOrder(a: seq<Win>, b: seq<Win>)
    ensures FirstStepOnly(a + b) == FirstStepOnly(a) + FirstStepOnly(b)
    ensures |a| == 1 ==> FirstStepOnly(a) == (if a[0].step == 0 then a else [])
  {
    if |a| == 0 {
      assert a + b == b;
    } else {
      var head := if a[0].step == 0 then [a[0]] else [];
      assert (a + b)[0] == a[0] && (a + b)[1..] == a[1..] + b;
      FirstStepOnlyKeepsOrder(a[1..], b);
      calc {
        FirstStepOnly(a + b);
        head + FirstStepOnly(a[1..] + b);
        head + (FirstStepOnly(a[1..]) + FirstStepOnly(b));
        (head + FirstStepOnly(a[1..])) + FirstStepOnly(b);
        FirstStepOnly(a) + FirstStepOnly(b);
      }
      if |a| == 1 {
        assert FirstStepOnly(a[1..]) == [];
      }
    }
  }

  /** All winners won at the same half-step. */
  predicate SameStep(winners: seq<Win>) {
    forall i :: 0 <= i < |winners| ==> winners[i].step == winners[0].step
  }

  /** The tie-break of a round: all winners if they won at the same step, else only the step-0 ones. */
  function TieBroken(winners: seq<Win>): seq<Win> {
    if SameStep(winners) then winners else FirstStepOnly(winners)
  }

  /**
   * The tie-break sends the winners as they are exactly when they all won at
   * the same half-step, and it only ever drops winners.
   */
  lemma TieBreakCuts(winners: seq<Win>)
    ensures TieBroken(winners) == winners <==> SameStep(winners)
    ensures forall w :: w in TieBroken(winners) ==> w in winners
  {
    if !SameStep(winners) {
      var i :| 0 <= i < |winners| && winners[i].step != winners[0].step;
      var late := if winners[i].step != 0 then winners[i] else winners[0];
      assert late in winners && late !in FirstStepOnly(winners);
    }
  }

  /**
   * With steps 0 and 1 only, the tie-break keeps exactly the winners of the
   * earliest step among them, and keeps at least one.
   */
  lemma EarliestWinnersKept(winners: seq<Win>)
    requires forall w :: w in winners ==> w.step <= 1
    ensures forall w :: w in TieBroken(winners) <==> w in winners && forall v :: v in winners ==> w.step <= v.step
    ensures |winners| > 0 ==> |TieBroken(winners)| > 0
  {
    if !SameStep(winners) {
      var i :| 0 <= i < |winners| && winners[i].step != winners[0].step;
      var zero := if winners[i].step == 0 then winners[i] else winners[0];
      assert zero in FirstStepOnly(winners);
    } else {
      forall w, v | w in winners && v in winners
        ensures w.step <= v.step
      {
        var i :| 0 <= i < |winners| && winners[i] == w;
        var j :| 0 <= j < |winners| && winners[j] == v;
      }
    }
  }

  /** The players named by the winners, in order. */
  function PlayersOf(winners: seq<Win>): (players: seq<nat>)
    ensures |players| == |winners|
    ensures forall i :: 0 <= i < |winners| ==> players[i] == winners[i].player
  {
    seq(|winners|, i requires 0 <= i < |winners| => winners[i].player)
  }

  /** The tie-break loop of doRound, run when there is at least one winner. */
  method TieBreak(winners: seq<Win>) returns (kept: seq<Win>)
    requires |winners| > 0
    ensures kept == TieBroken(winners)
  {
    kept := winners;
    var step := winners[0].step;
    for i := 1 to |winners|
      invariant forall j :: 0 <= j < i ==> winners[j].step == step
    {
      if winners[i].step != step {
        kept := FirstStepOnly(winners);
        return;
      }
    }
  }

  /** A roster entry: the player's number (their position) and name. */
  datatype Player = Player(number: nat, name: string)

  /** The decimal digits of n. */
  function Decimal(n: nat): string
    decreases n
  {
    if n < 10 then ["0123456789"[n]] else Decimal(n / 10) + ["0123456789"[n % 10]]
  }

  /** The name a player gets on joining: `Player ${number + 1}`. */
  function PlayerName(number: nat): string {
    "Player " + Decimal(number + 1)
  }

  /** A number of two or more digits is spelled with two or more characters. */
  lemma DecimalLength(n: nat)
    ensures |Decimal(n)| >= 1
    ensures n >= 10 ==> |Decimal(n)| >= 2
  {
    if n >= 10 {
      DecimalLength(n / 10);
    }
  }

  /** Different numbers are spelled differently. */
  lemma {:induction false} DecimalInjective(a: nat, b: nat)
    requires Decimal(a) == Decimal(b)
    ensures a == b
    decreases a
  {
    DecimalLength(a);
    DecimalLength(b);
    if a >= 10 && b >= 10 {
      var da, db := Decimal(a), Decimal(b);
      assert da[..|da| - 1] == Decimal(a / 10);
      assert db[..|db| - 1] == Decimal(b / 10);
      DecimalInjective(a / 10, b / 10);
      assert "0123456789"[a % 10] == da[|da| - 1] == db[|db| - 1] == "0123456789"[b % 10];
    } else {
      assert "0123456789"[a] == Decimal(a)[0] == Decimal(b)[0] == "0123456789"[b];
    }
  }

  /** Players with different numbers get different names. */
  lemma PlayerNamesDistinct(a: nat, b: nat)
    ensures PlayerName(a) == PlayerName(b) ==> a == b
  {
    if PlayerName(a) == PlayerName(b) {
      assert PlayerName(a)[7..] == Decimal(a + 1);
      assert PlayerName(b)[7..] == Decimal(b + 1);
      DecimalInjective(a + 1, b + 1);
    }
  }

  /** What a robot looks like to the players. */
  datatype RobotView = RobotView(pose: Pose, intermediatePos: Option<Pose>)

  /** The messages the game sends, by their type. The board is sent as its colours, where the game sends a drawing. */
  datatype Message =
    | NameOf(index: nat, name: string)
    | YouAre(index: nat, name: string)
    | CodeOf(code: string)
    | BoardOf(grid: Grid)
    | RobotsAt(robots: seq<RobotView>)
    | ProgramsAre(programs: seq<Rule>)
    | GoalsAt(goals: seq<Pos>)
    | ChangesMade(changes: seq<Option<Change>>)
    | WinnersAre(players: seq<nat>)

  /** A message for the player at position `to` of the roster. */
  datatype Envelope = Envelope(to: nat, message: Message)

  /** The message m for each of the first n players, in roster order. */
  function Broadcast(n: nat, m: Message): (out: seq<Envelope>)
    ensures |out| == n
    ensures forall i :: 0 <= i < n ==> out[i] == Envelope(i, m)
  {
    seq(n, i requires 0 <= i < n => Envelope(i, m))
  }

  /** What a new player n is told about each player already in the roster. */
  function Introductions(players: seq<Player>, n: nat): (out: seq<Envelope>)
    ensures |out| == |players|
    ensures forall i :: 0 <= i < |players| ==> out[i] == Envelope(n, NameOf(players[i].number, players[i].name))
  {
    seq(|players|, i requires 0 <= i < |players| => Envelope(n, NameOf(players[i].number, players[i].name)))
  }

  /** The buffered Change of each player, in roster order, absent where there is none. */
  function ChangeList(changes: map<nat, Change>, n: nat): (list: seq<Option<Change>>)
    ensures |list| == n
    ensures forall i :: 0 <= i < n ==> (list[i].Some? <==> i in changes) && (i in changes ==> list[i] == Some(changes[i]))
  {
    seq(n, i => if i in changes then Some(changes[i]) else None)
  }

  /** The robots as the players see them. */
  function Views(robots: seq<Robot>): (views: seq<RobotView>)
    reads robots
    ensures |views| == |robots|
    ensures forall i :: 0 <= i < |robots| ==> views[i] == RobotView(robots[i].Value(), robots[i].intermediatePos)
  {
    seq(|robots|, i reads robots requires 0 <= i < |robots| => RobotView(robots[i].Value(), robots[i].intermediatePos))
  }

  /** The consensus of a round applied to each program in turn. */
  ghost function Consensus(rules: seq<Rule>, submitted: set<Change>): (r: seq<Rule>)
    ensures |r| == |rules|
    ensures forall c :: 0 <= c < |rules| ==> r[c] == Modified(rules[c], submitted)
  {
    seq(|rules|, c requires 0 <= c < |rules| => Modified(rules[c], submitted))
  }

  /** The messages of the winners of a round, sent only when there is one. */
  function WinnerNews(n: nat, winners: seq<Win>): seq<Envelope> {
    if |winners| > 0 then Broadcast(n, WinnersAre(PlayersOf(TieBroken(winners)))) else []
  }

  /** The messages at the end of a round: the winners (only if any), then the Changes, robots and programs. */
  function RoundReport(n: nat, winners: seq<Win>, submitted: map<nat, Change>,
                       views: seq<RobotView>, rules: seq<Rule>): seq<Envelope> {
    WinnerNews(n, winners)
    + Broadcast(n, ChangesMade(ChangeList(submitted, n)))
    + Broadcast(n, RobotsAt(views))
    + Broadcast(n, ProgramsAre(rules))
  }

  /**
   * The winners message goes to every player exactly when someone won, and
   * it names the players of the winners the tie-break keeps, in robot order.
   */
  lemma WinnersOnlyOnWins(n: nat, winners: seq<Win>)
    ensures |winners| == 0 ==> WinnerNews(n, winners) == []
    ensures |winners| > 0 ==> |WinnerNews(n, winners)| == n
    ensures forall k :: 0 <= k < |WinnerNews(n, winners)| ==>
              WinnerNews(n, winners)[k] == Envelope(k, WinnersAre(PlayersOf(TieBroken(winners))))
  {
  }

  /**
   * The end-of-round messages: the winners (n envelopes, only if someone
   * won), then the Changes, then the robots, then the programs, each sent
   * to players 0 .. n - 1 in order.
   */
  lemma ReportReachesEveryone(n: nat, winners: seq<Win>, submitted: map<nat, Change>,
                              views: seq<RobotView>, rules: seq<Rule>)
    ensures var r := RoundReport(n, winners, submitted, views, rules);
            var w := if |winners| > 0 then n else 0;
            |r| == w + 3 * n
            && (forall k :: 0 <= k < w ==> r[k] == Envelope(k, WinnersAre(PlayersOf(TieBroken(winners)))))
            && (forall k :: 0 <= k < n ==> r[w + k] == Envelope(k, ChangesMade(ChangeList(submitted, n))))
            && (forall k :: 0 <= k < n ==> r[w + n + k] == Envelope(k, RobotsAt(views)))
            && (forall k :: 0 <= k < n ==> r[w + 2 * n + k] == Envelope(k, ProgramsAre(rules)))
  {
    WinnersOnlyOnWins(n, winners);
  }

  /** Messages appended one batch at a time are the messages of all batches appended at once. */
  lemma AppendAssociates(a: seq<Envelope>, b: seq<Envelope>, c: seq<Envelope>, d: seq<Envelope>, e: seq<Envelope>)
    ensures (((a + b) + c) + d) + e == a + (((b + c) + d) + e)
  {
  }

  /** Why join refused a player. */
  datatype JoinError = Full | AlreadyStarted

  /** The registry of games by code (the static Game.instances). */
  class Directory {
    var instances: map<string, Game>

    constructor ()
      ensures instances == map[]
    {
      instances := map[];
    }

    /** find: the game registered under code, absent when none is. */
    function Find(code: string): (g: Option<Game>)
      reads this
      ensures g.Some? <==> code in instances
      ensures g.Some? ==> g.value == instances[code]
    {
      if code in instances then Some(instances[code]) else None
    }
  }

  /** A game's components and their observable values at one moment. */
  datatype Snapshot = Snapshot(board: Board?, robots: seq<Robot>, programs: seq<Program>, players: seq<Player>,
                               goals: seq<Pos>, isStarted: bool, code: string,
                               poses: seq<Pose>, rules: seq<Rule>, outbox: seq<Envelope>, rounds: nat)

  /** The round that playing from s on the submitted Changes leads to. */
  ghost function RoundAfter(s: Snapshot, submitted: map<nat, Change>): Round {
    var rules := Consensus(s.rules, submitted.Values);
    if s.board != null && |rules| == 3 && AllOnBoard(s.board.grid, s.poses)
    then RoundUpTo(s.board.grid, rules, s.goals, s.poses, |s.poses|)
    else Round(s.poses, [], [])
  }

  /** The state of a started game: a board, three programs, and six robots well placed on the board. */
  ghost predicate InPlay(board: Board?, robots: seq<Robot>, programs: seq<Program>)
    reads robots, programs
  {
    board != null && board.Valid()
    && |programs| == 3 && (forall c :: 0 <= c < 3 ==> programs[c].color == c)
    && (forall i, j :: 0 <= i < j < |programs| ==> programs[i] != programs[j])
    && |robots| == 6 && (forall i, j :: 0 <= i < j < |robots| ==> robots[i] != robots[j])
    && WellPlaced(board.grid, PosesOf(robots))
  }

  /**
   * From s, every program took the consensus of the submitted Changes and
   * the robots moved in order as RoundUpTo specifies; winners are the wins.
   */
  ghost predicate Advanced(s: Snapshot, submitted: map<nat, Change>, winners: seq<Win>,
                           robots: seq<Robot>, programs: seq<Program>)
    reads robots, programs
  {
    s.board != null && |s.rules| == 3 && AllOnBoard(s.board.grid, s.poses) && |s.poses| == |robots|
    && RulesOf(programs) == Consensus(s.rules, submitted.Values)
    && var r := RoundAfter(s, submitted);
       PosesOf(robots) == r.poses && winners == r.winners
       && (forall i :: 0 <= i < |robots| ==> robots[i].intermediatePos == Some(r.halfway[i]))
  }

  class Game {
    var players: seq<Player>
    var isStarted: bool
    var code: string
    var board: Board?
    var robots: seq<Robot>
    var programs: seq<Program>
    /** The buffered Change of each player who has one, by roster position. */
    var changes: map<nat, Change>
    var goals: seq<Pos>
    /** Every message sent so far, in order. */
    var outbox: seq<Envelope>
    /** The number of rounds played. */
    ghost var rounds: nat

    /** The roster is numbered in order and holds one to six players; only they have buffered Changes. */
    ghost predicate Valid()
      reads this`players, this`changes, this`isStarted, this`board, this`robots, this`programs, this`goals, robots, programs
    {
      1 <= |players| <= MaxPlayers
      && (forall i :: 0 <= i < |players| ==> players[i] == Player(i, PlayerName(i)))
      && (forall p :: p in changes ==> p < |players|)
      && (!isStarted ==> changes == map[])
      && (!isStarted ==> board == null && robots == [] && programs == [] && goals == [])
      && (isStarted ==> InPlay(board, robots, programs))
    }

    /**
     * A game created by its first player, registered under code (the code
     * stands for the random bytes the game draws).
     */
    constructor (directory: Directory, code: string)
      modifies directory
      ensures Valid() && !isStarted && rounds == 0
      ensures players == [Player(0, "Player 1")] && this.code == code
      ensures directory.instances == old(directory.instances)[code := this]
      ensures outbox == [Envelope(0, YouAre(0, "Player 1")), Envelope(0, CodeOf(code))]
    {
      players := [];
      isStarted := false;
      this.code := "";
      board := null;
      robots := [];
      programs := [];
      changes := map[];
      goals := [];
      outbox := [];
      rounds := 0;
      new;
      assert PlayerName(0) == "Player 1";
      NewPlayer();
      GenerateCode(directory, code);
    }

    /** sendData to every player in the roster, in order. */
    method Emit(m: Message)
      modifies this`outbox
      ensures outbox == old(outbox) + Broadcast(|players|, m)
      ensures players == old(players) && isStarted == old(isStarted) && board == old(board)
      ensures robots == old(robots) && programs == old(programs) && changes == old(changes)
      ensures goals == old(goals) && code == old(code) && rounds == old(rounds)
    {
      for i := 0 to |players|
        invariant outbox == old(outbox) + Broadcast(i, m)
        invariant players == old(players) && isStarted == old(isStarted) && board == old(board)
        invariant robots == old(robots) && programs == old(programs) && changes == old(changes)
        invariant goals == old(goals) && code == old(code) && rounds == old(rounds)
      {
        outbox := outbox + [Envelope(i, m)];
      }
    }

    /** Registers the game under code and tells the players the code. */
    method GenerateCode(directory: Directory, code: string)
      modifies this, directory
      ensures this.code == code
      ensures directory.instances == old(directory.instances)[code := this]
      ensures outbox == old(outbox) + Broadcast(|players|, CodeOf(code))
      ensures players == old(players) && isStarted == old(isStarted) && board == old(board)
      ensures robots == old(robots) && programs == old(programs) && changes == old(changes)
      ensures goals == old(goals) && rounds == old(rounds)
    {
      this.code := code;
      directory.instances := directory.instances[code := this];
      Emit(CodeOf(code));
    }

    /**
     * Adds the next player: number = the roster's length, name `Player n+1`;
     * the players already there are told the name, then the new player is
     * told who they are.
     */
    method NewPlayer()
      modifies this
      ensures var n := |old(players)|;
              players == old(players) + [Player(n, PlayerName(n))]
              && outbox == old(outbox) + Broadcast(n, NameOf(n, PlayerName(n))) + [Envelope(n, YouAre(n, PlayerName(n)))]
      ensures isStarted == old(isStarted) && board == old(board) && robots == old(robots) && programs == old(programs)
      ensures changes == old(changes) && goals == old(goals) && code == old(code) && rounds == old(rounds)
    {
      var number := |players|;
      var name := PlayerName(number);
      Emit(NameOf(number, name));
      outbox := outbox + [Envelope(number, YouAre(number, name))];
      players := players + [Player(number, name)];
    }

    /**
     * join: refused as Full when six players are in (checked first), as
     * AlreadyStarted once the game has started; otherwise the newcomer is
     * told every player's name and added as the next player. A refused
     * join changes nothing.
     */
    method Join() returns (result: Option<JoinError>)
      requires Valid()
      modifies this
      ensures Valid()
      ensures old(|players|) >= MaxPlayers ==> result == Some(Full)
      ensures old(|players|) < MaxPlayers && old(isStarted) ==> result == Some(AlreadyStarted)
      ensures old(|players|) < MaxPlayers && !old(isStarted) ==> result == None
      ensures result.Some? ==> players == old(players) && outbox == old(outbox)
      ensures result.None? ==> var n := |old(players)|;
              !old(isStarted) && n < MaxPlayers
              && players == old(players) + [Player(n, PlayerName(n))]
              && outbox == old(outbox) + Introductions(old(players), n)
                           + Broadcast(n, NameOf(n, PlayerName(n))) + [Envelope(n, YouAre(n, PlayerName(n)))]
      ensures isStarted == old(isStarted) && board == old(board) && robots == old(robots) && programs == old(programs)
      ensures changes == old(changes) && goals == old(goals) && code == old(code) && rounds == old(rounds)
    {
      if |players| >= MaxPlayers {
        return Some(Full);
      }
      if isStarted {
        return Some(AlreadyStarted);
      }
      var newcomer := |players|;
      for i := 0 to |players|
        invariant outbox == old(outbox) + Introductions(old(players)[..i], newcomer)
        invariant players == old(players) && isStarted == old(isStarted) && changes == old(changes)
        invariant board == old(board) && robots == old(robots) && programs == old(programs)
        invariant goals == old(goals) && code == old(code) && rounds == old(rounds)
      {
        outbox := outbox + [Envelope(newcomer, NameOf(players[i].number, players[i].name))];
        assert Introductions(old(players)[..i + 1], newcomer)
            == Introductions(old(players)[..i], newcomer) + [Envelope(newcomer, NameOf(players[i].number, players[i].name))];
      }
      assert old(players)[..|players|] == old(players);
      NewPlayer();
      return None;
    }

    /**
     * start: draws the board from colors (the random choices), places the
     * six robots, sets up the three default programs and the goals for
     * the current number of players, and sends all of it to every player.
     */
    method Start(colors: seq<Color>)
      requires Valid()
      requires |colors| == CellCount
      modifies this
      ensures Valid() && isStarted
      ensures board != null && fresh(board)
      ensures forall k :: 0 <= k < CellCount ==> board.Get(CellAt(k).x, CellAt(k).y) == Some(colors[k])
      ensures PosesOf(robots) == StartPoses()
      ensures forall i :: 0 <= i < |robots| ==> fresh(robots[i]) && robots[i].intermediatePos == None
      ensures RulesOf(programs) == [DefaultRule(RED), DefaultRule(GREEN), DefaultRule(BLUE)]
      ensures goals == GoalTable[|players| - 1]
      ensures players == old(players) && changes == old(changes) && code == old(code) && rounds == old(rounds)
      ensures outbox == old(outbox) + Broadcast(|players|, BoardOf(board.grid))
                        + Broadcast(|players|, RobotsAt(Views(robots)))
                        + Broadcast(|players|, ProgramsAre(RulesOf(programs)))
                        + Broadcast(|players|, GoalsAt(goals))
    {
      SetUp(colors);
      Announce();
    }

    /** The state changes of start. */
    method SetUp(colors: seq<Color>)
      requires Valid()
      requires |colors| == CellCount
      modifies this
      ensures Valid() && isStarted
      ensures board != null && fresh(board)
      ensures forall k :: 0 <= k < CellCount ==> board.Get(CellAt(k).x, CellAt(k).y) == Some(colors[k])
      ensures PosesOf(robots) == StartPoses()
      ensures forall i :: 0 <= i < |robots| ==> fresh(robots[i]) && robots[i].intermediatePos == None
      ensures RulesOf(programs) == [DefaultRule(RED), DefaultRule(GREEN), DefaultRule(BLUE)]
      ensures goals == GoalTable[|players| - 1]
      ensures players == old(players) && changes == old(changes) && code == old(code)
      ensures rounds == old(rounds) && outbox == old(outbox)
    {
      var b := new Board(colors);
      var placed := Robot.Make6();
      var made := Program.Make3();
      assert PosesOf(placed) == StartPoses();
      assert RulesOf(made) == [DefaultRule(RED), DefaultRule(GREEN), DefaultRule(BLUE)];
      StartWellPlaced(b.grid);
      Install(b, placed, made);
    }

    /** Puts the new board, robots and programs in place, and the goals for this many players. */
    method Install(b: Board, placed: seq<Robot>, made: seq<Program>)
      requires Valid() && b.Valid()
      requires |placed| == 6 && (forall i, j :: 0 <= i < j < 6 ==> placed[i] != placed[j])
      requires WellPlaced(b.grid, PosesOf(placed))
      requires |made| == 3 && (forall i, j :: 0 <= i < j < 3 ==> made[i] != made[j])
      requires forall c :: 0 <= c < 3 ==> made[c].color == c
      modifies this
      ensures Valid() && isStarted && board == b && robots == placed && programs == made
      ensures goals == GoalTable[|players| - 1]
      ensures players == old(players) && changes == old(changes) && code == old(code)
      ensures rounds == old(rounds) && outbox == old(outbox)
    {
      isStarted, board, robots, programs, goals := true, b, placed, made, GoalTable[|players| - 1];
    }

    /** The four messages of start: board, robots, programs and goals. */
    method Announce()
      requires Valid() && isStarted
      modifies this
      ensures Valid()
      ensures players == old(players) && isStarted == old(isStarted) && board == old(board)
      ensures robots == old(robots) && programs == old(programs) && changes == old(changes)
      ensures goals == old(goals) && code == old(code) && rounds == old(rounds)
      ensures outbox == old(outbox) + Broadcast(|players|, BoardOf(board.grid))
                        + Broadcast(|players|, RobotsAt(Views(robots)))
                        + Broadcast(|players|, ProgramsAre(RulesOf(programs)))
                        + Broadcast(|players|, GoalsAt(goals))
    {
      Emit(BoardOf(board.grid));
      Emit(RobotsAt(Views(robots)));
      Emit(ProgramsAre(RulesOf(programs)));
      Emit(GoalsAt(goals));
    }

    /** The parts of the game a round starts from, as values. */
    ghost function Snap(): (s: Snapshot)
      reads this, robots, programs
      ensures s.poses == PosesOf(robots) && s.rules == RulesOf(programs)
    {
      Snapshot(board, robots, programs, players, goals, isStarted, code,
               PosesOf(robots), RulesOf(programs), outbox, rounds)
    }

    /**
     * The effect of a round, played from s on the changes submitted: every
     * program took the consensus of the submitted Changes, the six robots
     * moved in order as RoundUpTo specifies, the winners (if any) were
     * announced after the tie-break, then the Changes, robots and programs;
     * the buffer is empty.
     */
    ghost predicate RoundPlayed(submitted: map<nat, Change>, s: Snapshot)
      reads this, robots, programs
    {
      board == s.board && robots == s.robots && programs == s.programs
      && players == s.players && goals == s.goals && isStarted == s.isStarted && code == s.code
      && |robots| == 6 && Advanced(s, submitted, RoundAfter(s, submitted).winners, robots, programs)
      && changes == map[] && rounds == s.rounds + 1
      && outbox == s.outbox + RoundReport(|players|, RoundAfter(s, submitted).winners, submitted,
                                          Views(robots), RulesOf(programs))
    }

    /**
     * action: ignored before the game starts; otherwise the player's entry
     * in the buffer is replaced by the Change sent, or removed when what
     * was sent is not a valid Change, and a round is played exactly when
     * the buffer then holds as many entries as there are players.
     */
    method Action(player: nat, data: Json)
      requires Valid() && player < |players|
      modifies this, robots, programs
      ensures Valid()
      ensures !old(isStarted) ==> changes == old(changes) && outbox == old(outbox) && rounds == old(rounds)
                                  && Views(robots) == old(Views(robots)) && RulesOf(programs) == old(RulesOf(programs))
      ensures old(isStarted) ==>
                var buffered := Buffered(old(changes), player, data);
                if |buffered| == |players| then RoundPlayed(buffered, old(Snap()))
                else changes == buffered && outbox == old(outbox) && rounds == old(rounds)
                     && Views(robots) == old(Views(robots)) && RulesOf(programs) == old(RulesOf(programs))
      ensures players == old(players) && isStarted == old(isStarted) && board == old(board)
      ensures robots == old(robots) && programs == old(programs) && goals == old(goals) && code == old(code)
    {
      if isStarted {
        Buffer(player, data);
        if |changes| == |players| {
          var _ := DoRound();
        }
      }
    }

    /** The player's entry in the buffer becomes the Change sent, or goes when what was sent is not one. */
    method Buffer(player: nat, data: Json)
      requires Valid() && isStarted && player < |players|
      modifies this
      ensures Valid()
      ensures changes == Buffered(old(changes), player, data)
      ensures Snap() == old(Snap()) && Views(robots) == old(Views(robots))
    {
      match ParseChange(data)
        case Some(c) => changes := changes[player := c];
        case None => changes := changes - {player};
    }

    /**
     * doRound: refused (nothing changes) before the game starts; otherwise
     * plays the round on the buffered Changes.
     */
    method DoRound() returns (ok: bool)
      requires Valid()
      modifies this, robots, programs
      ensures Valid()
      ensures ok == old(isStarted)
      ensures !ok ==> changes == old(changes) && outbox == old(outbox) && rounds == old(rounds)
                      && Views(robots) == old(Views(robots)) && RulesOf(programs) == old(RulesOf(programs))
      ensures ok ==> RoundPlayed(old(changes), old(Snap()))
      ensures players == old(players) && isStarted == old(isStarted) && board == old(board)
      ensures robots == old(robots) && programs == old(programs) && goals == old(goals) && code == old(code)
    {
      if !isStarted {
        return false;
      }
      PlayRound();
      return true;
    }

    /** A round on the buffered Changes: programs, then robots, then the report; the buffer is emptied. */
    method PlayRound()
      requires Valid() && isStarted
      modifies this, robots, programs
      ensures Valid() && RoundPlayed(old(changes), old(Snap()))
    {
      ghost var s := Snap();
      var winners := Advance(s);
      Finish(winners);
    }

    /** The programs, then the robots, of a round played from s. */
    method Advance(ghost s: Snapshot) returns (winners: seq<Win>)
      requires Valid() && isStarted && s == Snap()
      modifies robots, programs
      ensures Valid() && Advanced(s, changes, winners, robots, programs)
    {
      ModifyPrograms();
      assert RulesOf(programs) == Consensus(s.rules, changes.Values) && PosesOf(robots) == s.poses;
      winners := MoveRobots();
    }

    /** The end of a round: the report, an empty buffer, one more round. */
    method Finish(winners: seq<Win>)
      requires Valid() && isStarted
      modifies this`outbox, this`changes, this`rounds
      ensures Valid()
      ensures outbox == old(outbox) + RoundReport(|players|, winners, old(changes), Views(robots), RulesOf(programs))
      ensures changes == map[] && rounds == old(rounds) + 1
      ensures players == old(players) && isStarted == old(isStarted) && board == old(board)
      ensures robots == old(robots) && programs == old(programs)
      ensures goals == old(goals) && code == old(code)
    {
      Report(winners);
      Clear();
    }

    /** The buffer empties and the round count goes up by one; the roster and the play are kept. */
    method Clear()
      requires Valid()
      modifies this`changes, this`rounds
      ensures Valid() && changes == map[] && rounds == old(rounds) + 1
    {
      changes, rounds := map[], rounds + 1;
    }

    /** Each program in turn takes the consensus of the buffered Changes. */
    method ModifyPrograms()
      requires Valid() && isStarted
      modifies programs
      ensures Valid()
      ensures RulesOf(programs) == Consensus(old(RulesOf(programs)), changes.Values)
      ensures PosesOf(robots) == old(PosesOf(robots))
    {
      var i := 0;
      while i < |programs|
        invariant i <= |programs|
        invariant Valid()
        invariant forall c :: 0 <= c < i ==> programs[c].Value() == Modified(old(programs[c].Value()), changes.Values)
        invariant forall c :: i <= c < |programs| ==> programs[c].Value() == old(programs[c].Value())
        invariant PosesOf(robots) == old(PosesOf(robots))
      {
        programs[i].Modify(changes.Values);
        i := i + 1;
      }
    }

    /** The robots move in order, each seeing the earlier ones where their moves left them; the wins, in robot order. */
    method MoveRobots() returns (winners: seq<Win>)
      requires InPlay(board, robots, programs)
      modifies robots
      ensures InPlay(board, robots, programs)
      ensures var r := RoundUpTo(board.grid, old(RulesOf(programs)), goals, old(PosesOf(robots)), |robots|);
              PosesOf(robots) == r.poses && winners == r.winners
              && forall i :: 0 <= i < |robots| ==> robots[i].intermediatePos == Some(r.halfway[i])
      ensures RulesOf(programs) == old(RulesOf(programs))
    {
      winners := MoveAll(board, RulesOf(programs), robots, goals);
    }

    /** The messages at the end of a round: winners after the tie-break (only if any), then the Changes, robots and programs. */
    method Report(winners: seq<Win>)
      modifies this`outbox
      ensures outbox == old(outbox) + RoundReport(|players|, winners, changes, Views(robots), RulesOf(programs))
      ensures players == old(players) && isStarted == old(isStarted) && board == old(board)
      ensures robots == old(robots) && programs == old(programs) && changes == old(changes)
      ensures goals == old(goals) && code == old(code) && rounds == old(rounds)
    {
      ghost var before := outbox;
      if |winners| > 0 {
        var kept := TieBreak(winners);
        Emit(WinnersAre(PlayersOf(kept)));
      }
      assert outbox == before + WinnerNews(|players|, winners);
      Emit(ChangesMade(ChangeList(changes, |players|)));
      Emit(RobotsAt(Views(robots)));
      Emit(ProgramsAre(RulesOf(programs)));
      AppendAssociates(before, WinnerNews(|players|, winners),
                       Broadcast(|players|, ChangesMade(ChangeList(changes, |players|))),
                       Broadcast(|players|, RobotsAt(Views(robots))),
                       Broadcast(|players|, ProgramsAre(RulesOf(programs))));
    }
  }

}

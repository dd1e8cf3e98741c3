# asteroid: the server-side game engine in Dafny

asteroid is a board game for up to six players. The board has 114
triangular cells: six triangles around each of 19 hexagon origins, and
each cell is red, green or blue. Six robots start on the triangles of the
centre hexagon. Three programs, one per colour, steer them. Each player has
a goal cell.

In every round each player submits one Change to one program. A Change
either sets the program's direction (`isRight`) or its exception colour.
Once every player has submitted, the programs take the consensus of the
Changes: an axis changes only when exactly one distinct value was
submitted for it. Then the robots move one after another, up to two
half-steps each; a robot that ends its first half-step on a goal takes no
second one. In a half-step a robot:

- reads the program of the colour it stands on;
- reverses the program's direction when the colour ahead is the program's
  exception (the colour underneath is used when ahead is off the board);
- then either moves one triangle and turns 60 degrees, or, when the target
  is off the board or taken by a robot, stays and turns 120 degrees.

A robot that ends a half-step on a player's goal, whether it moved or was
blocked and stayed, makes that player win. When winners
won at different half-steps, only the first-step winners count.

The model follows the two core files, `src/server/board.ts` and
`src/server/game.ts`, one module per class:

- `Boards` (board.dfy): the coordinate tables, the 15 x 10 grid filled by
  the constructor's loops, and `get`.
- `Programs` (program.dfy): the Change and the Program, with the consensus
  rule.
- `Robots` (robot.dfy): the half-step, a robot's move and a round, first
  as functions on poses, then the class `Robot`, whose methods are proved
  against those functions.
- `Rounds` (round.dfy): the robot loop of `doRound`. It belongs to `Game`,
  but sits in a module of its own so that its proof is checked apart from
  the rest of the Game class, which keeps each proof small.
- `Games` (game.dfy): the Game session (roster, start, action buffer,
  round, messages) and the goal table.
- `Fixtures` (fixtures.dfy): the scenarios of `spec/game.test.js`, stated
  as lemmas and methods about the model.

What the game sends (`emit`, `sendData`) is appended to an outbox of
`Envelope(to, message)` values. The random choices are parameters:

- the board's colours are a sequence of 114 colours, one per call of
  `Math.random`, in drawing order;
- the game code is a string.

## Model

| member | source | states |
|---|---|---|
| Boards.HexesDistinct | src/server/board.ts:83-93 | the 19 hexagon origins are pairwise distinct |
| Boards.TrianglesInHexagon | src/server/board.ts:96 | the six triangle offsets are distinct and lie in the 3 x 2 box left of and below the origin |
| Boards.CellAtInjective | src/server/board.ts:83-96 | two drawing-order indices of the 114 cells give the same coordinate only if they are equal, so the 114 cells are distinct |
| Boards.HexOfCellAt | src/server/board.ts:83-96 | the hexagon of every cell is recovered from the cell's coordinates alone |
| Boards.CellInGrid | src/server/board.ts:5-100 | every cell, shifted by (8, 5), indexes inside the 15 x 10 grid |
| Boards.CentreTrianglesAreCells | src/server/board.ts:88-96 | the six triangles around hexagon (0, 0) are cells of the board |
| Boards.DrawnGridIsBoard | src/server/board.ts:7-17 | a 15 x 10 grid holding the k-th colour at the k-th cell, and nothing where no cell lies, holds a colour exactly at the 114 cells |
| Boards.DrawCell | src/server/board.ts:11-14 | the assignment of the inner loop takes an array coloured for the first n cells in drawing order, and nothing else, to one coloured for the first n + 1 |
| Boards.PaintKeepsDrawn | src/server/board.ts:11-14 | writing the n-th colour at the n-th cell keeps the colours of the earlier cells, because no cell comes twice in the order |
| Boards.CellOrderFits | src/server/board.ts:83-96 | the 114 cells in drawing order index inside the 15 x 10 array once shifted by (8, 5), and no cell comes twice |
| Boards.HexagonInOrder | src/server/board.ts:9-10 | the six triangles of hexagon h are the cells h * 6 to h * 6 + 5 of the drawing order |
| Boards.CellOfHexagon | src/server/board.ts:9-10 | triangle t of hexagon h is drawn as cell number h * 6 + t |
| Boards.CopiedGridIsBoard | src/server/board.ts:5-17 | the grid copied from the fully coloured 2-D buffer has the board's shape and the k-th colour at the k-th cell |
| Boards.DrawHexagon | src/server/board.ts:10-15 | one pass of the inner loop colours the six triangles of a hexagon and keeps every cell already coloured |
| Boards.Board.constructor | src/server/board.ts:7-17 | the new board has its 15 x 10 shape, holds a colour exactly at the 114 cells, and holds the k-th random colour at the k-th cell |
| Boards.GridLookup | src/server/board.ts:21 | the lookup `#grid[x + 8]?.[y + 5]` is absent whenever the shifted column or row is outside the stored grid, and otherwise is the stored entry |
| Boards.Board.Get | src/server/board.ts:20-22 | get returns a colour exactly for the 114 cells, and absent (never a failure) for any other integer pair |
| Programs.VotesOneMore | src/server/game.ts:252-259 | taking one more Change into account adds its value to the votes of its own axis and colour only |
| Programs.Modified | src/server/game.ts:248-269 | the colour is kept; an axis takes the one value voted for this colour when exactly one distinct value was voted, and keeps its value otherwise |
| Programs.Settle | src/server/game.ts:262-268 | an axis takes the voted value when exactly one distinct value was voted, and otherwise keeps its value |
| Programs.ModifiedDirection | src/server/game.ts:263-265 | the direction becomes v when v is the only direction submitted for the colour; it changes only then; with no or two distinct votes it stays |
| Programs.ModifiedException | src/server/game.ts:266-268 | the exception becomes e when e is the only exception submitted for the colour; it changes only then; otherwise it stays |
| Programs.OtherColorsIgnored | src/server/game.ts:252-253 | Changes aimed at other colours never affect a program |
| Programs.AxesIndependent | src/server/game.ts:254-258 | direction Changes never affect the exception |
| Programs.NoChangesNoEffect | src/server/game.ts:248-269 | with no Changes a program stays as it is |
| Programs.ModifiedKeepsColor | src/server/game.ts:243 | a program's colour never changes |
| Programs.CollectVotes | src/server/game.ts:249-260 | the loop gathers exactly the distinct directions and exception colours submitted for the colour |
| Programs.Program.constructor | src/server/game.ts:240-245 | a new program turns right and has its own colour as exception |
| Programs.Program.Modify | src/server/game.ts:248-269 | modify leaves the program at the consensus of the Changes, per axis |
| Programs.Program.Make3 | src/server/game.ts:271-273 | make3 gives three distinct default programs, red, green and blue, in that order |
| Robots.JsRem | src/server/game.ts:227-228 | JavaScript's remainder: a differs from it by a multiple of b, and it lies in [0, b) for a non-negative dividend and in (-b, 0] for a non-positive one |
| Robots.Rotated | src/server/game.ts:226-229 | for a facing in [0, 6) the result stays in [0, 6) and equals (facing + amount) mod 6 |
| Robots.RotationUndone | src/server/game.ts:226-229 | rotating by an amount and then by its opposite restores the facing |
| Robots.PositionAfterStep | src/server/game.ts:191-199 | a step always leads to a different, adjacent coordinate |
| Robots.BiasesDiverge | src/server/game.ts:192-196 | the right and the left tables never lead to the same coordinate |
| Robots.Step | src/server/game.ts:201-215 | a half-step keeps the robot on the board with a facing in [0, 6), and never enters a coordinate another robot holds |
| Robots.StepTurns | src/server/game.ts:201-215 | with the effective bias, a blocked robot stays and turns two facings (back when the bias is right); otherwise it moves to the target and turns one facing the same way |
| Robots.StepAt | src/server/game.ts:188-215 | one half-step of robot i leaves every other robot where it was |
| Robots.StepAtKeepsWellPlaced | src/server/game.ts:206-215 | a half-step keeps every robot on a cell and no two robots on one cell |
| Robots.FirstGoal | src/server/game.ts:217-223 | the index found is a goal at the position with no earlier goal there; none is found only when no goal is there |
| Robots.FirstGoalIsLeast | src/server/game.ts:217-223 | the least index of a goal at the position is the one reported |
| Robots.SteeredByColourUnder | src/server/game.ts:189 | with the programs indexed by colour, a robot is steered by the program of the colour under it |
| Robots.BlockedByRobot | src/server/game.ts:206-207 | a target is blocked exactly when it has no colour or some robot's coordinates equal it, as `robots.some` tests |
| Robots.Bias | src/server/game.ts:201-203 | the program's direction is reversed exactly when the colour ahead is its exception, or, when ahead is off the board, the colour underneath is |
| Robots.TakeTurn | src/server/game.ts:174-185 | a move changes only robot i; a win is at step 0 or 1 on the winning player's goal; a step-0 win ends the move at the halfway pose |
| Robots.TurnOutcome | src/server/game.ts:174-185 | the halfway pose is the first half-step's; ending it on a goal wins at step 0 and ends the move; otherwise the second half-step is taken and wins at step 1 exactly when it ends on a goal; a win names the least player whose goal is there |
| Robots.TakeTurnKeepsWellPlaced | src/server/game.ts:174-185 | a move keeps every robot on a cell and no two robots on one cell |
| Robots.RoundUpTo | src/server/game.ts:104-109 | after the first n robots have moved, all robots are on the board, the later ones have not moved, and every win is at step 0 or 1 for an existing player |
| Robots.RoundKeepsWellPlaced | src/server/game.ts:104-109 | a round keeps every robot on a cell and no two robots on one cell |
| Robots.StartPoses | src/server/game.ts:231-233 | there is one starting pose per triangle offset |
| Robots.StartWellPlaced | src/server/game.ts:231-233 | the starting poses lie on distinct cells of any board, with valid facings |
| Robots.Robot.constructor | src/server/game.ts:171 | a new robot has the given pose and no intermediate position |
| Robots.Robot.Rotate | src/server/game.ts:226-229 | rotate changes only the facing, to Rotated(facing, amount) |
| Robots.Robot.MoveOnce | src/server/game.ts:188-224 | moveOnce leaves the robot at the half-step Step specifies (seeing every robot where it stands) and returns the least goal index at its new position |
| Robots.Robot.Move | src/server/game.ts:174-185 | move leaves the robot where TakeTurn puts it, records the pose after the first half-step, and returns TakeTurn's win |
| Robots.Robot.Make6 | src/server/game.ts:231-233 | make6 gives six distinct new robots at the starting poses, robot i facing direction i |
| Rounds.MoveAll | src/server/game.ts:102-109 | the robots move in order, each seeing the earlier ones where they ended; poses, halfway poses and wins are those of RoundUpTo, and robots on distinct cells stay on distinct cells |
| Rounds.MoveNth | src/server/game.ts:104-108 | moving robot i extends the round so far by exactly robot i's move |
| Games.GoalTableFits | src/server/game.ts:151-158 | for 1 to 6 players there is one goal per player, on distinct cells of the board |
| Games.GoalsAreCells | src/server/game.ts:151-158 | the six goal coordinates are cells of the board |
| Games.ColorOf | src/server/game.ts:76-77 | a JSON value is accepted as a colour exactly when it is one of the numbers RED, GREEN, BLUE, and the colour is that number |
| Games.ParseChange | src/server/game.ts:75-77 | an action is accepted exactly when it is an array whose first element is a colour and whose second is a colour or a boolean |
| Games.ParseChangeJson | src/server/game.ts:75-78 | every Change a player can send is accepted as itself |
| Games.ParsedIsPrefix | src/server/game.ts:75-78 | what is accepted is the Change spelled by the first two elements |
| Games.Buffered | src/server/game.ts:75-81 | a valid Change replaces the player's entry, an invalid action removes it, and every other player's entry stays |
| Games.BufferComplete | src/server/game.ts:83-86 | with entries only for players 0 to n - 1, the buffer has n entries exactly when every player has one |
| Games.FirstStepOnly | src/server/game.ts:117 | the filter keeps exactly the step-0 winners |
| Games.FirstStepOnlyKeepsOrder | src/server/game.ts:117 | the filter keeps robot order: filtering a concatenation filters each part, and one winner is kept exactly when it won at step 0 |
| Games.TieBreakCuts | src/server/game.ts:113-120 | the winners are sent as they are exactly when all won at the same step; the tie-break only ever drops winners |
| Games.EarliestWinnersKept | src/server/game.ts:111-120 | with steps 0 and 1 only, the tie-break keeps exactly the winners of the earliest step, and at least one |
| Games.TieBreak | src/server/game.ts:113-120 | the loop keeps all winners when their steps agree and only the step-0 winners otherwise |
| Games.PlayersOf | src/server/game.ts:121 | the players named by the winners, in order |
| Games.Broadcast | src/server/game.ts:139-143 | emit sends the message once to each player, in roster order |
| Games.Introductions | src/server/game.ts:32-34 | a newcomer is told the number and name of each player already in, in order |
| Games.ChangeList | src/server/game.ts:125 | the changes message holds each player's buffered Change in roster order, absent exactly where there is none |
| Games.Views | src/server/game.ts:126 | the robots message holds each robot's pose and intermediate position, in order |
| Games.Consensus | src/server/game.ts:97-99 | every program takes the consensus of the buffered Changes |
| Games.Directory.constructor | src/server/game.ts:149 | the registry starts empty |
| Games.Directory.Find | src/server/game.ts:145-147 | find returns the game registered under the code, and nothing when none is |
| Games.Game.constructor | src/server/game.ts:12-21 | the creator becomes Player 1, is told so, the game registers under its code and the code is sent; the game is not started, so (by the invariant) it has no board, robots, programs or goals yet |
| Games.Game.Emit | src/server/game.ts:139-143 | emit appends the message for every player, in order, and changes nothing else |
| Games.Game.GenerateCode | src/server/game.ts:132-136 | the game is registered under the code and the code is sent to every player |
| Games.PlayerNamesDistinct | src/server/game.ts:42 | the name `Player ${number + 1}` differs for different numbers |
| Games.DecimalInjective | src/server/game.ts:42 | different numbers have different decimal spellings |
| Games.Game.NewPlayer | src/server/game.ts:40-47 | the new player gets number = roster length and name `Player n+1`; the others are told the name, then the new player is told who they are |
| Games.Game.Join | src/server/game.ts:24-38 | join answers Full at six players (checked first), AlreadyStarted once started, and otherwise introduces the roster and adds the next player; a refused join changes nothing |
| Games.Game.Start | src/server/game.ts:59-70 | start draws the board, places the robots at the starting poses, sets the default programs and the goals for this many players, and sends board, robots, programs and goals |
| Games.Game.SetUp | src/server/game.ts:59-64 | the state changes of start, with the robots well placed on the new board |
| Games.Game.Install | src/server/game.ts:60-64 | the game is started with the given board, robots and programs and the goals for this many players |
| Games.Game.Announce | src/server/game.ts:66-69 | the four messages of start, in order |
| Games.Game.Action | src/server/game.ts:73-88 | before start nothing changes (buffer, outbox, robots, programs, code); after it the buffer is updated as Buffered says, and a round is played exactly when the buffer then has one entry per player |
| Games.Game.Buffer | src/server/game.ts:75-81 | the buffer becomes Buffered(changes, player, data); nothing else that a round reads changes |
| Games.Game.DoRound | src/server/game.ts:91-130 | before start it is refused and nothing changes; otherwise a round is played on the buffered Changes |
| Games.Game.PlayRound | src/server/game.ts:96-129 | programs take the consensus, the robots move in order as RoundUpTo specifies, the report is sent, the buffer is emptied, and the game stays valid |
| Games.Game.Advance | src/server/game.ts:96-109 | programs take the consensus, then the robots move as RoundUpTo specifies on the new programs |
| Games.Game.Finish | src/server/game.ts:111-129 | the report is sent and the buffer is emptied |
| Games.Game.Clear | src/server/game.ts:129 | clearing the buffer keeps the game's invariant and leaves the buffer empty |
| Games.Game.ModifyPrograms | src/server/game.ts:97-99 | every program takes the consensus of the buffered Changes; the robots do not move |
| Games.Game.MoveRobots | src/server/game.ts:101-109 | the robots move as RoundUpTo specifies and stay well placed; the programs do not change |
| Games.WinnersOnlyOnWins | src/server/game.ts:113-122 | the winners message reaches every player exactly when someone won, and names the players the tie-break keeps, in robot order |
| Games.ReportReachesEveryone | src/server/game.ts:111-127 | the end-of-round messages are the winners (only if any), the Changes, the robots and the programs, each sent to players 0 .. n - 1 in order |
| Games.Game.Report | src/server/game.ts:111-128 | the winners after the tie-break are sent only when there is one, then the Changes, the robots and the programs |
| Fixtures.MovesRobots | spec/game.test.js:113-135 | with the example grid and programs, the robots end at the poses the test expects, and no one wins |
| Fixtures.StepsOnGoal | spec/game.test.js:188-207 | a robot reaching goal 1 in its first half-step wins for player 1 with two players, and wins nothing with three |
| Fixtures.UpdatesPrograms | spec/game.test.js:69-94 | the Changes of the test leave red turning left, green with blue as exception, and blue unchanged |
| Fixtures.TieBreaks | spec/game.test.js:137-186 | a step-0 winner beats a step-1 winner; two step-1 winners tie, in robot order |
| Fixtures.BuffersActions | spec/game.test.js:58-67 | an invalid action removes the player's entry and a string is not a Change |
| Fixtures.AcceptsActions | spec/game.test.js:50-56 | with two players, the first action leaves one entry and the second completes the buffer |
| Fixtures.JoinsUpToSix | spec/game.test.js:17-22 | five joins after the creator succeed and the sixth is refused as full |
| Fixtures.StartsThenRefuses | spec/game.test.js:24-29 | after start the board has been sent and a join is refused as already started |

## Left out

- `Board.toSVG`, `isDown` and `toCartesian` are left out: they only draw the board. The `board` message carries the grid of colours instead of the drawing.
- `Math.random` is not modelled. The board constructor takes the 114 colours as a parameter.
- `randomBytes` is not modelled. The game code is a string parameter.
- `Game.instances` is a `Directory` object passed to the constructor rather than a static field.
- Games.Game.GenerateCode: like `Game.instances.set` (game.ts:132-136), a new game whose code is already registered replaces the earlier game in the directory. Codes are not promised unique; the random bytes that make a collision unlikely are not modelled.
- Connection objects are not modelled. A player is their position in the roster, and `sendData` appends an `Envelope` to the game's outbox. Message delivery, the WebSocket layer and the client code are left out.
- `nameChange` is left out: nothing calls it, and only `newPlayer` (game.ts:42) sets a name.
- Games.Game.DoRound: the source throws when called before start. The model instead returns `ok == false` and changes nothing. `Action` never reaches that path.
- Games.Buffered: the source buffers the action array itself, extra elements included, and later sends it back in the `changes` message. The model keeps only the Change made of the first two elements.
- Games.ParseChange: JSON numbers are integers here; fractions, strings, objects and `null` are all `JOther`, which the source rejects too.
- Robots.Robot.Move: the source passes the whole Game. The model passes its parts: the board, the programs' values, the robots and the goals.
- Robots.Robot.MoveOnce: the source indexes `programs` with the colour under the robot and would fail if the robot were off the board. The model requires the robot to be on the board, and the game's invariant guarantees it.
- Coordinates and facings are JavaScript numbers in the source. They are unbounded integers here; every value the game reaches is small.
- The buffer is keyed by Connection in the source, so a test can add entries for strangers. The model keys it by roster position; `Fixtures.UpdatesPrograms` applies the test's Changes to `Consensus` directly.
- `rounds` is a ghost counter of rounds played; the source has none.
- Player removal, host hand-off, restart, an `isDone` flag and `ready` messages have no code in `game.ts`. They are not modelled.
- The goals message is the goal list in player order; the changes message lists each player's buffered Change in roster order.
- Steps are only 0 or 1, so keeping the step-0 winners keeps exactly the earliest step's winners (`Games.EarliestWinnersKept`).

/**
 * The three movement programs (class Program in src/server/game.ts), one per
 * colour, and the per-player Change that players submit each round.
 */
module Programs {
  import opened Boards

  /** The second component of a Change: a colour re-targets the exception, a boolean the direction. */
  datatype ChangeValue = ToException(exception: Color) | ToDirection(isRight: bool)

  /** A Change [colour, value]: what one player wants done to the program of that colour. */
  datatype Change = Change(color: Color, value: ChangeValue)

  /** The observable value of a Program. */
  datatype Rule = Rule(color: Color, isRight: bool, exception: Color)

  /** The default program of a colour: turn right, with its own colour as the exception. */
  function DefaultRule(color: Color): Rule {
    Rule(color, true, color)
  }

  /** The direction values submitted for the program of the given colour. */
  function DirectionVotes(changes: set<Change>, color: Color): set<bool> {
    set c | c in changes && c.color == color && c.value.ToDirection? :: c.value.isRight
  }

  /** The exception colours submitted for the program of the given colour. */
  function ExceptionVotes(changes: set<Change>, color: Color): set<Color> {
    set c | c in changes && c.color == color && c.value.ToException? :: c.value.exception
  }

  /** Taking one more change into account adds at most its own value to the votes of its axis. */
  lemma VotesOneMore(seen: set<Change>, c: Change, color: Color)
    ensures DirectionVotes(seen + {c}, color) ==
      DirectionVotes(seen, color) + (if c.color == color && c.value.ToDirection? then {c.value.isRight} else {})
    ensures ExceptionVotes(seen + {c}, color) ==
      ExceptionVotes(seen, color) + (if c.color == color && c.value.ToException? then {c.value.exception} else {})
  {
  }

  /** The consensus rule for one axis: the single value voted, if exactly one distinct value was; else the current one. */
  ghost function Settle<T>(votes: set<T>, current: T): (v: T)
    ensures |votes| == 1 ==> votes == {v}
    ensures |votes| != 1 ==> v == current
  {
    if |votes| == 1 then
      var x :| x in votes;
      assert votes == {x} by {
        assert |votes - {x}| == 0;
      }
      x
    else current
  }

  /** A program after one round's consensus over all buffered changes. */
  ghost function Modified(r: Rule, changes: set<Change>): (m: Rule)
    ensures m.color == r.color
    ensures |DirectionVotes(changes, r.color)| == 1 ==> DirectionVotes(changes, r.color) == {m.isRight}
    ensures |DirectionVotes(changes, r.color)| != 1 ==> m.isRight == r.isRight
    ensures |ExceptionVotes(changes, r.color)| == 1 ==> ExceptionVotes(changes, r.color) == {m.exception}
    ensures |ExceptionVotes(changes, r.color)| != 1 ==> m.exception == r.exception
  {
    Rule(r.color,
         Settle(DirectionVotes(changes, r.color), r.isRight),
         Settle(ExceptionVotes(changes, r.color), r.exception))
  }

  /** The direction is set to v exactly when v is the only direction submitted for this colour. */
  lemma ModifiedDirection(r: Rule, changes: set<Change>, v: bool)
    ensures DirectionVotes(changes, r.color) == {v} ==> Modified(r, changes).isRight == v
    ensures Modified(r, changes).isRight != r.isRight ==> DirectionVotes(changes, r.color) == {Modified(r, changes).isRight}
    ensures |DirectionVotes(changes, r.color)| != 1 ==> Modified(r, changes).isRight == r.isRight
  {
  }

  /** The exception is set to e exactly when e is the only exception colour submitted for this colour. */
  lemma ModifiedException(r: Rule, changes: set<Change>, e: Color)
    ensures ExceptionVotes(changes, r.color) == {e} ==> Modified(r, changes).exception == e
    ensures Modified(r, changes).exception != r.exception ==> ExceptionVotes(changes, r.color) == {Modified(r, changes).exception}
    ensures |ExceptionVotes(changes, r.color)| != 1 ==> Modified(r, changes).exception == r.exception
  {
  }

  /** Changes aimed at other colours never affect a program. */
  lemma OtherColorsIgnored(r: Rule, changes: set<Change>, others: set<Change>)
    requires forall c :: c in others ==> c.color != r.color
    ensures Modified(r, changes + others) == Modified(r, changes)
  {
    assert DirectionVotes(changes + others, r.color) == DirectionVotes(changes, r.color);
    assert ExceptionVotes(changes + others, r.color) == ExceptionVotes(changes, r.color);
  }

  /** Changes on one axis never affect the other axis. */
  lemma AxesIndependent(r: Rule, changes: set<Change>, directions: set<Change>)
    requires forall c :: c in directions ==> c.value.ToDirection?
    ensures Modified(r, changes + directions).exception == Modified(r, changes).exception
  {
    assert ExceptionVotes(changes + directions, r.color) == ExceptionVotes(changes, r.color);
  }

  /** With no changes a program stays as it is. */
  lemma NoChangesNoEffect(r: Rule)
    ensures Modified(r, {}) == r
  {
    assert DirectionVotes({}, r.color) == {};
    assert ExceptionVotes({}, r.color) == {};
  }

  /** The program's colour never changes. */
  lemma ModifiedKeepsColor(r: Rule, changes: set<Change>)
    ensures Modified(r, changes).color == r.color
  {
  }

  /** The loop of Program.modify that gathers, per axis, the distinct values submitted for one colour. */
  method CollectVotes(changes: set<Change>, color: Color) returns (dirChange: set<bool>, colorChange: set<Color>)
    ensures dirChange == DirectionVotes(changes, color)
    ensures colorChange == ExceptionVotes(changes, color)
  {
    dirChange, colorChange := {}, {};
    var rest := changes;
    while rest != {}
      invariant rest <= changes
      invariant dirChange == DirectionVotes(changes - rest, color)
      invariant colorChange == ExceptionVotes(changes - rest, color)
      decreases rest
    {
      var c :| c in rest;
      VotesOneMore(changes - rest, c, color);
      if c.color == color {
        if c.value.ToDirection? {
          dirChange := dirChange + {c.value.isRight};
        } else {
          colorChange := colorChange + {c.value.exception};
        }
      }
      assert changes - (rest - {c}) == (changes - rest) + {c};
      rest := rest - {c};
    }
    assert changes - rest == changes;
  }

  /** The observable values of the given programs, in order. */
  function RulesOf(programs: seq<Program>): (rules: seq<Rule>)
    reads programs
    ensures |rules| == |programs|
    ensures forall i :: 0 <= i < |programs| ==> rules[i] == programs[i].Value()
  {
    seq(|programs|, i reads programs requires 0 <= i < |programs| => programs[i].Value())
  }

  class Program {
    const color: Color
    var isRight: bool
    var exception: Color

    function Value(): (r: Rule)
      reads this
    {
      Rule(color, isRight, exception)
    }

    constructor (color: Color)
      ensures Value() == DefaultRule(color)
    {
      this.color := color;
      isRight := true;
      exception := color;
    }

    /**
     * Collects the distinct values submitted for this program's colour, per
     * axis, and takes a value over only when it is the single one on its axis.
     */
    method Modify(changes: set<Change>)
      modifies this
      ensures Value() == Modified(old(Value()), changes)
    {
      var dirChange, colorChange := CollectVotes(changes, color);
      if |dirChange| == 1 {
        var v :| v in dirChange;
        assert dirChange == {v} by {
          assert |dirChange - {v}| == 0;
        }
        isRight := v;
      }
      assert isRight == Settle(dirChange, old(isRight));
      if |colorChange| == 1 {
        var v :| v in colorChange;
        assert colorChange == {v} by {
          assert |colorChange - {v}| == 0;
        }
        exception := v;
      }
      assert exception == Settle(colorChange, old(exception));
    }

    /** The three programs, red, green and blue, in that order, with default settings. */
    static method Make3() returns (programs: seq<Program>)
      ensures |programs| == 3
      ensures forall i :: 0 <= i < 3 ==> fresh(programs[i]) && programs[i].Value() == DefaultRule(i)
      ensures forall i, j :: 0 <= i < j < 3 ==> programs[i] != programs[j]
    {
      var red := new Program(RED);
      var green := new Program(GREEN);
      var blue := new Program(BLUE);
      programs := [red, green, blue];
    }
  }
}

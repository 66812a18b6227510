/** The five-move game of the repository's tests, played in both variants on
    a 3 by 3 board: blue S at (0,0), red S at (1,0), blue O at (0,1), red O
    at (1,1), blue S at (0,2). Blue's last move completes the top row. */
module Scenarios {
  import opened Grid
  import opened Board
  import opened Detector
  import opened Letters
  import opened Rules

  function TestMoves(): seq<Move> {
    [Move(0, 0, "S"), Move(1, 0, "S"), Move(0, 1, "O"), Move(1, 1, "O"), Move(0, 2, "S")]
  }

  /** The cell `(i, j)` after the first `k` test moves. */
  function TestCell(k: nat, i: int, j: int): Option<Letter> {
    if k >= 1 && i == 0 && j == 0 then Some(S)
    else if k >= 2 && i == 1 && j == 0 then Some(S)
    else if k >= 3 && i == 0 && j == 1 then Some(O)
    else if k >= 4 && i == 1 && j == 1 then Some(O)
    else if k >= 5 && i == 0 && j == 2 then Some(S)
    else None
  }

  /** With no "O" next to `(r, c)` no line can start there. */
  lemma NoLineWithoutNeighbouringO(b: Board, r: int, c: int)
    requires Shaped(b)
    requires forall dr, dc :: IsDirection(dr, dc) ==> GetCell(b, r + dr, c + dc) != Some(O)
    ensures CheckForSos(b, r, c) == []
  {
  }

  /** A duplicate-free list whose only member is `x` is `[x]`. */
  lemma OnlyMember(lines: seq<Line>, x: Line)
    requires Distinct(lines)
    requires forall l :: l in lines <==> l == x
    ensures lines == [x]
  {
    DistinctCard(lines);
    assert (set l | l in lines) == {x};
    assert lines[0] in lines;
  }

  /** A duplicate-free list has as many members as entries. */
  lemma {:induction false} DistinctCard(lines: seq<Line>)
    requires Distinct(lines)
    ensures |set l | l in lines| == |lines|
  {
    if lines != [] {
      DistinctCard(lines[1..]);
      assert (set l | l in lines) == {lines[0]} + (set l | l in lines[1..]);
      assert lines[0] !in lines[1..];
    }
  }

  /** The game after move `m`. */
  function After(g: Game, m: Move): (g': Game)
    requires Shaped(g.board)
    ensures Shaped(g'.board)
  {
    MakeMove(g, m.r, m.c, m.letter).game
  }

  /** A move to an empty cell of an unfinished game is accepted and adds its
      letter there. */
  lemma TestStep(g: Game, k: nat, r: int, c: int, letter: string, l: Letter)
    requires Shaped(g.board) && g.board.size == 3 && !g.over
    requires forall i, j :: GetCell(g.board, i, j) == TestCell(k, i, j)
    requires letter == LetterText(l) && 0 <= r < 3 && 0 <= c < 3 && TestCell(k, r, c) == None
    requires forall i, j :: TestCell(k + 1, i, j) == (if i == r && j == c then Some(l) else TestCell(k, i, j))
    ensures var o := MakeMove(g, r, c, letter);
      && o.accepted
      && (forall i, j :: GetCell(o.game.board, i, j) == TestCell(k + 1, i, j))
      && o.game.lastLines == CheckForSos(o.game.board, r, c)
  {
    assert ParseLetter(letter) == Some(l) by {
      ParseLetterText(l, []);
    }
    assert CellEmpty(g.board, r, c);
  }

  /** The fifth test move completes the top row, reported from the cell just
      played back to the first. */
  lemma LastMoveFormsTopRow(b: Board)
    requires Shaped(b)
    requires forall i, j :: GetCell(b, i, j) == TestCell(5, i, j)
    ensures CheckForSos(b, 0, 2) == [Line(0, 2, 0, 0)]
  {
    var lines := CheckForSos(b, 0, 2);
    assert SosAt(b, 0, 2, 0, -1);
    assert IsSosLine(b, Line(0, 2, 0, 0));
    forall l | l in lines
      ensures l == Line(0, 2, 0, 0)
    {
      var (dr, dc) := Half(l);
      assert GetCell(b, dr, 2 + dc) == Some(O);
      assert GetCell(b, 2 * dr, 2 + 2 * dc) == Some(S);
    }
    OnlyMember(lines, Line(0, 2, 0, 0));
  }

  /** A run of at least one move is its first move followed by the rest. */
  lemma RunFirst(g: Game, moves: seq<Move>)
    requires Shaped(g.board) && moves != []
    ensures Run(g, moves) == Run(After(g, moves[0]), moves[1..])
  {
  }

  /** The letter of the `k`-th test move. */
  function TestLetter(k: nat): Letter {
    if k == 2 || k == 3 then O else S
  }

  /** An unfinished game of side three holding the first `k` test moves,
      with the player of move `k` to move and no line completed so far. */
  ghost predicate AtStep(g: Game, k: nat) {
    && Shaped(g.board) && g.board.size == 3 && !g.over
    && (forall i, j :: GetCell(g.board, i, j) == TestCell(k, i, j))
    && g.turn == (if k == 0 || k == 2 || k == 4 then Blue else Red)
    && g.moveCount == k
  }

  /** Test move `k` (one of the first four) is accepted and completes no
      line. */
  lemma QuietMove(g: Game, k: nat)
    requires AtStep(g, k) && k < 4
    ensures var o := MakeMove(g, TestMoves()[k].r, TestMoves()[k].c, TestMoves()[k].letter);
      && o.accepted
      && (forall i, j :: GetCell(o.game.board, i, j) == TestCell(k + 1, i, j))
      && o.game.lastLines == []
  {
    var m := TestMoves()[k];
    TestStep(g, k, m.r, m.c, m.letter, TestLetter(k));
    var h := MakeMove(g, m.r, m.c, m.letter).game;
    if k < 2 {
      NoLineWithoutNeighbouringO(h.board, m.r, m.c);
    } else {
      assert GetCell(h.board, m.r, m.c) == Some(O);
    }
  }

  /** The first four moves of the simple game: nobody wins, the turn
      passes. */
  lemma SimpleQuietStep(g: Game, k: nat)
    requires AtStep(g, k) && k < 4 && g.variant == Simple(None)
    ensures var h := After(g, TestMoves()[k]);
      AtStep(h, k + 1) && h.variant == g.variant
  {
    var m := TestMoves()[k];
    QuietMove(g, k);
    var o := SimpleMove(g, m.r, m.c, m.letter);
    assert o == MakeMove(g, m.r, m.c, m.letter);
    assert o.game.moveCount == k + 1;
  }

  /** The first four moves of the general game: nobody scores, the turn
      passes. */
  lemma GeneralQuietStep(g: Game, k: nat)
    requires AtStep(g, k) && k < 4 && g.variant == General(0, 0)
    ensures var h := After(g, TestMoves()[k]);
      AtStep(h, k + 1) && h.variant == g.variant
  {
    var m := TestMoves()[k];
    QuietMove(g, k);
    var o := GeneralMove(g, m.r, m.c, m.letter);
    assert o == MakeMove(g, m.r, m.c, m.letter);
    assert o.game.moveCount == k + 1;
    assert !IsBoardFull(o.game);
    assert Score(o.game, Blue) == 0 && Score(o.game, Red) == 0 by {
      assert Score(o.game, g.turn) == 0;
      assert Score(o.game, Toggle(g.turn)) == 0;
    }
  }

  /** The fifth test move is accepted and completes the top row. */
  lemma LastStep(g: Game)
    requires AtStep(g, 4)
    ensures var o := MakeMove(g, 0, 2, "S");
      && o.accepted
      && GetCell(o.game.board, 0, 2) == Some(S)
      && o.game.lastLines == [Line(0, 2, 0, 0)]
  {
    TestStep(g, 4, 0, 2, "S", S);
    LastMoveFormsTopRow(MakeMove(g, 0, 2, "S").game.board);
  }

  /** Blue's top row wins the simple game; blue keeps the turn. */
  lemma SimpleLastStep(g: Game)
    requires AtStep(g, 4) && g.variant == Simple(None)
    ensures var h := After(g, TestMoves()[4]);
      && h.over && h.variant == Simple(Some(Blue)) && h.turn == Blue
      && h.lastPlayer == Some(Blue) && h.lastLines == [Line(0, 2, 0, 0)]
      && GetCell(h.board, 0, 2) == Some(S)
  {
    LastStep(g);
    assert MakeMove(g, 0, 2, "S") == SimpleMove(g, 0, 2, "S");
  }

  /** Blue's top row scores one in the general game; the turn passes to red
      and the game goes on. */
  lemma GeneralLastStep(g: Game)
    requires AtStep(g, 4) && g.variant == General(0, 0)
    ensures var h := After(g, TestMoves()[4]);
      && !h.over && Score(h, Blue) == 1 && Score(h, Red) == 0 && h.turn == Red
      && h.lastPlayer == Some(Blue) && h.lastLines == [Line(0, 2, 0, 0)]
      && GetCell(h.board, 0, 2) == Some(S)
  {
    LastStep(g);
    var o := GeneralMove(g, 0, 2, "S");
    assert MakeMove(g, 0, 2, "S") == o;
    assert o.game.moveCount == 5;
    assert !IsBoardFull(o.game);
  }

  /** The simple game from step `k` on: blue's fifth move ends it. */
  lemma {:induction false} SimpleFrom(g: Game, k: nat)
    requires AtStep(g, k) && k <= 4 && g.variant == Simple(None)
    ensures var h := Run(g, TestMoves()[k..]);
      && h.over && h.variant == Simple(Some(Blue)) && h.turn == Blue
      && h.lastPlayer == Some(Blue) && h.lastLines == [Line(0, 2, 0, 0)]
      && GetCell(h.board, 0, 2) == Some(S)
    decreases 4 - k
  {
    RunFirst(g, TestMoves()[k..]);
    assert TestMoves()[k..][1..] == TestMoves()[k + 1..];
    if k < 4 {
      SimpleQuietStep(g, k);
      SimpleFrom(After(g, TestMoves()[k]), k + 1);
    } else {
      SimpleLastStep(g);
    }
  }

  /** The general game from step `k` on: blue's fifth move scores one. */
  lemma {:induction false} GeneralFrom(g: Game, k: nat)
    requires AtStep(g, k) && k <= 4 && g.variant == General(0, 0)
    ensures var h := Run(g, TestMoves()[k..]);
      && !h.over && Score(h, Blue) == 1 && Score(h, Red) == 0 && h.turn == Red
      && h.lastPlayer == Some(Blue) && h.lastLines == [Line(0, 2, 0, 0)]
      && GetCell(h.board, 0, 2) == Some(S)
    decreases 4 - k
  {
    RunFirst(g, TestMoves()[k..]);
    assert TestMoves()[k..][1..] == TestMoves()[k + 1..];
    if k < 4 {
      GeneralQuietStep(g, k);
      GeneralFrom(After(g, TestMoves()[k]), k + 1);
    } else {
      GeneralLastStep(g);
    }
  }

  /** A first move of the simple game is accepted, puts its letter down and
      passes the turn to red. */
  lemma SimpleFirstMove()
    ensures var o := MakeMove(NewSimple(3), 0, 0, "S");
      && o.accepted && GetCell(o.game.board, 0, 0) == Some(S) && o.game.turn == Red && !o.game.over
  {
    SimpleQuietStep(NewSimple(3), 0);
    QuietMove(NewSimple(3), 0);
  }

  /** The simple game of the tests: blue's top row ends the game, blue wins
      and keeps the turn. */
  lemma SimpleScenario()
    ensures var g := Run(NewSimple(3), TestMoves());
      && g.over && g.variant == Simple(Some(Blue)) && g.turn == Blue
      && g.lastPlayer == Some(Blue) && g.lastLines == [Line(0, 2, 0, 0)]
      && GetCell(g.board, 0, 2) == Some(S)
  {
    assert TestMoves()[0..] == TestMoves();
    SimpleFrom(NewSimple(3), 0);
  }

  /** The general game of the tests: blue scores one for the top row, the
      turn passes to red anyway, and the game goes on. */
  lemma GeneralScenario()
    ensures var g := Run(NewGeneral(3), TestMoves());
      && !g.over && Score(g, Blue) == 1 && Score(g, Red) == 0 && g.turn == Red
      && g.lastPlayer == Some(Blue) && g.lastLines == [Line(0, 2, 0, 0)]
      && GetCell(g.board, 0, 2) == Some(S)
  {
    assert TestMoves()[0..] == TestMoves();
    GeneralFrom(NewGeneral(3), 0);
  }
}

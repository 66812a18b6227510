/** Applying a move. Both variants reject a move, changing nothing, when the
    game is over, the letter is not S or O, or the cell is off the board or
    filled; otherwise they place the letter for the player to move and run
    the line detector. The simple game then ends at the first line, keeping
    the turn; the general game credits each line to the mover, always passes
    the turn and ends once the move counter reaches the number of cells. */
module Rules {
  import opened Grid
  import opened Board
  import opened Detector
  import opened Letters

  /** Why a move was refused; the game itself only reports refusal. */
  datatype MoveError = GameAlreadyOver | InvalidLetter | InvalidMove

  datatype Outcome = Outcome(accepted: bool, game: Game)

  datatype Move = Move(r: int, c: int, letter: string)

  /** The reason a move is refused, checked in the order the game checks:
      the game-over flag first, then the letter and the target cell. */
  function Rejection(g: Game, r: int, c: int, letter: string): (e: Option<MoveError>)
    requires Shaped(g.board)
    ensures e == None <==> !g.over && ParseLetter(letter).Some? && CellEmpty(g.board, r, c)
    ensures e == Some(GameAlreadyOver) <==> g.over
    ensures e == Some(InvalidLetter) <==> !g.over && ParseLetter(letter).None?
    ensures e == Some(InvalidMove) <==> !g.over && ParseLetter(letter).Some? && !CellEmpty(g.board, r, c)
    ensures e == Some(InvalidMove) ==> !InBounds(g.board, r, c) || GetCell(g.board, r, c).Some?
  {
    if g.over then Some(GameAlreadyOver)
    else if ParseLetter(letter).None? then Some(InvalidLetter)
    else if !CellEmpty(g.board, r, c) then Some(InvalidMove)
    else None
  }

  /** `h` is `g` after the player to move put `l` at `(r, c)`: that one cell
      and its owner changed, the counter went up by one, the mover is
      recorded, and the lines stored are the detector's lines through
      `(r, c)` on the new board. */
  ghost predicate Placed(g: Game, h: Game, r: int, c: int, l: Letter)
    requires Shaped(g.board) && Shaped(h.board)
  {
    && h.board.size == g.board.size
    && (forall i, j :: GetCell(h.board, i, j) == (if i == r && j == c then Some(l) else GetCell(g.board, i, j)))
    && (forall i, j :: GetCellOwner(h.board, i, j) == (if i == r && j == c then Some(g.turn) else GetCellOwner(g.board, i, j)))
    && h.moveCount == g.moveCount + 1
    && h.lastPlayer == Some(g.turn)
    && h.lastLines == CheckForSos(h.board, r, c)
  }

  /** Changing only the turn, the flags or the variant's data keeps a
      placement a placement. */
  lemma PlacedKeeps(g: Game, h: Game, h': Game, r: int, c: int, l: Letter)
    requires Shaped(g.board) && Shaped(h.board) && Placed(g, h, r, c, l)
    requires h'.board == h.board && h'.moveCount == h.moveCount
    requires h'.lastPlayer == h.lastPlayer && h'.lastLines == h.lastLines
    ensures Placed(g, h', r, c, l)
  {
  }

  /** The steps both variants share once a move is accepted. */
  function Place(g: Game, r: int, c: int, l: Letter): (h: Game)
    requires Shaped(g.board) && CellEmpty(g.board, r, c)
    ensures Shaped(h.board) && Placed(g, h, r, c, l)
    ensures h.turn == g.turn && h.over == g.over && h.variant == g.variant
  {
    var b := g.board;
    var b' := b.(cells := b.cells[r := b.cells[r][c := Some(l)]],
                 owners := b.owners[r := b.owners[r][c := Some(g.turn)]]);
    g.(board := b',
       moveCount := g.moveCount + 1,
       lastPlayer := Some(g.turn),
       lastLines := CheckForSos(b', r, c))
  }

  /** A move of the simple game. */
  function SimpleMove(g: Game, r: int, c: int, letter: string): (o: Outcome)
    requires Shaped(g.board) && g.variant.Simple?
    ensures Shaped(o.game.board) && o.game.variant.Simple?
    ensures o.accepted <==> Rejection(g, r, c, letter) == None
    ensures !o.accepted ==> o.game == g
    ensures o.accepted ==> Placed(g, o.game, r, c, ParseLetter(letter).value)
    ensures o.accepted && o.game.lastLines != [] ==>
              o.game.over && o.game.variant.winner == Some(g.turn) && o.game.turn == g.turn
    ensures o.accepted && o.game.lastLines == [] ==>
              !o.game.over && o.game.variant == g.variant && o.game.turn == Toggle(g.turn)
  {
    if Rejection(g, r, c, letter).Some? then
      Outcome(false, g)
    else
      var h := Place(g, r, c, ParseLetter(letter).value);
      if h.lastLines != [] then
        Outcome(true, h.(variant := Simple(Some(g.turn)), over := true))
      else
        Outcome(true, h.(turn := Toggle(g.turn)))
  }

  /** Adds `points` to the score of `p`. */
  function AddScore(v: Variant, p: Player, points: int): Variant
    requires v.General?
  {
    if p == Blue then v.(blueScore := v.blueScore + points) else v.(redScore := v.redScore + points)
  }

  /** A move of the general game. */
  function GeneralMove(g: Game, r: int, c: int, letter: string): (o: Outcome)
    requires Shaped(g.board) && g.variant.General?
    ensures Shaped(o.game.board) && o.game.variant.General?
    ensures o.accepted <==> Rejection(g, r, c, letter) == None
    ensures !o.accepted ==> o.game == g
    ensures o.accepted ==> Placed(g, o.game, r, c, ParseLetter(letter).value)
    ensures o.accepted ==> o.game.turn == Toggle(g.turn)
    ensures o.accepted ==> Score(o.game, g.turn) == Score(g, g.turn) + |o.game.lastLines|
    ensures o.accepted ==> Score(o.game, Toggle(g.turn)) == Score(g, Toggle(g.turn))
    ensures o.accepted ==> (o.game.over <==> IsBoardFull(o.game))
  {
    if Rejection(g, r, c, letter).Some? then
      Outcome(false, g)
    else
      var h := Place(g, r, c, ParseLetter(letter).value);
      var scored := if h.lastLines != [] then AddScore(h.variant, g.turn, |h.lastLines|) else h.variant;
      var toggled := h.(variant := scored, turn := Toggle(g.turn));
      var finished := if IsBoardFull(toggled) then toggled.(over := true) else toggled;
      PlacedKeeps(g, h, finished, r, c, ParseLetter(letter).value);
      assert Score(finished, Toggle(g.turn)) == Score(g, Toggle(g.turn)) by {
        assert finished.variant == scored && h.variant == g.variant;
        if g.turn == Blue {
          assert scored.redScore == g.variant.redScore;
        } else {
          assert scored.blueScore == g.variant.blueScore;
        }
      }
      Outcome(true, finished)
  }

  /** A move of whichever variant `g` is. */
  function MakeMove(g: Game, r: int, c: int, letter: string): (o: Outcome)
    requires Shaped(g.board)
    ensures Shaped(o.game.board)
    ensures o.game.variant.Simple? <==> g.variant.Simple?
    ensures o.accepted <==> Rejection(g, r, c, letter) == None
    ensures !o.accepted ==> o.game == g
    ensures o.accepted ==> Placed(g, o.game, r, c, ParseLetter(letter).value)
  {
    match g.variant
    case Simple(_) => SimpleMove(g, r, c, letter)
    case General(_, _) => GeneralMove(g, r, c, letter)
  }

  /** The game after `moves`, refused ones included. */
  function Run(g: Game, moves: seq<Move>): (g': Game)
    requires Shaped(g.board)
    ensures Shaped(g'.board) && (g'.variant.Simple? <==> g.variant.Simple?)
    decreases |moves|
  {
    if moves == [] then g else Run(MakeMove(g, moves[0].r, moves[0].c, moves[0].letter).game, moves[1..])
  }

  /** What holds of every game that construction and moves reach: owners
      mirror letters, the counter counts the filled cells, the stored lines
      are genuine, a simple game is over exactly when it has a winner (who
      made the last move, which formed a line, and still holds the turn), and
      a general game is over exactly when its board is full. */
  ghost predicate Inv(g: Game) {
    && BoardInv(g)
    && match g.variant
       case Simple(winner) =>
         && (g.over <==> winner.Some?)
         && (winner.Some? ==> g.turn == winner.value && g.lastPlayer == winner && g.lastLines != [])
       case General(blue, red) =>
         && (g.over <==> IsBoardFull(g))
         && blue >= 0 && red >= 0
  }

  /** The part of the invariant both variants share. */
  ghost predicate BoardInv(g: Game) {
    && Shaped(g.board)
    && (forall i, j :: GetCellOwner(g.board, i, j).Some? <==> GetCell(g.board, i, j).Some?)
    && g.moveCount == CountGrid(g.board.cells)
    && (forall l :: l in g.lastLines ==> IsSosLine(g.board, l))
    && (g.lastPlayer.None? <==> g.moveCount == 0)
  }

  /** Both kinds of new game satisfy the invariant. */
  lemma NewGameInv(requested: int)
    ensures Inv(NewSimple(requested)) && Inv(NewGeneral(requested))
  {
    var n := Max(3, requested);
    CountGridEmpty(NewSimple(requested).board.cells);
    CountGridEmpty(NewGeneral(requested).board.cells);
    assert n * n > 0;
  }

  /** Placing a letter in an empty cell keeps the shared part of the
      invariant. */
  lemma PlaceKeepsBoardInv(g: Game, r: int, c: int, l: Letter)
    requires BoardInv(g) && CellEmpty(g.board, r, c)
    ensures BoardInv(Place(g, r, c, l))
  {
    var h := Place(g, r, c, l);
    CountGridFill(g.board.cells, r, c, l);
    assert h.board.cells == g.board.cells[r := g.board.cells[r][c := Some(l)]];
  }

  /** Every move, accepted or refused, keeps the invariant. */
  lemma MakeMovePreservesInv(g: Game, r: int, c: int, letter: string)
    requires Inv(g)
    ensures Inv(MakeMove(g, r, c, letter).game)
  {
    var o := MakeMove(g, r, c, letter);
    if o.accepted {
      var h := Place(g, r, c, ParseLetter(letter).value);
      PlaceKeepsBoardInv(g, r, c, ParseLetter(letter).value);
      match g.variant
      case Simple(_) =>
        assert o == SimpleMove(g, r, c, letter);
        assert o.game == h || o.game == h.(variant := Simple(Some(g.turn)), over := true) || o.game == h.(turn := Toggle(g.turn));
      case General(blue, red) =>
        assert o == GeneralMove(g, r, c, letter);
        assert BoardInv(o.game) by {
          assert o.game.board == h.board && o.game.lastLines == h.lastLines;
          assert o.game.moveCount == h.moveCount && o.game.lastPlayer == h.lastPlayer;
        }
        assert o.game.variant.blueScore >= blue && o.game.variant.redScore >= red;
    }
  }

  /** Every run of moves keeps the invariant. */
  lemma {:induction false} RunPreservesInv(g: Game, moves: seq<Move>)
    requires Inv(g)
    ensures Inv(Run(g, moves))
    decreases |moves|
  {
    if moves != [] {
      MakeMovePreservesInv(g, moves[0].r, moves[0].c, moves[0].letter);
      RunPreservesInv(MakeMove(g, moves[0].r, moves[0].c, moves[0].letter).game, moves[1..]);
    }
  }

  /** Every game reached from a new game by moves satisfies the invariant. */
  lemma Reachable(requested: int, moves: seq<Move>)
    ensures Inv(Run(NewSimple(requested), moves))
    ensures Inv(Run(NewGeneral(requested), moves))
  {
    NewGameInv(requested);
    RunPreservesInv(NewSimple(requested), moves);
    RunPreservesInv(NewGeneral(requested), moves);
  }

  /** Once over, a game never changes again: its board, turn, winner and
      scores are final. */
  lemma {:induction false} RunFrozenAfterOver(g: Game, moves: seq<Move>)
    requires Shaped(g.board) && g.over
    ensures Run(g, moves) == g
    decreases |moves|
  {
    if moves != [] {
      RunFrozenAfterOver(MakeMove(g, moves[0].r, moves[0].c, moves[0].letter).game, moves[1..]);
    }
  }

  /** A filled cell keeps its letter and its owner for the rest of the game. */
  lemma {:induction false} RunKeepsFilledCells(g: Game, moves: seq<Move>, i: int, j: int)
    requires Shaped(g.board) && GetCell(g.board, i, j).Some?
    ensures GetCell(Run(g, moves).board, i, j) == GetCell(g.board, i, j)
    ensures GetCellOwner(Run(g, moves).board, i, j) == GetCellOwner(g.board, i, j)
    decreases |moves|
  {
    if moves != [] {
      var o := MakeMove(g, moves[0].r, moves[0].c, moves[0].letter);
      RunKeepsFilledCells(o.game, moves[1..], i, j);
    }
  }

  /** Under the invariant the move counter says the board is full exactly
      when no cell can take a letter. */
  lemma BoardFullIffNoEmptyCell(g: Game)
    requires Inv(g)
    ensures IsBoardFull(g) <==> forall i, j :: !CellEmpty(g.board, i, j)
  {
    var n := g.board.size;
    CountGridBound(g.board.cells, n);
    if forall i, j :: !CellEmpty(g.board, i, j) {
      assert AllFilled(g.board.cells) by {
        forall i, j | 0 <= i < |g.board.cells| && 0 <= j < |g.board.cells[i]|
          ensures g.board.cells[i][j].Some?
        {
          assert !CellEmpty(g.board, i, j);
        }
      }
    } else {
      var i, j :| CellEmpty(g.board, i, j);
      assert !AllFilled(g.board.cells) by {
        assert g.board.cells[i][j].None?;
      }
    }
  }

  /** A general game is over exactly when no cell is left: never before the
      last cell is filled, always once it is. */
  lemma GeneralOverIffNoEmptyCell(g: Game)
    requires Inv(g) && g.variant.General?
    ensures g.over <==> forall i, j :: !CellEmpty(g.board, i, j)
  {
    BoardFullIffNoEmptyCell(g);
  }

  /** A simple game whose board filled up without a line is stuck: it is not
      over, has no winner, and refuses every move. */
  lemma SimpleFullBoardStalls(g: Game)
    requires Inv(g) && g.variant == Simple(None)
    requires forall i, j :: !CellEmpty(g.board, i, j)
    ensures !g.over
    ensures forall r, c, letter :: MakeMove(g, r, c, letter) == Outcome(false, g)
  {
  }

  /** Placing an "O" never completes a line: it neither wins a simple game
      nor scores in a general one. */
  lemma OMoveFormsNoLine(g: Game, r: int, c: int, letter: string)
    requires Shaped(g.board) && ParseLetter(letter) == Some(O)
    ensures MakeMove(g, r, c, letter).game.lastLines == [] || !MakeMove(g, r, c, letter).accepted
    ensures g.variant.Simple? && MakeMove(g, r, c, letter).accepted ==> !MakeMove(g, r, c, letter).game.over
    ensures forall p :: Score(MakeMove(g, r, c, letter).game, p) == Score(g, p)
  {
    var o := MakeMove(g, r, c, letter);
    if o.accepted {
      assert GetCell(o.game.board, r, c) == Some(O);
      if g.variant.General? {
        assert Score(o.game, g.turn) == Score(g, g.turn);
        assert Score(o.game, Toggle(g.turn)) == Score(g, Toggle(g.turn));
      }
    }
  }

  /** The lines the accepted moves of `moves` credited to `p`, read off each
      accepted move's recorded mover and lines. */
  function Credited(g: Game, moves: seq<Move>, p: Player): int
    requires Shaped(g.board)
    decreases |moves|
  {
    if moves == [] then 0
    else
      var o := MakeMove(g, moves[0].r, moves[0].c, moves[0].letter);
      (if o.accepted && o.game.lastPlayer == Some(p) then |o.game.lastLines| else 0)
      + Credited(o.game, moves[1..], p)
  }

  /** In a general game each player's score grows by exactly the number of
      lines that player's accepted moves completed. */
  lemma {:induction false} ScoreIsCreditedLines(g: Game, moves: seq<Move>, p: Player)
    requires Shaped(g.board) && g.variant.General?
    ensures Score(Run(g, moves), p) == Score(g, p) + Credited(g, moves, p)
    decreases |moves|
  {
    if moves != [] {
      var o := MakeMove(g, moves[0].r, moves[0].c, moves[0].letter);
      ScoreIsCreditedLines(o.game, moves[1..], p);
      if o.accepted {
        assert p == g.turn || p == Toggle(g.turn);
      }
    }
  }
}

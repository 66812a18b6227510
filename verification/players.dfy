/** The move sources and the general game's result. A human source never
    proposes a move (the interface supplies it); a computer source picks some
    empty cell and some letter, reading the game without changing it. The
    random choice is modelled as an arbitrary pick among the candidates. */
module Players {
  import opened Grid
  import opened Board

  /** A proposed move. */
  datatype Choice = Choice(r: int, c: int, letter: Letter)

  /** A human player's source: the interface supplies the move instead. */
  function HumanChooseMove(g: Game): (m: Option<Choice>)
    ensures m == None
  {
    None
  }

  /** The cells that can take a letter, row by row. */
  method EmptyCells(b: Board) returns (cells: seq<(int, int)>)
    requires Shaped(b)
    ensures forall p :: p in cells <==> CellEmpty(b, p.0, p.1)
  {
    cells := [];
    var r := 0;
    while r < b.size
      invariant 0 <= r <= b.size
      invariant forall p :: p in cells <==> p.0 < r && CellEmpty(b, p.0, p.1)
    {
      var c := 0;
      while c < b.size
        invariant 0 <= c <= b.size
        invariant forall p :: p in cells <==> (p.0 < r || (p.0 == r && p.1 < c)) && CellEmpty(b, p.0, p.1)
      {
        if CellEmpty(b, r, c) {
          cells := cells + [(r, c)];
        }
        c := c + 1;
      }
      r := r + 1;
    }
  }

  /** A computer player's source: nothing when no cell is empty, otherwise
      some empty cell of the board and some letter. */
  method ComputerChooseMove(g: Game) returns (m: Option<Choice>)
    requires Shaped(g.board)
    ensures m == None <==> forall r, c :: !CellEmpty(g.board, r, c)
    ensures m.Some? ==> InBounds(g.board, m.value.r, m.value.c) && CellEmpty(g.board, m.value.r, m.value.c)
  {
    var cells := EmptyCells(g.board);
    if cells == [] {
      forall r, c
        ensures !CellEmpty(g.board, r, c)
      {
        assert (r, c) !in cells;
      }
      return None;
    }
    var k :| 0 <= k < |cells|;
    var letter :| letter == S || letter == O;
    m := Some(Choice(cells[k].0, cells[k].1, letter));
  }

  /** The general game's result from the two scores: the higher score wins,
      equal scores are a draw (`None`). */
  function GeneralResult(blue: int, red: int): (winner: Option<Player>)
    ensures winner == Some(Blue) <==> blue > red
    ensures winner == Some(Red) <==> red > blue
    ensures winner == None <==> blue == red
  {
    if blue > red then Some(Blue) else if red > blue then Some(Red) else None
  }

  /** The result does not favour either colour: swapping the scores swaps
      the winner. */
  lemma GeneralResultSymmetric(blue: int, red: int)
    ensures GeneralResult(red, blue) ==
      match GeneralResult(blue, red)
      case Some(p) => Some(Toggle(p))
      case None => None
  {
  }
}

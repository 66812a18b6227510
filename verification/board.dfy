/** The state every SOS game variant shares: the square letter grid with its
    parallel owner grid, the move counter, whose turn it is, the game-over
    flag and what the last move produced, plus the variant's own data (the
    simple game's winner or the general game's two scores). Queries over
    coordinates are total over all integers. */
module Board {
  import opened Grid

  datatype Letter = S | O

  datatype Player = Blue | Red

  /** A completed S-O-S line, recorded by its two "S" endpoints. */
  datatype Line = Line(r1: int, c1: int, r2: int, c2: int)

  /** The letter grid and the owner grid, both `size` by `size`. */
  datatype Board = Board(
    size: int,
    cells: seq<seq<Option<Letter>>>,
    owners: seq<seq<Option<Player>>>)

  /** What distinguishes the two variants: the simple game remembers a
      winner, the general game keeps a score per player. */
  datatype Variant =
    | Simple(winner: Option<Player>)
    | General(blueScore: int, redScore: int)

  datatype Game = Game(
    board: Board,
    turn: Player,
    moveCount: int,
    over: bool,
    lastLines: seq<Line>,
    lastPlayer: Option<Player>,
    variant: Variant)

  /** The shape every board keeps: a side of at least three and two grids of
      exactly that side. */
  predicate Shaped(b: Board) {
    b.size >= 3 && IsSquare(b.cells, b.size) && IsSquare(b.owners, b.size)
  }

  function Max(a: int, b: int): int {
    if a < b then b else a
  }

  /** A game of side `n` in its initial state, keeping `variant`. */
  function Fresh(n: int, variant: Variant): (g: Game)
    requires n >= 3
    ensures Shaped(g.board) && g.board.size == n && g.variant == variant
    ensures forall r, c :: GetCell(g.board, r, c) == None && GetCellOwner(g.board, r, c) == None
    ensures g.turn == Blue && g.moveCount == 0 && !g.over
    ensures g.lastLines == [] && g.lastPlayer == None
  {
    Game(Board(n, EmptyGrid(n), EmptyGrid(n)), Blue, 0, false, [], None, variant)
  }

  /** Clears the board and the turn state but keeps the side and the
      variant's data: a finished simple game keeps its winner and a general
      game keeps its scores. */
  function Reset(g: Game): (g': Game)
    requires Shaped(g.board)
    ensures Shaped(g'.board) && g'.board.size == g.board.size && g'.variant == g.variant
    ensures forall r, c :: GetCell(g'.board, r, c) == None && GetCellOwner(g'.board, r, c) == None
    ensures g'.turn == Blue && g'.moveCount == 0 && !g'.over
    ensures g'.lastLines == [] && g'.lastPlayer == None
  {
    Fresh(g.board.size, g.variant)
  }

  /** A new simple game; a requested side below three is raised to three. */
  function NewSimple(requested: int): (g: Game)
    ensures Shaped(g.board) && g.board.size == Max(3, requested)
    ensures forall r, c :: GetCell(g.board, r, c) == None && GetCellOwner(g.board, r, c) == None
    ensures g.turn == Blue && g.moveCount == 0 && !g.over
    ensures g.lastLines == [] && g.lastPlayer == None
    ensures g.variant == Simple(None)
  {
    Fresh(Max(3, requested), Simple(None))
  }

  /** A new general game; a requested side below three is raised to three. */
  function NewGeneral(requested: int): (g: Game)
    ensures Shaped(g.board) && g.board.size == Max(3, requested)
    ensures forall r, c :: GetCell(g.board, r, c) == None && GetCellOwner(g.board, r, c) == None
    ensures g.turn == Blue && g.moveCount == 0 && !g.over
    ensures g.lastLines == [] && g.lastPlayer == None
    ensures g.variant == General(0, 0)
  {
    Fresh(Max(3, requested), General(0, 0))
  }

  predicate InBounds(b: Board, r: int, c: int) {
    0 <= r < b.size && 0 <= c < b.size
  }

  /** On a well-shaped board the in-bounds coordinates are exactly the
      indices of both grids. */
  lemma InBoundsIsGridIndex(b: Board, r: int, c: int)
    requires Shaped(b)
    ensures InBounds(b, r, c) <==> 0 <= r < |b.cells| && 0 <= c < |b.cells[r]|
    ensures InBounds(b, r, c) <==> 0 <= r < |b.owners| && 0 <= c < |b.owners[r]|
  {
  }

  /** The letter at `(r, c)`, or `None` for an empty or off-board cell. */
  function GetCell(b: Board, r: int, c: int): (v: Option<Letter>)
    requires Shaped(b)
    ensures !InBounds(b, r, c) ==> v == None
    ensures InBounds(b, r, c) ==> v == b.cells[r][c]
  {
    if !InBounds(b, r, c) then None else b.cells[r][c]
  }

  /** The player who filled `(r, c)`, or `None` for an empty or off-board cell. */
  function GetCellOwner(b: Board, r: int, c: int): (p: Option<Player>)
    requires Shaped(b)
    ensures !InBounds(b, r, c) ==> p == None
    ensures InBounds(b, r, c) ==> p == b.owners[r][c]
  {
    if !InBounds(b, r, c) then None else b.owners[r][c]
  }

  /** True when `(r, c)` can take a letter; false, not an error, off the board. */
  function CellEmpty(b: Board, r: int, c: int): (e: bool)
    requires Shaped(b)
    ensures e <==> InBounds(b, r, c) && GetCell(b, r, c) == None
    ensures !InBounds(b, r, c) ==> !e
  {
    InBounds(b, r, c) && b.cells[r][c].None?
  }

  /** The other player. */
  function Toggle(p: Player): (q: Player)
    ensures q != p
  {
    if p == Blue then Red else Blue
  }

  /** Toggling twice gives the turn back. */
  lemma ToggleInvolution(p: Player)
    ensures Toggle(Toggle(p)) == p
  {
  }

  /** The move counter has reached the number of cells. */
  predicate IsBoardFull(g: Game) {
    g.moveCount >= g.board.size * g.board.size
  }

  /** The score a general game holds for `p`; a simple game keeps none. */
  function Score(g: Game, p: Player): int {
    match g.variant
    case Simple(_) => 0
    case General(blue, red) => if p == Blue then blue else red
  }
}

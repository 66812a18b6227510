/** The line detector: from the cell just played it looks along the four axes
    in both senses and reports every S-O-S triple that has the played cell as
    its first "S". */
module Detector {
  import opened Grid
  import opened Board

  /** The four axes, in the order they are scanned: horizontal, vertical,
      down-right diagonal and down-left diagonal. */
  const Axes: seq<(int, int)> := [(0, 1), (1, 0), (1, 1), (1, -1)]

  /** One of the eight steps to a neighbouring cell. */
  predicate IsDirection(dr: int, dc: int) {
    -1 <= dr <= 1 && -1 <= dc <= 1 && (dr != 0 || dc != 0)
  }

  /** The cells `(r, c)`, one step and two steps along `(dr, dc)` read S, O, S.
      Because off-board cells read as empty, all three lie on the board. */
  predicate SosAt(b: Board, r: int, c: int, dr: int, dc: int)
    requires Shaped(b)
  {
    && GetCell(b, r, c) == Some(S)
    && GetCell(b, r + dr, c + dc) == Some(O)
    && GetCell(b, r + 2 * dr, c + 2 * dc) == Some(S)
  }

  /** The half-step from the first endpoint of `l` to its second, which is
      the direction of the line when `l` is one. */
  function Half(l: Line): (int, int) {
    ((l.r2 - l.r1) / 2, (l.c2 - l.c1) / 2)
  }

  /** The line from `(r, c)` two steps along `(dr, dc)`. */
  function LineAlong(r: int, c: int, dr: int, dc: int): (l: Line)
    ensures Half(l) == (dr, dc)
  {
    Line(r, c, r + 2 * dr, c + 2 * dc)
  }

  /** `l` joins two "S" cells two steps apart along one of the eight
      directions with an "O" between them, all on the board. */
  predicate IsSosLine(b: Board, l: Line)
    requires Shaped(b)
  {
    && IsDirection(Half(l).0, Half(l).1)
    && l == LineAlong(l.r1, l.c1, Half(l).0, Half(l).1)
    && SosAt(b, l.r1, l.c1, Half(l).0, Half(l).1)
  }

  /** A line's two "S" endpoints and its "O" midpoint all lie on the board,
      the second endpoint two steps from the first. */
  lemma SosLineOnBoard(b: Board, l: Line)
    requires Shaped(b) && IsSosLine(b, l)
    ensures var (dr, dc) := Half(l);
      && l.r2 == l.r1 + 2 * dr && l.c2 == l.c1 + 2 * dc
      && InBounds(b, l.r1, l.c1) && InBounds(b, l.r1 + dr, l.c1 + dc) && InBounds(b, l.r2, l.c2)
      && GetCell(b, l.r1, l.c1) == Some(S) && GetCell(b, l.r1 + dr, l.c1 + dc) == Some(O)
      && GetCell(b, l.r2, l.c2) == Some(S)
  {
  }

  /** No line is listed twice. */
  predicate Distinct(lines: seq<Line>) {
    forall i, j :: 0 <= i < j < |lines| ==> lines[i] != lines[j]
  }

  /** The triple starting at `(r, c)` along `(dr, dc)` lies on the board and
      reads S, O, S; the bounds are checked before any cell is read. */
  function FormSos(b: Board, r: int, c: int, dr: int, dc: int): (found: bool)
    requires Shaped(b)
    ensures found <==> SosAt(b, r, c, dr, dc)
    ensures found ==> InBounds(b, r, c) && InBounds(b, r + dr, c + dc) && InBounds(b, r + 2 * dr, c + 2 * dc)
  {
    if !(InBounds(b, r, c) && InBounds(b, r + dr, c + dc) && InBounds(b, r + 2 * dr, c + 2 * dc)) then
      false
    else
      && b.cells[r][c] == Some(S)
      && b.cells[r + dr][c + dc] == Some(O)
      && b.cells[r + 2 * dr][c + 2 * dc] == Some(S)
  }

  /** No axis is the zero step and no two axes lie on the same line. */
  predicate IndependentAxes(axes: seq<(int, int)>) {
    && (forall k :: 0 <= k < |axes| ==> IsDirection(axes[k].0, axes[k].1))
    && (forall i, j :: 0 <= i < j < |axes| ==>
          axes[i] != axes[j] && axes[i] != (-axes[j].0, -axes[j].1))
  }

  /** The step itself or its reverse is one of `axes`. */
  predicate OnAxis(d: (int, int), axes: seq<(int, int)>) {
    d in axes || (-d.0, -d.1) in axes
  }

  /** The lines one axis contributes: forward first, then backward. */
  function AxisLines(b: Board, r: int, c: int, dr: int, dc: int): (lines: seq<Line>)
    requires Shaped(b)
  {
    (if FormSos(b, r, c, dr, dc) then [LineAlong(r, c, dr, dc)] else [])
    + (if FormSos(b, r, c, -dr, -dc) then [LineAlong(r, c, -dr, -dc)] else [])
  }

  /** The lines anchored at `(r, c)` along `axes`, axis by axis. */
  function Scan(b: Board, r: int, c: int, axes: seq<(int, int)>): (lines: seq<Line>)
    requires Shaped(b)
    ensures |lines| <= 2 * |axes|
  {
    if axes == [] then [] else AxisLines(b, r, c, axes[0].0, axes[0].1) + Scan(b, r, c, axes[1..])
  }

  /** The lines of one axis start at `(r, c)`, are genuine S-O-S lines and
      run along that axis. */
  lemma AxisLinesSound(b: Board, r: int, c: int, dr: int, dc: int)
    requires Shaped(b) && IsDirection(dr, dc)
    ensures forall l :: l in AxisLines(b, r, c, dr, dc) ==>
              l.r1 == r && l.c1 == c && IsSosLine(b, l) && (Half(l) == (dr, dc) || Half(l) == (-dr, -dc))
  {
    var forward := LineAlong(r, c, dr, dc);
    var backward := LineAlong(r, c, -dr, -dc);
    assert forall l :: l in AxisLines(b, r, c, dr, dc) ==>
      (l == forward && FormSos(b, r, c, dr, dc)) || (l == backward && FormSos(b, r, c, -dr, -dc));
  }

  /** Every scanned line starts at `(r, c)`, is a genuine S-O-S line and runs
      along one of the scanned axes. */
  lemma {:induction false} ScanSound(b: Board, r: int, c: int, axes: seq<(int, int)>)
    requires Shaped(b)
    requires forall k :: 0 <= k < |axes| ==> IsDirection(axes[k].0, axes[k].1)
    ensures forall l :: l in Scan(b, r, c, axes) ==>
              l.r1 == r && l.c1 == c && IsSosLine(b, l) && OnAxis(Half(l), axes)
  {
    if axes != [] {
      var rest := axes[1..];
      var head := AxisLines(b, r, c, axes[0].0, axes[0].1);
      var tail := Scan(b, r, c, rest);
      assert forall k :: 0 <= k < |rest| ==> rest[k] == axes[k + 1];
      ScanSound(b, r, c, rest);
      AxisLinesSound(b, r, c, axes[0].0, axes[0].1);
      assert Scan(b, r, c, axes) == head + tail;
      forall l: Line | l in head + tail
        ensures l.r1 == r && l.c1 == c && IsSosLine(b, l) && OnAxis(Half(l), axes)
      {
        if l in head {
          assert Half(l) == axes[0] || (-Half(l).0, -Half(l).1) == axes[0];
        } else {
          assert OnAxis(Half(l), rest);
          assert Half(l) in rest || (-Half(l).0, -Half(l).1) in rest;
        }
      }
    }
  }

  /** Every genuine line anchored at `(r, c)` along a scanned axis is found. */
  lemma {:induction false} ScanComplete(b: Board, r: int, c: int, axes: seq<(int, int)>, dr: int, dc: int)
    requires Shaped(b)
    requires OnAxis((dr, dc), axes) && SosAt(b, r, c, dr, dc)
    ensures LineAlong(r, c, dr, dc) in Scan(b, r, c, axes)
  {
    var head := AxisLines(b, r, c, axes[0].0, axes[0].1);
    var rest := axes[1..];
    if (dr, dc) == axes[0] || (-dr, -dc) == axes[0] {
      assert LineAlong(r, c, dr, dc) in head;
    } else {
      assert OnAxis((dr, dc), rest);
      ScanComplete(b, r, c, rest, dr, dc);
    }
    assert Scan(b, r, c, axes) == head + Scan(b, r, c, rest);
  }

  /** Lines along independent axes are never listed twice. */
  lemma {:induction false} ScanDistinct(b: Board, r: int, c: int, axes: seq<(int, int)>)
    requires Shaped(b)
    requires IndependentAxes(axes)
    ensures Distinct(Scan(b, r, c, axes))
  {
    if axes != [] {
      var rest := axes[1..];
      var (dr, dc) := axes[0];
      IndependentTail(axes);
      ScanDistinct(b, r, c, rest);
      ScanSound(b, r, c, rest);
      var head := AxisLines(b, r, c, dr, dc);
      var tail := Scan(b, r, c, rest);
      assert forall l :: l in head ==> Half(l) == (dr, dc) || Half(l) == (-dr, -dc);
      assert forall l :: l in tail ==> Half(l) != (dr, dc) && Half(l) != (-dr, -dc);
      assert Distinct(head);
      DistinctConcat(head, tail);
    }
  }

  /** Dropping the first of independent axes leaves independent axes, none
      of them on the first one's line. */
  lemma IndependentTail(axes: seq<(int, int)>)
    requires IndependentAxes(axes) && axes != []
    ensures IndependentAxes(axes[1..]) && !OnAxis(axes[0], axes[1..])
  {
    var rest := axes[1..];
    assert forall k :: 0 <= k < |rest| ==> rest[k] == axes[k + 1];
  }

  /** Two duplicate-free lists with no common element concatenate into one. */
  lemma DistinctConcat(a: seq<Line>, b: seq<Line>)
    requires Distinct(a) && Distinct(b)
    requires forall l :: l in a ==> l !in b
    ensures Distinct(a + b)
  {
    forall i, j | 0 <= i < j < |a + b|
      ensures (a + b)[i] != (a + b)[j]
    {
      if i < |a| && j >= |a| {
        assert (a + b)[i] in a;
        assert (a + b)[j] == b[j - |a|];
      }
    }
  }

  /** The four scanned axes are independent and cover all eight directions. */
  lemma AxesCoverDirections()
    ensures IndependentAxes(Axes)
    ensures forall dr, dc :: IsDirection(dr, dc) ==> OnAxis((dr, dc), Axes)
  {
  }

  /** The lines the move at `(r, c)` completed: exactly the S-O-S lines whose
      first "S" is `(r, c)`, each once, at most eight of them; none at all
      unless `(r, c)` holds an "S", and none exactly when no triple starts
      there in any of the eight directions. */
  function CheckForSos(b: Board, r: int, c: int): (lines: seq<Line>)
    requires Shaped(b)
    ensures |lines| <= 8
    ensures forall l :: l in lines <==> l.r1 == r && l.c1 == c && IsSosLine(b, l)
    ensures Distinct(lines)
    ensures GetCell(b, r, c) != Some(S) ==> lines == []
    ensures lines == [] <==> forall dr, dc :: IsDirection(dr, dc) ==> !SosAt(b, r, c, dr, dc)
  {
    var lines := Scan(b, r, c, Axes);
    AxesCoverDirections();
    ScanSound(b, r, c, Axes);
    ScanDistinct(b, r, c, Axes);
    forall l: Line | l.r1 == r && l.c1 == c && IsSosLine(b, l)
      ensures l in lines
    {
      ScanComplete(b, r, c, Axes, Half(l).0, Half(l).1);
    }
    ScanEmptyIff(b, r, c);
    assert lines == [] || lines[0] in lines;
    lines
  }

  /** The scan finds nothing exactly when no triple starts at `(r, c)`. */
  lemma ScanEmptyIff(b: Board, r: int, c: int)
    requires Shaped(b)
    ensures Scan(b, r, c, Axes) == [] <==> forall dr, dc :: IsDirection(dr, dc) ==> !SosAt(b, r, c, dr, dc)
  {
    var lines := Scan(b, r, c, Axes);
    AxesCoverDirections();
    ScanSound(b, r, c, Axes);
    forall dr, dc | IsDirection(dr, dc) && SosAt(b, r, c, dr, dc)
      ensures lines != []
    {
      ScanComplete(b, r, c, Axes, dr, dc);
    }
    assert lines == [] || (lines[0] in lines && SosAt(b, r, c, Half(lines[0]).0, Half(lines[0]).1));
  }
}

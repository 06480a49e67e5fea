/**
 * The 3x3 cell layout of the composite image (generateImage in src/App.jsx).
 * Cells are numbered 0..8 in row-major order. A gap separates neighbouring
 * cells and also lies before the first and after the last column and row, so
 * the canvas side is three cells plus four gaps.
 */
module Layout {
  /** Side of one cell, in canvas pixels. */
  const CellSize: nat := 500
  /** Space between cells and around the grid, in canvas pixels. */
  const Gap: nat := 20
  /** Corner radius of the rounded square drawn for each cell. */
  const CornerRadius: nat := 30
  /** Number of cells (three rows of three). */
  const CellCount: nat := 9

  /** The axis-aligned square [x, x + side) x [y, y + side). */
  datatype Square = Square(x: int, y: int, side: int)

  /** Two squares share no pixel. */
  predicate Disjoint(a: Square, b: Square) {
    a.x + a.side <= b.x || b.x + b.side <= a.x || a.y + a.side <= b.y || b.y + b.side <= a.y
  }

  /** Square `a` lies inside square `outer`. */
  predicate Within(a: Square, outer: Square) {
    outer.x <= a.x && a.x + a.side <= outer.x + outer.side &&
    outer.y <= a.y && a.y + a.side <= outer.y + outer.side
  }

  function Row(i: nat): nat { i / 3 }

  function Col(i: nat): nat { i % 3 }

  /** Side of the square output canvas. */
  function CanvasSide(cellSize: nat, gap: nat): nat { cellSize * 3 + gap * 4 }

  function CanvasSquare(cellSize: nat, gap: nat): Square { Square(0, 0, CanvasSide(cellSize, gap)) }

  /** Left edge of cell i. */
  function CellX(i: nat, cellSize: nat, gap: nat): int { gap + Col(i) * (cellSize + gap) }

  /** Top edge of cell i. */
  function CellY(i: nat, cellSize: nat, gap: nat): int { gap + Row(i) * (cellSize + gap) }

  function Cell(i: nat, cellSize: nat, gap: nat): Square {
    Square(CellX(i, cellSize, gap), CellY(i, cellSize, gap), cellSize)
  }

  /** The offset of column (or row) k is 0, one step or two steps. */
  lemma Offsets(k: nat, step: int)
    requires k < 3
    ensures k * step == if k == 0 then 0 else if k == 1 then step else 2 * step
  {
  }

  /**
   * Every cell lies inside the canvas; the first column and row start one gap
   * from the canvas edge and the last column and row end one gap before it.
   */
  lemma CellInsideCanvas(i: nat, cellSize: nat, gap: nat)
    requires i < CellCount
    ensures Within(Cell(i, cellSize, gap), CanvasSquare(cellSize, gap))
    ensures Col(i) == 0 ==> CellX(i, cellSize, gap) == gap
    ensures Col(i) == 2 ==> CellX(i, cellSize, gap) + cellSize + gap == CanvasSide(cellSize, gap)
    ensures Row(i) == 0 ==> CellY(i, cellSize, gap) == gap
    ensures Row(i) == 2 ==> CellY(i, cellSize, gap) + cellSize + gap == CanvasSide(cellSize, gap)
  {
    Offsets(Col(i), cellSize + gap);
    Offsets(Row(i), cellSize + gap);
  }

  /** Distinct cells never overlap. */
  lemma CellsDisjoint(i: nat, j: nat, cellSize: nat, gap: nat)
    requires i < CellCount && j < CellCount && i != j
    ensures Disjoint(Cell(i, cellSize, gap), Cell(j, cellSize, gap))
  {
    Offsets(Col(i), cellSize + gap);
    Offsets(Row(i), cellSize + gap);
    Offsets(Col(j), cellSize + gap);
    Offsets(Row(j), cellSize + gap);
  }

  /**
   * Horizontally neighbouring cells (i, i + 1 in one row) and vertically
   * neighbouring cells (i, i + 3) are exactly one gap apart and aligned.
   */
  lemma NeighboursOneGapApart(i: nat, cellSize: nat, gap: nat)
    requires i < CellCount
    ensures Col(i) < 2 ==>
      CellX(i + 1, cellSize, gap) == CellX(i, cellSize, gap) + cellSize + gap &&
      CellY(i + 1, cellSize, gap) == CellY(i, cellSize, gap)
    ensures i + 3 < CellCount ==>
      CellY(i + 3, cellSize, gap) == CellY(i, cellSize, gap) + cellSize + gap &&
      CellX(i + 3, cellSize, gap) == CellX(i, cellSize, gap)
  {
    Offsets(Col(i), cellSize + gap);
    Offsets(Row(i), cellSize + gap);
    if Col(i) < 2 {
      Offsets(Col(i + 1), cellSize + gap);
    }
    if i + 3 < CellCount {
      Offsets(Row(i + 3), cellSize + gap);
    }
  }

  /** The app's own layout: a 1580 px canvas with columns at 20, 540 and 1060. */
  lemma AppLayout()
    ensures CanvasSide(CellSize, Gap) == 1580
    ensures CellX(0, CellSize, Gap) == 20 && CellX(1, CellSize, Gap) == 540 && CellX(2, CellSize, Gap) == 1060
    ensures CellY(8, CellSize, Gap) == 1060
  {
  }
}

/**
 * Where the model's constructor puts its patches: one per cell of the
 * `width` x `height` grid, in x-major order (x outer, y inner), skipping the
 * mill's own cell `(width - 1, 0)`.
 */
module FieldGrid {
  import opened FieldTypes

  predicate InGrid(width: int, height: int, p: Pos) {
    0 <= p.x < width && 0 <= p.y < height
  }

  predicate IsMillCell(width: int, p: Pos) {
    p.x == width - 1 && p.y == 0
  }

  /** Cells that receive a patch. */
  predicate IsCropCell(width: int, height: int, p: Pos) {
    InGrid(width, height, p) && !IsMillCell(width, p)
  }

  /** x-major order: the order in which the nested loops visit the cells. */
  predicate XMajorBefore(p: Pos, q: Pos) {
    p.x < q.x || (p.x == q.x && p.y < q.y)
  }

  /** Number of patches the constructor creates (`range` over a non-positive bound is empty). */
  function AgentCount(width: int, height: int): nat {
    if width > 0 && height > 0 then width * height - 1 else 0
  }

  /** The cell of the patch whose id is `i`. */
  function CellOf(width: int, height: int, i: int): (p: Pos)
    requires 0 <= i < AgentCount(width, height)
    ensures IsCropCell(width, height, p)
  {
    var k := if i < (width - 1) * height then i else i + 1;
    DivModCell(k / height, k % height, height);
    ColumnBound(k, width, height);
    var p := Pos(k / height, k % height);
    MillIndex(p.x, p.y, width, height);
    p
  }

  /** The id the constructor gives the patch on cell `p`. */
  function CellIndex(width: int, height: int, p: Pos): (i: nat)
    requires IsCropCell(width, height, p)
    ensures i < AgentCount(width, height)
  {
    ColumnBelow(p.x, p.y, width, height);
    p.x * height + p.y - (if p.x == width - 1 then 1 else 0)
  }

  /** How many patches the nested loops have created when they reach cell `(x, y)`. */
  function CellsBefore(width: int, height: int, x: int, y: int): int {
    x * height + y - (if x == width - 1 && y > 0 then 1 else 0)
  }

  /** On a crop cell the count so far is the new patch's id, and it grows by one. */
  lemma CellsBeforeCrop(width: int, height: int, x: int, y: int)
    requires IsCropCell(width, height, Pos(x, y))
    ensures CellsBefore(width, height, x, y) == CellIndex(width, height, Pos(x, y))
    ensures CellsBefore(width, height, x, y + 1) == CellsBefore(width, height, x, y) + 1
  {
  }

  /** Skipping the mill's cell creates nothing. */
  lemma CellsBeforeMill(width: int, height: int)
    ensures CellsBefore(width, height, width - 1, 1) == CellsBefore(width, height, width - 1, 0)
  {
  }

  /** The end of one column is the start of the next; the end of the last is the total. */
  lemma CellsBeforeColumn(width: int, height: int, x: int)
    requires 0 <= x < width && height > 0
    ensures CellsBefore(width, height, x, height)
            == if x + 1 < width then CellsBefore(width, height, x + 1, 0) else AgentCount(width, height)
  {
    assert (x + 1) * height == x * height + height;
  }

  lemma CellsBeforeStart(width: int, height: int)
    ensures CellsBefore(width, height, 0, 0) == 0
  {
  }

  /** Crop cells `(x, 0) .. (x, y - 1)`, in the order the inner loop visits them. */
  function ColumnCells(width: int, height: int, x: int, y: int): seq<Pos>
    decreases y
  {
    if y <= 0 then []
    else ColumnCells(width, height, x, y - 1) + (if IsMillCell(width, Pos(x, y - 1)) then [] else [Pos(x, y - 1)])
  }

  /** Crop cells of columns `0 .. x - 1`, in the order the nested loops visit them. */
  function CellsUpTo(width: int, height: int, x: int): seq<Pos>
    decreases x
  {
    if x <= 0 then [] else CellsUpTo(width, height, x - 1) + ColumnCells(width, height, x - 1, height)
  }

  /** One more column of the outer loop; a column of non-positive height adds nothing. */
  lemma CellsUpToNext(width: int, height: int, x: int)
    requires x >= 0
    ensures CellsUpTo(width, height, x + 1) == CellsUpTo(width, height, x) + ColumnCells(width, height, x, height)
    ensures height <= 0 ==> ColumnCells(width, height, x, height) == []
  {
  }

  /** One more cell of the inner loop. */
  lemma ColumnCellsNext(width: int, height: int, x: int, y: int)
    requires y >= 0
    ensures CellsUpTo(width, height, x) + ColumnCells(width, height, x, 0) == CellsUpTo(width, height, x)
    ensures CellsUpTo(width, height, x) + ColumnCells(width, height, x, y + 1)
            == CellsUpTo(width, height, x) + ColumnCells(width, height, x, y)
               + (if IsMillCell(width, Pos(x, y)) then [] else [Pos(x, y)])
  {
    assert CellsUpTo(width, height, x) + ColumnCells(width, height, x, 0) == CellsUpTo(width, height, x);
  }

  /** The cells the loops have visited on reaching cell `(x, y)`. */
  function Visited(width: int, height: int, x: int, y: int): seq<Pos> {
    CellsUpTo(width, height, x) + ColumnCells(width, height, x, y)
  }

  /** `cells[i]` is the cell of the patch with id `i`, for every entry. */
  predicate InIdOrder(width: int, height: int, cells: seq<Pos>) {
    forall i :: 0 <= i < |cells| ==> i < AgentCount(width, height) && cells[i] == CellOf(width, height, i)
  }

  /** Up to any point of the loops, the cells visited are those of ids 0, 1, ... in order. */
  lemma {:induction false} VisitedPrefix(width: int, height: int, x: int, y: int)
    requires 0 <= x < width && 0 <= y <= height && height > 0
    ensures |Visited(width, height, x, y)| == CellsBefore(width, height, x, y)
    ensures InIdOrder(width, height, Visited(width, height, x, y))
    decreases x, y
  {
    var v := Visited(width, height, x, y);
    if y == 0 {
      if x == 0 {
        assert v == [];
        CellsBeforeStart(width, height);
      } else {
        VisitedPrefix(width, height, x - 1, height);
        assert v == Visited(width, height, x - 1, height);
        CellsBeforeColumn(width, height, x - 1);
      }
    } else {
      VisitedPrefix(width, height, x, y - 1);
      var u := Visited(width, height, x, y - 1);
      if IsMillCell(width, Pos(x, y - 1)) {
        assert v == u;
        CellsBeforeMill(width, height);
      } else {
        assert v == u + [Pos(x, y - 1)];
        CellsBeforeCrop(width, height, x, y - 1);
        CellOfIndex(width, height, Pos(x, y - 1));
        assert |u| == CellIndex(width, height, Pos(x, y - 1));
        forall i | 0 <= i < |v|
          ensures i < AgentCount(width, height) && v[i] == CellOf(width, height, i)
        {
          if i < |u| {
            assert v[i] == u[i];
          }
        }
      }
    }
  }

  /** The nested loops visit exactly the cells `CellOf(0), CellOf(1), ...`. */
  lemma LoopsVisitCellOf(width: int, height: int)
    ensures |CellsUpTo(width, height, width)| == AgentCount(width, height)
    ensures forall i :: 0 <= i < AgentCount(width, height) ==> CellsUpTo(width, height, width)[i] == CellOf(width, height, i)
  {
    if width > 0 && height > 0 {
      VisitedPrefix(width, height, width - 1, height);
      assert CellsUpTo(width, height, width) == Visited(width, height, width - 1, height);
      CellsBeforeColumn(width, height, width - 1);
    } else {
      EmptyGridVisitsNothing(width, height, width);
    }
  }

  lemma {:induction false} EmptyGridVisitsNothing(width: int, height: int, x: int)
    requires width <= 0 || height <= 0
    requires x <= width || height <= 0
    ensures CellsUpTo(width, height, x) == []
    decreases x
  {
    if x > 0 {
      EmptyGridVisitsNothing(width, height, x - 1);
      assert ColumnCells(width, height, x - 1, height) == [];
    }
  }

  /** A crop cell is reached while fewer than all patches exist. */
  lemma VisitedBeforeCrop(width: int, height: int, x: int, y: int)
    requires IsCropCell(width, height, Pos(x, y))
    ensures |Visited(width, height, x, y)| < AgentCount(width, height)
  {
    VisitedPrefix(width, height, x, y);
    CellsBeforeCrop(width, height, x, y);
  }

  // ---- arithmetic helpers ----

  lemma MulMono(a: int, b: int, h: int)
    requires a <= b && h >= 0
    ensures a * h <= b * h
  {
  }

  /** `x * height + y` with `0 <= y < height` has quotient `x` and remainder `y`. */
  lemma DivModCell(x: int, y: int, height: int)
    requires height > 0 && 0 <= y < height
    ensures (x * height + y) / height == x && (x * height + y) % height == y
  {
    var k := x * height + y;
    var q, r := k / height, k % height;
    assert q * height + r == x * height + y;
    assert (q - x) * height == y - r;
    if q > x {
      MulMono(1, q - x, height);
    } else if q < x {
      MulMono(q - x, -1, height);
    }
  }

  lemma ColumnBound(k: int, width: int, height: int)
    requires width > 0 && height > 0 && 0 <= k < width * height
    ensures 0 <= k / height < width
  {
    if k / height >= width {
      MulMono(width, k / height, height);
    }
  }

  /** The cell's index `x * height + y` lies before the mill's exactly when `x < width - 1`. */
  lemma ColumnBelow(x: int, y: int, width: int, height: int)
    requires 0 <= x < width && 0 <= y < height
    ensures x < width - 1 <==> x * height + y < (width - 1) * height
    ensures x * height + y < width * height
  {
    MulMono(x + 1, width, height);
    if x < width - 1 {
      MulMono(x + 1, width - 1, height);
    } else {
      assert x == width - 1;
    }
  }

  lemma MillIndex(x: int, y: int, width: int, height: int)
    requires 0 <= x < width && 0 <= y < height
    ensures x * height + y == (width - 1) * height <==> (x == width - 1 && y == 0)
  {
    ColumnBelow(x, y, width, height);
  }

  // ---- the layout ----

  /** Ids and cells are in one-to-one correspondence: `CellIndex` undoes `CellOf`. */
  lemma {:induction false} CellIndexOfCell(width: int, height: int, i: int)
    requires 0 <= i < AgentCount(width, height)
    ensures CellIndex(width, height, CellOf(width, height, i)) == i
  {
    var k := if i < (width - 1) * height then i else i + 1;
    var p := CellOf(width, height, i);
    DivModCell(k / height, k % height, height);
    assert p.x * height + p.y == k;
    ColumnBelow(p.x, p.y, width, height);
  }

  /** ... and `CellOf` undoes `CellIndex`, so every crop cell gets a patch. */
  lemma {:induction false} CellOfIndex(width: int, height: int, p: Pos)
    requires IsCropCell(width, height, p)
    ensures CellOf(width, height, CellIndex(width, height, p)) == p
  {
    var i := CellIndex(width, height, p);
    ColumnBelow(p.x, p.y, width, height);
    MillIndex(p.x, p.y, width, height);
    var k := p.x * height + p.y;
    assert (if i < (width - 1) * height then i else i + 1) == k;
    DivModCell(p.x, p.y, height);
  }

  /** Ids follow the nested loops: a smaller id sits on an x-major-earlier cell. */
  lemma {:induction false} CellOfOrdered(width: int, height: int, i: int, j: int)
    requires 0 <= i < j < AgentCount(width, height)
    ensures XMajorBefore(CellOf(width, height, i), CellOf(width, height, j))
  {
    var p, q := CellOf(width, height, i), CellOf(width, height, j);
    CellIndexOfCell(width, height, i);
    CellIndexOfCell(width, height, j);
    ColumnBelow(p.x, p.y, width, height);
    ColumnBelow(q.x, q.y, width, height);
    if q.x < p.x {
      MulMono(q.x + 1, p.x, height);
      assert false;
    }
  }

  /** No two patches share a cell. */
  lemma CellOfInjective(width: int, height: int, i: int, j: int)
    requires 0 <= i < AgentCount(width, height) && 0 <= j < AgentCount(width, height)
    requires i != j
    ensures CellOf(width, height, i) != CellOf(width, height, j)
  {
    if i < j {
      CellOfOrdered(width, height, i, j);
    } else {
      CellOfOrdered(width, height, j, i);
    }
  }
}

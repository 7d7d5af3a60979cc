/**
 * The glyph cell cache of pathos/text/font_texture_cache.cpp. The cache
 * texture is cut into a grid of equal cells; `unused` holds the free cells
 * and `used` the cells holding a glyph, oldest first. A cell is named by
 * its grid column and row (the source stores the same position as floating
 * point texture coordinates). FreeType's results are parameters.
 */
module FontCache {
  import opened Wrappers

  const TextureWidth: nat := 512
  const TextureHeight: nat := 512

  /** A cell of the cache texture and the character it holds (0 when free). */
  datatype Cell = Cell(ch: nat, col: nat, row: nat)

  /** The free cells of row `row`, left to right. */
  function RowCells(cols: nat, row: nat): (r: seq<Cell>)
    ensures |r| == cols
  {
    seq(cols, (x: int) requires 0 <= x => Cell(0, x, row))
  }

  /** The free cells `init` creates for the first `rows` rows, row by row. */
  function Grid(cols: nat, rows: nat): (r: seq<Cell>)
  {
    if rows == 0 then [] else Grid(cols, rows - 1) + RowCells(cols, rows - 1)
  }

  /** The grid holds cols·rows cells, each free and inside the grid. */
  lemma {:induction false} GridSize(cols: nat, rows: nat)
    ensures |Grid(cols, rows)| == cols * rows
    ensures forall c :: c in Grid(cols, rows) ==> c.ch == 0 && c.col < cols && c.row < rows
  {
    if rows > 0 {
      GridSize(cols, rows - 1);
      assert cols * rows == cols * (rows - 1) + cols;
    }
  }

  /** Characters of distinct used cells differ. */
  ghost predicate DistinctChars(cells: seq<Cell>)
  {
    forall i, j :: 0 <= i < j < |cells| ==> cells[i].ch != cells[j].ch
  }

  class FontTextureCache {
    var used: seq<Cell>
    var unused: seq<Cell>
    var maxWidth: nat
    var maxHeight: nat
    var cols: nat
    var rows: nat

    /** No cell is lost or duplicated: the lists together hold the whole grid,
        and a character sits in at most one used cell. */
    ghost predicate Valid()
      reads this
    {
      |used| + |unused| == cols * rows && DistinctChars(used)
    }

    constructor ()
      ensures used == [] && unused == [] && cols == 0 && rows == 0
      ensures Valid()
    {
      used, unused := [], [];
      maxWidth, maxHeight, cols, rows := 0, 0, 0, 0;
    }

    /** `init`: false when FreeType cannot open the face or set its size;
        otherwise the grid's free cells are appended row by row. */
    method Init(faceOk: bool, sizeOk: bool, advance: nat, height: nat) returns (ok: bool)
      requires faceOk && sizeOk ==> advance > 0 && height > 0
      modifies this
      ensures ok <==> faceOk && sizeOk
      ensures !ok ==> unused == old(unused) && cols == old(cols) && rows == old(rows)
      ensures ok ==> cols == TextureWidth / advance && rows == TextureHeight / height
      ensures ok ==> unused == old(unused) + Grid(cols, rows)
      ensures used == old(used)
      ensures ok && old(used) == [] && old(unused) == [] ==> Valid()
    {
      if !faceOk || !sizeOk {
        return false;
      }
      maxWidth := advance;
      maxHeight := height;
      cols := TextureWidth / maxWidth;
      rows := TextureHeight / maxHeight;
      var cells := unused;
      for y := 0 to rows
        invariant cells == old(unused) + Grid(cols, y)
      {
        for x := 0 to cols
          invariant cells == old(unused) + Grid(cols, y) + RowCells(cols, y)[..x]
        {
          cells := cells + [Cell(0, x, y)];
          assert RowCells(cols, y)[..x + 1] == RowCells(cols, y)[..x] + [Cell(0, x, y)];
        }
        assert RowCells(cols, y)[..cols] == RowCells(cols, y);
      }
      unused := cells;
      GridSize(cols, rows);
      return true;
    }

    ghost predicate Holds(x: nat)
      reads this
    {
      exists i :: 0 <= i < |used| && used[i].ch == x
    }

    /** `contains`: the scan of the used cells. */
    method Contains(x: nat) returns (b: bool)
      ensures b <==> Holds(x)
    {
      for i := 0 to |used|
        invariant forall j :: 0 <= j < i ==> used[j].ch != x
      {
        if used[i].ch == x {
          return true;
        }
      }
      return false;
    }

    predicate IsFull()
      reads this
    {
      |unused| == 0
    }

    /** `insert` as written. A character already cached is a success that
        changes nothing. Otherwise a cell is taken, the oldest used one when
        no cell is free and the last free one otherwise; when the glyph then
        fails to load that cell is in neither list. The requires is the
        front of `used` that a full cache reads. */
    method InsertAsWritten(x: nat, loadOk: bool) returns (ok: bool)
      requires |used| + |unused| > 0
      modifies this
      ensures old(Holds(x)) ==> ok && used == old(used) && unused == old(unused)
      ensures !old(Holds(x)) && old(IsFull()) ==>
                unused == old(unused) &&
                used == (if loadOk then old(used)[1..] + [old(used)[0].(ch := x)] else old(used)[1..])
      ensures !old(Holds(x)) && !old(IsFull()) ==>
                unused == old(unused)[..|old(unused)| - 1] &&
                used == (if loadOk then old(used) + [old(unused)[|old(unused)| - 1].(ch := x)] else old(used))
      ensures !old(Holds(x)) ==> (ok <==> loadOk)
      ensures cols == old(cols) && rows == old(rows)
    {
      var present := Contains(x);
      if present {
        return true;
      }
      var g: Cell;
      if IsFull() {
        g := used[0];
        used := used[1..];
      } else {
        g := unused[|unused| - 1];
        unused := unused[..|unused| - 1];
      }
      if !loadOk {
        return false;
      }
      used := used + [g.(ch := x)];
      return true;
    }

    /** `insert` with the taken cell handed back to the free list when the
        glyph fails to load: the cache keeps all its cells. */
    method Insert(x: nat, loadOk: bool) returns (ok: bool)
      requires Valid() && cols * rows > 0
      modifies this
      ensures Valid()
      ensures ok <==> old(Holds(x)) || loadOk
      ensures ok <==> Holds(x)
      ensures old(Holds(x)) ==> used == old(used) && unused == old(unused)
      ensures !old(Holds(x)) && old(IsFull()) && loadOk ==>
                unused == old(unused) && used == old(used)[1..] + [old(used)[0].(ch := x)]
      ensures !old(Holds(x)) && !old(IsFull()) && loadOk ==>
                unused == old(unused)[..|old(unused)| - 1] &&
                used == old(used) + [old(unused)[|old(unused)| - 1].(ch := x)]
      ensures !old(Holds(x)) && old(IsFull()) && !loadOk ==>
                unused == [old(used)[0]] && used == old(used)[1..]
      ensures !old(Holds(x)) && !old(IsFull()) && !loadOk ==>
                unused == old(unused) && used == old(used)
      ensures cols == old(cols) && rows == old(rows)
    {
      var present := Contains(x);
      if present {
        return true;
      }
      var g: Cell;
      if IsFull() {
        g := used[0];
        used := used[1..];
      } else {
        g := unused[|unused| - 1];
        unused := unused[..|unused| - 1];
      }
      if !loadOk {
        unused := unused + [g];
        return false;
      }
      used := used + [g.(ch := x)];
      assert used[|used| - 1].ch == x;
      return true;
    }

    /** `getGlyph`: inserts, then returns the used cell holding `x`; None
        stands for the default-constructed glyph returned when the insert failed. */
    method GetGlyph(x: nat, loadOk: bool) returns (g: Option<Cell>)
      requires Valid() && cols * rows > 0
      modifies this
      ensures Valid()
      ensures g.Some? <==> old(Holds(x)) || loadOk
      ensures g.Some? ==> g.value in used && g.value.ch == x
    {
      var _ := Insert(x, loadOk);
      g := FindCell(x);
    }

    /** `getGlyph` over `insert` as written: the same answer, but a character
        that fails to load costs the cache one cell. */
    method GetGlyphAsWritten(x: nat, loadOk: bool) returns (g: Option<Cell>)
      requires |used| + |unused| > 0
      modifies this
      ensures g.Some? <==> old(Holds(x)) || loadOk
      ensures g.Some? ==> g.value in used && g.value.ch == x
      ensures |used| + |unused| == |old(used)| + |old(unused)| - (if old(Holds(x)) || loadOk then 0 else 1)
    {
      ghost var before := used;
      var ok := InsertAsWritten(x, loadOk);
      if !old(Holds(x)) {
        if loadOk {
          assert used[|used| - 1].ch == x;
        } else {
          assert forall k :: 0 <= k < |used| ==> used[k] in before;
        }
      }
      g := FindCell(x);
    }

    /** The scan of the used cells for the character's cell. */
    method FindCell(x: nat) returns (g: Option<Cell>)
      ensures g.Some? <==> Holds(x)
      ensures g.Some? ==> g.value in used && g.value.ch == x
    {
      for i := 0 to |used|
        invariant forall j :: 0 <= j < i ==> used[j].ch != x
      {
        if used[i].ch == x {
          return Some(used[i]);
        }
      }
      return None;
    }
  }

  /** As written, a failed load loses a cell for good: with a one-cell grid
      one failure leaves both lists empty, and the next insert reads the
      front of an empty list. */
  method LostCellAsWritten() returns (c: FontTextureCache)
    ensures |c.used| + |c.unused| == 0 && c.cols * c.rows == 1
  {
    c := new FontTextureCache();
    var ok := c.Init(true, true, 512, 512);
    ok := c.InsertAsWritten(65, false);
  }

  /** The corrected insert keeps the cell: the same failure leaves one free cell. */
  method KeptCell() returns (c: FontTextureCache)
    ensures |c.used| + |c.unused| == 1 && c.cols * c.rows == 1
  {
    c := new FontTextureCache();
    var ok := c.Init(true, true, 512, 512);
    ok := c.Insert(65, false);
  }
}

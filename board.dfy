/** The checkerboard (`create_board` in src/main.rs): 64 unit planes, one per
    square (i, j) of the 8x8 grid, translated to (i, 0, j) and drawn with one of
    two materials.  The shared plane mesh is the same for every square and is
    not recorded. */
module Board {
  import opened Common

  /** The two square materials: `white_material` and `black_material`. */
  datatype SquareMaterial = LightSquare | DarkSquare

  /** One spawned square. */
  datatype Square = Square(material: SquareMaterial, translation: Vec3)

  /** The colouring rule: light exactly when (i + j + 1) is even. */
  function MaterialAt(i: int, j: int): (m: SquareMaterial)
    requires 0 <= i && 0 <= j
    ensures m == LightSquare <==> (i + j) % 2 == 1
  {
    if (i + j + 1) % 2 == 0 then LightSquare else DarkSquare
  }

  /** The square spawned for grid position (i, j). */
  function SquareAt(i: int, j: int): Square
    requires 0 <= i && 0 <= j
  {
    Square(MaterialAt(i, j), Vec3(i as real, 0.0, j as real))
  }

  /** The whole board in spawn order: row i, then column j within the row. */
  function Board(): seq<Square>
  {
    seq(64, k requires 0 <= k < 64 => SquareAt(k / 8, k % 8))
  }

  /** Index 8i + j of a row-major 8x8 grid decodes to row i and column j. */
  lemma GridIndex(i: int, j: int)
    requires 0 <= j < 8
    ensures (8 * i + j) / 8 == i && (8 * i + j) % 8 == j
  {
  }

  /** `create_board`: the two nested loops over i and j in [0, 8). */
  method CreateBoard() returns (squares: seq<Square>)
    ensures squares == Board()
    ensures |squares| == 64
    ensures forall i, j :: 0 <= i < 8 && 0 <= j < 8 ==> squares[8 * i + j] == SquareAt(i, j)
  {
    squares := [];
    for i := 0 to 8
      invariant |squares| == 8 * i
      invariant forall k :: 0 <= k < |squares| ==> squares[k] == SquareAt(k / 8, k % 8)
    {
      for j := 0 to 8
        invariant |squares| == 8 * i + j
        invariant forall k :: 0 <= k < |squares| ==> squares[k] == SquareAt(k / 8, k % 8)
      {
        GridIndex(i, j);
        squares := squares + [SquareAt(i, j)];
      }
    }
    forall i, j | 0 <= i < 8 && 0 <= j < 8
      ensures squares[8 * i + j] == SquareAt(i, j)
    {
      GridIndex(i, j);
    }
  }

  /** Every grid position (i, j) gets a square at index 8i + j, translated
      to (i, 0, j) ... */
  lemma BoardCoversGrid()
    ensures |Board()| == 64
    ensures forall i, j :: 0 <= i < 8 && 0 <= j < 8 ==>
      Board()[8 * i + j] == SquareAt(i, j) && SquareAt(i, j).translation == Vec3(i as real, 0.0, j as real)
  {
    forall i, j | 0 <= i < 8 && 0 <= j < 8
      ensures Board()[8 * i + j] == SquareAt(i, j)
    {
      GridIndex(i, j);
    }
  }

  /** ... and no two squares share a translation, so each position gets
      exactly one. */
  lemma BoardTranslationsDistinct()
    ensures forall k1, k2 :: 0 <= k1 < 64 && 0 <= k2 < 64 && k1 != k2 ==>
      Board()[k1].translation != Board()[k2].translation
  {
  }

  /** Squares that touch along an edge never share a material. */
  lemma NeighboursDiffer(i: int, j: int)
    requires 0 <= i < 8 && 0 <= j < 8
    ensures i + 1 < 8 ==> MaterialAt(i, j) != MaterialAt(i + 1, j)
    ensures j + 1 < 8 ==> MaterialAt(i, j) != MaterialAt(i, j + 1)
  {
  }

  /** Number of squares in `s` drawn with material `m`. */
  function CountMaterial(s: seq<Square>, m: SquareMaterial): (n: nat)
    ensures n <= |s|
  {
    if |s| == 0 then 0
    else CountMaterial(s[..|s| - 1], m) + (if s[|s| - 1].material == m then 1 else 0)
  }

  /** Squares 2m and 2m + 1 of the board lie in the same row, side by side,
      so they have different materials. */
  lemma PairDiffers(m: nat)
    requires 2 * m + 1 < 64
    ensures Board()[2 * m].material != Board()[2 * m + 1].material
  {
  }

  /** Half of any even-length prefix of the board is light and half dark. */
  lemma {:induction false} PrefixBalanced(n: nat)
    requires 2 * n <= 64
    ensures CountMaterial(Board()[..2 * n], LightSquare) == n
    ensures CountMaterial(Board()[..2 * n], DarkSquare) == n
  {
    if n > 0 {
      var b := Board();
      PrefixBalanced(n - 1);
      PairDiffers(n - 1);
      var k := 2 * n - 2;
      assert b[..2 * n][..2 * n - 1] == b[..2 * n - 1];
      assert b[..2 * n - 1][..k] == b[..k];
    }
  }

  /** The board has 32 light and 32 dark squares. */
  lemma BoardBalanced()
    ensures CountMaterial(Board(), LightSquare) == 32
    ensures CountMaterial(Board(), DarkSquare) == 32
  {
    PrefixBalanced(32);
    assert Board()[..64] == Board();
  }
}

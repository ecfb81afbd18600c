/** The pieces of the starting position (src/piece.rs): the fixed table of 32
    pieces and the selection of child meshes, offsets and scale that `spawn`
    makes per piece type.  The engine commands `spawn` issues are modelled as
    the value it would build: a parent translation and a list of children. */
module Pieces {
  import opened Common

  datatype PieceType = King | Pawn | Knight | Rook | Bishop | Queen

  datatype PieceColor = Black | White

  /** A piece on square (x, y): x is the rank (0 and 1 for White, 6 and 7 for
      Black), y the file.  The coordinates are whole numbers in the source. */
  datatype Piece = Piece(ptype: PieceType, color: PieceColor, x: int, y: int)

  /** The starting position, in the order of the source table. */
  const BasePieces: seq<Piece> := [
    Piece(Rook,   White, 0, 0),
    Piece(Knight, White, 0, 1),
    Piece(Bishop, White, 0, 2),
    Piece(Queen,  White, 0, 3),
    Piece(King,   White, 0, 4),
    Piece(Bishop, White, 0, 5),
    Piece(Knight, White, 0, 6),
    Piece(Rook,   White, 0, 7),
    Piece(Pawn,   White, 1, 0),
    Piece(Pawn,   White, 1, 1),
    Piece(Pawn,   White, 1, 2),
    Piece(Pawn,   White, 1, 3),
    Piece(Pawn,   White, 1, 4),
    Piece(Pawn,   White, 1, 5),
    Piece(Pawn,   White, 1, 6),
    Piece(Pawn,   White, 1, 7),
    Piece(Rook,   Black, 7, 0),
    Piece(Knight, Black, 7, 1),
    Piece(Bishop, Black, 7, 2),
    Piece(Queen,  Black, 7, 3),
    Piece(King,   Black, 7, 4),
    Piece(Bishop, Black, 7, 5),
    Piece(Knight, Black, 7, 6),
    Piece(Rook,   Black, 7, 7),
    Piece(Pawn,   Black, 6, 0),
    Piece(Pawn,   Black, 6, 1),
    Piece(Pawn,   Black, 6, 2),
    Piece(Pawn,   Black, 6, 3),
    Piece(Pawn,   Black, 6, 4),
    Piece(Pawn,   Black, 6, 5),
    Piece(Pawn,   Black, 6, 6),
    Piece(Pawn,   Black, 6, 7)
  ]

  /** The order of the pieces on a back rank, file by file. */
  const BackRank: seq<PieceType> := [Rook, Knight, Bishop, Queen, King, Bishop, Knight, Rook]

  /** The rank a colour's pawns (or its other pieces) start on. */
  function HomeRank(c: PieceColor, pawns: bool): int
  {
    match c
    case White => if pawns then 1 else 0
    case Black => if pawns then 6 else 7
  }

  /** Positions in `s` of the pieces of type `t` and colour `c`. */
  function EntriesOf(s: seq<Piece>, t: PieceType, c: PieceColor): set<int>
  {
    set k | 0 <= k < |s| && s[k].ptype == t && s[k].color == c
  }

  /** `s` is laid out block by block: White's back rank, White's pawns, Black's
      back rank, Black's pawns, each listed file 0 to 7. */
  ghost predicate Layout(s: seq<Piece>)
  {
    |s| == 32 &&
    forall k :: 0 <= k < |s| ==>
      var c := if k < 16 then White else Black;
      var pawns := (k / 8) % 2 == 1;
      s[k] == Piece(if pawns then Pawn else BackRank[k % 8], c, HomeRank(c, pawns), k % 8)
  }

  /** The source table has that layout. */
  lemma TableLayout()
    ensures Layout(BasePieces)
  {
    forall k | 0 <= k < |BasePieces|
      ensures var c := if k < 16 then White else Black;
        var pawns := (k / 8) % 2 == 1;
        BasePieces[k] == Piece(if pawns then Pawn else BackRank[k % 8], c, HomeRank(c, pawns), k % 8)
    {
      if k < 8 {
      } else if k < 16 {
      } else if k < 24 {
      } else {
      }
    }
  }

  /** Every piece stands on the 8x8 board, and no two share a square. */
  lemma SquaresOnBoardAndDistinct()
    ensures forall k :: 0 <= k < |BasePieces| ==>
      0 <= BasePieces[k].x <= 7 && 0 <= BasePieces[k].y <= 7
    ensures forall k1, k2 :: 0 <= k1 < |BasePieces| && 0 <= k2 < |BasePieces| && k1 != k2 ==>
      (BasePieces[k1].x, BasePieces[k1].y) != (BasePieces[k2].x, BasePieces[k2].y)
  {
    TableLayout();
    LaidOutSquaresDistinct(BasePieces);
  }

  lemma LaidOutSquaresDistinct(s: seq<Piece>)
    requires Layout(s)
    ensures forall k :: 0 <= k < |s| ==> 0 <= s[k].x <= 7 && 0 <= s[k].y <= 7
    ensures forall k1, k2 :: 0 <= k1 < |s| && 0 <= k2 < |s| && k1 != k2 ==>
      (s[k1].x, s[k1].y) != (s[k2].x, s[k2].y)
  {
    forall k1, k2 | 0 <= k1 < |s| && 0 <= k2 < |s| && k1 != k2
      ensures (s[k1].x, s[k1].y) != (s[k2].x, s[k2].y)
    {
      if k1 / 8 == k2 / 8 {
        assert s[k1].y != s[k2].y;
      } else {
        assert s[k1].x != s[k2].x;
      }
    }
  }

  /** White occupies ranks 0 and 1, Black ranks 6 and 7. */
  lemma SidesOccupyOwnRanks()
    ensures forall k :: 0 <= k < |BasePieces| && BasePieces[k].color == White ==>
      BasePieces[k].x == 0 || BasePieces[k].x == 1
    ensures forall k :: 0 <= k < |BasePieces| && BasePieces[k].color == Black ==>
      BasePieces[k].x == 6 || BasePieces[k].x == 7
  {
  }

  /** Each side has one king, one queen, two rooks, two knights, two bishops
      and eight pawns. */
  lemma PieceCounts(c: PieceColor)
    ensures |EntriesOf(BasePieces, King, c)| == 1
    ensures |EntriesOf(BasePieces, Queen, c)| == 1
    ensures |EntriesOf(BasePieces, Rook, c)| == 2
    ensures |EntriesOf(BasePieces, Knight, c)| == 2
    ensures |EntriesOf(BasePieces, Bishop, c)| == 2
    ensures |EntriesOf(BasePieces, Pawn, c)| == 8
  {
    TableLayout();
    LaidOutCounts(BasePieces, c);
  }

  lemma LaidOutCounts(s: seq<Piece>, c: PieceColor)
    requires Layout(s)
    ensures |EntriesOf(s, King, c)| == 1
    ensures |EntriesOf(s, Queen, c)| == 1
    ensures |EntriesOf(s, Rook, c)| == 2
    ensures |EntriesOf(s, Knight, c)| == 2
    ensures |EntriesOf(s, Bishop, c)| == 2
    ensures |EntriesOf(s, Pawn, c)| == 8
  {
    LaidOutOfficers(s, c);
    LaidOutMinorPieces(s, c);
    LaidOutPawns(s, c);
  }

  /** Where a colour's block of the table starts. */
  function SideStart(c: PieceColor): int
  {
    if c == White then 0 else 16
  }

  lemma LaidOutOfficers(s: seq<Piece>, c: PieceColor)
    requires Layout(s)
    ensures EntriesOf(s, King, c) == {SideStart(c) + 4}
    ensures EntriesOf(s, Queen, c) == {SideStart(c) + 3}
    ensures EntriesOf(s, Rook, c) == {SideStart(c), SideStart(c) + 7}
  {
    var o := SideStart(c);
    forall k | 0 <= k < |s| && s[k].ptype == King && s[k].color == c ensures k == o + 4 { }
    forall k | 0 <= k < |s| && s[k].ptype == Queen && s[k].color == c ensures k == o + 3 { }
    forall k | 0 <= k < |s| && s[k].ptype == Rook && s[k].color == c ensures k == o || k == o + 7 { }
  }

  lemma LaidOutMinorPieces(s: seq<Piece>, c: PieceColor)
    requires Layout(s)
    ensures EntriesOf(s, Knight, c) == {SideStart(c) + 1, SideStart(c) + 6}
    ensures EntriesOf(s, Bishop, c) == {SideStart(c) + 2, SideStart(c) + 5}
  {
    var o := SideStart(c);
    forall k | 0 <= k < |s| && s[k].ptype == Knight && s[k].color == c ensures k == o + 1 || k == o + 6 { }
    forall k | 0 <= k < |s| && s[k].ptype == Bishop && s[k].color == c ensures k == o + 2 || k == o + 5 { }
  }

  lemma LaidOutPawns(s: seq<Piece>, c: PieceColor)
    requires Layout(s)
    ensures |EntriesOf(s, Pawn, c)| == 8
  {
    var o := SideStart(c) + 8;
    var e := {o, o + 1, o + 2, o + 3, o + 4, o + 5, o + 6, o + 7};
    forall k | 0 <= k < |s| && s[k].ptype == Pawn && s[k].color == c
      ensures o <= k < o + 8
    {
      assert (k / 8) % 2 == 1 && (k < 16 <==> c == White);
    }
    forall k | o <= k < o + 8
      ensures k in EntriesOf(s, Pawn, c)
    {
      assert (k / 8) % 2 == 1 && (k < 16 <==> c == White);
    }
    forall k | k in EntriesOf(s, Pawn, c) ensures k in e {
      var f := k - o;
      assert 0 <= f < 8;
      assert f == 0 || f == 1 || f == 2 || f == 3 || f == 4 || f == 5 || f == 6 || f == 7;
    }
    assert EntriesOf(s, Pawn, c) == e;
    EightDistinct(o);
  }

  lemma EightDistinct(o: int)
    ensures |{o, o + 1, o + 2, o + 3, o + 4, o + 5, o + 6, o + 7}| == 8
  {
  }

  /** White's pawns fill rank 1 and Black's fill rank 6, one on every file. */
  lemma PawnRanksFull()
    ensures forall y :: 0 <= y <= 7 ==>
      Piece(Pawn, White, 1, y) in BasePieces && Piece(Pawn, Black, 6, y) in BasePieces
  {
  }

  /** Black's back rank mirrors White's: on every file the piece on rank 7 has
      the type of the piece on rank 0. */
  lemma BackRanksMirror()
    ensures forall k1, k2 ::
      0 <= k1 < |BasePieces| && 0 <= k2 < |BasePieces| &&
      BasePieces[k1].x == 0 && BasePieces[k2].x == 7 && BasePieces[k1].y == BasePieces[k2].y
      ==> BasePieces[k1].ptype == BasePieces[k2].ptype
  {
    TableLayout();
  }

  // ---------------------------------------------------------------------------
  // Piece::spawn

  /** A child entity: a mesh drawn with a material under a local transform. */
  datatype Child<M, T> = Child(mesh: M, material: T, translation: Vec3, scale: Vec3)

  /** The parent entity `spawn` creates, at the piece's square, with its children. */
  datatype Spawned<M, T> = Spawned(translation: Vec3, children: seq<Child<M, T>>)

  /** How many meshes a piece of type `t` is drawn with. */
  function ChildCount(t: PieceType): nat
  {
    match t
    case King => 2
    case Knight => 2
    case _ => 1
  }

  /** The offset of every child of a piece of type `t` from the parent. */
  function ChildOffset(t: PieceType): Vec3
  {
    match t
    case King => Vec3(-0.2, 0.0, -1.9)
    case Pawn => Vec3(-0.2, 0.0, 2.6)
    case Knight => Vec3(-0.2, 0.0, 0.9)
    case Rook => Vec3(-0.1, 0.0, 1.8)
    case Bishop => Vec3(-0.1, 0.0, 0.0)
    case Queen => Vec3(-0.2, 0.0, -0.95)
  }

  /** The uniform scale every child gets. */
  const ChildScale: Vec3 := Vec3(0.2, 0.2, 0.2)

  /** A child translated to `offset` whose identity scale is then multiplied
      by 0.2 along every axis (`apply_non_uniform_scale` changes only the scale). */
  function ScaledChild<M, T>(mesh: M, material: T, offset: Vec3): Child<M, T>
  {
    var identity := Vec3(1.0, 1.0, 1.0);
    Child(mesh, material, offset, Vec3(identity.x * 0.2, identity.y * 0.2, identity.z * 0.2))
  }

  /** `Piece::spawn`: the parent sits at (x, 0, y); kings and knights get two
      children drawn with meshes[0] and meshes[1], every other type one child
      drawn with meshes[0].  The source indexes `meshes` without a check, so the
      slice must hold as many meshes as the type needs. */
  function Spawn<M, T>(piece: Piece, meshes: seq<M>, material: T): (s: Spawned<M, T>)
    requires |meshes| >= ChildCount(piece.ptype)
    ensures s.translation == Vec3(piece.x as real, 0.0, piece.y as real)
    ensures |s.children| == ChildCount(piece.ptype)
    ensures forall i :: 0 <= i < |s.children| ==>
      s.children[i] == Child(meshes[i], material, ChildOffset(piece.ptype), ChildScale)
  {
    var parent := Vec3(piece.x as real, 0.0, piece.y as real);
    match piece.ptype
    case King =>
      Spawned(parent, [ScaledChild(meshes[0], material, Vec3(-0.2, 0.0, -1.9)),
                       ScaledChild(meshes[1], material, Vec3(-0.2, 0.0, -1.9))])
    case Pawn =>
      Spawned(parent, [ScaledChild(meshes[0], material, Vec3(-0.2, 0.0, 2.6))])
    case Knight =>
      Spawned(parent, [ScaledChild(meshes[0], material, Vec3(-0.2, 0.0, 0.9)),
                       ScaledChild(meshes[1], material, Vec3(-0.2, 0.0, 0.9))])
    case Rook =>
      Spawned(parent, [ScaledChild(meshes[0], material, Vec3(-0.1, 0.0, 1.8))])
    case Bishop =>
      Spawned(parent, [ScaledChild(meshes[0], material, Vec3(-0.1, 0.0, 0.0))])
    case Queen =>
      Spawned(parent, [ScaledChild(meshes[0], material, Vec3(-0.2, 0.0, -0.95))])
  }
}
